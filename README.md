# logbook-plugin core, modelled in Dafny

The Obsidian logbook plugin turns Markdown list items into tasks with a
workflow state (`- [ ] TODO`, `- [ ] DOING`, `- [x] DONE`, ...).  When a task
enters a state whose clock is `open`, a `:LOGBOOK:` drawer under the task
gets a `CLOCK: [start]` line.  When it enters a `closed` state, the open
clock line is ended and shows its `=> H:MM:SS` duration.  A clock line
shorter than a threshold is dropped instead.

This project models the plugin's core:

- `Utils` (`src/utils.ts`): the range-overlap test and the duration format.
- `Tasks` (`src/tasks/task.ts`): the workflow table, the task-line matcher
  and the statuses it reports, the whole-document scan, and
  `proceedWorkflow`.
- `Logbooks` (`src/logbook/logbook.ts`): clock entries and the `Logbook`
  class with its text form.
- `ParseAdapter` (`src/logbook/parse_adapter.ts`): the 1-based line tables,
  and `StringParseAdapter` with its lazily built cache.
- `LogbookParsing` (`src/logbook/logbook_parser.ts`): `parse`,
  `parseAll`, the clock-line matcher, `#parseDuration` and `#parseDate`.
- `RoundTrip`: a drawer written by `toString` is read back by `parse` as
  the same entries.
- `Transactions` (`src/editor/transactions.ts`):
  - the per-change body of `logbookTransactionFilter`;
  - `updateLogbook`;
  - the relocation pass of `taskNewlineFilter`.
- `Plugin` (`src/main.ts`): `cycleTasks` and `closeLogbooksInFile`.
- `Chars` and `Wrappers`: the JavaScript string built-ins the code relies on
  (`split`, `join`, `repeat`, `padStart`, `toString`, `parseInt`, `\s`), and
  `Option`/`Result`.

How the model represents the source:

- Instants and durations are whole seconds (`int`).
- Moment's formatting and parsing is a `Calendar` value passed in by the
  caller.
- The regular expressions are hand-written matchers that accept the same
  lines.
- A workflow record is a sequence of `(key, state)` entries in the order
  JavaScript enumerates its keys.
- State that the source updates in place is a Dafny class:
  - `Logbook` (its entry list);
  - `StringParseAdapter` (its cache);
  - `TaskParser` (its workflow table).
- The algorithms that loop are methods, each proved equal to a
  specification function:
  - `cycleTasks`, `closeLogbooksInFile` and `updateLogbook`;
  - both filters, `parse` and `parseAll`;
  - `getAllWorkflowStatuses` and `content`.

## Model

| member | source | states |
|---|---|---|
| Utils.IsRangeOverlap | src/utils.ts:16-43 | for well-formed ranges, they overlap exactly when `fromB <= toA` and `fromA <= toB`; an empty range at either end of A overlaps |
| Utils.RangeOverlapSymmetric | src/utils.ts:39-42 | for well-formed ranges the test gives the same answer with A and B swapped |
| Utils.RangeOverlapTouching | src/utils.ts:39-42 | ranges that share only an endpoint count as overlapping |
| Utils.TruncRem | src/utils.ts:11-12 | JavaScript `%`: the remainder lies in `[0, b)` for a non-negative dividend and in `(-b, 0]` for a negative one |
| Utils.FormatLogbookDuration | src/utils.ts:5-14 | an absent duration gives exactly the empty text; a present one gives at least `H:MM:SS` (8 characters) |
| Utils.FormatLogbookDurationFields | src/utils.ts:10-13 | for `d >= 0` the text is digits `:` two digits `:` two digits, which read back as `d / 3600`, `(d / 60) % 60` and `d % 60` |
| Utils.FormatLogbookDurationAddsUp | src/utils.ts:10-12 | the hours are not wrapped at a day: hours·3600 + minutes·60 + seconds equals `d`, minutes and seconds below 60 |
| Utils.HmsArithmetic | src/utils.ts:10-12 | the three floor/remainder fields of a non-negative duration add back up to it |
| Utils.TwoDigitField | src/utils.ts:11-12 | `toString().padStart(2, '0')` of a number below 60 is two digits that read back as the number |
| Chars.SkipWhitespaceFirst | src/logbook/logbook_parser.ts:33 | the leading `\s*` run consists only of whitespace and stops at the first other character |
| Chars.Split | src/logbook/logbook_parser.ts:163 | `split` of any text returns at least one piece |
| Chars.SplitJoin | src/logbook/logbook.ts:156-160 | `split` undoes `join` when no piece holds the separator |
| Chars.JoinSplit | src/logbook/logbook_parser.ts:163 | `join` undoes `split` |
| Chars.SplitPartsFree | src/logbook/logbook_parser.ts:163 | no piece `split` returns holds the separator |
| Chars.Repeat | src/logbook/logbook.ts:74 | `repeat(k)` has `k` times the unit's length |
| Chars.NatToString | src/utils.ts:10 | the decimal text of a number is non-empty digits, a single digit exactly below 10 |
| Chars.NatToStringValue | src/utils.ts:10 | reading the decimal text back gives the number |
| Chars.PadStart2 | src/utils.ts:10-12 | `padStart(2, '0')` leaves a text of two or more characters alone and pads a shorter one to two |
| Chars.ZeroPadValue | src/logbook/logbook_parser.ts:163-171 | zero padding does not change the value `parseInt` reads |
| Tasks.Keys | src/tasks/task.ts:92-94 | `getWorkflowStates` lists the table's keys in order |
| Tasks.GetWorkflowState | src/tasks/task.ts:88-90 | undefined exactly when the key is not in the table; otherwise the state stored under that key |
| Tasks.GetWorkflowStateAt | src/tasks/task.ts:88-90 | the state under a key is that of the first entry with that key |
| Tasks.FindWorkflowState | src/tasks/task.ts:104-109 | `find` returns the first state, in table order, that satisfies the predicate; undefined exactly when none does |
| Tasks.ProceedWorkflowCases | src/tasks/task.ts:211-239 | no state (or an empty one) proceeds to the first key; an unknown state gives null; a known state gives its `next` with that state's record, or null when `next` is empty or unknown |
| Tasks.ProceedStep | src/tasks/task.ts:225-238 | a state whose `next` is a key proceeds to exactly that entry |
| Tasks.DefaultKeysDistinct | src/tasks/task.ts:39-76 | the default table's keys are pairwise distinct |
| Tasks.DefaultKeys | src/tasks/task.ts:39-76 | the default keys in order: TODO, DOING, DONE, LATER, NOW |
| Tasks.DefaultCycle | src/tasks/task.ts:39-60 | the default table cycles TODO → DOING → DONE → TODO |
| Tasks.DefaultLaterNow | src/tasks/task.ts:62-75 | the default table goes LATER → NOW → DONE |
| Tasks.DefaultStep | src/tasks/task.ts:39-76 | every step of the default table, by entry |
| Tasks.DefaultFindChecked | src/tasks/task.spec.ts:28-32 | searching the default table for checkbox `x` finds DONE |
| Tasks.SkipBlanks | src/tasks/task.ts:99 | the `[ \t]*` group covers only blanks and stops at the first non-blank |
| Tasks.StateThenSpaceShape | src/tasks/task.ts:99 | an accepted state group is a table key followed by one whitespace character, or no key and one whitespace character |
| Tasks.StateThenSpaceFound | src/tasks/task.ts:99 | a key, or nothing, followed by whitespace is accepted |
| Tasks.MatchTask | src/tasks/task.ts:96-102 | a match covers at least the indentation and `- ` plus one character, within the line |
| Tasks.MatchTaskShape | src/tasks/task.ts:96-102 | a match is exactly: blanks, `- `, an optional `[c] `, an optional key, one whitespace character |
| Tasks.MatchTaskFound | src/tasks/task.ts:96-102 | every line built from those parts is matched |
| Tasks.StatusOfMatch | src/tasks/task.ts:143-205 | a status is the record built from the line's match |
| Tasks.StatusShape | src/tasks/task.ts:151-173 | a status starts at the line's offset; its list range is the `- ` after the indentation; the match ends on whitespace |
| Tasks.StatusCheckbox | src/tasks/task.ts:175-189 | the checkbox value and range are both present or both absent; when present they describe the `[c] ` on the line |
| Tasks.StatusState | src/tasks/task.ts:191-203 | a reported state is a non-empty key whose text sits at the state range and whose workflow is that key's state; otherwise the range is empty, just after `] ` or `- ` |
| Tasks.StatusStartsAtOffset | src/tasks/task.ts:153-155 | a status begins at the offset it was given |
| Tasks.StateRangeAfterList | src/tasks/task.ts:164-204 | the state range starts after `- `, or after `- [c] `; with a checkbox it is never at document offset 0 |
| Tasks.StatusExists | src/tasks/task.ts:143-147 | every line of the task shape has a status |
| Tasks.NotLogbookLine | src/tasks/task.ts:137 | a line led by `-` is not a drawer line |
| Tasks.DrawerLinesHaveNoStatus | src/tasks/task.ts:137-141 | `:LOGBOOK:`, `:END:` and `CLOCK:` lines have no status |
| Tasks.NoDashNoStatus | src/tasks/task.ts:143-147 | a line whose first non-blank character is not `-` has no status |
| Tasks.NoMatchNoStatus | src/tasks/task.ts:143-147 | a line the pattern rejects has no status |
| Tasks.BareStateAfterBox | src/tasks/task.ts:99 | after `- [ ] `, no default key of `- [ ] TODO` is followed by whitespace |
| Tasks.BareStateAfterList | src/tasks/task.ts:99 | after `- `, the state group fails on `- [ ] TODO` |
| Tasks.BareStateLineNoMatch | src/tasks/task.ts:99 | the pattern rejects `- [ ] TODO` with nothing after it |
| Tasks.BareStateLineHasNoStatus | src/tasks/task.spec.ts:66-72 | `getWorkflowStatus("- [ ] TODO", 0)` is null (see the notes below) |
| Tasks.MatchAllMiss | src/tasks/task.ts:118-120 | `matchAll` skips a position that is not a line start where the pattern matches |
| Tasks.MatchAllHit | src/tasks/task.ts:118-120 | at a matching line start, `matchAll` reports the match and resumes after it |
| Tasks.MatchAllSound | src/tasks/task.ts:118-122 | every reported match sits at a line start and holds exactly the text the pattern covers there |
| Tasks.MatchAllElement | src/tasks/task.ts:118-122 | each element of a scan is such a match |
| Tasks.MatchAllAfter | src/tasks/task.ts:118-122 | no match starts before the scan position or before `lastIndex` |
| Tasks.MatchAllDisjoint | src/tasks/task.ts:118-122 | each match ends before the next one starts |
| Tasks.MatchAllSkip | src/tasks/task.ts:118-122 | positions without a hit contribute nothing |
| Tasks.MatchAllIncreasing | src/tasks/task.ts:118-122 | matches come at strictly increasing positions |
| Tasks.MatchStatusAtMatch | src/tasks/task.ts:123 | the status of a match starts at the match's position in the document |
| Tasks.AllStatusesIncreasing | src/tasks/task.ts:111-130 | `getAllWorkflowStatuses` reports statuses at strictly increasing offsets |
| Tasks.AllStatusesAtTaskLines | src/tasks/task.ts:111-130 | every reported status sits at a line start where the task pattern matches |
| Tasks.MatchTaskPrefix | src/tasks/task.ts:120-123 | matching again on the matched text gives the same match |
| Tasks.MatchedTextStatus | src/tasks/task.ts:120-126 | the text of every match has a status |
| Tasks.FenceSkipped | src/tasks/task.ts:111-130 | a fence line is skipped only because the pattern does not match there |
| Tasks.FenceFirstMatch | src/tasks/task.ts:111-130 | after a fence line, the first match is the task line that follows it |
| Tasks.FirstStatusAt | src/tasks/task.ts:122-127 | when the first match has a status, that status is reported first |
| Tasks.FenceNotSuppressed | src/tasks/task.ts:111-130 | a task line right after a ```` ``` ```` line is still reported (see the notes below) |
| Tasks.TaskParser.constructor | src/tasks/task.ts:78-80 | a new parser holds the default table |
| Tasks.TaskParser.SetTaskWorkflow | src/tasks/task.ts:82-86 | the table is replaced by the given one |
| Tasks.TaskParser.GetWorkflowStatus | src/tasks/task.ts:132-209 | returns the status the specification function gives (shape, checkbox and state described by the lemmas above) |
| Tasks.TaskParser.GetAllWorkflowStatuses | src/tasks/task.ts:111-130 | returns the statuses of every match of the multi-line scan, in order |
| Tasks.TaskParser.CollectStatuses | src/tasks/task.ts:122-127 | the loop keeps, in order, the status of each match that has one |
| Logbooks.Complete | src/logbook/logbook.ts:144-150 | completing keeps start, end and offsets; fills in `end - start` only when the entry is closed and has no duration yet |
| Logbooks.CompleteIdempotent | src/logbook/logbook.ts:144-150 | completing twice is completing once |
| Logbooks.CompleteClosed | src/logbook/logbook.ts:144-150 | a closed entry has a duration once completed |
| Logbooks.SetEndKeepsDuration | src/logbook/logbook.ts:42-44 | setting the end does not touch a cached duration |
| Logbooks.CompleteAll | src/logbook/logbook.ts:156-158 | every entry is completed, in the same order |
| Logbooks.TotalAppend | src/logbook/logbook.ts:127-134 | the total of two runs of entries is the sum of their totals |
| Logbooks.TotalOpen | src/logbook/logbook.ts:127-134 | an open entry adds nothing |
| Logbooks.TotalClosed | src/logbook/logbook.ts:127-134 | a closed entry without a cached duration adds `end - start` |
| Logbooks.TotalCompleteAll | src/logbook/logbook.ts:127-134 | completing every entry first leaves the total unchanged |
| Logbooks.FirstOpenFrom | src/logbook/logbook.ts:140-142 | the first entry without an end, or none when every entry has one |
| Logbooks.DrawerLines | src/logbook/logbook.ts:152-161 | a drawer's text has one line per entry plus the two markers |
| Logbooks.DurationNoNewline | src/utils.ts:5-14 | a formatted duration is a single line |
| Logbooks.ClockLineNoNewline | src/logbook/logbook.ts:66-77 | a clock line is a single line |
| Logbooks.RenderLines | src/logbook/logbook.ts:152-161 | splitting the drawer's text at `\n` gives back exactly its lines |
| Logbooks.Logbook.constructor | src/logbook/logbook.ts:106-116 | the new logbook holds the given offsets and entries |
| Logbooks.Logbook.AddLine | src/logbook/logbook.ts:118-121 | the entry goes last; the others and the offsets stay |
| Logbooks.Logbook.GetOpenClock | src/logbook/logbook.ts:140-142 | the position of the first open entry; none exactly when every entry is closed |
| Logbooks.Logbook.HasOpenClock | src/logbook/logbook.ts:136-138 | true exactly when some entry has no end |
| Logbooks.Logbook.SetEndTime | src/logbook/logbook.ts:42-44 | only the end of entry `i` changes |
| Logbooks.Logbook.RemoveLine | src/editor/transactions.ts:352 | entry `i` goes and the others keep their order |
| Logbooks.Logbook.EnsureLineComplete | src/logbook/logbook.ts:144-150 | entry `i` is completed in place and returned; nothing else changes |
| Logbooks.Logbook.GetTotalDuration | src/logbook/logbook.ts:127-134 | returns the sum of the durations, open entries adding nothing; every entry is left completed |
| Logbooks.Logbook.ToString | src/logbook/logbook.ts:152-161 | every entry is left completed; the text is the drawer of those entries, indented one unit more than asked |
| ParseAdapter.NewParseLine | src/logbook/parse_adapter.ts:12-28 | the length defaults to the text's length; the other fields are as given |
| ParseAdapter.NextBreakFirst | src/logbook/parse_adapter.ts:73-79 | a line runs up to the first separator, and no separator lies before it |
| ParseAdapter.LineAt | src/logbook/parse_adapter.ts:79-92 | the line starting at `from` ends within the text, under the given number |
| ParseAdapter.LineAtOk | src/logbook/parse_adapter.ts:79-92 | that line's text is the slice it spans, holds no separator, and is ended by a separator unless it reaches the end |
| ParseAdapter.LinesFrom | src/logbook/parse_adapter.ts:73-95 | there is always at least one line |
| ParseAdapter.LinesFromTable | src/logbook/parse_adapter.ts:73-95 | the lines found from an offset on form a line table |
| ParseAdapter.SplitLinesTable | src/logbook/parse_adapter.ts:73-95 | `StringParseAdapter`'s lines are numbered from 1, each is the slice between terminators, and they cover the text |
| ParseAdapter.EditorLinesTable | src/logbook/parse_adapter.ts:37-58 | the same holds for an editor document split at `\n` |
| ParseAdapter.ChainedAt | src/logbook/parse_adapter.ts:79-92 | each line starts just after the separator that ends the line before |
| ParseAdapter.ChainedLast | src/logbook/parse_adapter.ts:79-92 | the last line ends at the end of the text |
| ParseAdapter.LinesFromCount | src/logbook/parse_adapter.ts:73-95 | there is one line more than there are separators |
| ParseAdapter.SplitLinesCount | src/logbook/parse_adapter.ts:107-116 | `lines` is the number of line terminators plus one; an empty text has one line |
| ParseAdapter.EditorLinesSplit | src/logbook/parse_adapter.ts:37-58 | the editor's line texts are `split("\n")` of the document |
| ParseAdapter.EditorLinesJoin | src/logbook/parse_adapter.ts:37-58 | joining the line texts with `\n` gives the document back |
| ParseAdapter.LineOf | src/logbook/parse_adapter.ts:118-124 | `line(n)` succeeds exactly for `1 <= n <= lines` and then returns line `n`; otherwise it is the `RangeError` |
| ParseAdapter.MatchLines | src/logbook/parse_adapter.ts:73-95 | the loop over the `^.*$` matches builds exactly the line table and counts it |
| ParseAdapter.MatchStep | src/logbook/parse_adapter.ts:79-93 | one match moves from the lines still to find to the lines found |
| ParseAdapter.StringParseAdapter.constructor | src/logbook/parse_adapter.ts:65-67 | a new adapter holds its text and an empty cache |
| ParseAdapter.StringParseAdapter.Content | src/logbook/parse_adapter.ts:69-105 | returns the text's line table, building the cache once and reusing it afterwards |
| ParseAdapter.StringParseAdapter.Lines | src/logbook/parse_adapter.ts:107-116 | the size of the line table |
| ParseAdapter.StringParseAdapter.Line | src/logbook/parse_adapter.ts:118-124 | line `n` of the table, or the error it throws |
| ParseAdapter.LineTwice | src/logbook/parse_adapter.ts:69-124 | once the cache is built, `line(n)` gives the same answer every time |
| LogbookParsing.MatchArrow | src/logbook/logbook_parser.ts:124 | a captured duration has the `\d+:\d{2}(:\d{2})?` shape |
| LogbookParsing.MatchEnd | src/logbook/logbook_parser.ts:124 | a duration is captured only after an end, and the end is a non-empty capture without `]` |
| LogbookParsing.MatchBracket | src/logbook/logbook_parser.ts:124 | the start is a non-empty capture without `]`; the end and duration are as above |
| LogbookParsing.MatchClock | src/logbook/logbook_parser.ts:124 | the captures of the whole clock pattern have those shapes |
| LogbookParsing.DurationSplit | src/logbook/logbook_parser.ts:163-167 | `split(":")` of a captured duration gives two or three digit runs, all but the first of two digits |
| LogbookParsing.ParseDuration | src/logbook/logbook_parser.ts:158-178 | undefined exactly for an absent text; otherwise a non-negative number of seconds |
| LogbookParsing.ParseClock | src/logbook/logbook_parser.ts:122-145 | an entry exactly when the clock pattern matches; it spans the line; a duration only with an end, never negative |
| LogbookParsing.Kind | src/logbook/logbook_parser.ts:61-80 | inside a drawer, `:END:` is tested first; any other line is a clock line exactly when it parses as one |
| LogbookParsing.DrawerBody | src/logbook/logbook_parser.ts:61-82 | reading a drawer body within the document never throws; a drawer it finds keeps its start and extends the entries read so far |
| LogbookParsing.ParseSpec | src/logbook/logbook_parser.ts:29-85 | `parse` within the document never throws; a drawer it finds starts at line `start`, which is a `:LOGBOOK:` line other than line 1 |
| LogbookParsing.BodyComplete | src/logbook/logbook_parser.ts:61-80 | clock lines and then an `:END:` line close the drawer with exactly those entries |
| LogbookParsing.BodySound | src/logbook/logbook_parser.ts:61-80 | a drawer body that closes did so at an `:END:` line after clock lines only |
| LogbookParsing.ParseFindsDrawer | src/logbook/logbook_parser.ts:29-85 | `parse` finds a drawer exactly when a well-formed one opens at the start line |
| LogbookParsing.EndKind | src/logbook/logbook_parser.ts:63-66 | an `:END:` line is the end marker, whatever the clock matcher would say |
| LogbookParsing.ClockKind | src/logbook/logbook_parser.ts:71-79 | any other line is a clock line or invalid, as the clock matcher says |
| LogbookParsing.SpecStart | src/logbook/logbook_parser.ts:49-57 | at a `:LOGBOOK:` line after line 1, `parse` goes on to the body |
| LogbookParsing.BodyStep | src/logbook/logbook_parser.ts:61-80 | one body line ends the drawer, adds an entry, or aborts the parse |
| LogbookParsing.Parse | src/logbook/logbook_parser.ts:29-85 | the loop returns the logbook the specification describes, or throws the same error |
| LogbookParsing.ParseAllFrom | src/logbook/logbook_parser.ts:96-117 | the drawers found so far stay in front |
| LogbookParsing.Found | src/logbook/logbook_parser.ts:106-116 | one line contributes at most one drawer |
| LogbookParsing.FoundDrawer | src/logbook/logbook_parser.ts:100-116 | a line contributes a drawer exactly when it lies outside every code block (an even number of fences before it) and a well-formed drawer opens there |
| LogbookParsing.ParseAllCollect | src/logbook/logbook_parser.ts:96-117 | the code-block flag is the parity of the fences passed |
| LogbookParsing.AllStep | src/logbook/logbook_parser.ts:96-117 | a fence toggles the flag; a `:LOGBOOK:` line outside code adds the drawer `parse` finds; every other line adds nothing |
| LogbookParsing.ParseAllFinds | src/logbook/logbook_parser.ts:87-120 | `parseAll` returns, in line order, the drawers of every line up to `min(end, lines)` |
| LogbookParsing.ParseAll | src/logbook/logbook_parser.ts:87-120 | the loop returns those logbooks, or throws the same error |
| RoundTrip.ParseDateThree | src/logbook/logbook_parser.ts:147-156 | `date weekday time` reads as `date + "T" + time`; the weekday is ignored |
| RoundTrip.ParseDateTwo | src/logbook/logbook_parser.ts:147-156 | `date time` reads as `date + "T" + time` |
| RoundTrip.ParseDateOne | src/logbook/logbook_parser.ts:147-156 | a date alone reads as midnight |
| RoundTrip.ParseDateStamp | src/logbook/logbook_parser.ts:147-156 | a stamp the calendar writes reads back as the same instant |
| RoundTrip.ParseDurationHm | src/logbook/logbook_parser.ts:158-178 | `H:MM` reads as hours and minutes, no seconds |
| RoundTrip.ParseDurationOfParts | src/logbook/logbook_parser.ts:163-177 | three digit runs read as hours·3600 + minutes·60 + seconds |
| RoundTrip.ParseDurationHms | src/logbook/logbook_parser.ts:158-178 | `H:MM:SS` has the captured shape and reads as its fields added up |
| RoundTrip.ParseHmsTotal | src/logbook/logbook_parser.ts:158-178 | a text whose fields add up to `d` reads back as `d` |
| RoundTrip.ParseDurationFormat | src/logbook/logbook_parser.ts:158-178 | a non-negative duration written by `formatLogbookDuration` reads back as itself |
| RoundTrip.MatchArrowOf | src/logbook/logbook_parser.ts:124 | ` => ` followed by a duration, or by nothing, is accepted with that capture |
| RoundTrip.MatchEndOf | src/logbook/logbook_parser.ts:124 | `--[end] => duration` is accepted with those captures |
| RoundTrip.MatchBracketOf | src/logbook/logbook_parser.ts:124 | ` [start]` is accepted with that capture |
| RoundTrip.MatchClockOf | src/logbook/logbook_parser.ts:124 | leading whitespace and `CLOCK:` pass to the bracket |
| RoundTrip.SecondHalfFields | src/logbook/logbook.ts:67-72 | a written `--[end] => duration` is captured as the end stamp and the formatted duration |
| RoundTrip.ClockLineFields | src/logbook/logbook.ts:66-77 | the clock pattern captures on a written clock line are its start stamp, its end stamp and its duration text |
| RoundTrip.ParseClockOf | src/logbook/logbook_parser.ts:127-141 | `#parseClock` builds the entry from the captures |
| RoundTrip.ParseClockLine | src/logbook/logbook_parser.ts:122-145 | a written clock line parses back to the same entry, placed at its line |
| RoundTrip.ClockLineNotEnd | src/logbook/logbook_parser.ts:63 | a clock line is never taken for `:END:` |
| RoundTrip.ClockLineKind | src/logbook/logbook_parser.ts:61-80 | a written clock line is read as its entry |
| RoundTrip.Placed | src/logbook/logbook_parser.ts:134-140 | the entries get the offsets of the lines they are read from |
| RoundTrip.WrittenMarkers | src/logbook/logbook.ts:156-160 | the first and last written lines are the drawer markers |
| RoundTrip.WrittenClock | src/logbook/logbook.ts:158 | the `i`-th written clock line is read as the `i`-th entry |
| RoundTrip.WrittenBody | src/logbook/logbook_parser.ts:61-80 | the written body is read as the clock entries, then the end marker |
| RoundTrip.ParseWritten | src/logbook/logbook_parser.ts:29-85 | `parse` at a written drawer finds exactly its entries |
| RoundTrip.RenderedLines | src/logbook/logbook.ts:152-161 | a drawer written between two lines of a document occupies its own lines there |
| RoundTrip.DrawerRoundTrip | src/logbook/logbook.ts:152-161 | a drawer `toString` writes into a document is read back by `parse` with the same entries and offsets |
| RoundTrip.CompleteWritable | src/logbook/logbook.ts:144-150 | a completed entry that ends no earlier than it starts can be written and read back whole |
| Transactions.LineIndexAtHolds | src/editor/transactions.ts:185 | walking the line table finds the line that holds the position |
| Transactions.LineAtPosHolds | src/editor/transactions.ts:185 | `lineAt(pos)` gives the line that holds `pos`, under its own number |
| Transactions.ClockedOpen | src/editor/transactions.ts:329-345 | under `open`, entries are only appended, at most one, and an open entry results; a logbook with at most one open entry keeps that property |
| Transactions.ClockedClosedNone | src/editor/transactions.ts:346-356 | under `closed`, a logbook without an open entry is unchanged |
| Transactions.FirstOpenAt | src/editor/transactions.ts:329 | the first open entry is the one all entries before it are closed |
| Transactions.ClockedClosedFirst | src/editor/transactions.ts:346-356 | under `closed`, the first open entry ends at `now`; it is removed when its duration is below a positive threshold; no other entry changes; with at most one open entry, none is left open |
| Transactions.NewDrawerAt | src/editor/transactions.ts:315-327 | a new drawer goes at a position within the document |
| Transactions.UpdateEffects | src/editor/transactions.ts:329-345 | `createLogbook` for the line below is emitted exactly when an `open` state creates a new drawer |
| Transactions.UpdateChanges | src/editor/transactions.ts:358-394 | at most one change; none exactly when there is no drawer and the state is `closed`; an emptied drawer is deleted with the newline before it; otherwise the drawer is rewritten, or a new one holding one open entry is inserted |
| Transactions.UpdateLogbook | src/editor/transactions.ts:282-395 | returns the changes and effects described above for the drawer `parse` finds below the line |
| Transactions.FindLogbook | src/editor/transactions.ts:300-327 | a new logbook exactly when `parse` finds no drawer below the line; otherwise the logbook holds that drawer |
| Transactions.ApplyClock | src/editor/transactions.ts:329-356 | the logbook's entries become the clocked entries; its offsets stay |
| Transactions.IndentChar | src/editor/transactions.ts:382 | the unit is a tab or four spaces |
| Transactions.SyncOnLine | src/editor/transactions.ts:196-249 | every change the sync queues lies on the changed line |
| Transactions.SyncStaysOnLine | src/editor/transactions.ts:196-249 | the same for any status with the shape of a status of that line |
| Transactions.SyncCheckbox | src/editor/transactions.ts:200-214 | an edit of the checkbox alone picks the first state showing that checkbox and renames the state to it; it queues nothing when no state has that checkbox |
| Transactions.SyncState | src/editor/transactions.ts:216-249 | an edit of the state name settles on that state and writes its checkbox into `[ ]`, or replaces `- ` by `- [c] ` |
| Transactions.ChangeSpecQuiet | src/editor/transactions.ts:179-194 | a deletion, or a change on a line without a status, adds nothing |
| Transactions.Synchronise | src/editor/transactions.ts:196-249 | the two checks, as specified above |
| Transactions.ChangeBody | src/editor/transactions.ts:178-263 | the per-change body, as specified |
| Transactions.OnTaskLine | src/editor/transactions.ts:196-262 | the body once the line has a status: the sync's changes, then those of `updateLogbook` when a state was settled |
| Transactions.LogbookTransactionFilter | src/editor/transactions.ts:164-276 | the transaction comes first; a follow-up with every collected change and effect follows exactly when something was collected |
| Transactions.MovedKeepsText | src/editor/transactions.ts:79-103 | a moved newline insertion keeps its text: the first inserted line stays where it was typed and the rest goes below the drawer |
| Transactions.MovedKeepsReplacedText | src/editor/transactions.ts:83-103 | a newline typed over a selection is moved below the drawer and the selected text is not deleted (see the notes below) |
| Transactions.RelocateCases | src/editor/transactions.ts:56-127 | a change is moved only when it inserts a newline at the end of a task line whose drawer follows; the move goes to the drawer's end; any other change is kept as it was |
| Transactions.Relocate | src/editor/transactions.ts:56-128 | one pass, as specified |
| Transactions.MoveBelow | src/editor/transactions.ts:79-117 | the move and the cursor placement, as specified |
| Transactions.RelocateAllKept | src/editor/transactions.ts:55-129 | when nothing moves, every change is kept, in order, and the selection is unchanged |
| Transactions.RelocateSpecMoved | src/editor/transactions.ts:56-127 | one change is moved exactly when it inserts a newline, ends at the end of a task line, and a drawer opens on the next line |
| Transactions.RelocateAllMoved | src/editor/transactions.ts:42-155 | a transaction's changes are relocated exactly when one of them is such a change, whatever its user-event annotation |
| Transactions.TaskNewlineFilter | src/editor/transactions.ts:40-155 | the transaction is kept when the setting is off; otherwise, user event or not, it is replaced exactly when some change moved, by the relocated changes and selection |
| Plugin.CycleChangeRewrites | src/main.ts:183-197 | the change replaces exactly the state name by the next state's name; without a name it inserts the next name and a space just after `] ` or `- ` |
| Plugin.CycleSpec | src/main.ts:170-201 | at most one change per line of the range |
| Plugin.SplitLinesIncreasing | src/logbook/parse_adapter.ts:73-95 | lines are in document order and end within the text |
| Plugin.EditorLinesIncreasing | src/logbook/parse_adapter.ts:37-58 | the editor's lines are in document order |
| Plugin.CycleLineOnLine | src/main.ts:179-197 | a line's change lies on that line |
| Plugin.CycleTasksOrdered | src/main.ts:165-202 | the changes for a range are in ascending, non-overlapping order and lie within the range |
| Plugin.CycleTasks | src/main.ts:165-202 | the loop collects exactly the change of each line of the range, in line order |
| Plugin.CycleOne | src/main.ts:171-198 | the loop body gives the change specified for one line |
| Plugin.Clamp | src/main.ts:134-137 | `substring` clamps its bounds into the text |
| Plugin.ApplySplice | src/main.ts:134-137 | within bounds, the text before and after the range is kept and the new text stands in between |
| Plugin.ClosedEntries | src/main.ts:126-130 | the first open entry ends at `now` and gets its duration; the others are only completed; with one open entry, none is left open |
| Plugin.DrawerClose | src/main.ts:123-139 | at most one splice per drawer |
| Plugin.CloseLine | src/main.ts:117-147 | one line's splices applied to the text as it is at that point of the loop |
| Plugin.CloseDrawer | src/main.ts:123-139 | the drawer below the line, rewritten with its open entry closed |
| Plugin.CloseLogbooksInFile | src/main.ts:112-151 | the loop, from the last line up, applies the splices of every line |
| Plugin.ApplyPrefix | src/main.ts:134-137 | splices within a prefix leave the rest of the text alone |
| Plugin.ApplyAllSimultaneous | src/main.ts:116-147 | splices that each lie before the earlier ones, applied one by one, give the same text as applying them all at the original offsets |
| Plugin.NotDashLedNoStatus | src/tasks/task.ts:143-147 | a line not led by `-` is no task line |
| Plugin.DrawerLineNotDashLed | src/main.ts:120-125 | the lines of a drawer are never task lines |
| Plugin.DrawerSpan | src/main.ts:123-139 | the drawer below line `n` covers lines `n + 1` to some `m`, none of which has a status |
| Plugin.PendingSkip | src/main.ts:120-122 | lines without a status add no splices |
| Plugin.PlainNoSplices | src/main.ts:120-122 | a line without a status has no splices |
| Plugin.StateRangeOnLine | src/main.ts:141-145 | the `TODO` splice lies on the task line |
| Plugin.DrawerCloseBounds | src/main.ts:123-139 | the drawer splice lies after the task line and before the next line that can have splices |
| Plugin.LineCloseOrdered | src/main.ts:120-147 | a line's splices lie between that line's start and the next line that can have splices, the drawer's before the state's |
| Plugin.PendingOrdered | src/main.ts:116-147 | the splices of the lines below line `k` each lie wholly before the ones made earlier |
| Plugin.CloseIsSimultaneous | src/main.ts:112-151 | the offsets computed on the original text stay valid: the result is every line's splice applied at once to the original |

## Left out

- Obsidian and CodeMirror plumbing is not modelled: the plugin class, settings UI, commands, view plugins, `addLogbookFile`, `activeEditor`, annotations and the effects passed through a transaction.
- `ChangeSet.of` and `sequential: true` are not modelled. A follow-up transaction is the list of changes and effects it would carry.
- Time: `moment()` is a `now` parameter read once per call. Moment's formatting and parsing is a `Calendar` value, and durations are whole seconds rather than Moment durations.
- `console.warn` on an invalid clock line is not modelled; only its `return undefined` is.
- `Logbook.eq` is not modelled. It compares arrays by reference and no core path uses it.
- `LogbookLine` objects are values held in the `Logbook`'s entry list. Aliasing an entry is replaced by its index (`GetOpenClock` returns a position).
- The editor's `Text` is a string whose only line break is `\n`. `TextParseAdapter` is that string's line table (`EditorLines`).
- LogbookParsing.MatchClock and LogbookParsing.ParseClock anchor the clock pattern only at the two ends of the line. The source's pattern carries the `m` flag, so its `^` also matches just after a U+2028 or U+2029, and its `$` just before one. An editor line keeps these characters, because CodeMirror breaks lines only at `\r\n?` and `\n`. On such a line the source can still read a clock entry, for example from `CLOCK: [a]` followed by U+2028. The model calls that line invalid, so `parse` drops the drawer.
- The editor selection is its main range only.
- `cycleTasks` takes the document text and the line range rather than an editor.
- `closeLogbooksInFile` reads and writes a string; the vault I/O around it is left out.
- Logbooks.Logbook.SetEndTime: takes the entry's index rather than the `LogbookLine` object; the same holds for Logbooks.Logbook.RemoveLine and Logbooks.Logbook.EnsureLineComplete.
- Logbooks.Logbook.ToString: requires `indentation >= -1`, because `"\t".repeat` of a negative count throws a `RangeError`, which is not modelled.
- LogbookParsing.ParseDuration: defined only on the texts the clock pattern captures, the only texts it is ever given.
- Transactions.UpdateLogbook: requires `lineNumber >= 1` and `indentation >= -1`. The filter always passes a line's own number and either an offset or `-1`.
- Plugin.CycleTasks: requires the range to lie within the document, where `doc.line` would otherwise throw.
- RoundTrip.DrawerRoundTrip: holds for entries whose duration is absent or non-negative and attached to a closed entry. `formatLogbookDuration` of a negative duration is not read back as the same value.
- RoundTrip.DrawerRoundTrip and RoundTrip.ParseDateStamp assume a `Calendar` whose `read` inverts its `format` for every instant. Moment's local calendar does not: in the hour repeated at a daylight-saving change, two instants print the same text, and one of them reads back as the other.
- Calendar: `read` is total, so a bracket text that is not a date reads as some instant. Moment instead returns an invalid moment, which `#parseClock` still accepts; its durations then become `NaN`, and it renders as "Invalid date". Invalid moments are not modelled.
- Offsets count Unicode scalar values, because a Dafny `char` is one. JavaScript strings and CodeMirror positions count UTF-16 code units, so every offset after a character outside the Basic Multilingual Plane (an emoji, say) differs from the source's. This affects Tasks.StatusOf, ParseAdapter.SplitLines, ParseAdapter.EditorLines, and the Transactions and Plugin members that compute offsets.
- Tasks.MatchTask: the checkbox `.` accepts any character but a line terminator, including one outside the Basic Multilingual Plane. In the source, without the `u` flag, `.` matches only the high surrogate, so `- [😀] TODO x` has no status there.
- Tasks.StateThenSpace, Tasks.MatchTask and Tasks.TaskParser.SetTaskWorkflow compare keys literally, and a `Workflow` may repeat a key. The source splices the keys unescaped into a regular expression, so a key holding `.`, `?`, `|`, `(`, `+` or `*` matches other text or makes `new RegExp` throw. A JavaScript record also cannot hold a key twice. Only the default table, whose keys are distinct plain words (Tasks.DefaultKeysDistinct), is ever installed in the source.

## Notes on the source

Except for the first point, which is an assumption, each point is modelled as the code behaves, and the named member states it.

- `src/editor/transactions.ts:350-383` calls `logbook.removeLine`, a public `ensureLineComplete` and `toString(indentation, indentChar)`. The `Logbook` class in `src/logbook/logbook.ts` has none of these: `#ensureLineComplete` is private and `toString` takes one argument and always indents with tabs.
  - As written, that code would fail: `logbook.ensureLineComplete` is undefined, and `toString` ignores the indentation unit. The model assumes instead that these members exist with the meaning their call sites need: `Logbooks.Logbook.RemoveLine`, `Logbooks.Logbook.EnsureLineComplete`, and `Logbooks.Logbook.ToString` with an indentation unit.
- The task pattern needs a whitespace character after the state, so a lone `- [ ] TODO` line has no status, although `src/tasks/task.spec.ts:66-72` expects one (`Tasks.BareStateLineHasNoStatus`).
  - In the whole-document scan the line's own newline supplies that whitespace (`Tasks.MatchedTextStatus`).
- `getAllWorkflowStatuses` does not track code fences: a task line inside a fenced block is reported like any other (`Tasks.FenceNotSuppressed`).
  - `parseAll` does skip fenced blocks (`LogbookParsing.FoundDrawer`).
- In `logbookTransactionFilter` both the checkbox check and the state check can fire for one change. The second one then overrides the state the first one found (`Transactions.SyncState`).
- The first check tests `currentStateRange?.from` for truthiness, which would skip a state name at document offset 0. `Transactions.CheckboxSync` models this test literally, but it never fails for a matched line: with a checkbox the name starts at least six characters after its line's start (`Tasks.StateRangeAfterList`), so the rename is always queued (`Transactions.SyncCheckbox`).
- `taskNewlineFilter` returns early when `!transaction.isUserEvent`. That expression negates a reference to the `isUserEvent` method, which is always truthy, so the test never fires. With the setting on, every transaction is relocated, user event or not (`Transactions.TaskNewlineFilter`, `Transactions.RelocateAllMoved`).
- `updateLogbook` treats a drawer that `parse` rejects (a malformed clock line, or no `:END:`) as absent: an `open` state inserts a second drawer above it (`Transactions.FindLogbook`, `Transactions.UpdateChanges`).
- The doc comment of `parse` (`src/logbook/logbook_parser.ts:19-24`) describes a search upwards from `start`. The code only tests whether a drawer opens exactly at `start` (`LogbookParsing.ParseSpec`).
- When a newline typed over a non-empty selection at the end of a task line is moved below the drawer, the selected text is not deleted (`Transactions.MovedKeepsReplacedText`).
