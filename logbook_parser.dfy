/**
 * The drawer parser (`src/logbook/logbook_parser.ts`).  `parse` answers
 * whether a well-formed drawer starts exactly at a given line: a
 * `:LOGBOOK:` line, then clock lines, then an `:END:` line.  `parseAll`
 * runs it on every `:LOGBOOK:` line outside code fences.
 *
 * The regular expressions are replaced by matchers anchored at the two
 * ends of the line: each step below takes one piece of the pattern, on what
 * is left of the line.  The clock pattern's `m` flag, which also lets `^`
 * and `$` match next to a U+2028 or U+2029 inside the line, is not
 * followed.
 */
module LogbookParsing {
  import opened Wrappers
  import opened Chars
  import opened Utils
  import opened ParseAdapter
  import opened Logbooks

  /** `^\s*?WORD$` under the `i` flag: optional whitespace, then `word` in any case, then the end. */
  predicate IsMarker(text: string, word: string) {
    var i := SkipWhitespace(text, 0);
    EqualsIgnoreCase(text[i..], word)
  }

  /** The first line of a drawer. */
  predicate IsDrawerStart(text: string) {
    IsMarker(text, ":LOGBOOK:")
  }

  /** The last line of a drawer. */
  predicate IsDrawerEnd(text: string) {
    IsMarker(text, ":END:")
  }

  /** `\d+:\d{2}(?::\d{2})?` matching all of `s`. */
  predicate DurationShape(s: string) {
    var p := IndexOf(s, ':', 0);
    && 1 <= p < |s| && AllDigits(s[..p])
    && (var rest := s[p + 1..];
        || (|rest| == 2 && AllDigits(rest))
        || (|rest| == 5 && AllDigits(rest[..2]) && rest[2] == ':' && AllDigits(rest[3..])))
  }

  /** What the clock pattern captures: the start text, and the end and duration texts when present. */
  datatype ClockFields = ClockFields(start: string, end: Option<string>, duration: Option<string>)

  /** `(?:\s*=>\s*(DURATION)?)?$` on what follows `--[end]`: the duration text, if there is one. */
  function MatchArrow(u: string): (r: Option<Option<string>>)
    ensures r.Some? && r.value.Some? ==> DurationShape(r.value.value)
  {
    if u == [] then Some(None)
    else
      var k := SkipWhitespace(u, 0);
      if k + 2 <= |u| && u[k..k + 2] == "=>" then
        var m := SkipWhitespace(u, k + 2);
        if m == |u| then Some(None)
        else if DurationShape(u[m..]) then Some(Some(u[m..]))
        else None
      else None
  }

  /** `(?:--\[([^\]]+)\](ARROW)?)?$` on what follows `[start]`: the end and duration texts. */
  function MatchEnd(t: string): (r: Option<(Option<string>, Option<string>)>)
    ensures r.Some? && r.value.1.Some? ==> r.value.0.Some? && DurationShape(r.value.1.value)
    ensures r.Some? && r.value.0.Some? ==> Token'(r.value.0.value)
  {
    if t == [] then Some((None, None))
    else if |t| >= 3 && t[..3] == "--[" then
      var c := IndexOf(t, ']', 3);
      IndexOfFirst(t, ']', 3);
      if c == |t| || c == 3 then None
      else match MatchArrow(t[c + 1..])
        case None => None
        case Some(d) => Some((Some(t[3..c]), d))
    else None
  }

  /** A bracketed capture: non-empty and without `]`. */
  predicate Token'(s: string) {
    |s| > 0 && ']' !in s
  }

  /** `\s*\[([^\]]+)\]` and the rest on what follows `CLOCK:`. */
  function MatchBracket(s: string): (r: Option<ClockFields>)
    ensures r.Some? ==> Token'(r.value.start)
    ensures r.Some? && r.value.end.Some? ==> Token'(r.value.end.value)
    ensures r.Some? && r.value.duration.Some? ==> r.value.end.Some? && DurationShape(r.value.duration.value)
  {
    var j := SkipWhitespace(s, 0);
    if j < |s| && s[j] == '[' then
      var c := IndexOf(s, ']', j + 1);
      IndexOfFirst(s, ']', j + 1);
      if c == |s| || c == j + 1 then None
      else match MatchEnd(s[c + 1..])
        case None => None
        case Some((end, duration)) => Some(ClockFields(s[j + 1..c], end, duration))
    else None
  }

  /**
   * The clock-line pattern on a whole line: optional whitespace, `CLOCK:` in
   * any case, `[start]`, then optionally `--[end]`, then optionally `=>` and
   * an `H:MM` or `H:MM:SS` duration.
   */
  function MatchClock(text: string): (r: Option<ClockFields>)
    ensures r.Some? ==> Token'(r.value.start)
    ensures r.Some? && r.value.end.Some? ==> Token'(r.value.end.value)
    ensures r.Some? && r.value.duration.Some? ==> r.value.end.Some? && DurationShape(r.value.duration.value)
  {
    var i := SkipWhitespace(text, 0);
    if i + 6 <= |text| && EqualsIgnoreCase(text[i..i + 6], "CLOCK:") then MatchBracket(text[i + 6..]) else None
  }

  /** Two or three digit runs, all but the first of two digits. */
  predicate DurationParts(parts: seq<string>) {
    && 2 <= |parts| <= 3
    && (forall k :: 0 <= k < |parts| ==> AllDigits(parts[k]))
    && |parts[0]| >= 1 && |parts[1]| == 2 && (|parts| == 3 ==> |parts[2]| == 2)
  }

  /** A run of digits is not split by `:`. */
  lemma DigitsSplit(t: string)
    requires AllDigits(t)
    ensures Split(t, ':') == [t]
  {
    SplitAt(t, ':', |t|);
  }

  /** The minutes and seconds of an `H:MM:SS` text. */
  lemma MinutesSecondsSplit(rest: string)
    requires |rest| == 5 && AllDigits(rest[..2]) && rest[2] == ':' && AllDigits(rest[3..])
    ensures Split(rest, ':') == [rest[..2], rest[3..]]
  {
    assert rest[0] == rest[..2][0] && rest[1] == rest[..2][1];
    SplitAt(rest, ':', 2);
    DigitsSplit(rest[3..]);
  }

  /** The pieces `split(":")` makes of a duration text. */
  lemma DurationSplit(s: string)
    requires DurationShape(s)
    ensures DurationParts(Split(s, ':'))
  {
    var p := IndexOf(s, ':', 0);
    var rest := s[p + 1..];
    IndexOfFirst(s, ':', 0);
    SplitAt(s, ':', p);
    if |rest| == 2 {
      DigitsSplit(rest);
      assert Split(s, ':') == [s[..p], rest];
    } else {
      MinutesSecondsSplit(rest);
      assert Split(s, ':') == [s[..p], rest[..2], rest[3..]];
    }
  }

  /**
   * `#parseDuration`: hours, minutes and optional seconds read with
   * `parseInt` and added up; fewer than two pieces give nothing.  The
   * clock pattern only ever hands it an `H:MM` or `H:MM:SS` text.
   */
  function ParseDuration(duration: Option<string>): (r: Option<int>)
    requires duration.Some? ==> DurationShape(duration.value)
    ensures r.None? <==> duration.None?
    ensures r.Some? ==> r.value >= 0
  {
    match duration
    case None => None
    case Some(s) =>
      DurationSplit(s);
      var parts := Split(s, ':');
      if |parts| < 2 then None
      else
        Some(DigitsValue(parts[0]) * 3600 + DigitsValue(parts[1]) * 60
          + (if |parts| > 2 then DigitsValue(parts[2]) else 0))
  }

  /**
   * `#parseDate`: the first space-separated piece is the date, the third
   * (else the second, else `00:00:00`) the time; the calendar reads
   * `date + "T" + time`.
   */
  function ParseDate(cal: Calendar, datetime: string): int {
    var parts := Split(datetime, ' ');
    var date := parts[0];
    var time := if |parts| > 2 then parts[2] else if |parts| > 1 then parts[1] else "00:00:00";
    cal.read(date + "T" + time)
  }

  /**
   * `#parseClock`: the entry a clock line describes, carrying the line's
   * start offset and the offset just past its text; nothing when the line
   * is not a clock line.
   */
  function ParseClock(cal: Calendar, line: ParseLine): (r: Option<ClockEntry>)
    ensures r.Some? <==> MatchClock(line.text).Some?
    ensures r.Some? ==> r.value.from == Some(line.from) && r.value.to == Some(line.from + |line.text|)
    ensures r.Some? ==> (r.value.duration.Some? ==> r.value.end.Some? && r.value.duration.value >= 0)
  {
    match MatchClock(line.text)
    case None => None
    case Some(f) =>
      var end := if f.end.Some? then Some(ParseDate(cal, f.end.value)) else None;
      Some(ClockEntry(ParseDate(cal, f.start), end, ParseDuration(f.duration), Some(line.from), Some(line.from + |line.text|)))
  }

  /** A drawer `parse` found: where its `:LOGBOOK:` line starts, where its `:END:` line ends, and its entries. */
  datatype Drawer = Drawer(from: int, to: int, entries: seq<ClockEntry>)

  /** The value a `Logbook` holds. */
  function DrawerOf(book: Logbook): Drawer
    reads book
  {
    Drawer(book.from, book.to, book.lines)
  }

  /** What a line is to `parse` inside a drawer: the `:END:` line, a clock line with its entry, or neither. */
  datatype LineKind = EndMarker | Clock(entry: ClockEntry) | Invalid

  /** `parse` in `drawer` mode tests a line for `:END:` first, and only then reads it as a clock line. */
  function Kind(cal: Calendar, line: ParseLine): (k: LineKind)
    ensures k.EndMarker? <==> IsDrawerEnd(line.text)
    ensures k.Clock? <==> !IsDrawerEnd(line.text) && ParseClock(cal, line).Some?
    ensures k.Clock? ==> ParseClock(cal, line) == Some(k.entry)
  {
    if IsDrawerEnd(line.text) then EndMarker
    else match ParseClock(cal, line)
      case Some(e) => Clock(e)
      case None => Invalid
  }

  /** The kind of every line of `doc`, line `n` at index `n - 1`. */
  function Kinds(cal: Calendar, doc: seq<ParseLine>): (kinds: seq<LineKind>)
    ensures |kinds| == |doc|
  {
    if |doc| == 0 then [] else Kinds(cal, doc[..|doc| - 1]) + [Kind(cal, doc[|doc| - 1])]
  }

  lemma {:induction false} KindsAt(cal: Calendar, doc: seq<ParseLine>, i: int)
    requires 0 <= i < |doc|
    ensures Kinds(cal, doc)[i] == Kind(cal, doc[i])
  {
    if i < |doc| - 1 {
      KindsAt(cal, doc[..|doc| - 1], i);
    }
  }

  /**
   * `drawer` mode of `parse` from line `n` to line `last`, with `entries`
   * read so far into a logbook starting at `from`; `kinds` are the kinds of
   * the lines of `doc`.  An `:END:` line finishes the logbook, a clock line
   * adds its entry, any other line gives nothing, and so does running past
   * `last`.
   */
  function DrawerBody(kinds: seq<LineKind>, doc: seq<ParseLine>, n: int, last: int, from: int, entries: seq<ClockEntry>)
    : (r: Result<Option<Drawer>, RangeError>)
    requires |kinds| == |doc|
    ensures 1 <= n && last <= |doc| ==> r.Success?
    ensures r.Success? && r.value.Some? ==> r.value.value.from == from && entries <= r.value.value.entries
    decreases last - n
  {
    if n > last then Success(None)
    else match LineOf(doc, n)
      case Failure(e) => Failure(e)
      case Success(line) =>
        match kinds[n - 1]
        case EndMarker => Success(Some(Drawer(from, line.to, entries)))
        case Clock(e) => DrawerBody(kinds, doc, n + 1, last, from, entries + [e])
        case Invalid => Success(None)
  }

  /**
   * `parse(doc, start, end)`: line `start` must be a `:LOGBOOK:` line other
   * than the first line, and the drawer must close by line `end` (by default
   * the last line).  Reading a line outside the document throws.
   */
  function ParseSpec(kinds: seq<LineKind>, doc: seq<ParseLine>, start: int, end: Option<int>): (r: Result<Option<Drawer>, RangeError>)
    requires |kinds| == |doc|
    ensures 1 <= start && end.GetOr(|doc|) <= |doc| ==> r.Success?
    ensures r.Success? && r.value.Some? ==>
      && 1 < start <= |doc| && IsDrawerStart(doc[start - 1].text) && r.value.value.from == doc[start - 1].from
  {
    var last := end.GetOr(|doc|);
    if start > last then Success(None)
    else match LineOf(doc, start)
      case Failure(e) => Failure(e)
      case Success(line) =>
        if IsDrawerStart(line.text) && start > 1 then DrawerBody(kinds, doc, start + 1, last, line.from, [])
        else Success(None)
  }

  /**
   * Lines `n` to `m - 1` are clock lines whose entries are `clocks` in
   * order, and line `m` is an `:END:` line.
   */
  predicate ClocksUntilEnd(kinds: seq<LineKind>, n: int, m: int, clocks: seq<ClockEntry>)
    decreases m - n
  {
    && 1 <= n <= m <= |kinds| && |clocks| == m - n
    && if n == m then kinds[m - 1] == EndMarker
       else kinds[n - 1] == Clock(clocks[0]) && ClocksUntilEnd(kinds, n + 1, m, clocks[1..])
  }

  /** The drawer body from line `n` closes at line `m` after the clock lines `clocks`, giving `d`. */
  predicate ClosesAt(kinds: seq<LineKind>, doc: seq<ParseLine>, n: int, last: int, from: int, entries: seq<ClockEntry>, d: Drawer,
                     m: int, clocks: seq<ClockEntry>) {
    && |kinds| == |doc| && m <= last && ClocksUntilEnd(kinds, n, m, clocks)
    && d == Drawer(from, doc[m - 1].to, entries + clocks)
  }

  /** The drawer body from line `n` closes at some `:END:` line after clock lines only, giving `d`. */
  ghost predicate Closes(kinds: seq<LineKind>, doc: seq<ParseLine>, n: int, last: int, from: int, entries: seq<ClockEntry>, d: Drawer) {
    exists m, clocks :: ClosesAt(kinds, doc, n, last, from, entries, d, m, clocks)
  }

  // Sequence identities, stated once so that the proofs below can cite
  // them instead of leaving the solver to rediscover them.

  lemma AppendFirst<T>(a: seq<T>, b: seq<T>)
    requires |b| > 0
    ensures a + [b[0]] + b[1..] == a + b
  {
  }

  lemma AppendNone<T>(a: seq<T>, b: seq<T>)
    requires |b| == 0
    ensures a + b == a
  {
  }

  lemma AppendCons<T>(a: seq<T>, x: T, b: seq<T>)
    ensures a + [x] + b == a + ([x] + b)
  {
  }

  /** Clock lines then an `:END:` line by `last`: the drawer body closes there with those entries. */
  lemma {:induction false} BodyComplete(
    kinds: seq<LineKind>, doc: seq<ParseLine>, n: int, last: int, from: int, entries: seq<ClockEntry>, m: int, clocks: seq<ClockEntry>)
    requires |kinds| == |doc| && ClocksUntilEnd(kinds, n, m, clocks) && m <= last
    ensures DrawerBody(kinds, doc, n, last, from, entries) == Success(Some(Drawer(from, doc[m - 1].to, entries + clocks)))
    decreases m - n
  {
    if n < m {
      BodyComplete(kinds, doc, n + 1, last, from, entries + [clocks[0]], m, clocks[1..]);
      AppendFirst(entries, clocks);
    } else {
      AppendNone(entries, clocks);
    }
  }

  /** Clock lines `n` to `m - 1` carrying `clocks`, then an `:END:` line at `m`. */
  lemma {:induction false} ClocksUntilEndAll(kinds: seq<LineKind>, n: int, m: int, clocks: seq<ClockEntry>)
    requires 1 <= n <= m <= |kinds| && |clocks| == m - n
    requires forall i :: 0 <= i < |clocks| ==> kinds[n - 1 + i] == Clock(clocks[i])
    requires kinds[m - 1] == EndMarker
    ensures ClocksUntilEnd(kinds, n, m, clocks)
    decreases m - n
  {
    if n < m {
      assert kinds[n - 1] == Clock(clocks[0]);
      assert forall i :: 0 <= i < |clocks| - 1 ==> kinds[n + i] == Clock(clocks[1..][i]) by {
        forall i | 0 <= i < |clocks| - 1 ensures kinds[n + i] == Clock(clocks[1..][i]) {
          assert kinds[n - 1 + (i + 1)] == Clock(clocks[i + 1]);
        }
      }
      ClocksUntilEndAll(kinds, n + 1, m, clocks[1..]);
    }
  }

  /** A drawer body that closes does so at an `:END:` line after clock lines only. */
  lemma {:induction false} BodySound(kinds: seq<LineKind>, doc: seq<ParseLine>, n: int, last: int, from: int, entries: seq<ClockEntry>)
    requires |kinds| == |doc| && 1 <= n
    ensures var r := DrawerBody(kinds, doc, n, last, from, entries);
      r.Success? && r.value.Some? ==> Closes(kinds, doc, n, last, from, entries, r.value.value)
    decreases last - n
  {
    var r := DrawerBody(kinds, doc, n, last, from, entries);
    if n <= last && n <= |doc| && r.Success? && r.value.Some? {
      var d := r.value.value;
      match kinds[n - 1]
      case EndMarker =>
        AppendNone(entries, []);
        assert ClosesAt(kinds, doc, n, last, from, entries, d, n, []);
      case Clock(e) =>
        BodySound(kinds, doc, n + 1, last, from, entries + [e]);
        var m, clocks :| ClosesAt(kinds, doc, n + 1, last, from, entries + [e], d, m, clocks);
        assert ([e] + clocks)[1..] == clocks;
        AppendCons(entries, e, clocks);
        assert ClosesAt(kinds, doc, n, last, from, entries, d, m, [e] + clocks);
    }
  }

  /**
   * A well-formed drawer starts at line `start`: a `:LOGBOOK:` line other
   * than the first, then clock lines (none of them an `:END:` line), then an
   * `:END:` line at or before `last`; `d` spans from the start of its first
   * line to the end of its last and holds the clock lines' entries in line
   * order.
   */
  ghost predicate DrawerAt(cal: Calendar, doc: seq<ParseLine>, start: int, last: int, d: Drawer) {
    && 1 < start <= |doc| && IsDrawerStart(doc[start - 1].text)
    && Closes(Kinds(cal, doc), doc, start + 1, last, doc[start - 1].from, [], d)
  }

  /** `parse` within the document finds exactly the well-formed drawers. */
  lemma ParseFindsDrawer(cal: Calendar, doc: seq<ParseLine>, start: int, last: int, d: Drawer)
    requires 1 <= start && last <= |doc|
    ensures ParseSpec(Kinds(cal, doc), doc, start, Some(last)) == Success(Some(d)) <==> DrawerAt(cal, doc, start, last, d)
  {
    var kinds := Kinds(cal, doc);
    if ParseSpec(Kinds(cal, doc), doc, start, Some(last)) == Success(Some(d)) {
      BodySound(kinds, doc, start + 1, last, doc[start - 1].from, []);
    }
    if DrawerAt(cal, doc, start, last, d) {
      var m, clocks :| ClosesAt(kinds, doc, start + 1, last, doc[start - 1].from, [], d, m, clocks);
      BodyComplete(kinds, doc, start + 1, last, doc[start - 1].from, [], m, clocks);
    }
  }

  /** An `:END:` line is the end marker, whatever the clock matcher makes of it. */
  lemma EndKind(cal: Calendar, doc: seq<ParseLine>, n: int)
    requires 1 <= n <= |doc| && IsDrawerEnd(doc[n - 1].text)
    ensures Kinds(cal, doc)[n - 1] == EndMarker
  {
    KindsAt(cal, doc, n - 1);
  }

  /** Any other line is what the clock matcher makes of it. */
  lemma ClockKind(cal: Calendar, doc: seq<ParseLine>, n: int, clock: Option<ClockEntry>)
    requires 1 <= n <= |doc| && !IsDrawerEnd(doc[n - 1].text) && clock == ParseClock(cal, doc[n - 1])
    ensures clock.Some? ==> Kinds(cal, doc)[n - 1] == Clock(clock.value)
    ensures clock.None? ==> Kinds(cal, doc)[n - 1] == Invalid
  {
    KindsAt(cal, doc, n - 1);
  }

  /** `parse` at a `:LOGBOOK:` line other than the first goes on to the drawer body after it. */
  lemma SpecStart(kinds: seq<LineKind>, doc: seq<ParseLine>, start: int, end: Option<int>)
    requires |kinds| == |doc| && 1 < start <= end.GetOr(|doc|) && start <= |doc| && IsDrawerStart(doc[start - 1].text)
    ensures ParseSpec(kinds, doc, start, end) == DrawerBody(kinds, doc, start + 1, end.GetOr(|doc|), doc[start - 1].from, [])
  {
  }

  /** One line of the drawer body. */
  lemma BodyStep(kinds: seq<LineKind>, doc: seq<ParseLine>, n: int, last: int, from: int, entries: seq<ClockEntry>)
    requires |kinds| == |doc| && 1 <= n <= last && n <= |doc|
    ensures kinds[n - 1] == EndMarker ==> DrawerBody(kinds, doc, n, last, from, entries) == Success(Some(Drawer(from, doc[n - 1].to, entries)))
    ensures kinds[n - 1].Clock? ==>
      DrawerBody(kinds, doc, n, last, from, entries) == DrawerBody(kinds, doc, n + 1, last, from, entries + [kinds[n - 1].entry])
    ensures kinds[n - 1] == Invalid ==> DrawerBody(kinds, doc, n, last, from, entries) == Success(None)
  {
  }

  /** The two modes of `parse`: looking at line `start` for a drawer, or reading inside one. */
  datatype ParseMode = Scan | InDrawer

  /** The value a `parse` result stands for: the drawer of the logbook it returns, if any. */
  function Outcome(r: Result<Option<Logbook>, RangeError>): Result<Option<Drawer>, RangeError>
    reads if r.Success? && r.value.Some? then {r.value.value} else {}
  {
    match r
    case Failure(e) => Failure(e)
    case Success(None) => Success(None)
    case Success(Some(book)) => Success(Some(DrawerOf(book)))
  }

  /**
   * `LogbookParser.parse`: reads line `start` and, when it opens a drawer,
   * the lines after it up to `end` into a new logbook, which it returns once
   * it meets `:END:`.
   */
  method Parse(cal: Calendar, doc: seq<ParseLine>, start: int, end: Option<int>) returns (r: Result<Option<Logbook>, RangeError>)
    ensures Outcome(r) == ParseSpec(Kinds(cal, doc), doc, start, end)
    ensures r.Success? && r.value.Some? ==> fresh(r.value.value)
  {
    var last := end.GetOr(|doc|);
    var mode := Scan;
    var pending := new Logbook(0, 0, []);
    ghost var kinds := Kinds(cal, doc);
    var n := start;
    while n <= last
      invariant mode == Scan ==> n == start && pending.lines == []
      invariant mode == InDrawer ==> start < n && start <= last
      invariant mode == InDrawer ==> ParseSpec(kinds, doc, start, end) == DrawerBody(kinds, doc, n, last, pending.from, pending.lines)
      invariant fresh(pending)
      decreases last - n
    {
      var line := LineOf(doc, n);
      if line.Failure? {
        return Failure(line.error);
      }
      var text := line.value.text;
      if mode == Scan {
        if IsDrawerStart(text) && n > 1 {
          SpecStart(kinds, doc, start, end);
          pending.from := line.value.from;
          mode := InDrawer;
        } else {
          return Success(None);
        }
      } else {
        BodyStep(kinds, doc, n, last, pending.from, pending.lines);
        if IsDrawerEnd(text) {
          EndKind(cal, doc, n);
          pending.to := line.value.to;
          return Success(Some(pending));
        } else {
          var clock := ParseClock(cal, line.value);
          ClockKind(cal, doc, n, clock);
          if clock.None? {
            return Success(None);
          }
          pending.AddLine(clock.value);
        }
      }
      n := n + 1;
    }
    return Success(None);
  }

  /** A line that opens or closes a fenced code block: it starts with three backticks. */
  predicate IsFence(text: string) {
    |text| >= 3 && text[..3] == "```"
  }

  /**
   * `parseAll` from line `n` to line `last`, inside a code block when
   * `inCode`, having found `found`: a fence line toggles the code block,
   * lines inside one are skipped, and a `:LOGBOOK:` line outside one is
   * handed to `parse` with the default end.
   */
  function ParseAllFrom(kinds: seq<LineKind>, doc: seq<ParseLine>, n: int, last: int, inCode: bool, found: seq<Drawer>)
    : (r: Result<seq<Drawer>, RangeError>)
    requires |kinds| == |doc|
    ensures r.Success? ==> found <= r.value
    decreases last - n
  {
    if n > last then Success(found)
    else match LineOf(doc, n)
      case Failure(e) => Failure(e)
      case Success(line) =>
        if IsFence(line.text) then ParseAllFrom(kinds, doc, n + 1, last, !inCode, found)
        else if inCode || !IsDrawerStart(line.text) then ParseAllFrom(kinds, doc, n + 1, last, inCode, found)
        else match ParseSpec(kinds, doc, n, None)
          case Failure(e) => Failure(e)
          case Success(None) => ParseAllFrom(kinds, doc, n + 1, last, inCode, found)
          case Success(Some(d)) => ParseAllFrom(kinds, doc, n + 1, last, inCode, found + [d])
  }

  /** `parseAll(doc, start, end)`: the scan stops at `end` or at the last line, whichever comes first. */
  function ParseAllSpec(cal: Calendar, doc: seq<ParseLine>, start: int, end: Option<int>): Result<seq<Drawer>, RangeError> {
    var last := if end.GetOr(|doc|) < |doc| then end.GetOr(|doc|) else |doc|;
    ParseAllFrom(Kinds(cal, doc), doc, start, last, false, [])
  }

  /** How many fence lines there are among lines `start` to `n - 1`. */
  function Fences(doc: seq<ParseLine>, start: int, n: int): (c: nat)
    requires 1 <= start && n <= |doc| + 1
    ensures c <= if n < start then 0 else n - start
    decreases n - start
  {
    if n <= start then 0
    else Fences(doc, start, n - 1) + (if IsFence(doc[n - 2].text) then 1 else 0)
  }

  /**
   * What line `n` contributes to a `parseAll` that started at line `start`:
   * the drawer opening there, when the line is not a fence and an even number
   * of fences lies before it, so that it is outside every code block.
   */
  function Found(kinds: seq<LineKind>, doc: seq<ParseLine>, start: int, n: int): (r: seq<Drawer>)
    requires |kinds| == |doc| && 1 <= start <= n <= |doc|
    ensures |r| <= 1
  {
    if !IsFence(doc[n - 1].text) && Fences(doc, start, n) % 2 == 0 && IsDrawerStart(doc[n - 1].text) then
      match ParseSpec(kinds, doc, n, None)
      case Success(Some(d)) => [d]
      case _ => []
    else []
  }

  /** The drawers lines `n` to `last` contribute, in line order. */
  function Collect(kinds: seq<LineKind>, doc: seq<ParseLine>, start: int, n: int, last: int): seq<Drawer>
    requires |kinds| == |doc| && 1 <= start <= n && last <= |doc|
    decreases last - n
  {
    if n > last then [] else Found(kinds, doc, start, n) + Collect(kinds, doc, start, n + 1, last)
  }

  /** Line `n` contributes `[d]` exactly when it lies outside every code block and a well-formed drawer opens there. */
  lemma FoundDrawer(cal: Calendar, doc: seq<ParseLine>, start: int, n: int, d: Drawer)
    requires 1 <= start <= n <= |doc|
    ensures Found(Kinds(cal, doc), doc, start, n) == [d] <==>
      !IsFence(doc[n - 1].text) && Fences(doc, start, n) % 2 == 0 && DrawerAt(cal, doc, n, |doc|, d)
  {
    ParseFindsDrawer(cal, doc, n, |doc|, d);
  }

  /** The code-block flag `parseAll` carries is the parity of the fences it has passed. */
  lemma {:induction false} ParseAllCollect(
    kinds: seq<LineKind>, doc: seq<ParseLine>, start: int, n: int, last: int, inCode: bool, found: seq<Drawer>)
    requires |kinds| == |doc| && 1 <= start <= n <= last + 1 && last <= |doc|
    requires inCode <==> Fences(doc, start, n) % 2 == 1
    ensures ParseAllFrom(kinds, doc, n, last, inCode, found) == Success(found + Collect(kinds, doc, start, n, last))
    decreases last - n
  {
    if n <= last {
      var c := Found(kinds, doc, start, n);
      var fence := IsFence(doc[n - 1].text);
      AllStep(kinds, doc, n, last, inCode, found, ParseSpec(kinds, doc, n, None));
      assert Fences(doc, start, n + 1) == Fences(doc, start, n) + if fence then 1 else 0;
      ParseAllCollect(kinds, doc, start, n + 1, last, if fence then !inCode else inCode, found + c);
      AppendAssoc(found, c, Collect(kinds, doc, start, n + 1, last));
      if c == [] {
        AppendNone(found, c);
      }
    } else {
      AppendNone(found, Collect(kinds, doc, start, n, last));
    }
  }

  /** One line of `parseAll`, given what `parse` makes of that line. */
  lemma AllStep(kinds: seq<LineKind>, doc: seq<ParseLine>, n: int, last: int, inCode: bool, found: seq<Drawer>,
                p: Result<Option<Drawer>, RangeError>)
    requires |kinds| == |doc| && 1 <= n <= last && n <= |doc| && p == ParseSpec(kinds, doc, n, None)
    ensures p.Success?
    ensures IsFence(doc[n - 1].text) ==> ParseAllFrom(kinds, doc, n, last, inCode, found) == ParseAllFrom(kinds, doc, n + 1, last, !inCode, found)
    ensures !IsFence(doc[n - 1].text) && (inCode || !IsDrawerStart(doc[n - 1].text) || p.value.None?) ==>
      ParseAllFrom(kinds, doc, n, last, inCode, found) == ParseAllFrom(kinds, doc, n + 1, last, inCode, found)
    ensures !IsFence(doc[n - 1].text) && !inCode && IsDrawerStart(doc[n - 1].text) && p.value.Some? ==>
      ParseAllFrom(kinds, doc, n, last, inCode, found) == ParseAllFrom(kinds, doc, n + 1, last, inCode, found + [p.value.value])
  {
  }

  /** Concatenation regrouped, cited by the `parseAll` proofs below. */
  lemma AppendAssoc<T>(a: seq<T>, b: seq<T>, c: seq<T>)
    ensures a + b + c == a + (b + c)
  {
  }

  /** `parseAll` from a line inside the document returns the drawers of `Collect`, in line order. */
  lemma ParseAllFinds(cal: Calendar, doc: seq<ParseLine>, start: int, end: Option<int>)
    requires 1 <= start
    ensures var last := if end.GetOr(|doc|) < |doc| then end.GetOr(|doc|) else |doc|;
      ParseAllSpec(cal, doc, start, end) == Success(Collect(Kinds(cal, doc), doc, start, start, last))
  {
    var last := if end.GetOr(|doc|) < |doc| then end.GetOr(|doc|) else |doc|;
    if start <= last + 1 {
      ParseAllCollect(Kinds(cal, doc), doc, start, start, last, false, []);
      assert [] + Collect(Kinds(cal, doc), doc, start, start, last) == Collect(Kinds(cal, doc), doc, start, start, last);
    }
  }

  /** The drawers of a list of logbooks, in order. */
  function DrawersOf(books: seq<Logbook>): (r: seq<Drawer>)
    reads books
    ensures |r| == |books|
  {
    if |books| == 0 then [] else DrawersOf(books[..|books| - 1]) + [DrawerOf(books[|books| - 1])]
  }

  /**
   * `LogbookParser.parseAll`: every logbook `parse` finds at a `:LOGBOOK:`
   * line between `start` and `end` outside fenced code blocks, in line order.
   */
  method ParseAll(cal: Calendar, doc: seq<ParseLine>, start: int, end: Option<int>) returns (r: Result<seq<Logbook>, RangeError>)
    ensures r.Success? ==> Success(DrawersOf(r.value)) == ParseAllSpec(cal, doc, start, end)
    ensures r.Failure? ==> ParseAllSpec(cal, doc, start, end) == Failure(r.error)
    ensures r.Success? ==> forall book :: book in r.value ==> fresh(book)
  {
    var last := if end.GetOr(|doc|) < |doc| then end.GetOr(|doc|) else |doc|;
    var result: seq<Logbook> := [];
    var inCode := false;
    var n := start;
    while n <= last
      invariant ParseAllSpec(cal, doc, start, end) == ParseAllFrom(Kinds(cal, doc), doc, n, last, inCode, DrawersOf(result))
      invariant forall book :: book in result ==> fresh(book)
      decreases last - n
    {
      var line := LineOf(doc, n);
      if line.Failure? {
        return Failure(line.error);
      }
      var text := line.value.text;
      if IsFence(text) {
        AllStep(Kinds(cal, doc), doc, n, last, inCode, DrawersOf(result), ParseSpec(Kinds(cal, doc), doc, n, None));
        inCode := !inCode;
      } else if inCode || !IsDrawerStart(text) {
        AllStep(Kinds(cal, doc), doc, n, last, inCode, DrawersOf(result), ParseSpec(Kinds(cal, doc), doc, n, None));
      } else {
        var book := Parse(cal, doc, n, None);
        AllStep(Kinds(cal, doc), doc, n, last, inCode, DrawersOf(result), Outcome(book));
        if book.Success? && book.value.Some? {
          assert (result + [book.value.value])[..|result|] == result;
          result := result + [book.value.value];
        }
      }
      n := n + 1;
    }
    return Success(result);
  }
}
