/**
 * The plugin's batch rewrites (`src/main.ts`): `cycleTasks`, which moves
 * every task line of a range to the next state of its workflow, and
 * `closeLogbooksInFile`, which closes every open clock of a file and resets
 * its task lines to `TODO`.  The workflow table, the calendar and "now" are
 * parameters.
 */
module Plugin {
  import opened Wrappers
  import opened Chars
  import opened Tasks
  import opened ParseAdapter
  import opened Logbooks
  import opened LogbookParsing
  import opened Transactions

  // ---------------------------------------------------------------------
  // `cycleTasks`
  // ---------------------------------------------------------------------

  /** The name `cycleTasks` writes for a line in state `current`: the next state's, or `???`. */
  function NextName(w: Workflow, current: Option<string>): string {
    match ProceedWorkflow(w, current)
    case Some(next) => next.name
    case None => "???"
  }

  /** The change `cycleTasks` makes to a task line with status `status`. */
  function CycleChange(w: Workflow, status: WorkflowStatus): Change {
    var suffix := if status.currentState.Some? && status.currentState.value != "" then "" else " ";
    Change(status.currentStateRange.from, status.currentStateRange.to, NextName(w, status.currentState) + suffix)
  }

  /**
   * The change `cycleTasks` makes to one line: none for an empty or blank
   * line or a line with no status; otherwise the state name is replaced by
   * the next one, a space following it when the line had no state name.
   */
  function CycleLine(w: Workflow, line: ParseLine): Option<Change> {
    if line.from == line.to || AllWhitespace(line.text) then None
    else
      match StatusOf(w, line.text, line.from)
      case None => None
      case Some(status) => Some(CycleChange(w, status))
  }

  /**
   * The change for a well-formed status replaces exactly its state name by
   * the next state's name; without a state name it inserts the next name
   * and a space at the empty state range, just after `] ` or `- `.
   */
  lemma CycleChangeRewrites(w: Workflow, text: string, offset: int, status: WorkflowStatus)
    requires FrameOk(text, offset, status) && CheckboxOk(text, offset, status) && StateOk(w, text, offset, status)
    ensures var c := CycleChange(w, status);
      var i := status.offset;
      && OnLine(c, offset, text)
      && (status.currentState.Some? ==>
            text[c.from - offset..c.to - offset] == status.currentState.value &&
            c.insert == NextName(w, status.currentState))
      && (status.currentState.None? ==>
            c.from == c.to == (if status.checkboxValue.Some? then offset + i + 6 else offset + i + 2) &&
            c.insert == NextName(w, None) + " ")
  {
  }

  /** The change `cycleTasks` makes to every line, line `n`'s at index `n - 1`. */
  function CycleLines(w: Workflow, lines: seq<ParseLine>): (os: seq<Option<Change>>)
    ensures |os| == |lines|
  {
    if lines == [] then [] else CycleLines(w, lines[..|lines| - 1]) + [CycleLine(w, lines[|lines| - 1])]
  }

  lemma {:induction false} CycleLinesAt(w: Workflow, lines: seq<ParseLine>, i: int)
    requires 0 <= i < |lines|
    ensures CycleLines(w, lines)[i] == CycleLine(w, lines[i])
  {
    if i < |lines| - 1 {
      CycleLinesAt(w, lines[..|lines| - 1], i);
    }
  }

  /** The changes present in `os`, in order. */
  function Present(os: seq<Option<Change>>): (r: seq<Change>)
    ensures |r| <= |os|
  {
    if os == [] then []
    else Present(os[..|os| - 1]) + if os[|os| - 1].Some? then [os[|os| - 1].value] else []
  }

  lemma PresentSnoc(os: seq<Option<Change>>, a: int, b: int)
    requires 0 <= a <= b < |os|
    ensures Present(os[a..b + 1]) == Present(os[a..b]) + if os[b].Some? then [os[b].value] else []
  {
    assert os[a..b + 1][..b - a] == os[a..b];
  }

  /** The changes `cycleTasks` collects for lines `start` to `end`, in line order. */
  function CycleSpec(w: Workflow, lines: seq<ParseLine>, start: int, end: int): (changes: seq<Change>)
    requires start <= end ==> 1 <= start && end <= |lines|
    ensures |changes| <= if start <= end then end - start + 1 else 0
  {
    if start <= end then Present(CycleLines(w, lines)[start - 1..end]) else []
  }

  /** Each change ends before the next one starts. */
  predicate Ascending(changes: seq<Change>) {
    forall i :: 0 <= i < |changes| - 1 ==> changes[i].to < changes[i + 1].from
  }

  /** Every change lies within `[lo, hi]`. */
  predicate Within(changes: seq<Change>, lo: int, hi: int) {
    forall i :: 0 <= i < |changes| ==> lo <= changes[i].from <= changes[i].to <= hi
  }

  lemma AscendingSnoc(changes: seq<Change>, c: Change, lo: int, hi: int)
    requires Ascending(changes) && Within(changes, lo, hi) && lo <= c.from && hi < c.from <= c.to
    ensures Ascending(changes + [c]) && Within(changes + [c], lo, c.to)
  {
    var r := changes + [c];
    forall i | 0 <= i < |r|
      ensures lo <= r[i].from <= r[i].to <= c.to
    {
      if i < |changes| {
        assert r[i] == changes[i];
      }
    }
  }

  /** Lines in document order: each spans its text and ends before any later line starts. */
  predicate Increasing(lines: seq<ParseLine>) {
    && (forall k :: 0 <= k < |lines| ==> lines[k].from <= lines[k].to == lines[k].from + |lines[k].text|)
    && (forall j, k :: 0 <= j < k < |lines| ==> lines[j].to < lines[k].from)
  }

  /** In an editor line table, line `j` ends before line `k` starts. */
  lemma {:induction false} EndsBefore(doc: string, sep: Separator, lines: seq<ParseLine>, j: nat, k: nat)
    requires LineTable(doc, sep, 0, 1, lines) && j < k < |lines|
    ensures lines[j].to < lines[k].from
    decreases k - j
  {
    ChainedAt(doc, sep, lines, k - 1);
    if j < k - 1 {
      EndsBefore(doc, sep, lines, j, k - 1);
      assert LineOk(doc, sep, lines[k - 1]);
    }
  }

  /** The lines of an editor document are in document order. */
  lemma EditorLinesIncreasing(doc: string)
    ensures Increasing(EditorLines(doc))
  {
    var lines := EditorLines(doc);
    EditorLinesTable(doc);
    forall j, k | 0 <= j < k < |lines|
      ensures lines[j].to < lines[k].from
    {
      EndsBefore(doc, Newline, lines, j, k);
    }
  }

  /** The lines `split` finds in a text are in document order and end within it. */
  lemma SplitLinesIncreasing(content: string)
    ensures Increasing(SplitLines(content))
    ensures forall k :: 0 <= k < |SplitLines(content)| ==> SplitLines(content)[k].to <= |content|
  {
    var lines := SplitLines(content);
    SplitLinesTable(content);
    forall j, k | 0 <= j < k < |lines|
      ensures lines[j].to < lines[k].from
    {
      EndsBefore(content, Terminators, lines, j, k);
    }
  }

  /**
   * Over lines in document order, changes each on its own line from `a`
   * to `b - 1` lie within those lines and each ends before the next starts.
   */
  lemma {:induction false} PresentAscending(os: seq<Option<Change>>, lines: seq<ParseLine>, a: int, b: int)
    requires Increasing(lines) && |os| == |lines| && 0 <= a < b <= |lines|
    requires forall i :: 0 <= i < |os| && os[i].Some? ==> OnLine(os[i].value, lines[i].from, lines[i].text)
    ensures Ascending(Present(os[a..b])) && Within(Present(os[a..b]), lines[a].from, lines[b - 1].to)
    decreases b - a
  {
    var before := Present(os[a..b - 1]);
    var o := os[b - 1];
    var lo := lines[a].from;
    var hi := lines[b - 1].to;
    PresentSnoc(os, a, b - 1);
    if b - 1 == a {
      assert before == [];
      if o.Some? {
        assert before + [o.value] == [o.value];
      }
    } else {
      PresentAscending(os, lines, a, b - 1);
      if o.Some? {
        AscendingSnoc(before, o.value, lo, lines[b - 2].to);
        WithinWiden(before + [o.value], lo, o.value.to, hi);
      } else {
        WithinWiden(before, lo, lines[b - 2].to, hi);
      }
    }
  }

  /** A line's change lies on that line. */
  lemma CycleLineOnLine(w: Workflow, line: ParseLine)
    ensures CycleLine(w, line).Some? ==> OnLine(CycleLine(w, line).value, line.from, line.text)
  {
    var status := StatusOf(w, line.text, line.from);
    if CycleLine(w, line).Some? {
      StatusShape(w, line.text, line.from);
      StatusCheckbox(w, line.text, line.from);
      StatusState(w, line.text, line.from);
      CycleChangeRewrites(w, line.text, line.from, status.value);
    }
  }

  /** Changes within a range stay within any range that extends it upwards. */
  lemma WithinWiden(changes: seq<Change>, lo: int, hi: int, hi': int)
    requires Within(changes, lo, hi) && hi <= hi'
    ensures Within(changes, lo, hi')
  {
  }

  /**
   * The changes `cycleTasks` makes to an editor document are in line
   * order, do not overlap, and stay within lines `start` to `end`.
   */
  lemma CycleTasksOrdered(w: Workflow, doc: string, start: int, end: int)
    requires 1 <= start <= end <= |EditorLines(doc)|
    ensures var lines := EditorLines(doc);
      var changes := CycleSpec(w, lines, start, end);
      Ascending(changes) && Within(changes, lines[start - 1].from, lines[end - 1].to)
  {
    var lines := EditorLines(doc);
    var os := CycleLines(w, lines);
    EditorLinesIncreasing(doc);
    forall i | 0 <= i < |os| && os[i].Some?
      ensures OnLine(os[i].value, lines[i].from, lines[i].text)
    {
      CycleLinesAt(w, lines, i);
      CycleLineOnLine(w, lines[i]);
    }
    PresentAscending(os, lines, start - 1, end);
  }

  /**
   * `cycleTasks(start, end)`: the change of every line from `start` to
   * `end`, in line order.
   */
  method CycleTasks(w: Workflow, doc: string, start: int, end: int) returns (changes: seq<Change>)
    requires start <= end ==> 1 <= start && end <= |EditorLines(doc)|
    ensures changes == CycleSpec(w, EditorLines(doc), start, end)
  {
    var lines := EditorLines(doc);
    changes := [];
    var n := start;
    while n <= end
      invariant start <= end ==> start <= n <= end + 1
      invariant changes == CycleSpec(w, lines, start, if start <= end then n - 1 else end)
      decreases end - n
    {
      var change := CycleOne(w, lines[n - 1]);
      CycleStep(w, lines, start, n, changes, change);
      changes := changes + if change.Some? then [change.value] else [];
      n := n + 1;
    }
  }

  /** One turn of `cycleTasks`'s loop adds the change of line `n` to those of the lines before. */
  lemma CycleStep(w: Workflow, lines: seq<ParseLine>, start: int, n: int, changes: seq<Change>, change: Option<Change>)
    requires 1 <= start <= n <= |lines| && changes == CycleSpec(w, lines, start, n - 1)
    requires change == CycleLine(w, lines[n - 1])
    ensures changes + (if change.Some? then [change.value] else []) == CycleSpec(w, lines, start, n)
  {
    CycleLinesAt(w, lines, n - 1);
    CycleSpecSnoc(w, lines, start, n);
  }

  lemma CycleSpecSnoc(w: Workflow, lines: seq<ParseLine>, start: int, n: int)
    requires 1 <= start <= n <= |lines|
    ensures var o := CycleLines(w, lines)[n - 1];
      CycleSpec(w, lines, start, n) == CycleSpec(w, lines, start, n - 1) + if o.Some? then [o.value] else []
  {
    PresentSnoc(CycleLines(w, lines), start - 1, n - 1);
  }

  /** The body of `cycleTasks`'s loop for one line. */
  method CycleOne(w: Workflow, line: ParseLine) returns (change: Option<Change>)
    ensures change == CycleLine(w, line)
  {
    var text := line.text;
    if line.from == line.to || AllWhitespace(text) {
      return None;
    }
    var status := StatusOf(w, text, line.from);
    change := None;
    if status.Some? {
      var nextState := ProceedWorkflow(w, status.value.currentState);
      var stateSuffix := if status.value.currentState.Some? && status.value.currentState.value != "" then "" else " ";
      change := Some(Change(status.value.currentStateRange.from, status.value.currentStateRange.to,
                            (if nextState.Some? then nextState.value.name else "???") + stateSuffix));
    }
  }

  // ---------------------------------------------------------------------
  // `closeLogbooksInFile`
  // ---------------------------------------------------------------------

  /** The replacement of `from..to` by `text`. */
  datatype Splice = Splice(from: int, to: int, text: string)

  /** A position clamped into `0..n`, as `substring` clamps its arguments. */
  function Clamp(i: int, n: nat): (c: nat)
    ensures c <= n && (0 <= i <= n ==> c == i)
  {
    if i < 0 then 0 else if i > n then n else i
  }

  /**
   * `s.substring(0, from) + text + s.substring(to)`: within bounds, the text
   * before `from` and after `to` is kept and `text` stands in between.
   */
  function ApplySplice(s: string, sp: Splice): (r: string)
    ensures 0 <= sp.from <= sp.to <= |s| ==>
      && |r| == |s| - (sp.to - sp.from) + |sp.text|
      && r[..sp.from] == s[..sp.from]
      && r[sp.from..sp.from + |sp.text|] == sp.text
      && r[sp.from + |sp.text|..] == s[sp.to..]
  {
    s[..Clamp(sp.from, |s|)] + sp.text + s[Clamp(sp.to, |s|)..]
  }

  /** The splices applied one after another, each to the text the one before left. */
  function ApplyAll(s: string, sps: seq<Splice>): string
    decreases |sps|
  {
    if sps == [] then s else ApplyAll(ApplySplice(s, sps[0]), sps[1..])
  }

  lemma {:induction false} ApplyAllAppend(s: string, a: seq<Splice>, b: seq<Splice>)
    ensures ApplyAll(s, a + b) == ApplyAll(ApplyAll(s, a), b)
    decreases |a|
  {
    if a == [] {
      assert a + b == b;
    } else {
      assert (a + b)[0] == a[0];
      assert (a + b)[1..] == a[1..] + b;
      ApplyAllAppend(ApplySplice(s, a[0]), a[1..], b);
    }
  }

  /** The text of a drawer whose entry `i` is closed at `now`, written as `toString()` writes it. */
  function ClosedDrawerText(cal: Calendar, entries: seq<ClockEntry>, i: nat, now: int): string
    requires i < |entries|
  {
    Render(cal, CompleteAll(entries[i := entries[i].(end := Some(now))]), 1, "\t")
  }

  /**
   * The entries a closed drawer is written with: the first open entry ends
   * at `now` and gets its duration, every other entry is only completed;
   * if the drawer had no other open entry, none is left open.
   */
  lemma ClosedEntries(entries: seq<ClockEntry>, i: nat, now: int)
    requires FirstOpenFrom(entries, 0) == Some(i)
    ensures var r := CompleteAll(entries[i := entries[i].(end := Some(now))]);
      && |r| == |entries|
      && r[i].start == entries[i].start && r[i].end == Some(now)
      && r[i].duration == (if entries[i].duration.Some? then entries[i].duration else Some(now - entries[i].start))
      && (forall k :: 0 <= k < |entries| && k != i ==> r[k] == Complete(entries[k]))
      && (AtMostOneOpen(entries) ==> !HasOpen(r))
  {
    var e := entries[i := entries[i].(end := Some(now))];
    var r := CompleteAll(e);
    if AtMostOneOpen(entries) {
      forall k | 0 <= k < |r|
        ensures r[k].end.Some?
      {
        if k != i {
          assert entries[k].end.Some? by {
            if k > i {
              assert entries[i].end.None?;
            }
          }
        }
      }
    }
  }

  /**
   * The splice for the drawer below line `n`: when `parse` finds one with an
   * open entry, the drawer rewritten with its first open entry ended at `now`.
   */
  function DrawerClose(cal: Calendar, lines: seq<ParseLine>, n: int, now: int): (r: seq<Splice>)
    requires 1 <= n
    ensures |r| <= 1
  {
    match ParseSpec(Kinds(cal, lines), lines, n + 1, None)
    case Success(Some(d)) =>
      (match FirstOpenFrom(d.entries, 0)
       case Some(i) => [Splice(d.from, d.to, ClosedDrawerText(cal, d.entries, i, now))]
       case None => [])
    case _ => []
  }

  /**
   * The splices `closeLogbooksInFile` makes for line `n`, in the order it
   * makes them: none unless the line has a status; then the drawer below,
   * then the state name replaced by `TODO`.
   */
  function LineClose(cal: Calendar, w: Workflow, lines: seq<ParseLine>, n: int, now: int): seq<Splice>
    requires 1 <= n <= |lines|
  {
    var line := lines[n - 1];
    match StatusOf(w, line.text, line.from)
    case None => []
    case Some(status) =>
      DrawerClose(cal, lines, n, now)
      + if status.currentState.Some? && status.currentState.value != "" then
          [Splice(status.currentStateRange.from, status.currentStateRange.to, "TODO")]
        else []
  }

  /** The splices of every line, line `n`'s at index `n - 1`. */
  function LineCloses(cal: Calendar, w: Workflow, lines: seq<ParseLine>, now: int): (per: seq<seq<Splice>>)
    ensures |per| == |lines| && forall i :: 0 <= i < |lines| ==> per[i] == LineClose(cal, w, lines, i + 1, now)
  {
    seq(|lines|, i requires 0 <= i < |lines| => LineClose(cal, w, lines, i + 1, now))
  }

  /** The splices of `per` from index `k` on, the last index's first. */
  function Gather(per: seq<seq<Splice>>, k: int): seq<Splice>
    requires 0 <= k <= |per|
    decreases |per| - k
  {
    if k == |per| then [] else Gather(per, k + 1) + per[k]
  }

  /** The splices for lines `|lines|` down to `k + 1`, in the order they are made. */
  function Pending(cal: Calendar, w: Workflow, lines: seq<ParseLine>, k: int, now: int): seq<Splice>
    requires 0 <= k <= |lines|
  {
    Gather(LineCloses(cal, w, lines, now), k)
  }

  lemma PendingStep(cal: Calendar, w: Workflow, lines: seq<ParseLine>, k: int, now: int)
    requires 0 <= k < |lines|
    ensures Pending(cal, w, lines, k, now) == Pending(cal, w, lines, k + 1, now) + LineClose(cal, w, lines, k + 1, now)
  {
  }

  /** What `closeLogbooksInFile(content)` returns. */
  function CloseSpec(cal: Calendar, w: Workflow, content: string, now: int): string {
    ApplyAll(content, Pending(cal, w, SplitLines(content), 0, now))
  }

  /** One line of `closeLogbooksInFile`: its splices applied to `current`. */
  method CloseLine(cal: Calendar, w: Workflow, table: seq<ParseLine>, n: int, line: ParseLine, now: int, current: string)
    returns (next: string)
    requires 1 <= n <= |table| && line == table[n - 1]
    ensures next == ApplyAll(current, LineClose(cal, w, table, n, now))
  {
    next := current;
    var text := line.text;
    var workflowStatus := StatusOf(w, text, line.from);
    if workflowStatus.Some? {
      next := CloseDrawer(cal, table, n, now, current);
      var status := workflowStatus.value;
      ghost var drawer := DrawerClose(cal, table, n, now);
      if status.currentState.Some? && status.currentState.value != "" {
        var sp := Splice(status.currentStateRange.from, status.currentStateRange.to, "TODO");
        ApplyAllAppend(current, drawer, [sp]);
        next := ApplySplice(next, sp);
      } else {
        assert drawer + [] == drawer;
      }
    }
  }

  /** The drawer below line `n`, its open entry closed and written back into `current`. */
  method CloseDrawer(cal: Calendar, table: seq<ParseLine>, n: int, now: int, current: string) returns (next: string)
    requires 1 <= n <= |table|
    ensures next == ApplyAll(current, DrawerClose(cal, table, n, now))
  {
    next := current;
    var book := Parse(cal, table, n + 1, None);
    if book.Success? && book.value.Some? {
      var logbook := book.value.value;
      ghost var entries := logbook.lines;
      var openClock := logbook.GetOpenClock();
      if openClock.Some? {
        logbook.SetEndTime(openClock.value, now);
        var block := logbook.ToString(cal, None, "\t");
        assert block == ClosedDrawerText(cal, entries, openClock.value, now);
        next := ApplySplice(next, Splice(logbook.from, logbook.to, block));
      }
    }
  }

  /** One turn of `closeLogbooksInFile`'s loop applies the splices of line `n` after those of the lines below it. */
  lemma CloseStep(cal: Calendar, w: Workflow, content: string, n: int, now: int, before: string, after: string)
    requires 1 <= n <= |SplitLines(content)|
    requires before == ApplyAll(content, Pending(cal, w, SplitLines(content), n, now))
    requires after == ApplyAll(before, LineClose(cal, w, SplitLines(content), n, now))
    ensures after == ApplyAll(content, Pending(cal, w, SplitLines(content), n - 1, now))
  {
    var lines := SplitLines(content);
    ApplyAllAppend(content, Pending(cal, w, lines, n, now), LineClose(cal, w, lines, n, now));
    PendingStep(cal, w, lines, n - 1, now);
  }

  /**
   * `closeLogbooksInFile(content)`: from the last line up to the first, for
   * every task line, closes the open entry of the drawer below it and
   * resets its state name to `TODO`, splicing each change into the text at
   * the offsets the lines had before any change.
   */
  method CloseLogbooksInFile(cal: Calendar, w: Workflow, content: string, now: int) returns (result: string)
    ensures result == CloseSpec(cal, w, content, now)
  {
    var pa := new StringParseAdapter(content);
    var count := pa.Lines();
    var table := pa.Content();
    result := content;
    var n := count;
    while n >= 1
      invariant 0 <= n <= |table| && table == SplitLines(content)
      invariant pa.Valid() && pa.text == content && pa.content == Some(table)
      invariant result == ApplyAll(content, Pending(cal, w, table, n, now))
      decreases n
    {
      var line := pa.Line(n);
      ghost var before := result;
      result := CloseLine(cal, w, table, n, line.value, now, result);
      CloseStep(cal, w, content, n, now, before, result);
      n := n - 1;
    }
  }

  // Why splicing at stale offsets is sound: the splices run from the bottom
  // of the text up, so each lands in text no earlier splice has moved.

  /** Each splice lies wholly before the ones made earlier. */
  predicate Descending(sps: seq<Splice>) {
    forall i, j :: 0 <= i < j < |sps| ==> sps[j].to <= sps[i].from
  }

  /** Every splice lies within `lo..hi`. */
  predicate InBounds(sps: seq<Splice>, lo: int, hi: int) {
    forall i :: 0 <= i < |sps| ==> lo <= sps[i].from <= sps[i].to <= hi
  }

  /**
   * Descending splices applied all at once, each at its place in `s`: the
   * text before the first splice (the lowest, applied last), then each
   * splice's text and the text up to the next one.
   */
  function Simultaneous(s: string, sps: seq<Splice>): string
    requires Descending(sps) && InBounds(sps, 0, |s|)
    decreases |sps|
  {
    if sps == [] then s
    else
      assert InBounds(sps[1..], 0, sps[0].from) by {
        forall i | 0 <= i < |sps| - 1 ensures 0 <= sps[1..][i].from <= sps[1..][i].to <= sps[0].from {
          assert sps[1..][i] == sps[i + 1];
        }
      }
      Simultaneous(s[..sps[0].from], sps[1..]) + sps[0].text + s[sps[0].to..]
  }

  /** Splices that stay within `p` leave what follows `p` alone. */
  lemma {:induction false} ApplyPrefix(p: string, q: string, sps: seq<Splice>)
    requires Descending(sps) && InBounds(sps, 0, |p|)
    ensures ApplyAll(p + q, sps) == ApplyAll(p, sps) + q
    decreases |sps|
  {
    if sps != [] {
      var x := sps[0];
      assert (p + q)[..x.from] == p[..x.from];
      assert (p + q)[x.to..] == p[x.to..] + q;
      assert ApplySplice(p + q, x) == ApplySplice(p, x) + q;
      var p' := ApplySplice(p, x);
      forall i | 0 <= i < |sps| - 1 ensures 0 <= sps[1..][i].from <= sps[1..][i].to <= |p'| {
        assert sps[1..][i] == sps[i + 1];
      }
      ApplyPrefix(p', q, sps[1..]);
    }
  }

  /** Descending splices applied one by one at their original offsets give the simultaneous result. */
  lemma {:induction false} ApplyAllSimultaneous(s: string, sps: seq<Splice>)
    requires Descending(sps) && InBounds(sps, 0, |s|)
    ensures ApplyAll(s, sps) == Simultaneous(s, sps)
    decreases |sps|
  {
    if sps != [] {
      var x := sps[0];
      assert ApplySplice(s, x) == s[..x.from] + (x.text + s[x.to..]);
      forall i | 0 <= i < |sps| - 1 ensures 0 <= sps[1..][i].from <= sps[1..][i].to <= x.from {
        assert sps[1..][i] == sps[i + 1];
      }
      ApplyPrefix(s[..x.from], x.text + s[x.to..], sps[1..]);
      ApplyAllSimultaneous(s[..x.from], sps[1..]);
    }
  }

  /** A line whose first non-whitespace character is there and is not `-`. */
  predicate NotDashLed(text: string) {
    var i := SkipWhitespace(text, 0);
    i < |text| && text[i] != '-'
  }

  /** A line not led by `-` is no task line. */
  lemma NotDashLedNoStatus(w: Workflow, text: string, offset: int)
    requires NotDashLed(text)
    ensures StatusOf(w, text, offset).None?
  {
    var i := SkipWhitespace(text, 0);
    var j := SkipBlanks(text, 0);
    SkipWhitespaceFirst(text, 0);
    NoDashNoStatus(w, text, offset);
  }

  /** The lines of a drawer are led by `:` or `C`/`c`, never by `-`. */
  lemma DrawerLineNotDashLed(cal: Calendar, lines: seq<ParseLine>, t: int)
    requires 1 <= t <= |lines|
    requires IsDrawerStart(lines[t - 1].text) || Kinds(cal, lines)[t - 1] != Invalid
    ensures NotDashLed(lines[t - 1].text)
  {
    var text := lines[t - 1].text;
    var i := SkipWhitespace(text, 0);
    KindsAt(cal, lines, t - 1);
    if IsDrawerStart(text) {
      assert UpperAscii(text[i..][0]) == UpperAscii(":LOGBOOK:"[0]);
    } else if IsDrawerEnd(text) {
      assert UpperAscii(text[i..][0]) == UpperAscii(":END:"[0]);
    } else {
      assert MatchClock(text).Some?;
      assert UpperAscii(text[i..i + 6][0]) == UpperAscii("CLOCK:"[0]);
    }
  }

  /** The lines from `n` to `m - 1` are clock lines and line `m` is an `:END:` line. */
  lemma {:induction false} ClocksUntilEndKinds(kinds: seq<LineKind>, n: int, m: int, clocks: seq<ClockEntry>)
    requires ClocksUntilEnd(kinds, n, m, clocks)
    ensures 1 <= n <= m <= |kinds| && forall i :: n - 1 <= i < m ==> kinds[i] != Invalid
    decreases m - n
  {
    if n < m {
      ClocksUntilEndKinds(kinds, n + 1, m, clocks[1..]);
    }
  }

  /**
   * The drawer `parse` finds below line `n` runs from the start of line
   * `n + 1` to the end of some line `m`, and none of its lines is a task
   * line.
   */
  lemma DrawerSpan(cal: Calendar, w: Workflow, lines: seq<ParseLine>, n: int, d: Drawer) returns (m: int)
    requires 1 <= n && ParseSpec(Kinds(cal, lines), lines, n + 1, None) == Success(Some(d))
    ensures n + 2 <= m <= |lines| && d.from == lines[n].from && d.to == lines[m - 1].to
    ensures forall i :: n <= i < m ==> Plain(w, lines[i])
  {
    var kinds := Kinds(cal, lines);
    assert ParseSpec(kinds, lines, n + 1, Some(|lines|)) == Success(Some(d));
    ParseFindsDrawer(cal, lines, n + 1, |lines|, d);
    var m', clocks :| ClosesAt(kinds, lines, n + 2, |lines|, lines[n].from, [], d, m', clocks);
    m := m';
    ClocksUntilEndKinds(kinds, n + 2, m, clocks);
    forall i | n <= i < m
      ensures Plain(w, lines[i])
    {
      DrawerLineNotDashLed(cal, lines, i + 1);
      NotDashLedNoStatus(w, lines[i].text, lines[i].from);
    }
  }

  /** Lines without a status add no splices. */
  lemma PendingSkip(cal: Calendar, w: Workflow, lines: seq<ParseLine>, k: int, m: int, now: int)
    requires 0 <= k <= m <= |lines|
    requires forall i :: k <= i < m ==> Plain(w, lines[i])
    ensures Pending(cal, w, lines, k, now) == Pending(cal, w, lines, m, now)
  {
    var per := LineCloses(cal, w, lines, now);
    forall i | k <= i < m
      ensures per[i] == []
    {
      PlainNoSplices(cal, w, lines, i + 1, now);
    }
    GatherSkip(per, k, m);
  }

  lemma {:induction false} GatherSkip(per: seq<seq<Splice>>, k: int, m: int)
    requires 0 <= k <= m <= |per|
    requires forall i :: k <= i < m ==> per[i] == []
    ensures Gather(per, k) == Gather(per, m)
    decreases m - k
  {
    if k < m {
      GatherSkip(per, k + 1, m);
      assert Gather(per, k) == Gather(per, k + 1) + [];
    }
  }

  /** A line without a status. */
  predicate Plain(w: Workflow, line: ParseLine) {
    StatusOf(w, line.text, line.from).None?
  }

  lemma PlainNoSplices(cal: Calendar, w: Workflow, lines: seq<ParseLine>, n: int, now: int)
    requires 1 <= n <= |lines| && Plain(w, lines[n - 1])
    ensures LineClose(cal, w, lines, n, now) == []
  {
  }

  /** A status's state range lies on its line. */
  lemma StateRangeOnLine(w: Workflow, text: string, offset: int)
    requires StatusOf(w, text, offset).Some?
    ensures var r := StatusOf(w, text, offset).value.currentStateRange;
      offset <= r.from <= r.to <= offset + |text|
  {
    var status := StatusOf(w, text, offset).value;
    StatusShape(w, text, offset);
    StatusCheckbox(w, text, offset);
    StatusState(w, text, offset);
    CycleChangeRewrites(w, text, offset, status);
  }

  /** Appending splices that lie below all earlier ones keeps the order. */
  lemma DescendingAppend(rest: seq<Splice>, x: seq<Splice>, lo: int, b: int, hi: int)
    requires Descending(rest) && InBounds(rest, b, hi)
    requires Descending(x) && InBounds(x, lo, hi) && lo <= b
    requires forall i :: 0 <= i < |x| ==> x[i].to <= b
    ensures Descending(rest + x) && InBounds(rest + x, lo, hi)
  {
    var r := rest + x;
    forall i, j | 0 <= i < j < |r|
      ensures r[j].to <= r[i].from
    {
      if j < |rest| {
        assert r[i] == rest[i] && r[j] == rest[j];
      } else if i < |rest| {
        assert r[i] == rest[i] && r[j] == x[j - |rest|];
      } else {
        assert r[i] == x[i - |rest|] && r[j] == x[j - |rest|];
      }
    }
    forall i | 0 <= i < |r|
      ensures lo <= r[i].from <= r[i].to <= hi
    {
      if i < |rest| {
        assert r[i] == rest[i];
      } else {
        assert r[i] == x[i - |rest|];
      }
    }
  }

  /** The splice of a line's drawer, then the one of its state name, the second below the first. */
  lemma LinePartsOrdered(drawer: seq<Splice>, state: seq<Splice>, lo: int, t: int, b: int, hi: int)
    requires |drawer| <= 1 && |state| <= 1 && lo <= t <= b <= hi
    requires forall i :: 0 <= i < |state| ==> lo <= state[i].from <= state[i].to <= t
    requires forall i :: 0 <= i < |drawer| ==> t < drawer[i].from <= drawer[i].to <= b
    ensures var x := drawer + state;
      Descending(x) && InBounds(x, lo, hi) && forall i :: 0 <= i < |x| ==> x[i].to <= b
  {
    var x := drawer + state;
    assert forall i :: 0 <= i < |x| ==> x[i] == if i < |drawer| then drawer[i] else state[i - |drawer|];
  }

  /**
   * The drawer below line `n` lies after that line and ends before line
   * `m + 1` starts, and its lines, up to line `m`, add no splices of their
   * own.
   */
  lemma DrawerCloseBounds(cal: Calendar, w: Workflow, content: string, n: int, now: int) returns (m: int)
    requires 1 <= n <= |SplitLines(content)|
    ensures var lines := SplitLines(content);
      var drawer := DrawerClose(cal, lines, n, now);
      && n <= m <= |lines|
      && Pending(cal, w, lines, n, now) == Pending(cal, w, lines, m, now)
      && var b := if m < |lines| then lines[m].from else |content|;
      && lines[n - 1].to <= b <= |content|
      && forall i :: 0 <= i < |drawer| ==> lines[n - 1].to < drawer[i].from <= drawer[i].to <= b
  {
    var lines := SplitLines(content);
    SplitLinesIncreasing(content);
    var drawer := DrawerClose(cal, lines, n, now);
    m := n;
    var parsed := ParseSpec(Kinds(cal, lines), lines, n + 1, None);
    if parsed.Success? && parsed.value.Some? {
      var d := parsed.value.value;
      m := DrawerSpan(cal, w, lines, n, d);
      PendingSkip(cal, w, lines, n, m, now);
      assert lines[n].to <= lines[m - 1].to;
      assert forall i :: 0 <= i < |drawer| ==> drawer[i] == Splice(d.from, d.to, drawer[i].text);
    } else {
      assert drawer == [];
    }
  }

  /**
   * The splices of line `n` lie on that line and in the drawer below it,
   * the state name's below the drawer's; the lines of that drawer, up to
   * line `m`, add no splices of their own, and the splices of line `n` end
   * before line `m + 1` starts.
   */
  lemma LineCloseOrdered(cal: Calendar, w: Workflow, content: string, n: int, now: int) returns (m: int)
    requires 1 <= n <= |SplitLines(content)|
    ensures var lines := SplitLines(content);
      var x := LineClose(cal, w, lines, n, now);
      && n <= m <= |lines|
      && Pending(cal, w, lines, n, now) == Pending(cal, w, lines, m, now)
      && Descending(x) && InBounds(x, lines[n - 1].from, |content|)
      && forall i :: 0 <= i < |x| ==> x[i].to <= if m < |lines| then lines[m].from else |content|
  {
    var lines := SplitLines(content);
    SplitLinesIncreasing(content);
    var line := lines[n - 1];
    m := DrawerCloseBounds(cal, w, content, n, now);
    var status := StatusOf(w, line.text, line.from);
    if status.Some? {
      StateRangeOnLine(w, line.text, line.from);
      var state: seq<Splice> :=
        if status.value.currentState.Some? && status.value.currentState.value != "" then
          [Splice(status.value.currentStateRange.from, status.value.currentStateRange.to, "TODO")]
        else [];
      var drawer := DrawerClose(cal, lines, n, now);
      assert LineClose(cal, w, lines, n, now) == drawer + state;
      LinePartsOrdered(drawer, state, line.from, line.to, if m < |lines| then lines[m].from else |content|, |content|);
    } else {
      PlainNoSplices(cal, w, lines, n, now);
    }
  }

  /**
   * The splices `closeLogbooksInFile` makes for the lines below line `k`
   * each lie wholly before the ones made earlier, within the text and
   * below line `k`.
   */
  lemma {:induction false} PendingOrdered(cal: Calendar, w: Workflow, content: string, k: int, now: int)
    requires 0 <= k <= |SplitLines(content)|
    ensures var lines := SplitLines(content);
      var sps := Pending(cal, w, lines, k, now);
      Descending(sps) && InBounds(sps, if k < |lines| then lines[k].from else |content|, |content|)
    decreases |SplitLines(content)| - k
  {
    var lines := SplitLines(content);
    if k < |lines| {
      var m := LineCloseOrdered(cal, w, content, k + 1, now);
      PendingOrdered(cal, w, content, m, now);
      var b := if m < |lines| then lines[m].from else |content|;
      StartsBefore(content, k, m);
      PendingStep(cal, w, lines, k, now);
      DescendingAppend(Pending(cal, w, lines, m, now), LineClose(cal, w, lines, k + 1, now), lines[k].from, b, |content|);
    }
  }

  /** Line `k + 1` starts no later than line `m + 1`, or than the end of the text. */
  lemma StartsBefore(content: string, k: int, m: int)
    requires 0 <= k < m <= |SplitLines(content)| || 0 <= k == m < |SplitLines(content)|
    ensures var lines := SplitLines(content);
      lines[k].from <= if m < |lines| then lines[m].from else |content|
  {
    SplitLinesIncreasing(content);
  }

  /**
   * `closeLogbooksInFile` splices each change in at the offsets of the text
   * it was given, yet the result is that of making all its changes at once
   * in that text: each change lands in text no earlier change has moved.
   */
  lemma CloseIsSimultaneous(cal: Calendar, w: Workflow, content: string, now: int)
    ensures var sps := Pending(cal, w, SplitLines(content), 0, now);
      && Descending(sps) && InBounds(sps, 0, |content|)
      && CloseSpec(cal, w, content, now) == Simultaneous(content, sps)
  {
    var lines := SplitLines(content);
    SplitLinesTable(content);
    var sps := Pending(cal, w, lines, 0, now);
    PendingOrdered(cal, w, content, 0, now);
    ApplyAllSimultaneous(content, sps);
  }
}
