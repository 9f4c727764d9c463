/**
 * The logbook (`src/logbook/logbook.ts`): an insertion-ordered list of clock
 * entries kept under a task, each open (no end yet) or closed, with a
 * duration that is filled in on demand, and its text form
 *
 *     :LOGBOOK:
 *     CLOCK: [start]--[end] => H:MM:SS
 *     :END:
 *
 * Instants are whole seconds; durations are whole seconds.  The calendar
 * that writes an instant as `YYYY-MM-DD ddd HH:mm:ss` and reads
 * `date + "T" + time` back is a `Calendar` value handed in by the caller.
 */
module Logbooks {
  import opened Wrappers
  import opened Chars
  import opened Utils

  /**
   * The calendar behind moment: the date, weekday and time fields an
   * instant is written with, and the instant a `dateTtime` text reads as.
   */
  datatype Calendar = Calendar(
    date: int -> string,
    weekday: int -> string,
    time: int -> string,
    read: string -> int)

  /** An instant written `YYYY-MM-DD ddd HH:mm:ss`. */
  function Stamp(cal: Calendar, t: int): string {
    cal.date(t) + " " + cal.weekday(t) + " " + cal.time(t)
  }

  /** A field of a stamp: non-empty, without spaces, closing brackets or line terminators. */
  predicate Token(s: string) {
    |s| > 0 && forall i :: 0 <= i < |s| ==> s[i] != ' ' && s[i] != ']' && !IsLineTerminator(s[i])
  }

  /**
   * A calendar whose fields are tokens and that reads the date and time it
   * writes back as the same instant.
   */
  ghost predicate Faithful(cal: Calendar) {
    forall t :: Token(cal.date(t)) && Token(cal.weekday(t)) && Token(cal.time(t))
      && cal.read(cal.date(t) + "T" + cal.time(t)) == t
  }

  /**
   * `LogbookLine`: a clock entry.  An entry with no `end` is open.  `duration`
   * is a cache that `Complete` fills; `from` and `to` are the offsets of the
   * line the entry was read from.
   */
  datatype ClockEntry = ClockEntry(
    start: int, end: Option<int>, duration: Option<int>, from: Option<int>, to: Option<int>)

  /** A new entry, as the `LogbookLine` constructor makes it with only a start. */
  function OpenEntry(start: int): ClockEntry {
    ClockEntry(start, None, None, None, None)
  }

  /**
   * `ensureLineComplete` on one entry: a closed entry without a duration
   * gets `end - start`; a duration already there is kept.
   */
  function Complete(e: ClockEntry): (r: ClockEntry)
    ensures r.start == e.start && r.end == e.end && r.from == e.from && r.to == e.to
    ensures e.duration.Some? ==> r.duration == e.duration
    ensures e.duration.None? && e.end.Some? ==> r.duration == Some(e.end.value - e.start)
    ensures e.end.None? ==> r.duration == e.duration
  {
    if e.duration.None? && e.end.Some? then e.(duration := Some(e.end.value - e.start)) else e
  }

  /** Completing twice is completing once. */
  lemma CompleteIdempotent(e: ClockEntry)
    ensures Complete(Complete(e)) == Complete(e)
  {
  }

  /** A closed entry is complete once `Complete` has run: it has a duration. */
  lemma CompleteClosed(e: ClockEntry)
    requires e.end.Some?
    ensures Complete(e).duration.Some?
    ensures e.duration.None? ==> Complete(e).duration.value == e.end.value - e.start
  {
  }

  /** Setting the end of an entry leaves its cached duration as it was. */
  lemma SetEndKeepsDuration(e: ClockEntry, t: int)
    ensures e.(end := Some(t)).duration == e.duration
    ensures e.duration.Some? ==> Complete(e.(end := Some(t))).duration == e.duration
  {
  }

  /** Every entry of `lines` completed, in the same order. */
  function CompleteAll(lines: seq<ClockEntry>): (r: seq<ClockEntry>)
    ensures |r| == |lines| && forall k :: 0 <= k < |lines| ==> r[k] == Complete(lines[k])
  {
    seq(|lines|, k requires 0 <= k < |lines| => Complete(lines[k]))
  }

  /** What an entry adds to the total once completed: its duration, or nothing. */
  function Contribution(e: ClockEntry): int {
    Complete(e).duration.GetOr(0)
  }

  /** The running sum `getTotalDuration` folds, left to right. */
  function TotalDuration(lines: seq<ClockEntry>): int {
    if lines == [] then 0 else TotalDuration(lines[..|lines| - 1]) + Contribution(lines[|lines| - 1])
  }

  /** The total of two runs of entries is the sum of their totals. */
  lemma {:induction false} TotalAppend(a: seq<ClockEntry>, b: seq<ClockEntry>)
    ensures TotalDuration(a + b) == TotalDuration(a) + TotalDuration(b)
    decreases |b|
  {
    if b != [] {
      var b' := b[..|b| - 1];
      assert (a + b)[..|a + b| - 1] == a + b';
      TotalAppend(a, b');
    } else {
      assert a + b == a;
    }
  }

  /** An open entry without a cached duration adds nothing to the total. */
  lemma TotalOpen(lines: seq<ClockEntry>, e: ClockEntry)
    requires e.end.None? && e.duration.None?
    ensures TotalDuration(lines + [e]) == TotalDuration(lines)
  {
    assert (lines + [e])[..|lines|] == lines;
  }

  /** A closed entry adds its end minus its start, unless a duration was cached. */
  lemma TotalClosed(lines: seq<ClockEntry>, e: ClockEntry)
    requires e.end.Some? && e.duration.None?
    ensures TotalDuration(lines + [e]) == TotalDuration(lines) + (e.end.value - e.start)
  {
    assert (lines + [e])[..|lines|] == lines;
  }

  /** Completing every entry first does not change the total. */
  lemma {:induction false} TotalCompleteAll(lines: seq<ClockEntry>)
    ensures TotalDuration(CompleteAll(lines)) == TotalDuration(lines)
    decreases |lines|
  {
    if lines != [] {
      var init := lines[..|lines| - 1];
      assert CompleteAll(lines)[..|lines| - 1] == CompleteAll(init);
      TotalCompleteAll(init);
      CompleteIdempotent(lines[|lines| - 1]);
    }
  }

  /** The index of the first open entry, searching from `i`. */
  function FirstOpenFrom(lines: seq<ClockEntry>, i: nat): (r: Option<nat>)
    requires i <= |lines|
    ensures r.Some? ==>
      && i <= r.value < |lines| && lines[r.value].end.None?
      && forall k :: i <= k < r.value ==> lines[k].end.Some?
    ensures r.None? ==> forall k :: i <= k < |lines| ==> lines[k].end.Some?
    decreases |lines| - i
  {
    if i == |lines| then None
    else if lines[i].end.None? then Some(i)
    else FirstOpenFrom(lines, i + 1)
  }

  /**
   * `LogbookLine.toString(indentation)` with `unit` in place of the tab:
   * `CLOCK: [start]`, and for a closed entry `--[end] => ` and its formatted
   * duration, after `k` indentation units.
   */
  function ClockLine(cal: Calendar, e: ClockEntry, k: nat, unit: string): string {
    Repeat(unit, k) + "CLOCK: [" + Stamp(cal, e.start) + "]" + SecondHalf(cal, e)
  }

  /** What follows `[start]` on a clock line: `--[end] => duration` for a closed entry, nothing for an open one. */
  function SecondHalf(cal: Calendar, e: ClockEntry): string {
    if e.end.Some? then "--[" + Stamp(cal, e.end.value) + "] => " + FormatLogbookDuration(e.duration) else ""
  }

  /** The lines of the text of a logbook whose entries are `lines`, indented `k` units. */
  function DrawerLines(cal: Calendar, lines: seq<ClockEntry>, k: nat, unit: string): (r: seq<string>)
    ensures |r| == |lines| + 2
  {
    [Repeat(unit, k) + ":LOGBOOK:"]
      + seq(|lines|, i requires 0 <= i < |lines| => ClockLine(cal, lines[i], k, unit))
      + [Repeat(unit, k) + ":END:"]
  }

  /** The text of a logbook: its lines joined with `\n`, no trailing newline. */
  function Render(cal: Calendar, lines: seq<ClockEntry>, k: nat, unit: string): string {
    Join(DrawerLines(cal, lines, k, unit), '\n')
  }

  lemma RepeatNoNewline(unit: string, k: nat)
    requires '\n' !in unit
    ensures '\n' !in Repeat(unit, k)
  {
    if k > 0 {
      RepeatNoNewline(unit, k - 1);
    }
  }

  lemma DigitsNoNewline(s: string)
    requires AllDigits(s)
    ensures '\n' !in s
  {
  }

  lemma IntToStringNoNewline(n: int)
    ensures '\n' !in PadStart2(IntToString(n))
  {
    var m := if n < 0 then -n else n;
    DigitsNoNewline(NatToString(m));
    RepeatNoNewline("0", 2);
    RepeatNoNewline("0", 1);
  }

  /** A formatted duration is a single line. */
  lemma DurationNoNewline(d: Option<int>)
    ensures '\n' !in FormatLogbookDuration(d)
  {
    if d.Some? {
      IntToStringNoNewline(d.value / 3600);
      IntToStringNoNewline(TruncRem(d.value / 60, 60));
      IntToStringNoNewline(TruncRem(d.value, 60));
    }
  }

  lemma StampNoNewline(cal: Calendar, t: int)
    requires Faithful(cal)
    ensures '\n' !in Stamp(cal, t)
  {
    assert Token(cal.date(t)) && Token(cal.weekday(t)) && Token(cal.time(t));
  }

  /** A clock line is a single line. */
  lemma ClockLineNoNewline(cal: Calendar, e: ClockEntry, k: nat, unit: string)
    requires Faithful(cal) && '\n' !in unit
    ensures '\n' !in ClockLine(cal, e, k, unit)
  {
    RepeatNoNewline(unit, k);
    StampNoNewline(cal, e.start);
    if e.end.Some? {
      StampNoNewline(cal, e.end.value);
      DurationNoNewline(e.duration);
    }
  }

  /**
   * The text of a logbook splits at `\n` into exactly `|lines| + 2` lines:
   * `:LOGBOOK:`, one clock line per entry in list order, then `:END:`.
   */
  lemma RenderLines(cal: Calendar, lines: seq<ClockEntry>, k: nat, unit: string)
    requires Faithful(cal) && '\n' !in unit
    ensures Split(Render(cal, lines, k, unit), '\n') == DrawerLines(cal, lines, k, unit)
    ensures |Split(Render(cal, lines, k, unit), '\n')| == |lines| + 2
  {
    var parts := DrawerLines(cal, lines, k, unit);
    RepeatNoNewline(unit, k);
    forall i | 0 <= i < |parts| ensures '\n' !in parts[i] {
      if 0 < i < |parts| - 1 {
        ClockLineNoNewline(cal, lines[i - 1], k, unit);
      }
    }
    SplitJoin(parts, '\n');
  }

  /**
   * `Logbook`: the entries of one drawer and the offsets `from`/`to` of the
   * drawer's text in the document.
   */
  class Logbook {
    var lines: seq<ClockEntry>
    var from: int
    var to: int

    /** A logbook over `lines` spanning `from`..`to` (the source defaults are `0`, `0`, no entries). */
    constructor(from: int, to: int, lines: seq<ClockEntry>)
      ensures this.from == from && this.to == to && this.lines == lines
    {
      this.from := from;
      this.to := to;
      this.lines := lines;
    }

    /** `addLine`: the entry goes last; the entries before it and the offsets stay as they were. */
    method AddLine(line: ClockEntry)
      modifies this
      ensures lines == old(lines) + [line]
      ensures from == old(from) && to == old(to)
    {
      lines := lines + [line];
    }

    /**
     * `getOpenClock`: the position of the first entry with no end, if any.
     * The entry itself is `lines[r.value]`; callers change it through its
     * position.
     */
    function GetOpenClock(): (r: Option<nat>)
      reads this
      ensures r.Some? ==>
        && r.value < |lines| && lines[r.value].end.None?
        && forall k :: 0 <= k < r.value ==> lines[k].end.Some?
      ensures r.None? <==> forall k :: 0 <= k < |lines| ==> lines[k].end.Some?
    {
      FirstOpenFrom(lines, 0)
    }

    /** `hasOpenClock`: whether some entry has no end. */
    function HasOpenClock(): (r: bool)
      reads this
      ensures r <==> exists k :: 0 <= k < |lines| && lines[k].end.None?
    {
      GetOpenClock().Some?
    }

    /** Assigning `endTime` to entry `i`: its cached duration is not touched. */
    method SetEndTime(i: nat, t: int)
      requires i < |lines|
      modifies this
      ensures lines == old(lines)[i := old(lines)[i].(end := Some(t))]  // the duration of entry `i` is kept
      ensures from == old(from) && to == old(to)
    {
      lines := lines[i := lines[i].(end := Some(t))];
    }

    /** `removeLine`: entry `i` goes; the others keep their order. */
    method RemoveLine(i: nat)
      requires i < |lines|
      modifies this
      ensures lines == old(lines)[..i] + old(lines)[i + 1..]
      ensures from == old(from) && to == old(to)
    {
      lines := lines[..i] + lines[i + 1..];
    }

    /** `ensureLineComplete` on entry `i`, which is completed in place and returned. */
    method EnsureLineComplete(i: nat) returns (line: ClockEntry)
      requires i < |lines|
      modifies this
      ensures line == Complete(old(lines)[i])
      ensures lines == old(lines)[i := line]
      ensures from == old(from) && to == old(to)
    {
      var e := lines[i];
      if e.duration.None? && e.end.Some? {
        e := e.(duration := Some(e.end.value - e.start));
      }
      lines := lines[i := e];
      line := e;
    }

    /**
     * `getTotalDuration`: completes every entry in place while summing their
     * durations from the first to the last.
     */
    method GetTotalDuration() returns (total: int)
      modifies this
      ensures total == TotalDuration(old(lines))
      ensures lines == CompleteAll(old(lines))
      ensures from == old(from) && to == old(to)
    {
      ghost var original := lines;
      total := 0;
      for i := 0 to |lines|
        invariant |lines| == |original| && from == old(from) && to == old(to)
        invariant forall j :: 0 <= j < i ==> lines[j] == Complete(original[j])
        invariant forall j :: i <= j < |lines| ==> lines[j] == original[j]
        invariant total == TotalDuration(original[..i])
      {
        var line := EnsureLineComplete(i);
        assert original[..i + 1][..i] == original[..i];
        total := total + line.duration.GetOr(0);
      }
      assert original[..|original|] == original;
      assert lines == CompleteAll(original);
    }

    /**
     * `toString(indentation, unit)`: completes every entry in place and
     * writes the drawer, each line after `indentation + 1` units
     * (`indentation` defaults to 0; `-1` gives no indentation).
     */
    method ToString(cal: Calendar, indentation: Option<int>, unit: string) returns (text: string)
      requires indentation.GetOr(0) >= -1
      modifies this
      ensures lines == CompleteAll(old(lines))
      ensures text == Render(cal, lines, indentation.GetOr(0) + 1, unit)
      ensures from == old(from) && to == old(to)
    {
      var k := indentation.GetOr(0) + 1;
      var indent := Repeat(unit, k);
      ghost var original := lines;
      var body: seq<string> := [];
      for i := 0 to |lines|
        invariant |lines| == |original| && from == old(from) && to == old(to)
        invariant forall j :: 0 <= j < i ==> lines[j] == Complete(original[j])
        invariant forall j :: i <= j < |lines| ==> lines[j] == original[j]
        invariant |body| == i && forall j :: 0 <= j < i ==> body[j] == ClockLine(cal, lines[j], k, unit)
      {
        var line := EnsureLineComplete(i);
        body := body + [ClockLine(cal, line, k, unit)];
      }
      assert lines == CompleteAll(original);
      var parts := [indent + ":LOGBOOK:"] + body + [indent + ":END:"];
      assert parts == DrawerLines(cal, lines, k, unit);
      text := Join(parts, '\n');
    }
  }
}
