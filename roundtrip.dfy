/**
 * What the parser reads back from what the logbook writes: a date written
 * by the calendar, a duration written `H:MM:SS`, a clock line, and a whole
 * drawer placed below another line of an editor document.
 */
module RoundTrip {
  import opened Wrappers
  import opened Chars
  import opened Utils
  import opened ParseAdapter
  import opened Logbooks
  import opened LogbookParsing

  /** The pieces of `p + x + [y] + q`, by position. */
  lemma Pieces<T>(t: seq<T>, p: seq<T>, x: seq<T>, y: T, q: seq<T>)
    requires t == p + x + [y] + q
    ensures t[..|p|] == p && t[|p|..|p| + |x|] == x && t[|p| + |x|] == y && t[|p| + |x| + 1..] == q
  {
  }

  /** A first piece free of the separator splits off whole. */
  lemma SplitFront(a: string, b: string, sep: char)
    requires sep !in a
    ensures Split(a + [sep] + b, sep) == [a] + Split(b, sep)
  {
    SplitAppend(a, b, sep);
    SplitNone(a, sep);
  }

  /** `#parseDate` on `date weekday time`: the weekday is ignored. */
  lemma ParseDateThree(cal: Calendar, date: string, weekday: string, time: string)
    requires ' ' !in date && ' ' !in weekday && ' ' !in time
    ensures ParseDate(cal, date + " " + weekday + " " + time) == cal.read(date + "T" + time)
  {
    var rest := weekday + [' '] + time;
    assert date + " " + weekday + " " + time == date + [' '] + rest;
    SplitFront(date, rest, ' ');
    SplitFront(weekday, time, ' ');
    SplitNone(time, ' ');
  }

  /** `#parseDate` on `date time`. */
  lemma ParseDateTwo(cal: Calendar, date: string, time: string)
    requires ' ' !in date && ' ' !in time
    ensures ParseDate(cal, date + " " + time) == cal.read(date + "T" + time)
  {
    SplitFront(date, time, ' ');
    SplitNone(time, ' ');
  }

  /** `#parseDate` on a date alone: the time is midnight. */
  lemma ParseDateOne(cal: Calendar, date: string)
    requires ' ' !in date
    ensures ParseDate(cal, date) == cal.read(date + "T00:00:00")
  {
    SplitNone(date, ' ');
    assert date + "T" + "00:00:00" == date + "T00:00:00";
  }

  /** A date the calendar writes reads back as the same instant. */
  lemma ParseDateStamp(cal: Calendar, t: int)
    requires Faithful(cal)
    ensures ParseDate(cal, Stamp(cal, t)) == t
  {
    ParseDateThree(cal, cal.date(t), cal.weekday(t), cal.time(t));
  }

  /** A run of digits holds no colon. */
  lemma DigitsNoColon(s: string)
    requires AllDigits(s)
    ensures ':' !in s
  {
    assert forall i :: 0 <= i < |s| ==> IsDigit(s[i]);
  }

  /** The first colon of `hs:tail` follows the hours. */
  lemma HoursColon(r: string, hs: string, tail: string)
    requires |hs| >= 1 && AllDigits(hs) && r == hs + [':'] + tail
    ensures IndexOf(r, ':', 0) == |hs| && r[..|hs|] == hs && r[|hs| + 1..] == tail
  {
    DigitsNoColon(hs);
    assert forall k :: 0 <= k < |hs| ==> r[k] == hs[k];
    IndexOfAt(r, ':', 0, |hs|);
  }

  /** `#parseDuration` on `H:MM`: the seconds default to zero. */
  lemma ParseDurationHm(r: string, hs: string, ms: string)
    requires |hs| >= 1 && AllDigits(hs) && |ms| == 2 && AllDigits(ms) && r == hs + ":" + ms
    ensures DurationShape(r)
    ensures ParseDuration(Some(r)) == Some(DigitsValue(hs) * 3600 + DigitsValue(ms) * 60)
  {
    HoursColon(r, hs, ms);
    DigitsNoColon(hs);
    SplitFront(hs, ms, ':');
    DigitsSplit(ms);
    assert Split(r, ':') == [hs, ms];
  }

  /** `#parseDuration` on a text split into three digit runs. */
  lemma ParseDurationOfParts(r: string, hs: string, ms: string, ss: string)
    requires DurationShape(r) && Split(r, ':') == [hs, ms, ss]
    requires AllDigits(hs) && AllDigits(ms) && AllDigits(ss)
    ensures ParseDuration(Some(r)) == Some(DigitsValue(hs) * 3600 + DigitsValue(ms) * 60 + DigitsValue(ss))
  {
  }

  /** `H:MM:SS` splits at its two colons. */
  lemma HmsSplit(r: string, hs: string, ms: string, ss: string)
    requires AllDigits(hs) && AllDigits(ms) && AllDigits(ss) && r == hs + [':'] + (ms + [':'] + ss)
    ensures Split(r, ':') == [hs, ms, ss]
  {
    DigitsNoColon(hs);
    DigitsNoColon(ms);
    SplitFront(hs, ms + [':'] + ss, ':');
    SplitFront(ms, ss, ':');
    DigitsSplit(ss);
  }

  /** `H:MM:SS` has the shape the clock pattern accepts. */
  lemma HmsShape(r: string, hs: string, ms: string, ss: string)
    requires |hs| >= 1 && AllDigits(hs) && |ms| == 2 && AllDigits(ms) && |ss| == 2 && AllDigits(ss)
    requires r == hs + [':'] + (ms + [':'] + ss)
    ensures DurationShape(r)
  {
    var rest := ms + [':'] + ss;
    HoursColon(r, hs, rest);
    assert rest[..2] == ms && rest[2] == ':' && rest[3..] == ss;
  }

  /** `#parseDuration` on `H:MM:SS`: hours, minutes and seconds added up. */
  lemma ParseDurationHms(r: string, hs: string, ms: string, ss: string)
    requires |hs| >= 1 && AllDigits(hs) && |ms| == 2 && AllDigits(ms) && |ss| == 2 && AllDigits(ss)
    requires r == hs + ":" + ms + ":" + ss
    ensures DurationShape(r)
    ensures ParseDuration(Some(r)) == Some(DigitsValue(hs) * 3600 + DigitsValue(ms) * 60 + DigitsValue(ss))
  {
    assert r == hs + [':'] + (ms + [':'] + ss);
    HmsShape(r, hs, ms, ss);
    HmsSplit(r, hs, ms, ss);
    ParseDurationOfParts(r, hs, ms, ss);
  }

  /** A text `H:MM:SS` whose fields add up to `d` reads back as `d`. */
  lemma ParseHmsTotal(r: string, d: int)
    requires HmsTotal(r, d) && r[|r| - 6] == ':' && r[|r| - 3] == ':'
    ensures DurationShape(r) && ParseDuration(Some(r)) == Some(d)
  {
    var hs, ms, ss := r[..|r| - 6], r[|r| - 5..|r| - 3], r[|r| - 2..];
    assert r == hs + ":" + ms + ":" + ss;
    ParseDurationHms(r, hs, ms, ss);
  }

  /** A non-negative duration written by `formatLogbookDuration` reads back as itself. */
  lemma ParseDurationFormat(d: nat)
    ensures DurationShape(FormatLogbookDuration(Some(d)))
    ensures ParseDuration(Some(FormatLogbookDuration(Some(d)))) == Some(d)
  {
    FormatLogbookDurationFields(d);
    FormatLogbookDurationAddsUp(d);
    ParseHmsTotal(FormatLogbookDuration(Some(d)), d);
  }

  /** The arrow and duration after `--[end]`. */
  lemma MatchArrowOf(dtext: string)
    requires dtext == "" || DurationShape(dtext)
    ensures MatchArrow(" => " + dtext) == Some(if dtext == "" then None else Some(dtext))
  {
    var u := " => " + dtext;
    SkipWhitespaceAt(u, 0, 1);
    assert u[1..3] == "=>";
    if dtext != "" {
      assert IsDigit(dtext[..IndexOf(dtext, ':', 0)][0]);
    }
    SkipWhitespaceAt(u, 3, 4);
    assert u[4..] == dtext;
  }

  /** `MatchEnd` on `--[end]` followed by what `MatchArrow` accepts. */
  lemma MatchEndAt(t: string, c: nat)
    requires 3 < c < |t| && t[..3] == "--[" && IndexOf(t, ']', 3) == c && MatchArrow(t[c + 1..]).Some?
    ensures MatchEnd(t) == Some((Some(t[3..c]), MatchArrow(t[c + 1..]).value))
  {
  }

  /** `--[end] => duration` after the start bracket. */
  lemma MatchEndOf(etext: string, dtext: string)
    requires Token'(etext) && (dtext == "" || DurationShape(dtext))
    ensures MatchEnd("--[" + etext + "] => " + dtext) == Some((Some(etext), if dtext == "" then None else Some(dtext)))
  {
    var t := "--[" + etext + "] => " + dtext;
    var c := 3 + |etext|;
    Pieces(t, "--[", etext, ']', " => " + dtext);
    IndexOfAt(t, ']', 3, c);
    MatchArrowOf(dtext);
    MatchEndAt(t, c);
  }

  /** ` [start]` and whatever `MatchEnd` accepts after it. */
  lemma MatchBracketOf(stext: string, tail: string)
    requires Token'(stext) && MatchEnd(tail).Some?
    ensures MatchBracket(" [" + stext + "]" + tail) == Some(ClockFields(stext, MatchEnd(tail).value.0, MatchEnd(tail).value.1))
  {
    var s := " [" + stext + "]" + tail;
    var c := 2 + |stext|;
    Pieces(s, " [", stext, ']', tail);
    SkipWhitespaceAt(s, 0, 1);
    IndexOfAt(s, ']', 2, c);
  }

  /** Leading whitespace, then `CLOCK:`. */
  lemma MatchClockOf(w: string, rest: string)
    requires AllWhitespace(w)
    ensures MatchClock(w + "CLOCK:" + rest) == MatchBracket(rest)
  {
    var text := w + "CLOCK:" + rest;
    SkipWhitespaceAt(text, 0, |w|);
    assert text[|w|..|w| + 6] == "CLOCK:" && text[|w| + 6..] == rest;
  }

  /** An indentation unit: spaces and tabs only. */
  predicate Indent(unit: string) {
    forall i :: 0 <= i < |unit| ==> IsBlank(unit[i])
  }

  lemma {:induction false} RepeatIndent(unit: string, k: nat)
    requires Indent(unit)
    ensures Indent(Repeat(unit, k)) && AllWhitespace(Repeat(unit, k))
  {
    if k > 0 {
      RepeatIndent(unit, k - 1);
      var r := Repeat(unit, k);
      assert forall i :: 0 <= i < |r| ==> IsBlank(r[i]) by {
        forall i | 0 <= i < |r| ensures IsBlank(r[i]) {
          if i >= |unit| {
            assert r[i] == Repeat(unit, k - 1)[i - |unit|];
          }
        }
      }
    }
  }

  /** A stamp is a bracket capture: non-empty and without `]`. */
  lemma StampToken(cal: Calendar, t: int)
    requires Faithful(cal)
    ensures Token'(Stamp(cal, t))
  {
    assert Token(cal.date(t)) && Token(cal.weekday(t)) && Token(cal.time(t));
  }

  /** An entry the text form keeps whole: a duration only on a closed entry, and not negative. */
  predicate Writable(e: ClockEntry) {
    e.duration.Some? ==> e.end.Some? && e.duration.value >= 0
  }

  /** The duration text a clock line carries after `=> `. */
  lemma DurationText(e: ClockEntry)
    requires Writable(e)
    ensures var dtext := FormatLogbookDuration(e.duration);
      && (dtext == "" || DurationShape(dtext))
      && (if dtext == "" then None else Some(dtext)) == (if e.duration.Some? then Some(dtext) else None)
  {
    if e.duration.Some? {
      ParseDurationFormat(e.duration.value);
    }
  }

  /** What `MatchEnd` captures after `[start]` on a written clock line. */
  lemma SecondHalfFields(cal: Calendar, e: ClockEntry)
    requires Faithful(cal) && Writable(e)
    ensures MatchEnd(SecondHalf(cal, e)) == Some((
      if e.end.Some? then Some(Stamp(cal, e.end.value)) else None,
      if e.duration.Some? then Some(FormatLogbookDuration(e.duration)) else None))
  {
    if e.end.Some? {
      StampToken(cal, e.end.value);
      DurationText(e);
      MatchEndOf(Stamp(cal, e.end.value), FormatLogbookDuration(e.duration));
    }
  }

  /** A clock line is its indentation, `CLOCK:`, then ` [start]` and the second half. */
  lemma ClockLinePieces(cal: Calendar, e: ClockEntry, k: nat, unit: string)
    ensures ClockLine(cal, e, k, unit) == Repeat(unit, k) + "CLOCK:" + (" [" + Stamp(cal, e.start) + "]" + SecondHalf(cal, e))
  {
  }

  /** What the clock pattern captures on a written clock line. */
  lemma ClockLineFields(cal: Calendar, e: ClockEntry, k: nat, unit: string)
    requires Faithful(cal) && Indent(unit) && Writable(e)
    ensures MatchClock(ClockLine(cal, e, k, unit)) == Some(ClockFields(
      Stamp(cal, e.start),
      if e.end.Some? then Some(Stamp(cal, e.end.value)) else None,
      if e.duration.Some? then Some(FormatLogbookDuration(e.duration)) else None))
  {
    var rest := " [" + Stamp(cal, e.start) + "]" + SecondHalf(cal, e);
    RepeatIndent(unit, k);
    StampToken(cal, e.start);
    SecondHalfFields(cal, e);
    MatchBracketOf(Stamp(cal, e.start), SecondHalf(cal, e));
    ClockLinePieces(cal, e, k, unit);
    MatchClockOf(Repeat(unit, k), rest);
  }

  /** `#parseClock` on a line whose captures are `f`. */
  lemma ParseClockOf(cal: Calendar, line: ParseLine, f: ClockFields)
    requires MatchClock(line.text) == Some(f)
    ensures ParseClock(cal, line) == Some(ClockEntry(
      ParseDate(cal, f.start), if f.end.Some? then Some(ParseDate(cal, f.end.value)) else None,
      ParseDuration(f.duration), Some(line.from), Some(line.from + |line.text|)))
  {
  }

  /**
   * A written clock line reads back as the same entry, now carrying the
   * offsets of the line it was read from.
   */
  lemma ParseClockLine(cal: Calendar, e: ClockEntry, k: nat, unit: string, line: ParseLine)
    requires Faithful(cal) && Indent(unit) && Writable(e) && line.text == ClockLine(cal, e, k, unit)
    ensures ParseClock(cal, line) == Some(e.(from := Some(line.from), to := Some(line.from + |line.text|)))
  {
    ClockLineFields(cal, e, k, unit);
    ParseClockOf(cal, line, MatchClock(line.text).value);
    ParseDateStamp(cal, e.start);
    if e.end.Some? {
      ParseDateStamp(cal, e.end.value);
    }
    if e.duration.Some? {
      ParseDurationFormat(e.duration.value);
    }
  }

  /** After its indentation a line reads `word`. */
  lemma MarkerOf(w: string, word: string)
    requires AllWhitespace(w) && |word| > 0 && !IsWhitespace(word[0])
    ensures IsMarker(w + word, word)
  {
    SkipWhitespaceAt(w + word, 0, |w|);
    assert (w + word)[|w|..] == word;
  }

  /** A clock line is not an `:END:` line: after its indentation comes `C`. */
  lemma ClockLineNotEnd(cal: Calendar, e: ClockEntry, k: nat, unit: string)
    requires Indent(unit)
    ensures !IsDrawerEnd(ClockLine(cal, e, k, unit))
  {
    var text := ClockLine(cal, e, k, unit);
    var w := Repeat(unit, k);
    RepeatIndent(unit, k);
    SkipWhitespaceAt(text, 0, |w|);
    assert text[|w|] == 'C';
    assert UpperAscii(text[|w|..][0]) != UpperAscii(":END:"[0]);
  }

  /** The kind of a written clock line. */
  lemma ClockLineKind(cal: Calendar, doc: seq<ParseLine>, n: int, e: ClockEntry, k: nat, unit: string)
    requires Faithful(cal) && Indent(unit) && Writable(e) && 1 <= n <= |doc| && doc[n - 1].text == ClockLine(cal, e, k, unit)
    ensures Kinds(cal, doc)[n - 1] == Clock(e.(from := Some(doc[n - 1].from), to := Some(doc[n - 1].from + |doc[n - 1].text|)))
  {
    ClockLineNotEnd(cal, e, k, unit);
    ParseClockLine(cal, e, k, unit, doc[n - 1]);
    ClockKind(cal, doc, n, ParseClock(cal, doc[n - 1]));
  }

  /** The entries of a drawer whose clock lines are lines `n + 1` onwards of `doc`, as `parse` reads them. */
  function Placed(entries: seq<ClockEntry>, doc: seq<ParseLine>, n: int): (r: seq<ClockEntry>)
    requires 0 <= n && n + |entries| <= |doc|
    ensures |r| == |entries|
    ensures forall i :: 0 <= i < |r| ==>
      r[i].start == entries[i].start && r[i].end == entries[i].end && r[i].duration == entries[i].duration
  {
    seq(|entries|, i requires 0 <= i < |entries| =>
      entries[i].(from := Some(doc[n + i].from), to := Some(doc[n + i].from + |doc[n + i].text|)))
  }

  /** Lines `n` to `n + |lines| - 1` of `doc` read `lines`. */
  predicate LinesAt(doc: seq<ParseLine>, n: int, lines: seq<string>) {
    && 1 <= n && n - 1 + |lines| <= |doc|
    && forall i :: 0 <= i < |lines| ==> doc[n - 1 + i].text == lines[i]
  }

  /** The first and last written lines are the drawer markers. */
  lemma WrittenMarkers(cal: Calendar, doc: seq<ParseLine>, n: int, entries: seq<ClockEntry>, k: nat, unit: string)
    requires Indent(unit) && LinesAt(doc, n, DrawerLines(cal, entries, k, unit))
    ensures IsDrawerStart(doc[n - 1].text) && IsDrawerEnd(doc[n + |entries|].text)
  {
    var lines := DrawerLines(cal, entries, k, unit);
    RepeatIndent(unit, k);
    assert doc[n - 1].text == lines[0];
    MarkerOf(Repeat(unit, k), ":LOGBOOK:");
    assert doc[n + |entries|].text == lines[|lines| - 1];
    MarkerOf(Repeat(unit, k), ":END:");
  }

  /** The `i`-th written clock line classifies as the `i`-th entry at that line's offsets. */
  lemma WrittenClock(cal: Calendar, doc: seq<ParseLine>, n: int, entries: seq<ClockEntry>, k: nat, unit: string, i: int)
    requires Faithful(cal) && Indent(unit) && 0 <= i < |entries| && Writable(entries[i])
    requires LinesAt(doc, n, DrawerLines(cal, entries, k, unit))
    ensures Kinds(cal, doc)[n + i] == Clock(Placed(entries, doc, n)[i])
  {
    assert doc[n + i].text == DrawerLines(cal, entries, k, unit)[i + 1];
    ClockLineKind(cal, doc, n + i + 1, entries[i], k, unit);
  }

  /** The written drawer's body lines classify as its clock entries, then the end marker. */
  lemma WrittenBody(cal: Calendar, doc: seq<ParseLine>, n: int, entries: seq<ClockEntry>, k: nat, unit: string)
    requires Faithful(cal) && Indent(unit) && (forall i :: 0 <= i < |entries| ==> Writable(entries[i]))
    requires 1 < n && LinesAt(doc, n, DrawerLines(cal, entries, k, unit))
    ensures IsDrawerStart(doc[n - 1].text)
    ensures ClocksUntilEnd(Kinds(cal, doc), n + 1, n + |entries| + 1, Placed(entries, doc, n))
  {
    var kinds := Kinds(cal, doc);
    var clocks := Placed(entries, doc, n);
    WrittenMarkers(cal, doc, n, entries, k, unit);
    EndKind(cal, doc, n + |entries| + 1);
    forall i | 0 <= i < |entries|
      ensures kinds[n + i] == Clock(clocks[i])
    {
      WrittenClock(cal, doc, n, entries, k, unit, i);
    }
    ClocksUntilEndAll(kinds, n + 1, n + |entries| + 1, clocks);
  }

  /**
   * A drawer written with `Logbook.toString` at line `n` of a document
   * other than its first line reads back: `parse` returns a logbook from the
   * start of its `:LOGBOOK:` line to the end of its `:END:` line, with the
   * same entries at the offsets of their lines.
   */
  lemma ParseWritten(cal: Calendar, doc: seq<ParseLine>, n: int, entries: seq<ClockEntry>, k: nat, unit: string)
    requires Faithful(cal) && Indent(unit) && (forall i :: 0 <= i < |entries| ==> Writable(entries[i]))
    requires 1 < n && LinesAt(doc, n, DrawerLines(cal, entries, k, unit))
    ensures ParseSpec(Kinds(cal, doc), doc, n, None)
         == Success(Some(Drawer(doc[n - 1].from, doc[n + |entries|].to, Placed(entries, doc, n))))
  {
    var kinds := Kinds(cal, doc);
    var clocks := Placed(entries, doc, n);
    WrittenBody(cal, doc, n, entries, k, unit);
    SpecStart(kinds, doc, n, None);
    BodyComplete(kinds, doc, n + 1, |doc|, doc[n - 1].from, [], n + |entries| + 1, clocks);
    assert [] + clocks == clocks;
  }

  /** An indentation unit holds no newline. */
  lemma IndentNoNewline(unit: string)
    requires Indent(unit)
    ensures '\n' !in unit
  {
    assert forall i :: 0 <= i < |unit| ==> IsBlank(unit[i]);
  }

  /**
   * A rendered drawer between two pieces of an editor document occupies the
   * lines right after the lines of the piece before it.
   */
  lemma RenderedLines(cal: Calendar, entries: seq<ClockEntry>, k: nat, unit: string, pre: string, post: string)
    requires Faithful(cal) && Indent(unit)
    ensures LinesAt(EditorLines(pre + "\n" + Render(cal, entries, k, unit) + "\n" + post),
                    |Split(pre, '\n')| + 1, DrawerLines(cal, entries, k, unit))
  {
    var text := Render(cal, entries, k, unit);
    var s := pre + "\n" + text + "\n" + post;
    var doc := EditorLines(s);
    var lines := DrawerLines(cal, entries, k, unit);
    assert s == pre + ['\n'] + (text + ['\n'] + post);
    SplitAppend(pre, text + ['\n'] + post, '\n');
    SplitAppend(text, post, '\n');
    IndentNoNewline(unit);
    RenderLines(cal, entries, k, unit);
    EditorLinesSplit(s);
    var texts := Split(pre, '\n') + (lines + Split(post, '\n'));
    assert Texts(doc) == texts;
    forall i | 0 <= i < |lines|
      ensures doc[|Split(pre, '\n')| + i].text == lines[i]
    {
      assert texts[|Split(pre, '\n')| + i] == lines[i];
    }
  }

  /**
   * Serialise then parse: a drawer rendered below the text `pre` of an
   * editor document, and followed by `post`, reads back at its first line
   * as a logbook spanning exactly its lines, whose entries have the same
   * starts, ends and durations as the rendered ones.
   */
  lemma DrawerRoundTrip(cal: Calendar, entries: seq<ClockEntry>, k: nat, unit: string, pre: string, post: string)
    requires Faithful(cal) && Indent(unit) && (forall i :: 0 <= i < |entries| ==> Writable(entries[i]))
    ensures var doc := EditorLines(pre + "\n" + Render(cal, entries, k, unit) + "\n" + post);
      var n := |Split(pre, '\n')| + 1;
      && n + |entries| + 1 <= |doc|
      && ParseSpec(Kinds(cal, doc), doc, n, None)
         == Success(Some(Drawer(doc[n - 1].from, doc[n + |entries|].to, Placed(entries, doc, n))))
  {
    var doc := EditorLines(pre + "\n" + Render(cal, entries, k, unit) + "\n" + post);
    var n := |Split(pre, '\n')| + 1;
    RenderedLines(cal, entries, k, unit, pre, post);
    ParseWritten(cal, doc, n, entries, k, unit);
  }

  /**
   * What `Logbook.toString` writes can be read back: once completed, an
   * entry whose end is not before its start, and whose cached duration (if
   * any) belongs to a closed entry and is not negative, is `Writable`.
   */
  lemma CompleteWritable(e: ClockEntry)
    requires e.end.Some? ==> e.end.value >= e.start
    requires e.duration.Some? ==> e.end.Some? && e.duration.value >= 0
    ensures Writable(Complete(e))
  {
  }
}
