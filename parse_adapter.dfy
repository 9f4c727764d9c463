/**
 * The line adapter (`src/logbook/parse_adapter.ts`): a document served as
 * 1-based lines, each with its absolute `from`/`to` offsets.
 *
 * `StringParseAdapter` finds its lines with `^.*$` under the `g`, `m` and `d`
 * flags.  In that pattern `.` stops at every JavaScript line terminator and
 * `^`/`$` match next to one, so the matches are exactly the maximal runs of
 * text between terminators, an empty run included: a line per terminator
 * plus one.  The editor's document (a CodeMirror `Text`) is split at `\n`
 * only.  Both are `LinesFrom` with their own separator.
 */
module ParseAdapter {
  import opened Wrappers
  import opened Chars

  /** `ParseLine`: where a line starts and ends, its 1-based number, its text and its length. */
  datatype ParseLine = ParseLine(from: int, to: int, number: int, text: string, length: int)

  /** The `ParseLine` constructor, whose `length` defaults to the text's length. */
  function NewParseLine(from: int, to: int, number: int, text: string, length: Option<int>): (l: ParseLine)
    ensures length.None? ==> l.length == |l.text|
    ensures length.Some? ==> l.length == length.value
    ensures l.from == from && l.to == to && l.number == number && l.text == text
  {
    ParseLine(from, to, number, text, length.GetOr(|text|))
  }

  /**
   * Where a document breaks into lines: at every JavaScript line terminator
   * (the string adapter's pattern) or at `\n` only (the editor's documents).
   */
  datatype Separator = Terminators | Newline

  predicate Breaks(sep: Separator, c: char) {
    match sep
    case Terminators => IsLineTerminator(c)
    case Newline => c == '\n'
  }

  /** The first index at or after `i` holding a separator, or `|s|`. */
  function NextBreak(s: string, sep: Separator, i: nat): (j: nat)
    requires i <= |s|
    ensures i <= j <= |s|
    decreases |s| - i
  {
    if i == |s| || Breaks(sep, s[i]) then i else NextBreak(s, sep, i + 1)
  }

  /** `NextBreak` stops at the first separator: none lies before it. */
  lemma {:induction false} NextBreakFirst(s: string, sep: Separator, i: nat)
    requires i <= |s|
    ensures var j := NextBreak(s, sep, i);
      && (forall k :: i <= k < j ==> !Breaks(sep, s[k]))
      && (j < |s| ==> Breaks(sep, s[j]))
    decreases |s| - i
  {
    if i < |s| && !Breaks(sep, s[i]) {
      NextBreakFirst(s, sep, i + 1);
    }
  }

  /** The line of `s` starting at `from`, numbered `number`: it runs up to the next separator. */
  function LineAt(s: string, sep: Separator, from: nat, number: int): (line: ParseLine)
    requires from <= |s|
    ensures line.from == from && from <= line.to <= |s| && line.number == number
  {
    var to := NextBreak(s, sep, from);
    ParseLine(from, to, number, s[from..to], to - from)
  }

  /** The lines of `s` from offset `from` on, numbered from `number`. */
  function LinesFrom(s: string, sep: Separator, from: nat, number: int): (lines: seq<ParseLine>)
    requires from <= |s|
    ensures |lines| >= 1
    decreases |s| - from
  {
    var line := LineAt(s, sep, from, number);
    if line.to == |s| then [line] else [line] + LinesFrom(s, sep, line.to + 1, number + 1)
  }

  /** The table `StringParseAdapter` builds: lines end at every JavaScript line terminator. */
  function SplitLines(s: string): seq<ParseLine> {
    LinesFrom(s, Terminators, 0, 1)
  }

  /** The lines of an editor document. */
  function EditorLines(s: string): seq<ParseLine> {
    LinesFrom(s, Newline, 0, 1)
  }

  /** `l` is a line of `s`: its text is the slice it spans and holds no separator. */
  predicate LineOk(s: string, sep: Separator, l: ParseLine) {
    && 0 <= l.from <= l.to <= |s| && l.text == s[l.from..l.to] && l.length == l.to - l.from
    && forall i :: 0 <= i < |l.text| ==> !Breaks(sep, l.text[i])
  }

  /**
   * Each line of `lines` but the last ends at a separator and the next one
   * starts just after it; the last line ends at the end of `s`.
   */
  predicate Chained(s: string, sep: Separator, lines: seq<ParseLine>)
    decreases |lines|
  {
    && |lines| >= 1
    && if |lines| == 1 then lines[0].to == |s|
       else
         && 0 <= lines[0].to < |s| && Breaks(sep, s[lines[0].to])
         && lines[1].from == lines[0].to + 1
         && Chained(s, sep, lines[1..])
  }

  /**
   * `lines` is the line table of `s` from `from` on: numbered from `number`,
   * each a line of `s`, the first starting at `from` and the rest chained.
   */
  predicate LineTable(s: string, sep: Separator, from: int, number: int, lines: seq<ParseLine>) {
    && |lines| >= 1 && lines[0].from == from
    && (forall k :: 0 <= k < |lines| ==> LineOk(s, sep, lines[k]) && lines[k].number == number + k)
    && Chained(s, sep, lines)
  }

  /** The line at `from` is a line of `s`, ended by a separator unless it reaches the end. */
  lemma LineAtOk(s: string, sep: Separator, from: nat, number: int)
    requires from <= |s|
    ensures var line := LineAt(s, sep, from, number);
      LineOk(s, sep, line) && (line.to < |s| ==> Breaks(sep, s[line.to]))
  {
    NextBreakFirst(s, sep, from);
  }

  /** A line followed by the line table of what follows its separator is a line table; so is a last line alone. */
  lemma LineTableCons(s: string, sep: Separator, line: ParseLine, rest: seq<ParseLine>, lines: seq<ParseLine>)
    requires LineOk(s, sep, line) && lines == [line] + rest
    requires rest == [] ==> line.to == |s|
    requires rest != [] ==> line.to < |s| && Breaks(sep, s[line.to]) && LineTable(s, sep, line.to + 1, line.number + 1, rest)
    ensures LineTable(s, sep, line.from, line.number, lines)
  {
    forall k | 0 <= k < |lines|
      ensures LineOk(s, sep, lines[k]) && lines[k].number == line.number + k
    {
      if k > 0 {
        assert lines[k] == rest[k - 1];
      }
    }
    assert lines[1..] == rest;
  }

  /** In a line table, line `k + 1` starts just after the separator that ends line `k`. */
  lemma {:induction false} ChainedAt(s: string, sep: Separator, lines: seq<ParseLine>, k: nat)
    requires Chained(s, sep, lines) && k + 1 < |lines|
    ensures 0 <= lines[k].to < |s| && Breaks(sep, s[lines[k].to]) && lines[k + 1].from == lines[k].to + 1
  {
    if k > 0 {
      ChainedAt(s, sep, lines[1..], k - 1);
    }
  }

  /** In a line table, the last line ends at the end of the text. */
  lemma {:induction false} ChainedLast(s: string, sep: Separator, lines: seq<ParseLine>)
    requires Chained(s, sep, lines)
    ensures lines[|lines| - 1].to == |s|
    decreases |lines|
  {
    if |lines| > 1 {
      ChainedLast(s, sep, lines[1..]);
    }
  }

  /** One step of `LinesFrom`: the line at `from`, then the lines after its separator. */
  lemma LinesFromUnfold(s: string, sep: Separator, from: nat, number: int, line: ParseLine)
    requires from <= |s| && line == LineAt(s, sep, from, number)
    ensures line.to == |s| ==> LinesFrom(s, sep, from, number) == [line]
    ensures line.to < |s| ==> LinesFrom(s, sep, from, number) == [line] + LinesFrom(s, sep, line.to + 1, number + 1)
  {
  }

  /** The lines from `from` on form a line table. */
  lemma {:induction false} LinesFromTable(s: string, sep: Separator, from: nat, number: int)
    requires from <= |s|
    ensures LineTable(s, sep, from, number, LinesFrom(s, sep, from, number))
    decreases |s| - from
  {
    var line := LineAt(s, sep, from, number);
    LineAtOk(s, sep, from, number);
    LinesFromUnfold(s, sep, from, number, line);
    if line.to < |s| {
      LinesFromTable(s, sep, line.to + 1, number + 1);
      LineTableCons(s, sep, line, LinesFrom(s, sep, line.to + 1, number + 1), LinesFrom(s, sep, from, number));
    } else {
      LineTableCons(s, sep, line, [], LinesFrom(s, sep, from, number));
    }
  }

  /**
   * The table of a whole document: line `n` (at index `n - 1`) is numbered
   * `n`, its text is the slice from `from` to `to` and `to - from` is its
   * length; line 1 starts at 0, each next line starts one past the end of the
   * previous one, and the last line ends at the end of the text.
   */
  lemma SplitLinesTable(s: string)
    ensures LineTable(s, Terminators, 0, 1, SplitLines(s))
  {
    LinesFromTable(s, Terminators, 0, 1);
  }

  /** The same for an editor document. */
  lemma EditorLinesTable(s: string)
    ensures LineTable(s, Newline, 0, 1, EditorLines(s))
  {
    LinesFromTable(s, Newline, 0, 1);
  }

  /** How many separators `s` holds. */
  function CountBreaks(s: string, sep: Separator): nat {
    if s == [] then 0 else (if Breaks(sep, s[0]) then 1 else 0) + CountBreaks(s[1..], sep)
  }

  /** A run without separators adds no breaks. */
  lemma {:induction false} CountBreaksSkip(s: string, sep: Separator, from: nat, to: nat)
    requires from <= to <= |s|
    requires forall k :: from <= k < to ==> !Breaks(sep, s[k])
    ensures CountBreaks(s[from..], sep) == CountBreaks(s[to..], sep)
    decreases |s| - from
  {
    if from < to {
      assert s[from..][1..] == s[from + 1..];
      CountBreaksSkip(s, sep, from + 1, to);
    }
  }

  /** There is one line more than there are separators. */
  lemma {:induction false} LinesFromCount(s: string, sep: Separator, from: nat, number: int)
    requires from <= |s|
    ensures |LinesFrom(s, sep, from, number)| == CountBreaks(s[from..], sep) + 1
    decreases |s| - from
  {
    var to := LineAt(s, sep, from, number).to;
    NextBreakFirst(s, sep, from);
    CountBreaksSkip(s, sep, from, to);
    if to < |s| {
      assert s[to..][1..] == s[to + 1..];
      LinesFromCount(s, sep, to + 1, number + 1);
    }
  }

  /** `lines` is the number of line terminators plus one; the empty text has one empty line. */
  lemma SplitLinesCount(s: string)
    ensures |SplitLines(s)| == CountBreaks(s, Terminators) + 1
  {
    LinesFromCount(s, Terminators, 0, 1);
    assert s[0..] == s;
  }

  /** The texts of a table, in order. */
  function Texts(lines: seq<ParseLine>): (texts: seq<string>)
    ensures |texts| == |lines| && forall k :: 0 <= k < |lines| ==> texts[k] == lines[k].text
  {
    if lines == [] then [] else [lines[0].text] + Texts(lines[1..])
  }

  /** The lines after the first in a line table form the line table of the text after the first separator. */
  lemma LineTableTail(s: string, sep: Separator, from: int, number: int, lines: seq<ParseLine>)
    requires LineTable(s, sep, from, number, lines) && |lines| > 1
    ensures 0 <= lines[0].to < |s| && Breaks(sep, s[lines[0].to])
    ensures LineTable(s, sep, lines[0].to + 1, number + 1, lines[1..])
  {
    var rest := lines[1..];
    forall k | 0 <= k < |rest| ensures LineOk(s, sep, rest[k]) && rest[k].number == number + 1 + k {
      assert rest[k] == lines[k + 1];
    }
  }

  lemma TextsCons(line: ParseLine, rest: seq<ParseLine>)
    ensures Texts([line] + rest) == [line.text] + Texts(rest)
  {
    assert ([line] + rest)[1..] == rest;
  }

  lemma TextsStep(lines: seq<ParseLine>, t: string, tail: seq<string>)
    requires |lines| >= 1 && Texts(lines[1..]) == tail && Split(t, '\n') == [lines[0].text] + tail
    ensures Texts(lines) == Split(t, '\n')
  {
    TextsCons(lines[0], lines[1..]);
    assert [lines[0]] + lines[1..] == lines;
  }

  /** `split` of the text from a line's start: the line's text, then the pieces after its separator. */
  lemma LineSplit(s: string, line: ParseLine, tail: seq<string>)
    requires LineOk(s, Newline, line)
    requires line.to < |s| ==> s[line.to] == '\n' && Split(s[line.to + 1..], '\n') == tail
    requires line.to == |s| ==> tail == []
    ensures Split(s[line.from..], '\n') == [line.text] + tail
  {
    var t := s[line.from..];
    var i := line.to - line.from;
    assert t[..i] == line.text;
    SplitAt(t, '\n', i);
    if line.to < |s| {
      assert t[i + 1..] == s[line.to + 1..];
    } else {
      assert t[..i] == t;
    }
  }

  /** The texts of a line table split at `\n` are `split("\n")` of the text it covers. */
  lemma {:induction false} TableSplit(s: string, from: int, number: int, lines: seq<ParseLine>)
    requires LineTable(s, Newline, from, number, lines)
    ensures Texts(lines) == Split(s[from..], '\n')
    decreases |lines|
  {
    assert LineOk(s, Newline, lines[0]);
    if |lines| > 1 {
      LineTableTail(s, Newline, from, number, lines);
      TableSplit(s, lines[0].to + 1, number + 1, lines[1..]);
      LineSplit(s, lines[0], Texts(lines[1..]));
      TextsStep(lines, s[from..], Texts(lines[1..]));
    } else {
      ChainedLast(s, Newline, lines);
      LineSplit(s, lines[0], []);
      assert lines[1..] == [];
      TextsStep(lines, s[from..], []);
    }
  }

  /** The editor's line texts are `split("\n")` of the document. */
  lemma EditorLinesSplit(s: string)
    ensures Texts(EditorLines(s)) == Split(s, '\n')
  {
    EditorLinesTable(s);
    TableSplit(s, 0, 1, EditorLines(s));
    assert s[0..] == s;
  }

  /** Joining the editor's line texts with `\n` gives the document back. */
  lemma EditorLinesJoin(s: string)
    ensures Join(Texts(EditorLines(s)), '\n') == s
  {
    EditorLinesSplit(s);
    JoinSplit(s, '\n');
  }

  /** What `line(n)` throws for a line number outside the table. */
  datatype RangeError = RangeError(line: int, lines: int)

  /** `line(n)` of an adapter serving `lines`: line `n` when `1 <= n <= |lines|`, else a `RangeError`. */
  function LineOf(lines: seq<ParseLine>, n: int): (r: Result<ParseLine, RangeError>)
    ensures r.Success? <==> 1 <= n <= |lines|
    ensures r.Success? ==> r.value == lines[n - 1]
    ensures r.Failure? ==> r.error == RangeError(n, |lines|)
  {
    if 1 <= n <= |lines| then Success(lines[n - 1]) else Failure(RangeError(n, |lines|))
  }

  /**
   * The loop of `content`: numbers each match of the line pattern, from the
   * first, and records it; gives the table and the number of the last match.
   */
  method MatchLines(text: string) returns (acc: seq<ParseLine>, number: int)
    ensures acc == SplitLines(text) && number == |acc|
  {
    acc := [];
    number := 0;
    var from := 0;
    while from <= |text|
      invariant from <= |text| + 1 && number == |acc|
      invariant Found(text, acc, from)
      decreases |text| + 1 - from
    {
      var line := LineAt(text, Terminators, from, number + 1);
      MatchStep(text, acc, from, line);
      acc := acc + [line];
      number := number + 1;
      from := line.to + 1;
    }
  }

  /**
   * `acc` holds the lines of `text` before offset `from`: the lines from `from`
   * on complete it to the whole table, and past the end it is the whole table.
   */
  predicate Found(text: string, acc: seq<ParseLine>, from: nat) {
    && (from <= |text| ==> acc + LinesFrom(text, Terminators, from, |acc| + 1) == SplitLines(text))
    && (from == |text| + 1 ==> acc == SplitLines(text))
  }

  /** One turn of `MatchLines`: the next match moves from the lines still to find to the lines found. */
  lemma MatchStep(text: string, acc: seq<ParseLine>, from: nat, line: ParseLine)
    requires from <= |text| && Found(text, acc, from)
    requires line == LineAt(text, Terminators, from, |acc| + 1)
    ensures line.to + 1 <= |text| + 1 && Found(text, acc + [line], line.to + 1)
  {
    LinesFromUnfold(text, Terminators, from, |acc| + 1, line);
    if line.to < |text| {
      var rest := LinesFrom(text, Terminators, line.to + 1, |acc| + 2);
      assert acc + ([line] + rest) == (acc + [line]) + rest;
    }
  }

  /**
   * `StringParseAdapter`: serves the lines of a string, building the table on
   * first use and keeping it.  `content` is the cache (`#content`, unset
   * until first use), `lineCount` the `#lines` counter.
   */
  class StringParseAdapter {
    const text: string
    var content: Option<seq<ParseLine>>
    var lineCount: int

    /** Once built, the cache holds the text's line table and its size. */
    predicate Valid()
      reads this
    {
      content.Some? ==> content.value == SplitLines(text) && lineCount == |content.value|
    }

    constructor(text: string)
      ensures this.text == text && content == None && lineCount == 0
      ensures Valid()
    {
      this.text := text;
      content := None;
      lineCount := 0;
    }

    /**
     * `content`: on first use, numbers each match of the line pattern and
     * records it; afterwards returns the same table.
     */
    method Content() returns (table: seq<ParseLine>)
      requires Valid()
      modifies this
      ensures Valid() && content == Some(SplitLines(text)) && table == SplitLines(text)
      ensures old(content).Some? ==> content == old(content) && lineCount == old(lineCount)
    {
      if content.None? {
        var acc, number := MatchLines(text);
        content := Some(acc);
        lineCount := number;
      }
      table := content.value;
    }

    /** `lines`: the size of the table, building it first if need be. */
    method Lines() returns (n: int)
      requires Valid()
      modifies this
      ensures Valid() && content == Some(SplitLines(text)) && n == |SplitLines(text)|
      ensures old(content).Some? ==> content == old(content) && lineCount == old(lineCount)
    {
      if content.None? {
        var _ := Content();
      }
      n := lineCount;
    }

    /** `line(n)`: line `n` of the table, or the `RangeError` it throws when there is no such line. */
    method Line(n: int) returns (r: Result<ParseLine, RangeError>)
      requires Valid()
      modifies this
      ensures Valid() && content == Some(SplitLines(text))
      ensures r == LineOf(SplitLines(text), n)
      ensures old(content).Some? ==> content == old(content) && lineCount == old(lineCount)
    {
      var count := Lines();
      var table := Content();
      if n <= count && 1 <= n <= |table| {
        return Success(table[n - 1]);
      }
      var count2 := Lines();
      return Failure(RangeError(n, count2));
    }
  }

  /** Once the table is built, `line(n)` answers the same every time and leaves the adapter as it was. */
  method LineTwice(a: StringParseAdapter, n: int) returns (first: Result<ParseLine, RangeError>, second: Result<ParseLine, RangeError>)
    requires a.Valid()
    modifies a
    ensures first == second == LineOf(SplitLines(a.text), n)
    ensures a.content == Some(SplitLines(a.text))
  {
    first := a.Line(n);
    ghost var cached := a.content;
    second := a.Line(n);
    assert a.content == cached;
  }
}
