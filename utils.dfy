/** The range test and the duration format shared by the editor code and the logbook. */
module Utils {
  import opened Wrappers
  import opened Chars

  /**
   * Whether the closed range [fromB, toB] touches the closed range [fromA, toA]:
   * it fails to only when B lies wholly before fromA or wholly after toA.
   */
  function IsRangeOverlap(fromA: int, toA: int, fromB: int, toB: int): (overlap: bool)
    ensures fromA <= toA && fromB <= toB ==> (overlap <==> fromB <= toA && fromA <= toB)
    ensures fromA <= toA && fromB == toB && (fromB == fromA || fromB == toA) ==> overlap
  {
    !((fromB < fromA && toB < fromA) || (fromB > toA && toB > toA))
  }

  /** For well-formed ranges the test does not depend on which range is A. */
  lemma RangeOverlapSymmetric(fromA: int, toA: int, fromB: int, toB: int)
    requires fromA <= toA && fromB <= toB
    ensures IsRangeOverlap(fromA, toA, fromB, toB) == IsRangeOverlap(fromB, toB, fromA, toA)
  {
  }

  /** Ranges that only share an endpoint count as overlapping. */
  lemma RangeOverlapTouching(fromA: int, toA: int, fromB: int, toB: int)
    requires fromA <= toA && fromB <= toB
    requires toB == fromA || fromB == toA
    ensures IsRangeOverlap(fromA, toA, fromB, toB)
  {
  }

  /** JavaScript's `%`, whose remainder takes the sign of the dividend. */
  function TruncRem(a: int, b: int): (r: int)
    requires b > 0
    ensures a >= 0 ==> 0 <= r < b
    ensures a < 0 ==> -b < r <= 0
  {
    if a >= 0 then a % b else -((-a) % b)
  }

  /**
   * `formatLogbookDuration` on a whole-second duration: floored total hours,
   * then floored minutes and seconds taken with JavaScript's `% 60`, each
   * padded to two characters; an absent duration gives the empty string.
   */
  function FormatLogbookDuration(duration: Option<int>): (r: string)
    ensures duration.None? <==> r == ""
    ensures duration.Some? ==> |r| >= 8
  {
    match duration
    case None => ""
    case Some(d) =>
      PadStart2(IntToString(d / 3600)) + ":" +
      PadStart2(IntToString(TruncRem(d / 60, 60))) + ":" +
      PadStart2(IntToString(TruncRem(d, 60)))
  }

  /** The three fields of a non-negative duration put back together give the duration. */
  lemma HmsArithmetic(d: nat)
    ensures 0 <= (d / 60) % 60 < 60 && 0 <= d % 60 < 60
    ensures (d / 3600) * 3600 + ((d / 60) % 60) * 60 + d % 60 == d
  {
    var q := d / 60;
    assert d == 60 * q + d % 60;
    assert q == 60 * (q / 60) + q % 60;
    assert q / 60 == d / 3600;
  }

  /** The two-character field of a number below 60. */
  lemma TwoDigitField(n: nat)
    requires n < 60
    ensures var f := PadStart2(IntToString(n)); |f| == 2 && AllDigits(f) && DigitsValue(f) == n
  {
    NatToStringValue(n);
    ZeroPadValue(NatToString(n));
  }

  /**
   * `r` is `H:MM:SS`: all digits apart from the two colons, the hours field
   * at least two digits reading back as `h`, the minutes and seconds fields
   * exactly two digits reading back as `m` and `s`.
   */
  predicate HmsFields(r: string, h: int, m: int, s: int) {
    && |r| >= 8 && r[|r| - 6] == ':' && r[|r| - 3] == ':'
    && AllDigits(r[..|r| - 6]) && AllDigits(r[|r| - 5..|r| - 3]) && AllDigits(r[|r| - 2..])
    && DigitsValue(r[..|r| - 6]) == h && DigitsValue(r[|r| - 5..|r| - 3]) == m && DigitsValue(r[|r| - 2..]) == s
  }

  /** The fields of `H:MM:SS` add back up to `d`, minutes and seconds below 60. */
  predicate HmsTotal(r: string, d: int) {
    && |r| >= 8 && AllDigits(r[..|r| - 6]) && AllDigits(r[|r| - 5..|r| - 3]) && AllDigits(r[|r| - 2..])
    && DigitsValue(r[|r| - 5..|r| - 3]) < 60 && DigitsValue(r[|r| - 2..]) < 60
    && DigitsValue(r[..|r| - 6]) * 3600 + DigitsValue(r[|r| - 5..|r| - 3]) * 60 + DigitsValue(r[|r| - 2..]) == d
  }

  /** Where the three fields of `H:MM:SS` sit, and the values they read back as. */
  lemma HmsSlices(r: string, hs: string, ms: string, ss: string, h: nat, m: nat, s: nat)
    requires |hs| >= 2 && AllDigits(hs) && DigitsValue(hs) == h
    requires |ms| == 2 && AllDigits(ms) && DigitsValue(ms) == m
    requires |ss| == 2 && AllDigits(ss) && DigitsValue(ss) == s
    requires r == hs + ":" + ms + ":" + ss
    ensures HmsFields(r, h, m, s)
  {
    assert r[..|r| - 6] == hs && r[|r| - 5..|r| - 3] == ms && r[|r| - 2..] == ss;
  }

  /**
   * A non-negative duration is written `H:MM:SS`: the hours field reads back
   * as the whole hours (not taken modulo 24), the minutes and seconds fields
   * as the remaining whole minutes and seconds.
   */
  lemma FormatLogbookDurationFields(d: nat)
    ensures HmsFields(FormatLogbookDuration(Some(d)), d / 3600, (d / 60) % 60, d % 60)
  {
    var h, m, s := d / 3600, (d / 60) % 60, d % 60;
    assert TruncRem(d / 60, 60) == m && TruncRem(d, 60) == s;
    assert IntToString(h) == NatToString(h);
    var hs := PadStart2(NatToString(h));
    NatToStringValue(h);
    ZeroPadValue(NatToString(h));
    TwoDigitField(m);
    TwoDigitField(s);
    var ms, ss := PadStart2(IntToString(m)), PadStart2(IntToString(s));
    HmsSlices(FormatLogbookDuration(Some(d)), hs, ms, ss, h, m, s);
  }

  /**
   * The fields of `H:MM:SS` add back up to the duration: minutes and seconds
   * lie below 60 and there is no rollover into days.
   */
  lemma FormatLogbookDurationAddsUp(d: nat)
    ensures HmsTotal(FormatLogbookDuration(Some(d)), d)
  {
    FormatLogbookDurationFields(d);
    HmsArithmetic(d);
  }
}
