/**
 * The text side of the ping probe: finding the first `time=<number> <unit>`
 * reading in the probe's output (the regular expression
 * `time=([0-9.]+) ([a-z]+)` with leftmost-first, greedy matching), turning
 * the number text into an exact value, and normalising milliseconds to
 * seconds. Also the `\r?\n` to space rewriting used for log lines.
 */
module TimeParse {
  import opened Options

  // ---------------------------------------------------------------------
  // Character classes of the pattern

  /** `[0-9.]` */
  predicate IsNumberChar(c: char) {
    ('0' <= c <= '9') || c == '.'
  }

  /** `[a-z]` */
  predicate IsUnitChar(c: char) {
    'a' <= c <= 'z'
  }

  predicate IsDigit(c: char) {
    '0' <= c <= '9'
  }

  /** Text matched by `[0-9.]+`. */
  predicate IsNumberText(t: string) {
    |t| > 0 && forall k :: 0 <= k < |t| ==> IsNumberChar(t[k])
  }

  /** Text matched by `[a-z]+`. */
  predicate IsUnitText(t: string) {
    |t| > 0 && forall k :: 0 <= k < |t| ==> IsUnitChar(t[k])
  }

  // ---------------------------------------------------------------------
  // The pattern, stated declaratively

  /**
   * The pattern matches `s` at position `i`, with `num` as the first group
   * and `unit` as the second.
   */
  ghost predicate PatternAt(s: string, i: int, num: string, unit: string) {
    && 0 <= i
    && i + 6 + |num| + |unit| <= |s|
    && s[i..i + 5] == "time="
    && IsNumberText(num)
    && s[i + 5..i + 5 + |num|] == num
    && s[i + 5 + |num|] == ' '
    && IsUnitText(unit)
    && s[i + 6 + |num|..i + 6 + |num| + |unit|] == unit
  }

  // ---------------------------------------------------------------------
  // The scanner

  /** The match the scanner reports: where it starts and its two groups. */
  datatype TimeMatch = TimeMatch(start: nat, number: string, unit: string)
  {
    /** Index just past the unit. */
    function End(): nat {
      start + 6 + |number| + |unit|
    }
  }

  /** End of the longest run of `[0-9.]` starting at `i`. */
  function NumberEnd(s: string, i: nat): (r: nat)
    requires i <= |s|
    decreases |s| - i
    ensures i <= r <= |s|
    ensures forall k :: i <= k < r ==> IsNumberChar(s[k])
    ensures r == |s| || !IsNumberChar(s[r])
  {
    if i == |s| || !IsNumberChar(s[i]) then i else NumberEnd(s, i + 1)
  }

  /** End of the longest run of `[a-z]` starting at `i`. */
  function UnitEnd(s: string, i: nat): (r: nat)
    requires i <= |s|
    decreases |s| - i
    ensures i <= r <= |s|
    ensures forall k :: i <= k < r ==> IsUnitChar(s[k])
    ensures r == |s| || !IsUnitChar(s[r])
  {
    if i == |s| || !IsUnitChar(s[i]) then i else UnitEnd(s, i + 1)
  }

  /** The match starting exactly at `i`, with the longest unit, if there is one. */
  function MatchAt(s: string, i: nat): Option<TimeMatch>
    requires i <= |s|
  {
    if i + 5 <= |s| && s[i..i + 5] == "time=" then
      var j := NumberEnd(s, i + 5);
      if j > i + 5 && j < |s| && s[j] == ' ' then
        var k := UnitEnd(s, j + 1);
        if k > j + 1 then Some(TimeMatch(i, s[i + 5..j], s[j + 1..k])) else None
      else None
    else None
  }

  /** The leftmost match starting at or after `i`. */
  function FindFrom(s: string, i: nat): (r: Option<TimeMatch>)
    requires i <= |s|
    decreases |s| - i
    ensures r.Some? ==> i <= r.value.start <= |s| && MatchAt(s, r.value.start) == r
    ensures r.Some? ==> forall j :: i <= j < r.value.start ==> MatchAt(s, j).None?
    ensures r.None? ==> forall j :: i <= j <= |s| ==> MatchAt(s, j).None?
  {
    if MatchAt(s, i).Some? then MatchAt(s, i)
    else if i == |s| then None
    else FindFrom(s, i + 1)
  }

  /** The first match in the whole output (FindStringSubmatch). */
  function FindTime(s: string): Option<TimeMatch> {
    FindFrom(s, 0)
  }

  lemma MatchAtSound(s: string, i: nat)
    requires i <= |s| && MatchAt(s, i).Some?
    ensures var m := MatchAt(s, i).value;
      && m.start == i
      && PatternAt(s, i, m.number, m.unit)
      && m.End() <= |s|
      && (m.End() == |s| || !IsUnitChar(s[m.End()]))
  {
  }

  /** Any match at `i` has the scanner's number group and a unit no longer than its own. */
  lemma MatchAtGreedy(s: string, i: nat, num: string, unit: string)
    requires i <= |s| && PatternAt(s, i, num, unit)
    ensures MatchAt(s, i).Some?
    ensures num == MatchAt(s, i).value.number
    ensures |unit| <= |MatchAt(s, i).value.unit|
  {
    var j := NumberEnd(s, i + 5);
    var n := i + 5 + |num|;
    forall k | i + 5 <= k < n ensures IsNumberChar(s[k]) {
      assert s[k] == num[k - i - 5];
    }
    assert j == n;
    var k := UnitEnd(s, j + 1);
    forall q | j + 1 <= q < j + 1 + |unit| ensures IsUnitChar(s[q]) {
      assert s[q] == unit[q - j - 1];
    }
    assert s[j + 1] == unit[0];
    assert k >= j + 1 + |unit|;
  }

  /**
   * What FindTime reports is a match of the pattern, with no match starting
   * earlier and none starting at the same place with a longer unit.
   */
  lemma FindTimeLeftmost(s: string)
    requires FindTime(s).Some?
    ensures var m := FindTime(s).value;
      && PatternAt(s, m.start, m.number, m.unit)
      && (forall j, num, unit {:trigger PatternAt(s, j, num, unit)} ::
            0 <= j < m.start ==> !PatternAt(s, j, num, unit))
      && (forall num, unit {:trigger PatternAt(s, m.start, num, unit)} ::
            PatternAt(s, m.start, num, unit) ==> num == m.number && |unit| <= |m.unit|)
  {
    var m := FindTime(s).value;
    MatchAtSound(s, m.start);
    forall j, num, unit | 0 <= j < m.start ensures !PatternAt(s, j, num, unit) {
      if PatternAt(s, j, num, unit) {
        MatchAtGreedy(s, j, num, unit);
      }
    }
    forall num, unit | PatternAt(s, m.start, num, unit)
      ensures num == m.number && |unit| <= |m.unit|
    {
      MatchAtGreedy(s, m.start, num, unit);
    }
  }

  /** FindTime reports nothing exactly when the pattern occurs nowhere. */
  lemma FindTimeNone(s: string)
    ensures FindTime(s).None? <==>
      forall j, num, unit {:trigger PatternAt(s, j, num, unit)} :: !PatternAt(s, j, num, unit)
  {
    if FindTime(s).None? {
      forall j, num, unit ensures !PatternAt(s, j, num, unit) {
        if PatternAt(s, j, num, unit) {
          MatchAtGreedy(s, j, num, unit);
        }
      }
    } else {
      FindTimeLeftmost(s);
    }
  }

  // ---------------------------------------------------------------------
  // Appending text after a complete match does not change the result

  /** Extending the text keeps a run that stopped before the old end. */
  lemma {:induction false} NumberEndAppend(a: string, b: string, i: nat)
    requires i <= |a| && NumberEnd(a, i) < |a|
    ensures NumberEnd(a + b, i) == NumberEnd(a, i)
    decreases |a| - i
  {
    assert (a + b)[i] == a[i];
    if IsNumberChar(a[i]) {
      NumberEndAppend(a, b, i + 1);
    }
  }

  lemma {:induction false} UnitEndAppend(a: string, b: string, i: nat)
    requires i <= |a| && UnitEnd(a, i) < |a|
    ensures UnitEnd(a + b, i) == UnitEnd(a, i)
    decreases |a| - i
  {
    assert (a + b)[i] == a[i];
    if IsUnitChar(a[i]) {
      UnitEndAppend(a, b, i + 1);
    }
  }

  /**
   * A position `p` holding a character that is neither a number character,
   * a space nor a unit letter stops any match attempt begun early enough
   * before it, so such an attempt sees the same thing in `a` and `a + b`.
   */
  lemma MatchAtAppendBarrier(a: string, b: string, j: nat, p: nat)
    requires j + 5 <= p < |a|
    requires !IsNumberChar(a[p]) && a[p] != ' ' && !IsUnitChar(a[p])
    ensures MatchAt(a + b, j) == MatchAt(a, j)
  {
    var s := a + b;
    assert s[j..j + 5] == a[j..j + 5];
    if a[j..j + 5] == "time=" {
      var n := NumberEnd(a, j + 5);
      assert n <= p;
      NumberEndAppend(a, b, j + 5);
      assert s[n] == a[n];
      if n > j + 5 && a[n] == ' ' {
        assert n + 1 <= p;
        var k := UnitEnd(a, n + 1);
        assert k <= p;
        UnitEndAppend(a, b, n + 1);
        assert s[j + 5..n] == a[j + 5..n];
        assert s[n + 1..k] == a[n + 1..k];
      }
    }
  }

  /** A complete match followed by a non-letter stays where it is when the text is extended. */
  lemma MatchAtAppendComplete(a: string, b: string, i: nat)
    requires i <= |a| && MatchAt(a, i).Some? && MatchAt(a, i).value.End() < |a|
    ensures MatchAt(a + b, i) == MatchAt(a, i)
  {
    var s := a + b;
    assert s[i..i + 5] == a[i..i + 5];
    var n := NumberEnd(a, i + 5);
    NumberEndAppend(a, b, i + 5);
    var k := UnitEnd(a, n + 1);
    UnitEndAppend(a, b, n + 1);
    assert s[n] == a[n];
    assert s[i + 5..n] == a[i + 5..n];
    assert s[n + 1..k] == a[n + 1..k];
  }

  lemma {:induction false} FindFromAppend(a: string, b: string, j: nat)
    requires j <= |a| && FindFrom(a, j).Some? && FindFrom(a, j).value.End() < |a|
    ensures FindFrom(a + b, j) == FindFrom(a, j)
    decreases |a| - j
  {
    var m := FindFrom(a, j).value;
    MatchAtSound(a, m.start);
    if MatchAt(a, j).Some? {
      MatchAtAppendComplete(a, b, j);
    } else {
      assert j < m.start;
      assert a[m.start + 4] == "time="[4];
      MatchAtAppendBarrier(a, b, j, m.start + 4);
      FindFromAppend(a, b, j + 1);
    }
  }

  /**
   * Only the first reading counts: once the output holds a complete match
   * (followed by a character that is not a unit letter), whatever comes
   * after it, later `time=` readings included, is ignored.
   */
  lemma LaterReadingsIgnored(a: string, b: string)
    requires FindTime(a).Some? && FindTime(a).value.End() < |a|
    ensures FindTime(a + b) == FindTime(a)
  {
    FindFromAppend(a, b, 0);
  }

  /** Scanning from position 0 or from `k` gives the same result when no `=` lies in between. */
  lemma {:induction false} SkipWithoutEquals(s: string, i: nat, k: nat)
    requires i <= k <= |s|
    requires forall p :: i + 4 <= p < k + 4 && p < |s| ==> s[p] != '='
    ensures FindFrom(s, i) == FindFrom(s, k)
    decreases k - i
  {
    if i < k {
      if i + 5 <= |s| {
        assert s[i + 4] != '=';
        assert s[i..i + 5][4] == s[i + 4];
      }
      assert MatchAt(s, i).None?;
      SkipWithoutEquals(s, i + 1, k);
    }
  }

  // ---------------------------------------------------------------------
  // The number: strconv.ParseFloat on text made of digits and dots

  /** Index of the first '.' at or after `i`, or `|t|` when there is none. */
  function DotFrom(t: string, i: nat): (r: nat)
    requires i <= |t|
    decreases |t| - i
    ensures i <= r <= |t|
    ensures forall j :: i <= j < r ==> t[j] != '.'
    ensures r < |t| ==> t[r] == '.'
  {
    if i == |t| || t[i] == '.' then i else DotFrom(t, i + 1)
  }

  /** Between `i` and the next dot, a text of number characters holds only digits. */
  lemma DigitsBeforeDot(t: string, i: nat)
    requires i <= |t|
    requires forall k :: 0 <= k < |t| ==> IsNumberChar(t[k])
    ensures forall j :: i <= j < DotFrom(t, i) ==> IsDigit(t[j])
  {
  }

  /** No two dots in `t`. */
  predicate AtMostOneDot(t: string) {
    forall i, j :: 0 <= i < j < |t| && t[i] == '.' ==> t[j] != '.'
  }

  predicate HasDigit(t: string) {
    exists k :: 0 <= k < |t| && IsDigit(t[k])
  }

  /** Value of a string of decimal digits (the empty string is 0). */
  function DigitsValue(d: string): nat
    requires forall k :: 0 <= k < |d| ==> IsDigit(d[k])
  {
    if d == [] then 0
    else
      var last := d[|d| - 1];
      assert IsDigit(last);
      10 * DigitsValue(d[..|d| - 1]) + (last as int - '0' as int)
  }

  function Pow10(n: nat): (r: nat)
    ensures r >= 1
  {
    if n == 0 then 1 else 10 * Pow10(n - 1)
  }

  /** The exact value of `whole.frac`, both digit strings. */
  function DecimalValue(whole: string, frac: string): real
    requires forall k :: 0 <= k < |whole| ==> IsDigit(whole[k])
    requires forall k :: 0 <= k < |frac| ==> IsDigit(frac[k])
  {
    DigitsValue(whole) as real + DigitsValue(frac) as real / Pow10(|frac|) as real
  }

  /**
   * strconv.ParseFloat on text of digits and dots: the part before the first
   * dot is the whole number and the part after it the fraction; a second dot,
   * or no digit at all, is a syntax error.
   */
  function ParseDecimal(t: string): Option<real>
    requires forall k :: 0 <= k < |t| ==> IsNumberChar(t[k])
  {
    var k := DotFrom(t, 0);
    DigitsBeforeDot(t, 0);
    if k == |t| then
      if t == [] then None else Some(DecimalValue(t, []))
    else if DotFrom(t, k + 1) < |t| || |t| == 1 then None
    else
      DigitsBeforeDot(t, k + 1);
      Some(DecimalValue(t[..k], t[k + 1..]))
  }

  /** ParseDecimal accepts exactly the texts with at most one dot and at least one digit. */
  lemma ParseDecimalAccepts(t: string)
    requires forall k :: 0 <= k < |t| ==> IsNumberChar(t[k])
    ensures ParseDecimal(t).Some? <==> AtMostOneDot(t) && HasDigit(t)
  {
    var k := DotFrom(t, 0);
    if k == |t| {
      if t != [] {
        assert IsDigit(t[0]);
      }
    } else {
      var k2 := DotFrom(t, k + 1);
      if k2 < |t| {
        assert t[k] == '.' && t[k2] == '.';
      } else {
        forall i, j | 0 <= i < j < |t| && t[i] == '.' ensures t[j] != '.' {
          assert i == k;
        }
        if |t| > 1 {
          var q := if k == 0 then 1 else 0;
          assert IsDigit(t[q]);
        } else {
          assert !IsDigit(t[0]);
        }
      }
    }
  }

  lemma ParseDecimalOneDot(t: string, k: nat)
    requires forall q :: 0 <= q < |t| ==> IsNumberChar(t[q])
    requires k < |t| && DotFrom(t, 0) == k && DotFrom(t, k + 1) == |t| && |t| > 1
    ensures forall q :: 0 <= q < k ==> IsDigit(t[q])
    ensures forall q :: k + 1 <= q < |t| ==> IsDigit(t[q])
    ensures ParseDecimal(t) == Some(DecimalValue(t[..k], t[k + 1..]))
  {
    DigitsBeforeDot(t, 0);
    DigitsBeforeDot(t, k + 1);
  }

  /** A text that is digits, one dot, then digits: the whole part plus the fraction. */
  lemma ParseDecimalFraction(w: string, f: string)
    requires forall k :: 0 <= k < |w| ==> IsDigit(w[k])
    requires forall k :: 0 <= k < |f| ==> IsDigit(f[k])
    requires |w| + |f| > 0
    ensures var t := w + "." + f;
      (forall k :: 0 <= k < |t| ==> IsNumberChar(t[k])) &&
      ParseDecimal(t) == Some(DecimalValue(w, f))
  {
    var t := w + "." + f;
    assert t[|w|] == '.';
    forall k | 0 <= k < |t| ensures IsNumberChar(t[k]) && (k != |w| ==> IsDigit(t[k])) {
      if k < |w| {
        assert t[k] == w[k];
      } else if k > |w| {
        assert t[k] == f[k - |w| - 1];
      }
    }
    assert DotFrom(t, 0) == |w|;
    assert DotFrom(t, |w| + 1) == |t|;
    ParseDecimalOneDot(t, |w|);
    assert t[..|w|] == w;
    assert t[|w| + 1..] == f;
  }

  /** Digits only: the integer they spell. */
  lemma ParseDecimalInteger(w: string)
    requires forall k :: 0 <= k < |w| ==> IsDigit(w[k])
    requires |w| > 0
    ensures (forall k :: 0 <= k < |w| ==> IsNumberChar(w[k])) &&
      ParseDecimal(w) == Some(DigitsValue(w) as real)
  {
    assert DotFrom(w, 0) == |w|;
  }

  // ---------------------------------------------------------------------
  // Units, and the reading as a whole

  /** The unit rule: `ms` is divided by 1000; every other unit is kept as it is. */
  function ToSeconds(value: real, unit: string): (r: real)
    ensures unit == "ms" ==> r * 1000.0 == value
    ensures unit != "ms" ==> r == value
  {
    if unit == "ms" then value / 1000.0 else value
  }

  /** The outcome of looking for a latency reading in the probe output. */
  datatype TimeReading =
    | NoReading                 // the pattern does not occur
    | Unparsable(text: string)  // matched, but the number text is not a float
    | Reading(seconds: real)    // matched and converted

  function ParseTime(out: string): TimeReading {
    match FindTime(out)
    case None => NoReading
    case Some(m) =>
      MatchAtSound(out, m.start);
      match ParseDecimal(m.number)
      case None => Unparsable(m.number)
      case Some(v) => Reading(ToSeconds(v, m.unit))
  }

  /** A value strconv.ParseFloat produces from digits and dots is never negative. */
  lemma ParseDecimalNonNegative(t: string)
    requires forall k :: 0 <= k < |t| ==> IsNumberChar(t[k])
    ensures ParseDecimal(t).Some? ==> ParseDecimal(t).value >= 0.0
  {
    var k := DotFrom(t, 0);
    DigitsBeforeDot(t, 0);
    if k < |t| && DotFrom(t, k + 1) == |t| && |t| > 1 {
      DigitsBeforeDot(t, k + 1);
      var f := t[k + 1..];
      assert DigitsValue(f) as real / Pow10(|f|) as real >= 0.0;
    }
  }

  /**
   * What each outcome of the reading means: no reading exactly when the
   * scan finds no match; an error carries matched number text that has two
   * dots or no digit; a converted reading is never negative.
   */
  lemma ParseTimeOutcomes(out: string)
    ensures ParseTime(out).NoReading? <==> FindTime(out).None?
    ensures ParseTime(out).Unparsable? ==>
      && IsNumberText(ParseTime(out).text)
      && !(AtMostOneDot(ParseTime(out).text) && HasDigit(ParseTime(out).text))
    ensures ParseTime(out).Reading? ==> ParseTime(out).seconds >= 0.0
  {
    if FindTime(out).Some? {
      var m := FindTime(out).value;
      MatchAtSound(out, m.start);
      ParseDecimalAccepts(m.number);
      ParseDecimalNonNegative(m.number);
    }
  }

  /** No reading exactly when the pattern occurs nowhere in the output. */
  lemma ParseTimeNoReading(out: string)
    ensures ParseTime(out).NoReading? <==>
      forall j, num, unit {:trigger PatternAt(out, j, num, unit)} :: !PatternAt(out, j, num, unit)
  {
    FindTimeNone(out);
  }

  /**
   * A reading `time=<num> <unit>`, preceded by text without '=' and followed
   * by anything that does not continue the unit: the number is parsed and
   * the unit rule applied; an ill-formed number is reported as such.
   */
  lemma ParseTimeReading(pre: string, num: string, unit: string, rest: string)
    requires '=' !in pre
    requires IsNumberText(num) && IsUnitText(unit)
    requires rest == [] || !IsUnitChar(rest[0])
    ensures ParseTime(pre + "time=" + num + " " + unit + rest) ==
      match ParseDecimal(num)
      case None => Unparsable(num)
      case Some(v) => Reading(if unit == "ms" then v / 1000.0 else v)
  {
    var s := pre + "time=" + num + " " + unit + rest;
    var i := |pre|;
    assert s[i..i + 5] == "time=";
    assert s[i + 5..i + 5 + |num|] == num;
    assert s[i + 5 + |num|] == ' ';
    assert s[i + 6 + |num|..i + 6 + |num| + |unit|] == unit;
    forall p | 4 <= p < i + 4 && p < |s| ensures s[p] != '=' {
      if p < i {
        assert s[p] == pre[p] && pre[p] in pre;
      } else {
        assert s[p] == "time="[p - i];
      }
    }
    SkipWithoutEquals(s, 0, i);
    assert PatternAt(s, i, num, unit);
    MatchAtGreedy(s, i, num, unit);
    var m := MatchAt(s, i).value;
    MatchAtSound(s, i);
    var e := i + 6 + |num| + |unit|;
    if e < |s| {
      assert s[e] == rest[0];
    }
    assert m.unit == unit;
  }

  /** What strconv.ParseFloat makes of a few texts the pattern lets through. */
  lemma ParseDecimalExamples()
    ensures ParseDecimal("1.2.3") == None
    ensures ParseDecimal(".") == None
    ensures ParseDecimal("7") == Some(7.0)
    ensures ParseDecimal(".5") == Some(0.5)
    ensures ParseDecimal("3.") == Some(3.0)
  {
    assert "1.2.3"[1] == '.' && "1.2.3"[3] == '.';
    ParseDecimalAccepts("1.2.3");
    ParseDecimalAccepts(".");
    ParseDecimalInteger("7");
    ParseDecimalFraction("", "5");
    assert "" + "." + "5" == ".5";
    ParseDecimalFraction("3", "");
    assert "3" + "." + "" == "3.";
  }

  /** Only the first reading counts, whatever the unit of a later one. */
  lemma ParseTimeFirstReading()
    ensures ParseTime("time=2 s time=5 ms") == Reading(2.0)
  {
    assert ParseDecimal("2") == Some(2.0) by { ParseDecimalInteger("2"); }
    assert "" + "time=" + "2" + " " + "s" + " time=5 ms" == "time=2 s time=5 ms";
    ParseTimeReading("", "2", "s", " time=5 ms");
  }

  /** An ill-formed first number is an error even when a good reading follows it. */
  lemma ParseTimeFirstUnparsable()
    ensures ParseTime("time=1.2.3 ms time=4 ms") == Unparsable("1.2.3")
  {
    assert ParseDecimal("1.2.3") == None by { ParseDecimalExamples(); }
    assert "" + "time=" + "1.2.3" + " " + "ms" + " time=4 ms" == "time=1.2.3 ms time=4 ms";
    ParseTimeReading("", "1.2.3", "ms", " time=4 ms");
  }

  // ---------------------------------------------------------------------
  // Log text

  /** The output with every `\r\n` and every remaining `\n` replaced by one space. */
  function FlattenLines(s: string): string {
    if s == [] then []
    else if |s| >= 2 && s[0] == '\r' && s[1] == '\n' then " " + FlattenLines(s[2..])
    else if s[0] == '\n' then " " + FlattenLines(s[1..])
    else [s[0]] + FlattenLines(s[1..])
  }

  /** The logged text is one line, and no longer than the output. */
  lemma {:induction false} FlattenLinesOneLine(s: string)
    ensures |FlattenLines(s)| <= |s|
    ensures forall k :: 0 <= k < |FlattenLines(s)| ==> FlattenLines(s)[k] != '\n'
  {
    if s == [] {
    } else if |s| >= 2 && s[0] == '\r' && s[1] == '\n' {
      FlattenLinesOneLine(s[2..]);
    } else {
      FlattenLinesOneLine(s[1..]);
    }
  }

  /** Output that holds no line break is logged unchanged. */
  lemma {:induction false} FlattenLinesSingleLine(s: string)
    requires forall k :: 0 <= k < |s| ==> s[k] != '\n'
    ensures FlattenLines(s) == s
  {
    if s != [] {
      FlattenLinesSingleLine(s[1..]);
    }
  }

  /** A lone `\n` and a `\r\n` pair each become one space; any other single character is kept. */
  lemma FlattenLinesUnits(c: char)
    ensures FlattenLines("\n") == " "
    ensures FlattenLines("\r\n") == " "
    ensures c != '\n' ==> FlattenLines([c]) == [c]
  {
    assert "\r\n"[2..] == [];
    assert "\n"[1..] == [];
    assert [c][1..] == [];
  }

  /** One step of the rewriting at a leading `\r\n`, alone or with more text after it. */
  lemma FlattenLinesPairStep(a: string, b: string)
    requires |a| >= 2 && a[0] == '\r' && a[1] == '\n'
    ensures FlattenLines(a) == " " + FlattenLines(a[2..])
    ensures FlattenLines(a + b) == " " + FlattenLines(a[2..] + b)
  {
    assert (a + b)[0] == '\r' && (a + b)[1] == '\n' && (a + b)[2..] == a[2..] + b;
  }

  /** One step of the rewriting at a leading character that starts a `\r\n` pair neither of `a` nor of `a + b`. */
  lemma FlattenLinesCharStep(a: string, b: string)
    requires a != []
    requires !(|a| >= 2 && a[0] == '\r' && a[1] == '\n')
    requires !(|a + b| >= 2 && (a + b)[0] == '\r' && (a + b)[1] == '\n')
    ensures var head := if a[0] == '\n' then " " else [a[0]];
      && FlattenLines(a) == head + FlattenLines(a[1..])
      && FlattenLines(a + b) == head + FlattenLines(a[1..] + b)
  {
    var s := a + b;
    assert s[0] == a[0] && s[1..] == a[1..] + b;
  }

  /** Splitting `a + b` outside a `\r\n` pair: a leading character of `a` that opens no pair in `a` opens none in `a + b`. */
  lemma NoPairAcrossSplit(a: string, b: string)
    requires a != []
    requires !(|a| >= 2 && a[0] == '\r' && a[1] == '\n')
    requires b == [] || a[|a| - 1] != '\r' || b[0] != '\n'
    ensures !(|a + b| >= 2 && (a + b)[0] == '\r' && (a + b)[1] == '\n')
  {
    if |a| >= 2 {
      assert (a + b)[0] == a[0] && (a + b)[1] == a[1];
    } else if b != [] {
      assert (a + b)[0] == a[|a| - 1] && (a + b)[1] == b[0];
    }
  }

  lemma ConcatAssoc(x: string, y: string, z: string)
    ensures x + (y + z) == (x + y) + z
  {
  }

  /**
   * The rewriting works piece by piece: output split anywhere but between
   * the two characters of a `\r\n` pair is rewritten as its two parts.
   */
  lemma {:induction false} FlattenLinesConcat(a: string, b: string)
    requires a == [] || b == [] || a[|a| - 1] != '\r' || b[0] != '\n'
    ensures FlattenLines(a + b) == FlattenLines(a) + FlattenLines(b)
  {
    if a == [] {
      assert a + b == b;
      assert FlattenLines(a) + FlattenLines(b) == FlattenLines(b);
    } else if |a| >= 2 && a[0] == '\r' && a[1] == '\n' {
      var rest := a[2..];
      assert rest == [] || rest[|rest| - 1] == a[|a| - 1];
      FlattenLinesPairStep(a, b);
      FlattenLinesConcat(rest, b);
      assert FlattenLines(a + b) == " " + (FlattenLines(rest) + FlattenLines(b));
      ConcatAssoc(" ", FlattenLines(rest), FlattenLines(b));
    } else {
      var rest := a[1..];
      assert rest == [] || rest[|rest| - 1] == a[|a| - 1];
      NoPairAcrossSplit(a, b);
      FlattenLinesCharStep(a, b);
      FlattenLinesConcat(rest, b);
      var head := if a[0] == '\n' then " " else [a[0]];
      assert FlattenLines(a + b) == head + (FlattenLines(rest) + FlattenLines(b));
      ConcatAssoc(head, FlattenLines(rest), FlattenLines(b));
    }
  }

  /** A `\r` that opens no pair is kept, and the `\r\n` after it still becomes one space. */
  lemma FlattenLinesLoneReturn()
    ensures FlattenLines("\r\r\n") == "\r "
  {
    assert "\r\r\n" == "\r" + "\r\n";
    FlattenLinesConcat("\r", "\r\n");
    FlattenLinesUnits('\r');
  }
}
