/**
  The numeric input handling of the amount and price steps: the text has every
  `,` removed, is accepted only when what remains is a non-empty run of decimal
  digits (`str.isdigit`), and is stored as the integer's decimal form with a
  comma between every group of three digits (`"{:,}".format(int(...))`).

  Only the ASCII digits '0'..'9' are modelled as digits.
*/
module Numbers {
  import opened Wrappers

  predicate IsDigit(c: char) {
    '0' <= c <= '9'
  }

  predicate AllDigits(s: string) {
    forall i :: 0 <= i < |s| ==> IsDigit(s[i])
  }

  /** `s.isdigit()`: true iff `s` is non-empty and made only of digits. */
  predicate IsDigits(s: string) {
    |s| > 0 && AllDigits(s)
  }

  /** `s.replace(",", "")`. */
  function StripCommas(s: string): (r: string)
    ensures ',' !in r && |r| <= |s|
  {
    if |s| == 0 then ""
    else if s[0] == ',' then StripCommas(s[1..])
    else [s[0]] + StripCommas(s[1..])
  }

  lemma {:induction false} StripCommasAppend(a: string, b: string)
    ensures StripCommas(a + b) == StripCommas(a) + StripCommas(b)
  {
    if |a| > 0 {
      assert (a + b)[1..] == a[1..] + b;
      StripCommasAppend(a[1..], b);
    } else {
      assert a + b == b;
    }
  }

  lemma {:induction false} StripCommasNoComma(s: string)
    requires ',' !in s
    ensures StripCommas(s) == s
  {
    if |s| > 0 {
      assert s == [s[0]] + s[1..];
      StripCommasNoComma(s[1..]);
    }
  }

  /** Every character is a digit or a comma. */
  predicate DigitsAndCommas(t: string) {
    forall i :: 0 <= i < |t| ==> IsDigit(t[i]) || t[i] == ','
  }

  predicate HasDigit(t: string) {
    exists i :: 0 <= i < |t| && IsDigit(t[i])
  }

  lemma {:induction false} StripCommasAllDigits(t: string)
    ensures AllDigits(StripCommas(t)) <==> DigitsAndCommas(t)
  {
    if |t| > 0 {
      var u := t[1..];
      StripCommasAllDigits(u);
      assert forall i :: 0 <= i < |u| ==> u[i] == t[i + 1];
      assert DigitsAndCommas(t) <==> (IsDigit(t[0]) || t[0] == ',') && DigitsAndCommas(u) by {
        if (IsDigit(t[0]) || t[0] == ',') && DigitsAndCommas(u) {
          forall i | 0 <= i < |t| ensures IsDigit(t[i]) || t[i] == ',' {
            if i > 0 { assert t[i] == u[i - 1]; }
          }
        }
      }
      if t[0] != ',' {
        var x := StripCommas(u);
        assert StripCommas(t) == [t[0]] + x;
        AllDigitsCons(t[0], x);
      }
    }
  }

  lemma AllDigitsCons(c: char, x: string)
    ensures AllDigits([c] + x) <==> IsDigit(c) && AllDigits(x)
  {
    var y := [c] + x;
    assert y[0] == c;
    assert forall i :: 0 <= i < |x| ==> y[i + 1] == x[i];
    if IsDigit(c) && AllDigits(x) {
      forall i | 0 <= i < |y| ensures IsDigit(y[i]) {
        if i > 0 { assert y[i] == x[i - 1]; }
      }
    }
  }

  lemma {:induction false} StripCommasEmpty(t: string)
    ensures StripCommas(t) == "" <==> forall i :: 0 <= i < |t| ==> t[i] == ','
  {
    if |t| > 0 {
      var u := t[1..];
      StripCommasEmpty(u);
      assert forall i :: 0 <= i < |u| ==> u[i] == t[i + 1];
      if t[0] == ',' && (forall i :: 0 <= i < |u| ==> u[i] == ',') {
        forall i | 0 <= i < |t| ensures t[i] == ',' {
          if i > 0 { assert t[i] == u[i - 1]; }
        }
      }
    }
  }

  /**
    What the digit test of the amount and price steps amounts to on the
    original text: removing the commas leaves a digit string iff the text holds
    nothing but digits and commas and at least one digit.
  */
  lemma StripCommasDigits(t: string)
    ensures IsDigits(StripCommas(t)) <==> DigitsAndCommas(t) && HasDigit(t)
  {
    StripCommasAllDigits(t);
    StripCommasEmpty(t);
  }

  function DigitValue(c: char): (r: nat)
    requires IsDigit(c)
  {
    c as int - '0' as int
  }

  function DigitChar(d: nat): (c: char)
    requires d < 10
    ensures IsDigit(c) && DigitValue(c) == d
  {
    ('0' as int + d) as char
  }

  /** `int(s)` for a string of decimal digits (leading zeros allowed). */
  function Value(s: string): (r: nat)
    requires AllDigits(s)
  {
    if |s| == 0 then 0 else 10 * Value(s[..|s| - 1]) + DigitValue(s[|s| - 1])
  }

  /** `str(n)` for a natural number: its decimal digits, with no leading zero. */
  function ToDecimal(n: nat): (r: string)
    ensures IsDigits(r)
    ensures r[0] == '0' <==> n == 0
  {
    if n < 10 then [DigitChar(n)] else ToDecimal(n / 10) + [DigitChar(n % 10)]
  }

  /** `str(i)` for any integer, with a leading `-` when it is negative. */
  function IntToString(i: int): (r: string) {
    if i < 0 then "-" + ToDecimal(-i) else ToDecimal(i)
  }

  /** Reading back a decimal rendering gives the number rendered. */
  lemma {:induction false} ValueOfToDecimal(n: nat)
    ensures Value(ToDecimal(n)) == n
  {
    if n >= 10 {
      ValueOfToDecimal(n / 10);
      var r := ToDecimal(n);
      assert r[..|r| - 1] == ToDecimal(n / 10);
    }
  }

  /** Inserts a `,` before every group of three digits counted from the right. */
  function Group(s: string): (r: string)
    decreases |s|
  {
    if |s| <= 3 then s else Group(s[..|s| - 3]) + "," + s[|s| - 3..]
  }

  /** `"{:,}".format(n)`. */
  function Format(n: nat): (r: string) {
    Group(ToDecimal(n))
  }

  /**
    The shape Python's thousands grouping produces: groups of digits separated
    by single commas, every group after the first exactly three digits long and
    the first one one to three digits long. Counting from the right end, every
    fourth character is a comma and all the others are digits.
  */
  predicate WellGrouped(r: string) {
    |r| > 0 && |r| % 4 != 0 &&
    forall i :: 0 <= i < |r| ==> if (|r| - i) % 4 == 0 then r[i] == ',' else IsDigit(r[i])
  }

  /** A well-grouped numeral whose first digit is not a leading zero. */
  predicate IsGroupedNumeral(r: string) {
    WellGrouped(r) && (r[0] == '0' ==> r == "0")
  }

  /** Appending a comma and a three-digit group keeps a string well grouped. */
  lemma WellGroupedSnoc(g: string, t: string)
    requires WellGrouped(g) && |t| == 3 && AllDigits(t)
    ensures WellGrouped(g + "," + t)
  {
    var r := g + "," + t;
    forall i | 0 <= i < |r|
      ensures if (|r| - i) % 4 == 0 then r[i] == ',' else IsDigit(r[i])
    {
      if i < |g| {
        assert r[i] == g[i];
        assert |r| - i == (|g| - i) + 4;
      } else if i > |g| {
        assert r[i] == t[i - |g| - 1];
      }
    }
  }

  /** A well-grouped string longer than one group ends in a comma and a three-digit group. */
  lemma WellGroupedSplit(r: string)
    requires WellGrouped(r) && |r| > 3
    ensures |r| > 4 && r == r[..|r| - 4] + "," + r[|r| - 3..]
    ensures WellGrouped(r[..|r| - 4])
    ensures AllDigits(r[|r| - 3..]) && ',' !in r[|r| - 3..]
  {
    var g, t := r[..|r| - 4], r[|r| - 3..];
    assert r[|r| - 4] == ',';
    assert r == g + "," + t;
    forall i | 0 <= i < |g|
      ensures if (|g| - i) % 4 == 0 then g[i] == ',' else IsDigit(g[i])
    {
      assert g[i] == r[i];
      assert |r| - i == (|g| - i) + 4;
    }
    forall i | 0 <= i < |t| ensures IsDigit(t[i]) {
      assert t[i] == r[|r| - 3 + i];
    }
  }

  lemma {:induction false} GroupWellGrouped(s: string)
    requires IsDigits(s)
    ensures WellGrouped(Group(s))
    decreases |s|
  {
    if |s| > 3 {
      var p, t := s[..|s| - 3], s[|s| - 3..];
      assert IsDigits(p) by {
        forall i | 0 <= i < |p| ensures IsDigit(p[i]) { assert p[i] == s[i]; }
      }
      assert AllDigits(t) by {
        forall i | 0 <= i < |t| ensures IsDigit(t[i]) { assert t[i] == s[|s| - 3 + i]; }
      }
      GroupWellGrouped(p);
      WellGroupedSnoc(Group(p), t);
    }
  }

  /** Both parts of a digit string split anywhere are digit strings without commas. */
  lemma DigitsSplit(s: string, k: nat)
    requires AllDigits(s) && k <= |s|
    ensures AllDigits(s[..k]) && ',' !in s[k..]
  {
    var p, t := s[..k], s[k..];
    forall i | 0 <= i < |p| ensures IsDigit(p[i]) { assert p[i] == s[i]; }
    forall i | 0 <= i < |t| ensures t[i] != ',' { assert t[i] == s[k + i]; }
  }

  lemma {:induction false} StripGroup(s: string)
    requires AllDigits(s)
    ensures StripCommas(Group(s)) == s
    decreases |s|
  {
    if |s| <= 3 {
      StripCommasNoComma(s);
    } else {
      var p, t := s[..|s| - 3], s[|s| - 3..];
      DigitsSplit(s, |s| - 3);
      StripGroup(p);
      StripCommasSnoc(Group(p), t);
      assert Group(s) == Group(p) + "," + t;
      assert p + t == s;
    }
  }

  /** Removing the commas of `g + "," + t`, for a comma-free digit group `t`. */
  lemma StripCommasGroupSnoc(g: string, t: string)
    requires AllDigits(StripCommas(g)) && AllDigits(t) && ',' !in t
    ensures StripCommas(g + "," + t) == StripCommas(g) + t
    ensures AllDigits(StripCommas(g) + t)
  {
    StripCommasSnoc(g, t);
    AllDigitsConcat(StripCommas(g), t);
  }

  /** Removing the commas of `g + "," + t`, for a comma-free `t`. */
  lemma StripCommasSnoc(g: string, t: string)
    requires ',' !in t
    ensures StripCommas(g + "," + t) == StripCommas(g) + t
  {
    StripCommasAppend(g + ",", t);
    StripCommasAppend(g, ",");
    StripCommasNoComma(t);
    assert StripCommas(",") == "";
  }

  lemma AllDigitsConcat(a: string, b: string)
    requires AllDigits(a) && AllDigits(b)
    ensures AllDigits(a + b)
  {
    forall i | 0 <= i < |a + b| ensures IsDigit((a + b)[i]) {
      if i < |a| { assert (a + b)[i] == a[i]; } else { assert (a + b)[i] == b[i - |a|]; }
    }
  }

  /** Grouping undoes comma removal on well-grouped strings. */
  lemma {:induction false} GroupStrip(r: string)
    requires WellGrouped(r)
    ensures AllDigits(StripCommas(r)) && Group(StripCommas(r)) == r
    decreases |r|
  {
    if |r| <= 3 {
      forall i | 0 <= i < |r| ensures IsDigit(r[i]) {
        assert (|r| - i) % 4 != 0;
      }
      assert ',' !in r;
      StripCommasNoComma(r);
    } else {
      WellGroupedSplit(r);
      var g, t := r[..|r| - 4], r[|r| - 3..];
      GroupStrip(g);
      StripCommasGroupSnoc(g, t);
      var s := StripCommas(g) + t;
      assert s[..|s| - 3] == StripCommas(g) && s[|s| - 3..] == t;
    }
  }

  predicate AllZeros(s: string) {
    forall i :: 0 <= i < |s| ==> s[i] == '0'
  }

  /** Removes leading zeros. */
  function DropZeros(s: string): (r: string) {
    if |s| > 0 && s[0] == '0' then DropZeros(s[1..]) else s
  }

  /** The digits of `s` with leading zeros removed, `"0"` when nothing remains. */
  function Canonical(s: string): (r: string) {
    var t := DropZeros(s);
    if |t| == 0 then "0" else t
  }

  lemma {:induction false} DropZerosEmpty(s: string)
    ensures DropZeros(s) == "" <==> AllZeros(s)
  {
    if |s| > 0 {
      DropZerosEmpty(s[1..]);
      assert forall i :: 1 <= i < |s| ==> s[i] == s[1..][i - 1];
    }
  }

  lemma {:induction false} DropZerosAppend(p: string, c: char)
    ensures DropZeros(p) != "" ==> DropZeros(p + [c]) == DropZeros(p) + [c]
    ensures DropZeros(p) == "" ==> DropZeros(p + [c]) == DropZeros([c])
  {
    if |p| > 0 {
      assert (p + [c])[1..] == p[1..] + [c];
      DropZerosAppend(p[1..], c);
    } else {
      assert p + [c] == [c];
    }
  }

  lemma {:induction false} ValueZero(s: string)
    requires AllDigits(s)
    ensures Value(s) == 0 <==> AllZeros(s)
  {
    if |s| > 0 {
      var p := s[..|s| - 1];
      assert AllDigits(p) by {
        forall i | 0 <= i < |p| ensures IsDigit(p[i]) { assert p[i] == s[i]; }
      }
      ValueZero(p);
      assert forall i :: 0 <= i < |p| ==> p[i] == s[i];
    }
  }

  /**
    `str(int(s))` for a digit string is `s` with its leading zeros dropped, and
    `"0"` for an all-zero string ("007" gives "7", "000" gives "0").
  */
  lemma {:induction false} ToDecimalOfValue(s: string)
    requires IsDigits(s)
    ensures ToDecimal(Value(s)) == Canonical(s)
    decreases |s|
  {
    var p, c := s[..|s| - 1], s[|s| - 1];
    assert s == p + [c];
    var d := DigitValue(c);
    assert DigitChar(d) == c;
    if |p| == 0 {
      assert Value(s) == d;
      assert DropZeros([c]) == if c == '0' then "" else [c];
    } else {
      assert IsDigits(p) by {
        forall i | 0 <= i < |p| ensures IsDigit(p[i]) { assert p[i] == s[i]; }
      }
      var v := Value(p);
      assert Value(s) == 10 * v + d;
      ValueZero(p);
      DropZerosEmpty(p);
      DropZerosAppend(p, c);
      if v == 0 {
        assert DropZeros([c]) == if c == '0' then "" else [c];
      } else {
        ToDecimalOfValue(p);
        assert (10 * v + d) / 10 == v && (10 * v + d) % 10 == d;
      }
    }
  }

  /**
    The amount and price steps: `Some(stored)` when the text is accepted, `None`
    when it is rejected. A text is accepted iff it holds only digits and commas
    and at least one digit; the stored form is well grouped and, once its commas
    are removed, is the decimal digits of the input with leading zeros dropped,
    so it denotes the same number.
  */
  function ParseNumber(text: string): (r: Option<string>)
    ensures r.Some? <==> IsDigits(StripCommas(text))
    ensures r.Some? <==> DigitsAndCommas(text) && HasDigit(text)
    ensures r.Some? ==> IsGroupedNumeral(r.value)
    ensures r.Some? ==> StripCommas(r.value) == Canonical(StripCommas(text))
    ensures r.Some? ==>
      IsDigits(StripCommas(text)) && AllDigits(StripCommas(r.value)) &&
      Value(StripCommas(r.value)) == Value(StripCommas(text))
  {
    var s := StripCommas(text);
    StripCommasDigits(text);
    if IsDigits(s) then
      var n := Value(s);
      ToDecimalOfValue(s);
      FormatShape(n);
      Some(Format(n))
    else
      None
  }

  /** `"{:,}".format(n)` is a grouped numeral with no leading zero whose digits are `str(n)`, reading back as `n`. */
  lemma FormatShape(n: nat)
    ensures IsGroupedNumeral(Format(n))
    ensures StripCommas(Format(n)) == ToDecimal(n) && Value(StripCommas(Format(n))) == n
  {
    var d := ToDecimal(n);
    GroupWellGrouped(d);
    StripGroup(d);
    ValueOfToDecimal(n);
    var r := Group(d);
    assert r[0] == d[0] by {
      assert r[0] != ',';
      assert StripCommas(r) == [r[0]] + StripCommas(r[1..]);
    }
  }

  /** An accepted text parses to the grouped form of its digits with leading zeros dropped. */
  lemma ParseNumberValue(text: string)
    requires IsDigits(StripCommas(text))
    ensures ParseNumber(text) == Some(Group(Canonical(StripCommas(text))))
  {
    var r := ParseNumber(text).value;
    GroupStrip(r);
  }

  /** Formatting then re-entering a stored number stores it unchanged and reads back the same integer. */
  lemma FormatRoundTrip(n: nat)
    ensures ParseNumber(Format(n)) == Some(Format(n))
    ensures AllDigits(StripCommas(Format(n))) && Value(StripCommas(Format(n))) == n
  {
    var d := ToDecimal(n);
    FormatShape(n);
    var r := Format(n);
    StripCommasDigits(r);
    assert IsDigits(StripCommas(r));
    var v := ParseNumber(r).value;
    ToDecimalOfValue(d);
    assert v == Group(ToDecimal(Value(d)));
  }

  /** The texts an amount or price step stores unchanged are exactly the grouped numerals. */
  lemma ParseNumberFixedPoints(r: string)
    ensures ParseNumber(r) == Some(r) <==> IsGroupedNumeral(r)
  {
    if IsGroupedNumeral(r) {
      GroupStrip(r);
      var s := StripCommas(r);
      assert s[0] == r[0] by {
        assert r[0] != ',' by { assert (|r| - 0) % 4 != 0; }
        assert StripCommas(r) == [r[0]] + StripCommas(r[1..]);
      }
      StripCommasDigits(r);
      ToDecimalOfValue(s);
      assert Canonical(s) == s by {
        if s[0] == '0' {
          assert r == "0";
          assert s == "0";
        }
      }
    }
  }
}
