/** Text operations the suggestion services apply to generated report sentences: ASCII
    lower-casing (`str.lower`), substring tests (`in`), comma removal (`str.replace(",", "")`)
    and Python's `float()` on the digit-and-dot texts the patterns capture. */
module Text {
  import opened Wrappers

  predicate IsDigit(c: char) { '0' <= c <= '9' }

  function LowerChar(c: char): (l: char)
    ensures 'A' <= c <= 'Z' ==> l == c + ('a' - 'A')
    ensures !('A' <= c <= 'Z') ==> l == c
  {
    if 'A' <= c <= 'Z' then c + ('a' - 'A') else c
  }

  /** `s.lower()` on ASCII letters; other characters are kept. */
  function Lower(s: string): (l: string)
    ensures |l| == |s|
    ensures forall i :: 0 <= i < |s| ==> l[i] == LowerChar(s[i])
  {
    if |s| == 0 then [] else Lower(s[..|s| - 1]) + [LowerChar(s[|s| - 1])]
  }

  /** Two characters equal up to ASCII case. */
  predicate SameLetter(a: char, b: char)
  {
    LowerChar(a) == LowerChar(b)
  }

  /** `lit` occurs in `s` at position `i`, exactly or (when `ignoreCase`) up to ASCII case. */
  predicate OccursAt(s: string, i: int, lit: string, ignoreCase: bool)
  {
    0 <= i && i + |lit| <= |s| &&
    forall k :: 0 <= k < |lit| ==> (if ignoreCase then SameLetter(s[i + k], lit[k]) else s[i + k] == lit[k])
  }

  /** Python's `sub in s`. */
  predicate Contains(s: string, sub: string)
  {
    exists i :: 0 <= i <= |s| - |sub| && OccursAt(s, i, sub, false)
  }

  /** An exact occurrence is one up to case too. */
  lemma OccursAtIgnoringCase(s: string, i: int, lit: string)
    requires OccursAt(s, i, lit, false)
    ensures OccursAt(s, i, lit, true)
  {
  }

  /** `s.replace(",", "")`. */
  function RemoveCommas(s: string): (r: string)
    ensures |r| <= |s|
    ensures forall i :: 0 <= i < |r| ==> r[i] != ','
  {
    if |s| == 0 then []
    else if s[|s| - 1] == ',' then RemoveCommas(s[..|s| - 1])
    else RemoveCommas(s[..|s| - 1]) + [s[|s| - 1]]
  }

  /** Text without commas is left as it is. */
  lemma {:induction false} RemoveCommasIdentity(s: string)
    requires forall i :: 0 <= i < |s| ==> s[i] != ','
    ensures RemoveCommas(s) == s
  {
    if |s| > 0 {
      RemoveCommasIdentity(s[..|s| - 1]);
    }
  }

  lemma RemoveCommasAppend(a: string, b: string)
    ensures RemoveCommas(a + b) == RemoveCommas(a) + RemoveCommas(b)
    decreases |b|
  {
    if |b| > 0 {
      assert (a + b)[..|a + b| - 1] == a + b[..|b| - 1];
      RemoveCommasAppend(a, b[..|b| - 1]);
    } else {
      assert a + b == a;
    }
  }

  /** Index just past the run of digits that starts at `i`. */
  function DigitRunEnd(s: string, i: nat): (e: nat)
    requires i <= |s|
    ensures i <= e <= |s|
    ensures forall k :: i <= k < e ==> IsDigit(s[k])
    ensures e < |s| ==> !IsDigit(s[e])
    decreases |s| - i
  {
    if i < |s| && IsDigit(s[i]) then DigitRunEnd(s, i + 1) else i
  }

  function Pow10(n: nat): (p: nat)
    ensures p >= 1
  {
    if n == 0 then 1 else 10 * Pow10(n - 1)
  }

  function DigitValue(c: char): nat
    requires IsDigit(c)
  {
    c as int - '0' as int
  }

  /** The value of a string of decimal digits. */
  function DigitsValue(ds: string): nat
    requires forall i :: 0 <= i < |ds| ==> IsDigit(ds[i])
  {
    if |ds| == 0 then 0 else 10 * DigitsValue(ds[..|ds| - 1]) + DigitValue(ds[|ds| - 1])
  }

  /** The value of the digits after a decimal point. */
  function FractionValue(ds: string): (f: real)
    requires forall i :: 0 <= i < |ds| ==> IsDigit(ds[i])
  {
    DigitsValue(ds) as real / Pow10(|ds|) as real
  }

  /** A fraction is less than one. */
  lemma {:induction false} DigitsValueBelow(ds: string)
    requires forall i :: 0 <= i < |ds| ==> IsDigit(ds[i])
    ensures DigitsValue(ds) < Pow10(|ds|)
  {
    if |ds| > 0 {
      DigitsValueBelow(ds[..|ds| - 1]);
    }
  }

  lemma FractionBelowOne(ds: string)
    requires forall i :: 0 <= i < |ds| ==> IsDigit(ds[i])
    ensures 0.0 <= FractionValue(ds) < 1.0
  {
    DigitsValueBelow(ds);
    RatioBelowOne(DigitsValue(ds), Pow10(|ds|));
  }

  lemma RatioBelowOne(d: nat, p: nat)
    requires d < p
    ensures 0.0 <= d as real / p as real < 1.0
  {
  }

  /** Python's `float(t)` on a text of digits and dots: digits with at most one dot and at
      least one digit; anything else (`""`, `"."`, `"1.2.3"`) raises `ValueError`. */
  function ParseFloat(t: string): (r: Option<real>)
    ensures r.Some? ==> r.value >= 0.0
  {
    var k := DigitRunEnd(t, 0);
    if k == |t| then
      if k > 0 then Some(DigitsValue(t) as real) else None
    else if t[k] == '.' && DigitRunEnd(t, k + 1) == |t| && (k > 0 || k + 1 < |t|) then
      Some(DigitsValue(t[..k]) as real + FractionValue(t[k + 1..]))
    else None
  }

  /** Digits, a dot and digits read back as integer part plus fraction. */
  lemma ParseDecimal(whole: string, fraction: string)
    requires |whole| > 0
    requires forall i :: 0 <= i < |whole| ==> IsDigit(whole[i])
    requires forall i :: 0 <= i < |fraction| ==> IsDigit(fraction[i])
    ensures ParseFloat(whole + "." + fraction) == Some(DigitsValue(whole) as real + FractionValue(fraction))
  {
    var t := whole + ['.'] + fraction;
    assert whole + "." + fraction == t;
    var k := |whole|;
    assert t[..k] == whole;
    assert t[k + 1..] == fraction;
    DigitRunAcross(t, 0, k);
    DigitRunAcross(t, k + 1, |t|);
    ParseFloatDecimal(t, k);
  }

  /** A text whose digit run ends at a dot followed by digits to the end. */
  lemma ParseFloatDecimal(t: string, k: nat)
    requires 0 < k < |t| && t[k] == '.'
    requires DigitRunEnd(t, 0) == k && DigitRunEnd(t, k + 1) == |t|
    ensures ParseFloat(t) == Some(DigitsValue(t[..k]) as real + FractionValue(t[k + 1..]))
  {
  }

  /** A run of digits up to a non-digit (or the end) ends there. */
  lemma {:induction false} DigitRunAcross(s: string, i: nat, e: nat)
    requires i <= e <= |s|
    requires forall k :: i <= k < e ==> IsDigit(s[k])
    requires e < |s| ==> !IsDigit(s[e])
    ensures DigitRunEnd(s, i) == e
    decreases e - i
  {
    if i < e {
      DigitRunAcross(s, i + 1, e);
    }
  }

  /** A thousands separator is dropped and nothing else changes. */
  lemma RemoveThousandsComma(a: string, b: string)
    requires forall i :: 0 <= i < |a| ==> a[i] != ','
    requires forall i :: 0 <= i < |b| ==> b[i] != ','
    ensures RemoveCommas(a + "," + b) == a + b
  {
    RemoveCommasAppend(a + ",", b);
    RemoveCommasAppend(a, ",");
    RemoveCommasIdentity(a);
    RemoveCommasIdentity(b);
    assert ","[..0] == "";
  }

  /** The value of four digits. */
  lemma FourDigitsValue(ds: string)
    requires |ds| == 4 && forall i :: 0 <= i < 4 ==> IsDigit(ds[i])
    ensures DigitsValue(ds) ==
      1000 * DigitValue(ds[0]) + 100 * DigitValue(ds[1]) + 10 * DigitValue(ds[2]) + DigitValue(ds[3])
  {
    assert ds[..3][..2] == ds[..2] && ds[..2][..1] == ds[..1] && ds[..1][..0] == [];
    assert DigitsValue(ds[..1]) == DigitValue(ds[0]);
    assert DigitsValue(ds[..2]) == 10 * DigitValue(ds[0]) + DigitValue(ds[1]);
    assert DigitsValue(ds[..3]) == 100 * DigitValue(ds[0]) + 10 * DigitValue(ds[1]) + DigitValue(ds[2]);
  }

  /** The value of two digits. */
  lemma TwoDigitsValue(ds: string)
    requires |ds| == 2 && IsDigit(ds[0]) && IsDigit(ds[1])
    ensures DigitsValue(ds) == 10 * DigitValue(ds[0]) + DigitValue(ds[1])
  {
    assert ds[..1][..0] == [];
    assert DigitsValue(ds[..1]) == DigitValue(ds[0]);
  }

  /** Four digits, a dot and two digits read as a price in cents. */
  lemma ParseCents(whole: string, cents: string)
    requires |whole| == 4 && forall i :: 0 <= i < 4 ==> IsDigit(whole[i])
    requires |cents| == 2 && IsDigit(cents[0]) && IsDigit(cents[1])
    ensures ParseFloat(whole + "." + cents) ==
      Some((DigitsValue(whole) * 100 + DigitsValue(cents)) as real / 100.0)
  {
    ParseDecimal(whole, cents);
    assert Pow10(2) == 100;
  }

  /** Examples: the empty text, a lone dot and two dots are rejected. */
  lemma ParseFloatRejects()
    ensures ParseFloat("") == None
    ensures ParseFloat(".") == None
    ensures ParseFloat("1.2.3") == None
  {
    assert DigitRunEnd(".", 0) == 0;
    assert DigitRunEnd(".", 1) == 1;
    DigitRunAcross("1.2.3", 0, 1);
    DigitRunAcross("1.2.3", 2, 3);
  }

  /** Examples: "3371.35" reads 3371.35 and "12." reads 12. */
  lemma ParseFloatReads()
    ensures ParseFloat("3371.35") == Some(3371.35)
    ensures ParseFloat("12.") == Some(12.0)
  {
    ParseDecimal("3371", "35");
    assert "3371" + "." + "35" == "3371.35";
    assert DigitsValue("3371") == 3371 by {
      assert "3371"[..3] == "337" && "337"[..2] == "33" && "33"[..1] == "3" && "3"[..0] == "";
    }
    assert DigitsValue("35") == 35 by {
      assert "35"[..1] == "3" && "3"[..0] == "";
    }
    ParseDecimal("12", "");
    assert "12" + "." + "" == "12.";
    assert DigitsValue("12") == 12 by {
      assert "12"[..1] == "1" && "1"[..0] == "";
    }
  }

  /** `sep.join(parts)`. */
  function Join(sep: string, parts: seq<string>): (r: string)
    ensures |parts| == 0 ==> r == ""
    ensures |parts| == 1 ==> r == parts[0]
    ensures |parts| == 2 ==> r == parts[0] + sep + parts[1]
  {
    if |parts| == 0 then ""
    else if |parts| == 1 then parts[0]
    else Join(sep, parts[..|parts| - 1]) + sep + parts[|parts| - 1]
  }
}
