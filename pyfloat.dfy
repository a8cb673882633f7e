// Python's float() applied to a string, as a decimal literal parser. The
// value is the exact real the literal denotes; rounding to the nearest
// double is not modelled.
module PyFloat {
  import opened Wrappers
  import opened Strings

  datatype Float = Finite(value: real) | Infinite(negative: bool) | NaN

  /** digit (["_"] digit)*: digits, with single underscores only between digits. */
  predicate DigitPart(t: string)
  {
    |t| >= 1 && IsDigit(t[0]) && IsDigit(t[|t| - 1])
    && (forall k :: 0 <= k < |t| ==> IsDigit(t[k]) || t[k] == '_')
    && (forall k :: 0 <= k < |t| - 1 ==> t[k] == '_' ==> IsDigit(t[k + 1]))
  }

  function DigitPartValue(t: string): nat
    requires DigitPart(t)
  {
    DigitsOnly(t);
    DigitsValue(Remove(t, {'_'}))
  }

  /** Digits and underscores with the underscores removed are all digits. */
  lemma {:induction false} DigitsOnly(t: string)
    requires forall k :: 0 <= k < |t| ==> IsDigit(t[k]) || t[k] == '_'
    ensures AllDigits(Remove(t, {'_'}))
  {
    if t != [] {
      DigitsOnly(t[1..]);
    }
  }

  function Pow10Real(e: int): (p: real)
    ensures p > 0.0
    decreases if e < 0 then -e else e
  {
    if e == 0 then 1.0 else if e > 0 then 10.0 * Pow10Real(e - 1) else Pow10Real(e + 1) / 10.0
  }

  /** The first index holding a character of cs, or |t|. */
  function IndexOf(t: string, cs: set<char>): (i: nat)
    ensures i <= |t| && forall k :: 0 <= k < i ==> t[k] !in cs
    ensures i < |t| ==> t[i] in cs
  {
    if t == [] || t[0] in cs then 0 else 1 + IndexOf(t[1..], cs)
  }

  /** [digitpart] "." digitpart | digitpart ["."] */
  function Mantissa(m: string): Option<real>
  {
    var p := IndexOf(m, {'.'});
    if p == |m| then
      if DigitPart(m) then Some(DigitPartValue(m) as real) else None
    else
      var left, right := m[..p], m[p + 1..];
      if (left == [] || DigitPart(left)) && (right == [] || DigitPart(right)) && (left != [] || right != []) then
        var whole := if left == [] then 0 else DigitPartValue(left);
        var frac := if right == [] then 0 else DigitPartValue(right);
        var scale := if right == [] then 0 else |Remove(right, {'_'})|;
        Some(whole as real + frac as real / Pow10Real(scale))
      else None
  }

  /** ["+" | "-"] digitpart */
  function Exponent(u: string): Option<int>
  {
    if |u| >= 1 && (u[0] == '+' || u[0] == '-') then
      if DigitPart(u[1..]) then Some(if u[0] == '-' then -(DigitPartValue(u[1..]) as int) else DigitPartValue(u[1..])) else None
    else if DigitPart(u) then Some(DigitPartValue(u))
    else None
  }

  /** number [exponent] */
  function FloatNumber(t: string): Option<real>
  {
    var e := IndexOf(t, {'e', 'E'});
    match Mantissa(t[..e])
    case None => None
    case Some(v) =>
      if e == |t| then Some(v)
      else match Exponent(t[e + 1..])
        case None => None
        case Some(x) => Some(v * Pow10Real(x))
  }

  function LowerAscii(t: string): (r: string)
    ensures |r| == |t|
  {
    if t == [] then [] else [if 'A' <= t[0] <= 'Z' then (t[0] as int + 32) as char else t[0]] + LowerAscii(t[1..])
  }

  /** [sign] (floatnumber | "inf" | "infinity" | "nan"), names in any letter case. */
  function FloatValue(t: string): Option<Float>
  {
    var negative := |t| >= 1 && t[0] == '-';
    var body := if |t| >= 1 && (t[0] == '+' || t[0] == '-') then t[1..] else t;
    var name := LowerAscii(body);
    if name == "inf" || name == "infinity" then Some(Infinite(negative))
    else if name == "nan" then Some(NaN)
    else match FloatNumber(body)
      case None => None
      case Some(v) => Some(Finite(if negative then -v else v))
  }

  /** float(s) for a str s: surrounding whitespace is ignored; None where float() raises ValueError. */
  function ParseFloat(s: string): Option<Float>
  {
    FloatValue(Strip(s))
  }

  /** A string of decimal digits is a digit part denoting its own value. */
  lemma DigitStringPart(t: string)
    requires |t| >= 1 && AllDigits(t)
    ensures DigitPart(t) && DigitPartValue(t) == DigitsValue(t)
  {
    RemoveNothing(t, {'_'});
  }

  lemma DigitsNotName(t: string)
    requires |t| >= 1 && AllDigits(t)
    ensures LowerAscii(t) == t
    ensures t != "inf" && t != "infinity" && t != "nan"
  {
    if |t| > 1 {
      assert AllDigits(t[1..]);
      DigitsNotName(t[1..]);
    }
    assert t[0] in t;
  }

  /** With no sign, dot or exponent, a digit string is read as the integer it spells. */
  lemma DigitsFloatNumber(t: string)
    requires |t| >= 1 && AllDigits(t)
    ensures FloatNumber(t) == Some(DigitsValue(t) as real)
  {
    assert forall k :: 0 <= k < |t| ==> t[k] != 'e' && t[k] != 'E' && t[k] != '.' by {
      forall k | 0 <= k < |t| ensures t[k] != 'e' && t[k] != 'E' && t[k] != '.' { assert IsDigit(t[k]); }
    }
    assert IndexOf(t, {'e', 'E'}) == |t|;
    assert t[..|t|] == t;
    assert IndexOf(t, {'.'}) == |t|;
    DigitStringPart(t);
  }

  lemma DigitsFloatValue(t: string)
    requires |t| >= 1 && AllDigits(t)
    ensures FloatValue(t) == Some(Finite(DigitsValue(t) as real))
  {
    DigitsFloatNumber(t);
    DigitsNotName(t);
    assert IsDigit(t[0]);
    assert !(t[0] == '+' || t[0] == '-');
    NumberValue(t, false);
  }

  lemma NegativeDigitsFloatValue(s: string)
    requires |s| >= 2 && s[0] == '-' && AllDigits(s[1..])
    ensures FloatValue(s) == Some(Finite(-(DigitsValue(s[1..]) as real)))
  {
    var t := s[1..];
    DigitsFloatNumber(t);
    DigitsNotName(t);
    NumberValue(s, true);
  }

  /** A signed body that is neither a name nor unparsable is read as a signed number. */
  lemma NumberValue(s: string, negative: bool)
    requires negative <==> (|s| >= 1 && s[0] == '-')
    requires var body := if |s| >= 1 && (s[0] == '+' || s[0] == '-') then s[1..] else s;
      LowerAscii(body) != "inf" && LowerAscii(body) != "infinity" && LowerAscii(body) != "nan" && FloatNumber(body).Some?
    ensures var body := if |s| >= 1 && (s[0] == '+' || s[0] == '-') then s[1..] else s;
      FloatValue(s) == Some(Finite(if negative then -FloatNumber(body).value else FloatNumber(body).value))
  {
  }

  /** float(str(n)) == n for every natural number n. */
  lemma ParseNatToString(n: nat)
    ensures ParseFloat(NatToString(n)) == Some(Finite(n as real))
  {
    var t := NatToString(n);
    assert IsDigit(t[0]) && IsDigit(t[|t| - 1]);
    StripUnchanged(t);
    DigitsFloatValue(t);
  }

  /** float() of a minus sign followed by digits is minus the value of the digits. */
  lemma ParseNegativeDigits(s: string)
    requires |s| >= 2 && s[0] == '-' && AllDigits(s[1..])
    ensures ParseFloat(s) == Some(Finite(-(DigitsValue(s[1..]) as real)))
  {
    NegativeDigitsFloatValue(s);
    NegativeDigitsStripped(s);
    ParseStripped(s, FloatValue(s));
  }

  /** A minus sign followed by digits has no whitespace at either end. */
  lemma NegativeDigitsStripped(s: string)
    requires |s| >= 2 && s[0] == '-' && AllDigits(s[1..])
    ensures Strip(s) == s
  {
    assert IsDigit(s[1..][|s| - 2]);
    StripUnchanged(s);
  }

  /** float() of a string with no surrounding whitespace reads it as it is. */
  lemma ParseStripped(s: string, v: Option<Float>)
    requires Strip(s) == s && FloatValue(s) == v
    ensures ParseFloat(s) == v
  {
  }

  // A comma is in no production of the grammar, so float() rejects any text
  // holding one: "25,000" raises ValueError.

  lemma CommaNotDigitPart(t: string)
    requires ',' in t
    ensures !DigitPart(t)
  {
  }

  lemma CommaMantissa(m: string)
    requires ',' in m
    ensures Mantissa(m) == None
  {
    var p := IndexOf(m, {'.'});
    if p < |m| {
      var k :| 0 <= k < |m| && m[k] == ',';
      if k < p {
        assert m[..p][k] == ',';
        CommaNotDigitPart(m[..p]);
      } else {
        assert k != p;
        assert m[p + 1..][k - p - 1] == ',';
        CommaNotDigitPart(m[p + 1..]);
      }
    } else {
      CommaNotDigitPart(m);
    }
  }

  lemma CommaExponent(u: string)
    requires ',' in u
    ensures Exponent(u) == None
  {
    CommaNotDigitPart(u);
    if |u| >= 1 && (u[0] == '+' || u[0] == '-') {
      var k :| 0 <= k < |u| && u[k] == ',';
      assert u[1..][k - 1] == ',';
      CommaNotDigitPart(u[1..]);
    }
  }

  lemma CommaFloatNumber(t: string)
    requires ',' in t
    ensures FloatNumber(t) == None
  {
    var e := IndexOf(t, {'e', 'E'});
    var k :| 0 <= k < |t| && t[k] == ',';
    if k < e {
      assert t[..e][k] == ',';
      CommaMantissa(t[..e]);
    } else {
      assert k != e;
      assert t[e + 1..][k - e - 1] == ',';
      CommaExponent(t[e + 1..]);
    }
  }

  lemma {:induction false} LowerAsciiKeeps(t: string, k: nat)
    requires k < |t| && !('A' <= t[k] <= 'Z')
    ensures LowerAscii(t)[k] == t[k]
  {
    if k > 0 {
      LowerAsciiKeeps(t[1..], k - 1);
    }
  }

  lemma CommaNotName(name: string)
    requires ',' in name
    ensures name != "inf" && name != "infinity" && name != "nan"
  {
    assert ',' !in "inf" && ',' !in "infinity" && ',' !in "nan";
  }

  lemma CommaFloatValue(t: string)
    requires ',' in t
    ensures FloatValue(t) == None
  {
    var k :| 0 <= k < |t| && t[k] == ',';
    var signed := |t| >= 1 && (t[0] == '+' || t[0] == '-');
    var body := if signed then t[1..] else t;
    var j := if signed then k - 1 else k;
    assert 0 <= j < |body| && body[j] == ',';
    LowerAsciiKeeps(body, j);
    CommaNotName(LowerAscii(body));
    CommaFloatNumber(body);
  }

  /** float() of text holding a comma raises ValueError: no separator is removed. */
  lemma CommaRejected(s: string)
    requires ',' in Strip(s)
    ensures ParseFloat(s) == None
  {
    CommaFloatValue(Strip(s));
  }
}
