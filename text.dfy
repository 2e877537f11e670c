/**
 * The handful of Python `str` operations the adapters and the itinerary builder use:
 * `strip`, `in`, `index`, `rindex`, `lower`, `title`, `replace` of one character by
 * nothing, `str(n)` of a natural number and `float(text)` of a plain decimal.
 * Letter case is modelled on the ASCII letters only.
 */
module Text {
  import opened Wrappers

  /** Python's `str.isspace` for one character. */
  predicate IsSpace(c: char) {
    || c == ' '
    || ('\t' <= c <= '\r')
    || ('\U{1C}' <= c <= '\U{1F}')
    || c == '\U{85}' || c == '\U{A0}' || c == '\U{1680}'
    || ('\U{2000}' <= c <= '\U{200A}')
    || c == '\U{2028}' || c == '\U{2029}' || c == '\U{202F}' || c == '\U{205F}' || c == '\U{3000}'
  }

  /** The length of the run of whitespace that `s` starts with. */
  function LeadingSpaces(s: string): (n: nat)
    ensures n <= |s|
    ensures forall k :: 0 <= k < n ==> IsSpace(s[k])
    ensures n < |s| ==> !IsSpace(s[n])
  {
    if s != [] && IsSpace(s[0]) then
      var n := 1 + LeadingSpaces(s[1..]);
      assert forall k :: 1 <= k < |s| ==> s[k] == s[1..][k - 1];
      n
    else 0
  }

  /** The length of the run of whitespace that `s` ends with. */
  function TrailingSpaces(s: string): (n: nat)
    ensures n <= |s|
    ensures forall k :: |s| - n <= k < |s| ==> IsSpace(s[k])
    ensures n < |s| ==> !IsSpace(s[|s| - n - 1])
  {
    if s != [] && IsSpace(s[|s| - 1]) then
      var n := 1 + TrailingSpaces(s[..|s| - 1]);
      assert forall k :: 0 <= k < |s| - 1 ==> s[k] == s[..|s| - 1][k];
      n
    else 0
  }

  /**
   * `s.strip()`: the slice of `s` that starts after its leading whitespace, begins and ends
   * with a non-space, and is followed by nothing but whitespace.
   */
  function Strip(s: string): (r: string)
    ensures r == [] || (!IsSpace(r[0]) && !IsSpace(r[|r| - 1]))
    ensures LeadingSpaces(s) + |r| <= |s|
    ensures r == s[LeadingSpaces(s)..LeadingSpaces(s) + |r|]
    ensures forall k :: LeadingSpaces(s) + |r| <= k < |s| ==> IsSpace(s[k])
  {
    var a := LeadingSpaces(s);
    if a == |s| then []
    else
      var n := TrailingSpaces(s);
      assert a < |s| - n;
      s[a..|s| - n]
  }

  /** Stripping twice is stripping once. */
  lemma StripIdempotent(s: string)
    ensures Strip(Strip(s)) == Strip(s)
  {
    var r := Strip(s);
    if r != [] {
      assert LeadingSpaces(r) == 0;
      assert TrailingSpaces(r) == 0;
    }
  }

  /** A string with no whitespace is its own strip. */
  lemma StripNoSpace(s: string)
    requires forall k :: 0 <= k < |s| ==> !IsSpace(s[k])
    ensures Strip(s) == s
  {
    assert LeadingSpaces(s) == 0;
    if s != [] {
      assert TrailingSpaces(s) == 0;
    }
  }

  /** `pat` occurs in `s` at position `i`. */
  predicate OccursAt(s: string, pat: string, i: int) {
    0 <= i && i + |pat| <= |s| && s[i..i + |pat|] == pat
  }

  /** The first occurrence of `pat` in `s` at or after `i`. */
  function FindFrom(s: string, pat: string, i: nat): (r: Option<nat>)
    requires i <= |s|
    ensures r.Some? ==> i <= r.value && OccursAt(s, pat, r.value)
    ensures r.Some? ==> forall k :: i <= k < r.value ==> !OccursAt(s, pat, k)
    ensures r.None? ==> forall k :: i <= k ==> !OccursAt(s, pat, k)
    decreases |s| - i
  {
    if OccursAt(s, pat, i) then Some(i)
    else if i == |s| then None
    else FindFrom(s, pat, i + 1)
  }

  /** `s.find(pat)`, with `None` for -1. */
  function IndexOf(s: string, pat: string): Option<nat> {
    FindFrom(s, pat, 0)
  }

  /** The last occurrence of `pat` in `s` at or before `i`. */
  function FindLast(s: string, pat: string, i: int): (r: Option<nat>)
    requires i <= |s|
    ensures r.Some? ==> r.value <= i && OccursAt(s, pat, r.value)
    ensures r.Some? ==> forall k :: r.value < k <= i ==> !OccursAt(s, pat, k)
    ensures r.None? ==> forall k :: k <= i ==> !OccursAt(s, pat, k)
    decreases i + 1
  {
    if i < 0 then None
    else if OccursAt(s, pat, i) then Some(i)
    else FindLast(s, pat, i - 1)
  }

  /** `s.rfind(pat)`, with `None` for -1. */
  function LastIndexOf(s: string, pat: string): Option<nat> {
    FindLast(s, pat, |s|)
  }

  /** Python's `pat in s`. */
  predicate Contains(s: string, pat: string) {
    IndexOf(s, pat).Some?
  }

  lemma ContainsIff(s: string, pat: string)
    ensures Contains(s, pat) <==> exists k :: OccursAt(s, pat, k)
  {
    var r := IndexOf(s, pat);
    if r.Some? {
      assert OccursAt(s, pat, r.value);
    }
  }

  /** When `s` ends with `pat`, the last occurrence is that final one. */
  lemma {:induction false} LastIndexOfSuffix(s: string, pat: string, i: int)
    requires |pat| <= |s| && s[|s| - |pat|..] == pat
    requires |s| - |pat| <= i <= |s|
    ensures FindLast(s, pat, i) == Some(|s| - |pat|)
    decreases i
  {
    if i != |s| - |pat| {
      assert !OccursAt(s, pat, i);
      LastIndexOfSuffix(s, pat, i - 1);
    }
  }

  predicate IsUpper(c: char) { 'A' <= c <= 'Z' }
  predicate IsLower(c: char) { 'a' <= c <= 'z' }

  /** Python's notion of a cased character, restricted to ASCII letters. */
  predicate IsCased(c: char) { IsUpper(c) || IsLower(c) }

  /** An upper-case letter becomes its lower-case letter; every other character is kept. */
  function LowerChar(c: char): (r: char)
    ensures IsCased(r) == IsCased(c) && !IsUpper(r)
    ensures !IsUpper(c) ==> r == c
    ensures IsUpper(c) ==> IsLower(r) && UpperChar(r) == c
  {
    if IsUpper(c) then (c as int + 32) as char else c
  }

  function UpperChar(c: char): (r: char)
    ensures IsCased(r) == IsCased(c) && !IsLower(r)
  {
    if IsLower(c) then (c as int - 32) as char else c
  }

  /** `s.lower()`: every upper-case letter becomes its lower-case letter; nothing else changes. */
  function ToLower(s: string): (r: string)
    ensures |r| == |s|
    ensures forall k :: 0 <= k < |s| ==> !IsUpper(r[k]) && IsCased(r[k]) == IsCased(s[k])
    ensures forall k :: 0 <= k < |s| && !IsUpper(s[k]) ==> r[k] == s[k]
    ensures forall k :: 0 <= k < |s| && IsUpper(s[k]) ==> IsLower(r[k]) && UpperChar(r[k]) == s[k]
  {
    seq(|s|, k requires 0 <= k < |s| => LowerChar(s[k]))
  }

  /**
   * Title-casing of `s` when the character before it was (`prevCased`) or was not a letter:
   * non-letters are kept, and every letter keeps its letter and is upper case exactly when
   * the character before it is not a letter.
   */
  function TitleAfter(s: string, prevCased: bool): (r: string)
    ensures |r| == |s|
    ensures forall k :: 0 <= k < |s| ==> IsCased(r[k]) == IsCased(s[k]) && LowerChar(r[k]) == LowerChar(s[k])
    ensures forall k :: 0 <= k < |s| && !IsCased(s[k]) ==> r[k] == s[k]
    ensures forall k :: 0 <= k < |s| && IsCased(s[k]) ==>
      (IsUpper(r[k]) <==> !(if k == 0 then prevCased else IsCased(s[k - 1])))
  {
    if s == [] then []
    else
      var c := if !IsCased(s[0]) then s[0] else if prevCased then LowerChar(s[0]) else UpperChar(s[0]);
      var rest := TitleAfter(s[1..], IsCased(s[0]));
      [c] + rest
  }

  /** `s.title()`: every letter that follows a non-letter is upper case, every other letter lower case. */
  function Title(s: string): (r: string)
    ensures |r| == |s|
    ensures forall k :: 0 <= k < |s| ==> IsCased(r[k]) == IsCased(s[k]) && LowerChar(r[k]) == LowerChar(s[k])
    ensures forall k :: 0 <= k < |s| && !IsCased(s[k]) ==> r[k] == s[k]
    ensures forall k :: 0 <= k < |s| && IsCased(s[k]) ==> (IsUpper(r[k]) <==> k == 0 || !IsCased(s[k - 1]))
  {
    TitleAfter(s, false)
  }

  /** `s.replace(c, "")`. */
  function RemoveChar(s: string, c: char): (r: string)
    ensures c !in r
    ensures forall x :: x != c ==> multiset(r)[x] == multiset(s)[x]
    ensures c !in s ==> r == s
  {
    if s == [] then []
    else
      assert s == [s[0]] + s[1..];
      (if s[0] == c then [] else [s[0]]) + RemoveChar(s[1..], c)
  }

  /** Removing from a concatenation removes from each part: the kept characters stay in order. */
  lemma {:induction false} RemoveCharAppend(s: string, t: string, c: char)
    ensures RemoveChar(s + t, c) == RemoveChar(s, c) + RemoveChar(t, c)
  {
    if s == [] {
      assert s + t == t;
    } else {
      assert (s + t)[1..] == s[1..] + t;
      RemoveCharAppend(s[1..], t, c);
    }
  }

  predicate IsDigit(c: char) { '0' <= c <= '9' }

  predicate AllDigits(s: string) { forall k :: 0 <= k < |s| ==> IsDigit(s[k]) }

  function DigitChar(d: nat): (c: char)
    requires d < 10
    ensures IsDigit(c)
  {
    ('0' as int + d) as char
  }

  /** `str(n)` for a natural number: its decimal digits, without leading zeros. */
  function NatToString(n: nat): (r: string)
    ensures |r| >= 1 && AllDigits(r)
    ensures r[0] == '0' ==> n == 0
  {
    if n < 10 then [DigitChar(n)] else NatToString(n / 10) + [DigitChar(n % 10)]
  }

  /** The number a string of decimal digits denotes. */
  function DigitsValue(s: string): nat
    requires AllDigits(s)
  {
    if s == [] then 0 else DigitsValue(s[..|s| - 1]) * 10 + (s[|s| - 1] as int - '0' as int)
  }

  /** Reading back the digits `str(n)` writes gives `n`. */
  lemma {:induction false} DigitsValueOfNatToString(n: nat)
    ensures DigitsValue(NatToString(n)) == n
  {
    if n >= 10 {
      var s := NatToString(n);
      assert s[..|s| - 1] == NatToString(n / 10);
      DigitsValueOfNatToString(n / 10);
    }
  }

  /** The value of the digits after a decimal point: "25" is 0.25. */
  function FractionValue(s: string): (r: real)
    requires AllDigits(s)
    ensures 0.0 <= r <= 1.0
  {
    if s == [] then 0.0 else ((s[0] as int - '0' as int) as real + FractionValue(s[1..])) / 10.0
  }

  /** `float(t)` for an unsigned decimal `digits[.digits]` with at least one digit. */
  function ParseUnsigned(t: string): (r: Option<real>)
    ensures r.Some? ==> r.value >= 0.0
  {
    match IndexOf(t, ".")
    case None => WholeValue(t)
    case Some(p) => PointValue(t[..p], t[p + 1..])
  }

  /** The value of a nonempty run of digits. */
  function WholeValue(t: string): Option<real> {
    if t != [] && AllDigits(t) then Some(DigitsValue(t) as real) else None
  }

  /** The value of the digits `whole` and `frac` around a point, not both empty. */
  function PointValue(whole: string, frac: string): (r: Option<real>)
    ensures r.Some? ==> r.value >= 0.0
  {
    if (whole != [] || frac != []) && AllDigits(whole) && AllDigits(frac)
    then Some(DigitsValue(whole) as real + FractionValue(frac))
    else None
  }

  /** `float(s)` for a plain decimal with an optional sign and surrounding whitespace; `None` where Python raises. */
  function ParseDecimal(s: string): (r: Option<real>)
    ensures r.Some? ==> Strip(s) != []
  {
    var t := Strip(s);
    var signed := t != [] && (t[0] == '-' || t[0] == '+');
    match ParseUnsigned(if signed then t[1..] else t)
    case None => None
    case Some(v) => Some(if t != [] && t[0] == '-' then -v else v)
  }

  lemma NoPointInDigits(s: string)
    requires AllDigits(s)
    ensures IndexOf(s, ".") == None
  {
    forall k | 0 <= k < |s|
      ensures !OccursAt(s, ".", k)
    {
      assert IsDigit(s[k]);
    }
  }

  lemma ParseUnsignedDigits(s: string)
    requires s != [] && AllDigits(s)
    ensures ParseUnsigned(s) == Some(DigitsValue(s) as real)
  {
    NoPointInDigits(s);
  }

  lemma ParseDecimalDigits(s: string)
    requires s != [] && AllDigits(s)
    ensures ParseDecimal(s) == Some(DigitsValue(s) as real)
  {
    StripNoSpace(s);
    assert IsDigit(s[0]);
    ParseUnsignedDigits(s);
  }

  /** Text whose first point is at `p` is read as the digits around that point. */
  lemma ParseUnsignedAt(t: string, p: nat)
    requires IndexOf(t, ".") == Some(p)
    ensures p < |t| && ParseUnsigned(t) == PointValue(t[..p], t[p + 1..])
  {
  }

  /** `float(t)` for `t == w + "." + f` with digit strings `w` and `f`, not both empty. */
  lemma ParseUnsignedPoint(t: string, w: string, f: string)
    requires AllDigits(w) && AllDigits(f) && (w != [] || f != [])
    requires t == w + "." + f
    ensures ParseUnsigned(t) == Some(DigitsValue(w) as real + FractionValue(f))
  {
    FirstPoint(w, f);
    ParseUnsignedAt(t, |w|);
    assert t[..|w|] == w && t[|w| + 1..] == f;
  }

  /** The first point in `w + "." + f`, for digits `w`, is the one after `w`. */
  lemma FirstPoint(w: string, f: string)
    requires AllDigits(w)
    ensures IndexOf(w + "." + f, ".") == Some(|w|)
  {
    var t := w + "." + f;
    assert t[|w|..|w| + 1] == ".";
    assert OccursAt(t, ".", |w|);
    forall k | 0 <= k < |w|
      ensures !OccursAt(t, ".", k)
    {
      assert t[k..k + 1] == [w[k]];
    }
    var r := FindFrom(t, ".", 0);
    assert r.Some?;
    assert r.value <= |w|;
  }

  /** `w + "." + f`, for digits `w` and `f`, has no whitespace and does not start with a sign. */
  lemma PointNoSpace(w: string, f: string)
    requires AllDigits(w) && AllDigits(f)
    ensures forall k :: 0 <= k < |w + "." + f| ==> !IsSpace((w + "." + f)[k])
    ensures (w + "." + f)[0] != '-' && (w + "." + f)[0] != '+'
  {
    var u := w + "." + f;
    forall k | 0 <= k < |u|
      ensures !IsSpace(u[k]) && (k == 0 ==> u[k] != '-' && u[k] != '+')
    {
      if k < |w| {
        assert u[k] == w[k];
      } else if k > |w| {
        assert u[k] == f[k - |w| - 1];
      }
    }
  }

  /** Whitespace-free text that does not start with a sign parses as unsigned text. */
  lemma ParseDecimalClean(u: string)
    requires u != [] && u[0] != '-' && u[0] != '+'
    requires forall k :: 0 <= k < |u| ==> !IsSpace(u[k])
    ensures ParseDecimal(u) == ParseUnsigned(u)
  {
    StripNoSpace(u);
  }

  /** A sign in front of whitespace-free unsigned text: a minus negates its value, a plus keeps it. */
  lemma ParseDecimalSign(sign: char, u: string, v: real)
    requires sign == '-' || sign == '+'
    requires u != [] && ParseUnsigned(u) == Some(v)
    requires forall k :: 0 <= k < |u| ==> !IsSpace(u[k])
    ensures ParseDecimal([sign] + u) == Some(if sign == '-' then -v else v)
  {
    var s := [sign] + u;
    assert s[0] == sign;
    assert s[1..] == u;
    forall k | 0 <= k < |s|
      ensures !IsSpace(s[k])
    {
      if k >= 1 {
        assert s[k] == u[k - 1];
      }
    }
    StripNoSpace(s);
  }

  /** `float(s)` for `s == w + "." + f` with digit strings `w` and `f`, not both empty, is their decimal value. */
  lemma ParseDecimalPoint(s: string, w: string, f: string)
    requires AllDigits(w) && AllDigits(f) && (w != [] || f != [])
    requires s == w + "." + f
    ensures ParseDecimal(s) == Some(DigitsValue(w) as real + FractionValue(f))
  {
    PointNoSpace(w, f);
    ParseUnsignedPoint(s, w, f);
    ParseDecimalClean(s);
  }

  /** Text made of an optional leading sign followed by digits and points only. */
  predicate Numeral(t: string) {
    forall k :: 0 <= k < |t| ==> IsDigit(t[k]) || t[k] == '.' || (k == 0 && (t[k] == '-' || t[k] == '+'))
  }

  /** Unsigned text that parses holds digits and points only. */
  lemma ParseUnsignedNumeral(t: string)
    requires ParseUnsigned(t).Some?
    ensures t != []
    ensures forall k :: 0 <= k < |t| ==> IsDigit(t[k]) || t[k] == '.'
  {
    match IndexOf(t, ".")
    case None =>
      assert WholeValue(t).Some?;
    case Some(p) =>
      ParseUnsignedAt(t, p);
      var w, f := t[..p], t[p + 1..];
      assert PointValue(w, f).Some?;
      assert AllDigits(w) && AllDigits(f);
      assert t[p..p + 1] == ".";
      forall k | 0 <= k < |t|
        ensures IsDigit(t[k]) || t[k] == '.'
      {
        if k < p {
          assert t[k] == w[k];
        } else if k > p {
          assert t[k] == f[k - p - 1];
        } else {
          assert t[k] == t[p..p + 1][0];
        }
      }
  }

  /**
   * `float(s)` succeeds only when the stripped text is an optional sign followed by digits
   * and points: "Contact for price" or "€120" give `None`.
   */
  lemma ParseDecimalNumeral(s: string)
    requires ParseDecimal(s).Some?
    ensures Strip(s) != [] && Numeral(Strip(s))
  {
    var t := Strip(s);
    var signed := t != [] && (t[0] == '-' || t[0] == '+');
    var u := if signed then t[1..] else t;
    assert ParseUnsigned(u).Some?;
    ParseUnsignedNumeral(u);
    forall k | 0 <= k < |t|
      ensures IsDigit(t[k]) || t[k] == '.' || (k == 0 && (t[k] == '-' || t[k] == '+'))
    {
      if signed && k >= 1 {
        assert t[k] == u[k - 1];
      } else if !signed {
        assert t[k] == u[k];
      }
    }
  }

  /** `float(str(n)) == n`. */
  lemma ParseDecimalOfNat(n: nat)
    ensures ParseDecimal(NatToString(n)) == Some(n as real)
  {
    ParseDecimalDigits(NatToString(n));
    DigitsValueOfNatToString(n);
  }
}
