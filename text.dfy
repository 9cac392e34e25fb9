/** String helpers that the engine relies on: ASCII lower-casing,
    substring search (`String.prototype.includes`), decimal rendering of
    a count (template literal `${n}`) and the first run of digits in a
    text (`/(\d+)/` followed by `parseInt`). */
module Text {

  import opened Options

  /** A number as `toLocaleString` receives it: a natural number, or the
      `NaN` and `-Infinity` that an empty list produces. */
  datatype Number = Finite(value: nat) | NotANumber | MinusInfinity

  function LowerChar(ch: char): char {
    if 'A' <= ch <= 'Z' then (ch as int + 32) as char else ch
  }

  /** `toLowerCase`, for the ASCII letters. */
  function Lower(s: string): (r: string)
    ensures |r| == |s|
    ensures forall i :: 0 <= i < |s| ==> r[i] == LowerChar(s[i])
    ensures forall i :: 0 <= i < |r| ==> !('A' <= r[i] <= 'Z')
  {
    if s == [] then [] else [LowerChar(s[0])] + Lower(s[1..])
  }

  lemma LowerIdempotent(s: string)
    ensures Lower(Lower(s)) == Lower(s)
  {
  }

  /** t is the lower-cased s when they agree character by character. */
  lemma LowerIs(s: string, t: string)
    requires |s| == |t| && forall i :: 0 <= i < |s| ==> LowerChar(s[i]) == t[i]
    ensures Lower(s) == t
  {
  }

  /** `s.includes(t)`: t occurs in s as a contiguous block (the empty text
      occurs everywhere). */
  predicate Contains(s: string, t: string)
    decreases |s|
  {
    if |s| < |t| then false
    else if s[..|t|] == t then true
    else Contains(s[1..], t)
  }

  /** t occurs in s starting at position i. */
  predicate OccursAt(s: string, t: string, i: int) {
    0 <= i <= |s| - |t| && s[i..i + |t|] == t
  }

  /** The search agrees with the textbook definition of an occurrence. */
  lemma {:induction false} ContainsIff(s: string, t: string)
    ensures Contains(s, t) <==> exists i :: OccursAt(s, t, i)
    decreases |s|
  {
    if |s| < |t| {
    } else if s[..|t|] == t {
      assert OccursAt(s, t, 0);
    } else {
      ContainsIff(s[1..], t);
      if Contains(s, t) {
        var i :| OccursAt(s[1..], t, i);
        assert s[i + 1..i + 1 + |t|] == s[1..][i..i + |t|];
        assert OccursAt(s, t, i + 1);
      }
      if exists i :: OccursAt(s, t, i) {
        var i :| OccursAt(s, t, i);
        assert i != 0 by { assert s[..|t|] == s[0..0 + |t|]; }
        assert s[1..][i - 1..i - 1 + |t|] == s[i..i + |t|];
        assert OccursAt(s[1..], t, i - 1);
      }
    }
  }

  /** A block found in a part of a text is found in the whole text. */
  lemma ContainsInfix(a: string, b: string, c: string, t: string)
    requires Contains(b, t)
    ensures Contains(a + b + c, t)
  {
    ContainsIff(b, t);
    var i :| OccursAt(b, t, i);
    assert (a + b + c)[|a| + i..|a| + i + |t|] == b[i..i + |t|];
    assert OccursAt(a + b + c, t, |a| + i);
    ContainsIff(a + b + c, t);
  }

  predicate IsDigit(ch: char) {
    '0' <= ch <= '9'
  }

  function DigitValue(ch: char): nat
    requires IsDigit(ch)
  {
    ch as int - '0' as int
  }

  function DigitChar(d: nat): (ch: char)
    requires d < 10
    ensures IsDigit(ch) && DigitValue(ch) == d
  {
    ('0' as int + d) as char
  }

  /** `${n}` for a natural number: its decimal digits, most significant first. */
  function NatToString(n: nat): (r: string)
    ensures |r| > 0
    ensures forall i :: 0 <= i < |r| ==> IsDigit(r[i])
    decreases n
  {
    if n < 10 then [DigitChar(n)] else NatToString(n / 10) + [DigitChar(n % 10)]
  }

  /** The longest prefix of s made of digits. */
  function DigitPrefix(s: string): (r: string)
    ensures |r| <= |s| && r == s[..|r|]
    ensures forall i :: 0 <= i < |r| ==> IsDigit(r[i])
    ensures |r| < |s| ==> !IsDigit(s[|r|])
  {
    if s == [] || !IsDigit(s[0]) then [] else [s[0]] + DigitPrefix(s[1..])
  }

  /** `parseInt` of a string of digits. */
  function ParseDigits(d: string): nat
    requires forall i :: 0 <= i < |d| ==> IsDigit(d[i])
  {
    if d == [] then 0 else ParseDigits(d[..|d| - 1]) * 10 + DigitValue(d[|d| - 1])
  }

  /** Rendering a number and parsing it back gives the number. */
  lemma {:induction false} ParseNatToString(n: nat)
    ensures ParseDigits(NatToString(n)) == n
    decreases n
  {
    if n >= 10 {
      var s := NatToString(n / 10) + [DigitChar(n % 10)];
      assert s[..|s| - 1] == NatToString(n / 10);
      ParseNatToString(n / 10);
    }
  }

  /** `s.match(/(\d+)/)` followed by `parseInt`: the value of the leftmost
      run of digits, or None when s holds no digit. */
  function FirstNumber(s: string): (r: Option<nat>)
    ensures r.None? <==> forall i :: 0 <= i < |s| ==> !IsDigit(s[i])
  {
    if s == [] then None
    else if IsDigit(s[0]) then Some(ParseDigits(DigitPrefix(s)))
    else FirstNumber(s[1..])
  }

  /** A number written after a digit-free text, and not followed by another
      digit, is the first number of the whole text. */
  lemma {:induction false} FirstNumberAfter(p: string, n: nat, rest: string)
    requires forall i :: 0 <= i < |p| ==> !IsDigit(p[i])
    requires rest == [] || !IsDigit(rest[0])
    ensures FirstNumber(p + NatToString(n) + rest) == Some(n)
    decreases |p|
  {
    var w := NatToString(n);
    if p == [] {
      assert p + w + rest == w + rest;
      DigitPrefixOf(w, rest);
      ParseNatToString(n);
    } else {
      assert (p + w + rest)[1..] == p[1..] + w + rest;
      FirstNumberAfter(p[1..], n, rest);
    }
  }

  lemma {:induction false} DigitPrefixOf(w: string, rest: string)
    requires forall i :: 0 <= i < |w| ==> IsDigit(w[i])
    requires rest == [] || !IsDigit(rest[0])
    ensures DigitPrefix(w + rest) == w
    decreases |w|
  {
    if w != [] {
      assert (w + rest)[1..] == w[1..] + rest;
      DigitPrefixOf(w[1..], rest);
    }
  }

  /** `${n} rest`: a count, a space, then the rest of a message. */
  function Counted(n: nat, rest: string): string {
    NatToString(n) + " " + rest
  }

  /** The count is the first number of any message that leads up to it
      without a digit. */
  lemma CountedFirst(p: string, n: nat, rest: string)
    requires forall i :: 0 <= i < |p| ==> !IsDigit(p[i])
    ensures FirstNumber(p + Counted(n, rest)) == Some(n)
  {
    var w, tail := NatToString(n), " " + rest;
    assert Counted(n, rest) == w + tail;
    assert p + (w + tail) == p + w + tail;
    assert tail[0] == ' ';
    FirstNumberAfter(p, n, tail);
  }

  /** A block of a block of s is a block of s. */
  lemma ContainsTrans(s: string, t: string, u: string)
    requires Contains(s, t) && Contains(t, u)
    ensures Contains(s, u)
  {
    ContainsIff(s, t);
    var i :| OccursAt(s, t, i);
    assert s == s[..i] + t + s[i + |t|..];
    ContainsInfix(s[..i], t, s[i + |t|..], u);
  }

  lemma ContainsSuffix(a: string, t: string)
    ensures Contains(a + t, t)
  {
    assert Contains(t, t);
    assert a + t + [] == a + t;
    ContainsInfix(a, t, [], t);
  }
}
