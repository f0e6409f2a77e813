/** The two pieces of Python text formatting the core relies on:
    `str(n)` of a non-negative int and `str(list)` of a list of plain strings. */
module Text {

  predicate IsDigit(c: char) { '0' <= c <= '9' }

  function DigitChar(d: nat): (c: char)
    requires d < 10
    ensures IsDigit(c)
  {
    "0123456789"[d]
  }

  /** Decimal rendering of a natural number, most significant digit first, no leading zeros. */
  function NatToString(n: nat): (s: string)
    ensures |s| >= 1
    ensures forall i :: 0 <= i < |s| ==> IsDigit(s[i])
    ensures s[0] == '0' ==> n == 0
    decreases n
  {
    if n < 10 then [DigitChar(n)] else NatToString(n / 10) + [DigitChar(n % 10)]
  }

  /** The value of a string of decimal digits. */
  function DigitsValue(s: string): nat
    requires forall i :: 0 <= i < |s| ==> IsDigit(s[i])
  {
    if s == [] then 0
    else
      assert IsDigit(s[|s| - 1]);
      10 * DigitsValue(s[..|s| - 1]) + (s[|s| - 1] as int - '0' as int)
  }

  /** Rendering loses nothing: reading the digits back gives the number. */
  lemma {:induction false} NatToStringRoundTrip(n: nat)
    ensures DigitsValue(NatToString(n)) == n
    decreases n
  {
    var s := NatToString(n);
    if n >= 10 {
      NatToStringRoundTrip(n / 10);
      assert s[..|s| - 1] == NatToString(n / 10);
    }
  }

  /** Distinct counts render as distinct strings. */
  lemma NatToStringInjective(m: nat, n: nat)
    requires NatToString(m) == NatToString(n)
    ensures m == n
  {
    NatToStringRoundTrip(m);
    NatToStringRoundTrip(n);
  }

  /** Python's repr of a string holding neither quote nor backslash. */
  function Quoted(s: string): string { "'" + s + "'" }

  function JoinReprs(xs: seq<string>): string
  {
    if |xs| == 0 then ""
    else if |xs| == 1 then Quoted(xs[0])
    else Quoted(xs[0]) + ", " + JoinReprs(xs[1..])
  }

  /** Python's `str(list)` for a list of plain strings: `['a', 'b']`. */
  function ListRepr(xs: seq<string>): (r: string)
    ensures |r| >= 2 && r[0] == '[' && r[|r| - 1] == ']'
  {
    "[" + JoinReprs(xs) + "]"
  }

  /** Joining one more element appends the separator and its repr. */
  lemma {:induction false} JoinReprsSnoc(xs: seq<string>, x: string)
    requires |xs| >= 1
    ensures JoinReprs(xs + [x]) == JoinReprs(xs) + ", " + Quoted(x)
    decreases |xs|
  {
    if |xs| == 1 {
      assert (xs + [x])[1..] == [x];
    } else {
      assert (xs + [x])[1..] == xs[1..] + [x];
      JoinReprsSnoc(xs[1..], x);
    }
  }

  /** The rendering grows element by element in list order: the empty list is `[]`, and one
      more element is inserted before the closing bracket, quoted, after `, ` when the list was
      not empty. Python's `str(list)` of plain strings is built the same way. */
  lemma ListReprSnoc(xs: seq<string>, x: string)
    ensures ListRepr([]) == "[]"
    ensures var before := ListRepr(xs);
      ListRepr(xs + [x])
        == if |xs| == 0 then "['" + x + "']"
           else before[..|before| - 1] + ", '" + x + "']"
  {
    var before := ListRepr(xs);
    assert before[..|before| - 1] == "[" + JoinReprs(xs);
    if |xs| == 0 {
      assert xs + [x] == [x];
    } else {
      JoinReprsSnoc(xs, x);
    }
  }

  predicate StartsWith(s: string, prefix: string)
  {
    |prefix| <= |s| && s[..|prefix|] == prefix
  }

  /** A string framed by the same prefix and suffix is recovered from the whole. */
  lemma InfixCancels(prefix: string, a: string, b: string, suffix: string)
    requires prefix + a + suffix == prefix + b + suffix
    ensures a == b
  {
    var m := prefix + a + suffix;
    assert |a| == |b|;
    assert a == m[|prefix|..|prefix| + |a|];
  }
}
