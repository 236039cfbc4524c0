/** The few Python string operations the model needs. */
module Strings {

  /** Python's `sub in s` on strings. */
  predicate Contains(s: string, sub: string)
  {
    exists i :: 0 <= i <= |s| && OccursAt(s, sub, i)
  }

  /** `sub` occurs in `s` starting at index `i`. */
  predicate OccursAt(s: string, sub: string, i: int)
  {
    0 <= i <= |s| - |sub| && s[i..i + |sub|] == sub
  }

  /** Python's `sep.join(parts)`. */
  function Join(parts: seq<string>, sep: string): string
  {
    if |parts| == 0 then ""
    else if |parts| == 1 then parts[0]
    else parts[0] + sep + Join(parts[1..], sep)
  }

  /** Python's `s.replace(from, to)` for one-character `from` and `to`. */
  function ReplaceChar(s: string, from: char, to: char): (r: string)
    ensures |r| == |s|
    ensures forall i :: 0 <= i < |s| ==> r[i] == if s[i] == from then to else s[i]
  {
    if s == [] then [] else [if s[0] == from then to else s[0]] + ReplaceChar(s[1..], from, to)
  }

  /** Replacing one character commutes with concatenation. */
  lemma {:induction false} ReplaceCharConcat(s: string, t: string, from: char, to: char)
    ensures ReplaceChar(s + t, from, to) == ReplaceChar(s, from, to) + ReplaceChar(t, from, to)
  {
    var u := s + t;
    var l, a, b := ReplaceChar(u, from, to), ReplaceChar(s, from, to), ReplaceChar(t, from, to);
    forall i | 0 <= i < |l| ensures l[i] == (a + b)[i] {
      if i < |s| {
        assert u[i] == s[i] && (a + b)[i] == a[i];
      } else {
        assert u[i] == t[i - |s|] && (a + b)[i] == b[i - |s|];
      }
    }
    assert l == a + b;
  }

  /** Python's `str(n)` for an integer. */
  function DecimalString(n: int): string
  {
    if n < 0 then "-" + NaturalString(-n) else NaturalString(n)
  }

  function NaturalString(n: nat): string
    decreases n
  {
    if n < 10 then [DigitChar(n)] else NaturalString(n / 10) + [DigitChar(n % 10)]
  }

  function DigitChar(d: nat): char
    requires d < 10
  {
    ['0', '1', '2', '3', '4', '5', '6', '7', '8', '9'][d]
  }
}
