/**
 * The few pieces of Go's `strings` package and string representation that the
 * services rely on. A Go string is modelled as the sequence of its Unicode
 * characters; `Utf8Len` gives the number of bytes Go's `len` reports.
 */
module GoStrings {

  /** strings.Join: the elements with `sep` between consecutive ones. */
  function Join(elems: seq<string>, sep: string): (r: string)
    ensures |elems| == 1 ==> r == elems[0]
    ensures |elems| == 0 ==> r == ""
    decreases |elems|
  {
    if |elems| == 0 then ""
    else if |elems| == 1 then elems[0]
    else elems[0] + sep + Join(elems[1..], sep)
  }

  /**
   * Appending one more element to a non-empty list appends the separator and
   * that element: with any number of parts, `sep` sits exactly between
   * consecutive ones.
   */
  lemma {:induction false} JoinSnoc(elems: seq<string>, x: string, sep: string)
    requires |elems| > 0
    ensures Join(elems + [x], sep) == Join(elems, sep) + sep + x
    decreases |elems|
  {
    if |elems| > 1 {
      assert (elems + [x])[1..] == elems[1..] + [x];
      JoinSnoc(elems[1..], x, sep);
    } else {
      assert (elems + [x])[1..] == [x];
    }
  }

  /** Joining three elements puts the separator exactly twice. */
  lemma {:induction false} JoinThree(a: string, b: string, c: string, sep: string)
    ensures Join([a, b, c], sep) == a + sep + b + sep + c
  {
    assert [a, b] + [c] == [a, b, c];
    assert [a] + [b] == [a, b];
    JoinSnoc([a], b, sep);
    JoinSnoc([a, b], c, sep);
  }

  /** Joining four elements puts the separator exactly three times. */
  lemma {:induction false} JoinFour(a: string, b: string, c: string, d: string, sep: string)
    ensures Join([a, b, c, d], sep) == a + sep + b + sep + c + sep + d
  {
    assert [a, b, c] + [d] == [a, b, c, d];
    JoinThree(a, b, c, sep);
    JoinSnoc([a, b, c], d, sep);
  }

  /**
   * strings.ReplaceAll for a one-character `from` and `to`, both ASCII as at
   * every call site here: each occurrence of `from` becomes `to`, nothing else moves.
   */
  function ReplaceAll(s: string, from: char, to: char): (r: string)
    ensures |r| == |s|
    ensures forall i :: 0 <= i < |s| ==> r[i] == (if s[i] == from then to else s[i])
  {
    if s == [] then []
    else [if s[0] == from then to else s[0]] + ReplaceAll(s[1..], from, to)
  }

  /** After the rewrite no `from` is left (when it is rewritten to something else). */
  lemma ReplaceAllRemoves(s: string, from: char, to: char)
    requires from != to
    ensures from !in ReplaceAll(s, from, to)
  {
  }

  /**
   * Rewriting `a` to `b` and then `b` back to `a` gives the original string
   * exactly when it held no `b` to begin with.
   */
  lemma ReplaceAllRoundTrip(s: string, a: char, b: char)
    requires a != b
    ensures ReplaceAll(ReplaceAll(s, a, b), b, a) == s <==> b !in s
  {
  }

  /** utf8.RuneLen: the number of bytes of the UTF-8 encoding of `c`. */
  function RuneLen(c: char): (n: nat)
    ensures 1 <= n <= 4
    ensures n == 1 <==> (c as int) < 0x80
  {
    if (c as int) < 0x80 then 1
    else if (c as int) < 0x800 then 2
    else if (c as int) < 0x10000 then 3
    else 4
  }

  /** Go's `len` on a string: its length in UTF-8 bytes, never less than its number of characters. */
  function Utf8Len(s: string): (n: nat)
    ensures n >= |s|
    ensures n == |s| <==> forall i :: 0 <= i < |s| ==> (s[i] as int) < 0x80
  {
    if s == [] then 0 else RuneLen(s[0]) + Utf8Len(s[1..])
  }
}
