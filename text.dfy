/**
 * Helpers for the template strings of the step generator: how JavaScript
 * renders `${x}` when `x` is a character of the input, `undefined` (an index
 * outside the input) or a number.
 */
module Text {

  function DigitChar(d: nat): char
    requires d < 10
  {
    "0123456789"[d]
  }

  /** Decimal rendering of a non-negative integer, as `${k}` gives it. */
  function NatToString(k: nat): (r: string)
    ensures |r| >= 1
    ensures forall i :: 0 <= i < |r| ==> '0' <= r[i] <= '9'
  {
    if k < 10 then [DigitChar(k)] else NatToString(k / 10) + [DigitChar(k % 10)]
  }

  /** `${k}` for an integer, with a leading '-' when negative. */
  function IntToString(k: int): (r: string)
    ensures |r| >= 1
  {
    if k < 0 then "-" + NatToString(-k) else NatToString(k)
  }

  /** `${chars[i]}`: the character at i, or "undefined" outside the string. */
  function CharAt(s: string, i: int): string
  {
    if 0 <= i < |s| then [s[i]] else "undefined"
  }

  /** `${chars[i] || fallback}`: a one-character string is truthy, `undefined` is not. */
  function CharOr(s: string, i: int, fallback: string): string
  {
    if 0 <= i < |s| then [s[i]] else fallback
  }

  /**
   * Reverse of a sequence, as `Array.prototype.reverse` leaves it. The
   * pointwise ensures only names the indexing; `ReverseInvolutive` and
   * `ReverseMultiset` are the facts that characterise it.
   */
  function Reverse<T>(s: seq<T>): (r: seq<T>)
    ensures |r| == |s|
    ensures forall i :: 0 <= i < |s| ==> r[i] == s[|s| - 1 - i]
  {
    seq(|s|, i requires 0 <= i < |s| => s[|s| - 1 - i])
  }

  /** Reversing twice gives back the original. */
  lemma ReverseInvolutive<T>(s: seq<T>)
    ensures Reverse(Reverse(s)) == s
  {
  }

  /** Reversing keeps the same elements, each as often. */
  lemma {:induction false} ReverseMultiset<T>(s: seq<T>)
    ensures multiset(Reverse(s)) == multiset(s)
    decreases |s|
  {
    if s != [] {
      var t := s[1..];
      ReverseMultiset(t);
      assert Reverse(s) == Reverse(t) + [s[0]];
      assert s == [s[0]] + t;
    }
  }

  /**
   * The first k elements (all of s when k passes the end), element by
   * element; `PrefixIsSlice` equates it with `s[..k]`.
   */
  function Prefix<T>(s: seq<T>, k: nat): (r: seq<T>)
    ensures |r| == Min(k, |s|)
  {
    seq(Min(k, |s|), j requires 0 <= j < Min(k, |s|) => s[j])
  }

  /**
   * `s.slice(k)` for k >= 0: the elements from position k on (none once k
   * passes the end); `SuffixIsSlice` equates it with `s[k..]`.
   */
  function Suffix<T>(s: seq<T>, k: nat): (r: seq<T>)
    ensures |r| == |s| - Min(k, |s|)
  {
    seq(|s| - Min(k, |s|), j requires 0 <= j < |s| - Min(k, |s|) => s[k + j])
  }

  lemma PrefixIsSlice<T>(s: seq<T>, k: nat)
    requires k <= |s|
    ensures Prefix(s, k) == s[..k]
  {
  }

  lemma SuffixIsSlice<T>(s: seq<T>, k: nat)
    requires k <= |s|
    ensures Suffix(s, k) == s[k..]
  {
  }

  /**
   * `s.slice(0, end)`: a negative end counts from the end of the string,
   * an end past the length is clamped.
   */
  function Slice0<T>(s: seq<T>, end: int): seq<T>
  {
    if end < 0 then Prefix(s, Max(|s| + end, 0)) else Prefix(s, end)
  }

  function Min(a: int, b: int): int
  {
    if a <= b then a else b
  }

  function Max(a: int, b: int): int
  {
    if a >= b then a else b
  }
}
