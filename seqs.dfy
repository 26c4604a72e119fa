/** Sequence operations the client builds its lists with: `map`, an index
    `filter`, and `startsWith`. */
module Seqs {

  /** `s.map(f)`. */
  function Map<A, B>(f: A -> B, s: seq<A>): (r: seq<B>)
    ensures |r| == |s|
    ensures forall k :: 0 <= k < |s| ==> r[k] == f(s[k])
  {
    if s == [] then [] else [f(s[0])] + Map(f, s[1..])
  }

  /** `s.filter((_, index) => index !== i)`: every element except the one at
      position `i`, which may be out of range. */
  function WithoutIndex<T>(s: seq<T>, i: int): (r: seq<T>)
    ensures 0 <= i < |s| ==> r == s[..i] + s[i + 1..]
    ensures !(0 <= i < |s|) ==> r == s
  {
    if s == [] then []
    else if i == 0 then WithoutIndex(s[1..], i - 1)
    else
      var rest := WithoutIndex(s[1..], i - 1);
      assert 0 < i < |s| ==> [s[0]] + s[1..][..i - 1] == s[..i];
      [s[0]] + rest
  }

  /** Where element `k` of `WithoutIndex(s, i)` came from in `s`. */
  function SourceIndex(i: int, k: int): int {
    if k < i then k else k + 1
  }

  /** Removing the same position from two lists of equal length keeps the
      lists equally long and keeps every surviving pair together. */
  lemma {:induction false} WithoutIndexKeepsPairs<A, B>(a: seq<A>, b: seq<B>, i: int)
    requires |a| == |b| && 0 <= i < |a|
    ensures |WithoutIndex(a, i)| == |WithoutIndex(b, i)| == |a| - 1
    ensures forall k :: 0 <= k < |a| - 1 ==>
      0 <= SourceIndex(i, k) < |a| &&
      WithoutIndex(a, i)[k] == a[SourceIndex(i, k)] &&
      WithoutIndex(b, i)[k] == b[SourceIndex(i, k)]
  {
    var ra, rb := WithoutIndex(a, i), WithoutIndex(b, i);
    assert ra == a[..i] + a[i + 1..];
    assert rb == b[..i] + b[i + 1..];
  }

  /** Text that joins two parts with a separator neither first part
      contains splits back into those parts. */
  lemma SplitAtSeparator<T>(a: seq<T>, b: seq<T>, x: seq<T>, y: seq<T>, sep: T)
    requires sep !in a && sep !in b
    requires a + [sep] + x == b + [sep] + y
    ensures a == b && x == y
  {
    var u, v := a + [sep] + x, b + [sep] + y;
    // The separator first appears at the end of the shorter part.
    var k := if |a| < |b| then |a| else |b|;
    assert u[k] == sep <==> k == |a|;
    assert v[k] == sep <==> k == |b|;
    assert |a| == |b|;
    assert a == u[..|a|] && b == u[..|b|];
    assert x == u[|a| + 1..] && y == v[|b| + 1..];
  }

  /** `s.startsWith(prefix)`. */
  predicate StartsWith(s: string, prefix: string) {
    |prefix| <= |s| && s[..|prefix|] == prefix
  }
}
