/** Order-preserving selection from a sequence, as `Array.prototype.filter` produces it. */
module Seqs {

  /** `a` is `b` with zero or more elements deleted and the rest kept in their order. */
  ghost predicate SubsequenceOf<T>(a: seq<T>, b: seq<T>)
    decreases |b|
  {
    if b == [] then a == []
    else (a != [] && a[0] == b[0] && SubsequenceOf(a[1..], b[1..])) || SubsequenceOf(a, b[1..])
  }

  /** A subsequence stays one when an element is put in front of the longer sequence. */
  lemma SubsequenceOfCons<T>(a: seq<T>, x: T, b: seq<T>)
    requires SubsequenceOf(a, b)
    ensures SubsequenceOf(a, [x] + b)
  {
    assert ([x] + b)[1..] == b;
  }

  /** Appending an element that satisfies `p` at its new index keeps `p` at every index
      from `lo` on. */
  lemma AppendKeepsAll<T>(s: seq<T>, x: T, lo: nat, p: (T, nat) -> bool)
    requires forall i :: lo <= i < |s| ==> p(s[i], i)
    requires p(x, |s|)
    ensures forall i :: lo <= i < |s + [x]| ==> p((s + [x])[i], i)
  {
  }
}
