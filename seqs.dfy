/** Order-preserving selection from a sequence, shared by the list filters. */
module Seqs {

  /** `a` can be obtained from `b` by deleting elements, keeping the order of the rest:
      either `b`'s first element is kept as `a`'s first, or it is deleted. */
  predicate IsSubsequence<T(==)>(a: seq<T>, b: seq<T>)
    decreases |b|
  {
    if b == [] then a == []
    else (a != [] && a[0] == b[0] && IsSubsequence(a[1..], b[1..])) || IsSubsequence(a, b[1..])
  }

  /** Deleting the first element of the larger sequence is one of the allowed deletions. */
  lemma SubsequenceOfTail<T>(a: seq<T>, b: seq<T>)
    requires b != [] && IsSubsequence(a, b[1..])
    ensures IsSubsequence(a, b)
  {
  }
}
