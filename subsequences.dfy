/** Order-preserving selection from a sequence, the shape every filter of the storefront has. */
module Subsequences {

  /** `a` is obtained from `b` by dropping elements, keeping the order of the rest. */
  ghost predicate IsSubsequence<T>(a: seq<T>, b: seq<T>)
    decreases |b|
  {
    a == [] || (b != [] && ((a[0] == b[0] && IsSubsequence(a[1..], b[1..])) || IsSubsequence(a, b[1..])))
  }

  lemma {:induction false} SubsequenceMembers<T>(a: seq<T>, b: seq<T>)
    requires IsSubsequence(a, b)
    ensures forall x :: x in a ==> x in b
    decreases |b|
  {
    if a == [] {
    } else if a[0] == b[0] && IsSubsequence(a[1..], b[1..]) {
      SubsequenceMembers(a[1..], b[1..]);
      forall x | x in a ensures x in b {
        if x != a[0] { assert x in a[1..]; }
      }
    } else {
      SubsequenceMembers(a, b[1..]);
    }
  }

  /** The head of `b` kept in front of a selection from its tail. */
  lemma KeepHead<T>(rest: seq<T>, b: seq<T>)
    requires b != [] && IsSubsequence(rest, b[1..])
    ensures IsSubsequence([b[0]] + rest, b)
  {
    assert ([b[0]] + rest)[1..] == rest;
  }

  /** The head of `b` dropped from a selection. */
  lemma DropHead<T>(a: seq<T>, b: seq<T>)
    requires b != [] && IsSubsequence(a, b[1..])
    ensures IsSubsequence(a, b)
  {
  }
}
