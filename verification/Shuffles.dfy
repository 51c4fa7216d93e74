/** Sequences with the same elements in another order. */
module Shuffles {

  lemma Lengths<T>(a: seq<T>, b: seq<T>)
    requires multiset(a) == multiset(b)
    ensures |a| == |b| && (a == [] ==> b == a)
  {
    assert |a| == |multiset(a)| == |multiset(b)| == |b|;
  }

  lemma Rest<T>(init: seq<T>, x: T, front: seq<T>, back: seq<T>)
    requires multiset(init + [x]) == multiset(front + [x] + back)
    ensures multiset(init) == multiset(front + back)
  {
    assert multiset(init + [x]) == multiset(init) + multiset{x};
    assert multiset(front + [x] + back) == multiset(front) + multiset{x} + multiset(back);
    assert multiset(front + back) == multiset(front) + multiset(back);
    assert multiset(init) == multiset(init + [x]) - multiset{x};
  }

  /** The last of a sequence, found in another with the same elements. */
  lemma Picked<T>(init: seq<T>, x: T, b: seq<T>) returns (k: nat)
    requires multiset(init + [x]) == multiset(b)
    ensures k < |b| && b[k] == x && b == b[..k] + [x] + b[k + 1..]
    ensures multiset(init) == multiset(b[..k] + b[k + 1..])
  {
    assert x in multiset(init + [x]);
    assert x in b;
    k :| 0 <= k < |b| && b[k] == x;
    assert b == b[..k] + [x] + b[k + 1..];
    Rest(init, x, b[..k], b[k + 1..]);
  }
}
