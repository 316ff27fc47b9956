/** Facts about sequences that several components share. */
module Sequences {

  datatype Option<+T> = None | Some(value: T)

  newtype byte = x: int | 0 <= x < 256
  type Bytes = seq<byte>

  ghost predicate Distinct<T>(s: seq<T>) {
    forall i, j :: 0 <= i < j < |s| ==> s[i] != s[j]
  }

  function Min(a: int, b: int): (m: int)
    ensures m <= a && m <= b && (m == a || m == b)
  {
    if a <= b then a else b
  }

  function Flatten(messages: seq<Bytes>): Bytes {
    if messages == [] then [] else messages[0] + Flatten(messages[1..])
  }

  lemma {:induction false} FlattenAppend(s: seq<Bytes>, t: seq<Bytes>)
    ensures Flatten(s + t) == Flatten(s) + Flatten(t)
  {
    if s == [] {
      assert s + t == t;
    } else {
      assert (s + t)[1..] == s[1..] + t;
      FlattenAppend(s[1..], t);
    }
  }

  lemma FlattenPrefix(s: seq<Bytes>, t: seq<Bytes>)
    requires s <= t
    ensures Flatten(s) <= Flatten(t)
  {
    assert t == s + t[|s|..];
    FlattenAppend(s, t[|s|..]);
  }

  lemma Regroup<T>(a: seq<T>, b: seq<T>, c: seq<T>)
    ensures a + b + c == a + (b + c)
  {
  }

  /** Two arrangements of the same things: what is last in one can be taken out of the other. */
  lemma TakeOut<T>(xs: seq<T>, ys: seq<T>) returns (k: nat)
    requires multiset(xs) == multiset(ys) && xs != []
    ensures |xs| == |ys| && k < |ys| && ys[k] == xs[|xs| - 1]
    ensures multiset(xs[..|xs| - 1]) == multiset(ys[..k] + ys[k + 1..])
  {
    var last := |xs| - 1;
    assert |xs| == |multiset(xs)| == |multiset(ys)| == |ys|;
    assert xs == xs[..last] + [xs[last]];
    assert xs[last] in multiset(ys);
    k :| 0 <= k < |ys| && ys[k] == xs[last];
    WithoutOne(ys, k);
    Cancel(multiset(xs[..last]), multiset(ys[..k] + ys[k + 1..]), xs[last]);
  }

  lemma WithoutOne<T>(s: seq<T>, k: nat)
    requires k < |s|
    ensures multiset(s) == multiset(s[..k] + s[k + 1..]) + multiset{s[k]}
  {
    assert s == s[..k] + [s[k]] + s[k + 1..];
  }

  lemma Cancel<T>(a: multiset<T>, b: multiset<T>, x: T)
    requires a + multiset{x} == b + multiset{x}
    ensures a == b
  {
    assert a == (a + multiset{x}) - multiset{x};
    assert b == (b + multiset{x}) - multiset{x};
  }
}
