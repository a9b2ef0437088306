/** The JavaScript array primitives the store is written with —
    `findIndex`, `find`, a `map` that rewrites only the matching elements,
    and `filter` — over immutable sequences, with what each one promises. */
module Seqs {
  import opened Types

  /** `xs.findIndex(p)`: the first index whose element satisfies `p`, or -1. */
  function IndexWhere<T>(xs: seq<T>, p: T -> bool): (r: int)
    ensures -1 <= r < |xs|
    ensures r == -1 <==> forall i :: 0 <= i < |xs| ==> !p(xs[i])
    ensures 0 <= r ==> p(xs[r]) && forall j :: 0 <= j < r ==> !p(xs[j])
  {
    if |xs| == 0 then -1
    else if p(xs[0]) then 0
    else
      var k := IndexWhere(xs[1..], p);
      if k == -1 then -1 else k + 1
  }

  /** `xs.find(p)`: the first element satisfying `p`, if any. */
  function Find<T>(xs: seq<T>, p: T -> bool): (r: Option<T>)
    ensures r.None? <==> forall i :: 0 <= i < |xs| ==> !p(xs[i])
    ensures r.Some? ==>
      exists k :: 0 <= k < |xs| && xs[k] == r.value && p(xs[k]) && forall j :: 0 <= j < k ==> !p(xs[j])
  {
    var k := IndexWhere(xs, p);
    if k == -1 then None else Some(xs[k])
  }

  /** `xs.map(x => p(x) ? f(x) : x)`: rewrite the matching elements in place. */
  function MapWhere<T>(xs: seq<T>, p: T -> bool, f: T -> T): (r: seq<T>)
    ensures |r| == |xs|
    ensures forall i :: 0 <= i < |xs| && p(xs[i]) ==> r[i] == f(xs[i])
    ensures forall i :: 0 <= i < |xs| && !p(xs[i]) ==> r[i] == xs[i]
    ensures (forall i :: 0 <= i < |xs| ==> !p(xs[i])) ==> r == xs
  {
    seq(|xs|, i requires 0 <= i < |xs| => if p(xs[i]) then f(xs[i]) else xs[i])
  }

  /** `xs.filter(p)`: the elements satisfying `p`, in their original order. */
  function Filter<T>(xs: seq<T>, p: T -> bool): (r: seq<T>)
    ensures |r| <= |xs|
    ensures forall k :: 0 <= k < |r| ==> r[k] in xs && p(r[k])
    ensures forall i :: 0 <= i < |xs| && p(xs[i]) ==> xs[i] in r
    ensures (forall i :: 0 <= i < |xs| ==> p(xs[i])) ==> r == xs
  {
    if |xs| == 0 then []
    else
      assert xs == [xs[0]] + xs[1..];
      (if p(xs[0]) then [xs[0]] else []) + Filter(xs[1..], p)
  }

  /** The positions in `xs` whose elements satisfy `p`, in increasing order. */
  function KeptIndices<T>(xs: seq<T>, p: T -> bool): seq<nat>
  {
    if |xs| == 0 then []
    else
      var shifted := Shifted(KeptIndices(xs[1..], p));
      if p(xs[0]) then [0] + shifted else shifted
  }

  function Shifted(ks: seq<nat>): (r: seq<nat>)
  {
    seq(|ks|, k requires 0 <= k < |ks| => ks[k] + 1)
  }

  /** `Filter` keeps the relative order of what it keeps: its k-th element is
      the element at the k-th kept position, the kept positions increase, and
      they are exactly the positions whose element satisfies `p`. */
  lemma FilterKeepsOrder<T>(xs: seq<T>, p: T -> bool)
    ensures var ks := KeptIndices(xs, p);
      && |ks| == |Filter(xs, p)|
      && (forall k :: 0 <= k < |ks| ==> ks[k] < |xs| && Filter(xs, p)[k] == xs[ks[k]])
      && (forall k, l :: 0 <= k < l < |ks| ==> ks[k] < ks[l])
      && (forall i :: 0 <= i < |xs| ==> (p(xs[i]) <==> i in ks))
  {
    FilterAtKeptIndices(xs, p);
    KeptIndicesIncrease(xs, p);
    KeptIndicesExact(xs, p);
  }

  lemma {:induction false} FilterAtKeptIndices<T>(xs: seq<T>, p: T -> bool)
    ensures |KeptIndices(xs, p)| == |Filter(xs, p)|
    ensures forall k :: 0 <= k < |KeptIndices(xs, p)| ==>
      KeptIndices(xs, p)[k] < |xs| && Filter(xs, p)[k] == xs[KeptIndices(xs, p)[k]]
  {
    KeptIndicesCount(xs, p);
    forall k | 0 <= k < |KeptIndices(xs, p)|
      ensures KeptIndices(xs, p)[k] < |xs| && Filter(xs, p)[k] == xs[KeptIndices(xs, p)[k]]
    {
      FilterAtKeptIndex(xs, p, k);
    }
  }

  /** There are as many kept positions as kept elements. */
  lemma {:induction false} KeptIndicesCount<T>(xs: seq<T>, p: T -> bool)
    ensures |KeptIndices(xs, p)| == |Filter(xs, p)|
  {
    if |xs| > 0 {
      KeptIndicesCount(xs[1..], p);
    }
  }

  /** The k-th kept element is the element at the k-th kept position. */
  lemma {:induction false} FilterAtKeptIndex<T>(xs: seq<T>, p: T -> bool, k: nat)
    requires k < |KeptIndices(xs, p)|
    ensures k < |Filter(xs, p)| && KeptIndices(xs, p)[k] < |xs| && Filter(xs, p)[k] == xs[KeptIndices(xs, p)[k]]
  {
    KeptIndicesCount(xs, p);
    var tail := xs[1..];
    var rest, kr := Filter(tail, p), KeptIndices(tail, p);
    KeptIndicesCount(tail, p);
    if p(xs[0]) {
      if k > 0 {
        FilterAtKeptIndex(tail, p, k - 1);
        assert KeptIndices(xs, p)[k] == Shifted(kr)[k - 1] == kr[k - 1] + 1;
        assert Filter(xs, p)[k] == rest[k - 1] == tail[kr[k - 1]];
      }
    } else {
      FilterAtKeptIndex(tail, p, k);
      assert KeptIndices(xs, p)[k] == Shifted(kr)[k] == kr[k] + 1;
      assert Filter(xs, p)[k] == rest[k] == tail[kr[k]];
    }
  }

  lemma {:induction false} KeptIndicesIncrease<T>(xs: seq<T>, p: T -> bool)
    ensures forall k, l :: 0 <= k < l < |KeptIndices(xs, p)| ==> KeptIndices(xs, p)[k] < KeptIndices(xs, p)[l]
  {
    if |xs| > 0 {
      KeptIndicesIncrease(xs[1..], p);
      var shifted := Shifted(KeptIndices(xs[1..], p));
      assert forall k, l :: 0 <= k < l < |shifted| ==> shifted[k] < shifted[l];
      if p(xs[0]) {
        var ks := [0] + shifted;
        assert forall k :: 1 <= k < |ks| ==> ks[k] == shifted[k - 1] && ks[k] > 0;
      }
    }
  }

  lemma {:induction false} KeptIndicesExact<T>(xs: seq<T>, p: T -> bool)
    ensures forall i :: 0 <= i < |xs| ==> (p(xs[i]) <==> i in KeptIndices(xs, p))
  {
    if |xs| > 0 {
      var tail := xs[1..];
      KeptIndicesExact(tail, p);
      var kr := KeptIndices(tail, p);
      var shifted := Shifted(kr);
      assert forall i :: 1 <= i < |xs| ==> (p(xs[i]) <==> i in shifted) by {
        forall i | 1 <= i < |xs|
          ensures p(xs[i]) <==> i in shifted
        {
          assert xs[i] == tail[i - 1];
          if i - 1 in kr {
            var k :| 0 <= k < |kr| && kr[k] == i - 1;
            assert shifted[k] == i;
          }
        }
      }
      assert 0 !in shifted;
    }
  }

  /** Looking up with `q` after rewriting the `p`-elements with `f` finds the
      rewritten version of what it found before, provided `f` does not change
      whether a `p`-element satisfies `q`. */
  lemma {:induction false} FindAfterMapWhere<T>(xs: seq<T>, p: T -> bool, f: T -> T, q: T -> bool)
    requires forall x :: p(x) ==> q(f(x)) == q(x)
    ensures Find(MapWhere(xs, p, f), q) ==
      match Find(xs, q)
      case None => None
      case Some(x) => Some(if p(x) then f(x) else x)
  {
    var ys := MapWhere(xs, p, f);
    assert forall i :: 0 <= i < |xs| ==> q(ys[i]) == q(xs[i]);
    var a, b := IndexWhere(xs, q), IndexWhere(ys, q);
    if a == -1 {
      assert b == -1;
    } else {
      assert q(ys[a]);
      assert b == a;
    }
  }

  /** Filtering out only elements that `q` rejects does not change what `q` finds. */
  lemma {:induction false} FindAfterFilter<T>(xs: seq<T>, p: T -> bool, q: T -> bool)
    requires forall x :: q(x) ==> p(x)
    ensures Find(Filter(xs, p), q) == Find(xs, q)
  {
    if |xs| > 0 {
      FindAfterFilter(xs[1..], p, q);
      var rest := Filter(xs[1..], p);
      if !q(xs[0]) {
        assert IndexWhere(xs, q) == if IndexWhere(xs[1..], q) == -1 then -1 else IndexWhere(xs[1..], q) + 1;
        if p(xs[0]) {
          var ys := [xs[0]] + rest;
          assert ys[1..] == rest;
          assert IndexWhere(ys, q) == if IndexWhere(rest, q) == -1 then -1 else IndexWhere(rest, q) + 1;
        } else {
          assert Filter(xs, p) == rest;
        }
      }
    }
  }

  /** Appending an element that `q` accepts to a sequence with none makes it the one `q` finds. */
  lemma FindAppended<T>(xs: seq<T>, x: T, q: T -> bool)
    requires forall i :: 0 <= i < |xs| ==> !q(xs[i])
    requires q(x)
    ensures Find(xs + [x], q) == Some(x)
  {
    var ys := xs + [x];
    assert ys[|xs|] == x;
  }

  /** Filtering out an appended element that `p` rejects gives the filter of what came before. */
  lemma {:induction false} FilterDropsAppended<T>(xs: seq<T>, x: T, p: T -> bool)
    requires !p(x)
    ensures Filter(xs + [x], p) == Filter(xs, p)
  {
    if |xs| == 0 {
      assert xs + [x] == [x];
      assert Filter([x], p) == [] + Filter([x][1..], p);
    } else {
      var ys := xs + [x];
      assert ys[0] == xs[0];
      assert ys[1..] == xs[1..] + [x];
      FilterDropsAppended(xs[1..], x, p);
    }
  }
}
