/** Sequence transforms shared by the resume store and the section editors:
    the `filter` and the conditional `map` that the source writes with
    Array.prototype.filter and Array.prototype.map. */
module Seqs {

  /** `a` can be obtained from `b` by deleting elements: same relative order. */
  ghost predicate IsSubsequence<T>(a: seq<T>, b: seq<T>)
    decreases |b|
  {
    |a| <= |b| &&
    (a == [] || (a[0] == b[0] && IsSubsequence(a[1..], b[1..])) || IsSubsequence(a, b[1..]))
  }

  /** Some element carries key `k`. */
  predicate HasKey<T, K(==)>(xs: seq<T>, key: T -> K, k: K) {
    exists i :: 0 <= i < |xs| && key(xs[i]) == k
  }

  /** No two elements share a key. */
  ghost predicate KeysDistinct<T, K>(xs: seq<T>, key: T -> K) {
    forall i, j :: 0 <= i < j < |xs| ==> key(xs[i]) != key(xs[j])
  }

  /** The elements of `xs` that satisfy `keep`, in their original order. */
  function Filter<T(!new)>(xs: seq<T>, keep: T -> bool): (r: seq<T>)
    ensures |r| <= |xs|
    ensures forall i :: 0 <= i < |r| ==> keep(r[i])
  {
    if xs == [] then []
    else
      var rest := Filter(xs[1..], keep);
      if keep(xs[0]) then [xs[0]] + rest else rest
  }

  /** The filter deletes elements and never reorders the ones it keeps. */
  lemma {:induction false} FilterIsSubsequence<T(!new)>(xs: seq<T>, keep: T -> bool)
    ensures IsSubsequence(Filter(xs, keep), xs)
  {
    if xs != [] {
      FilterIsSubsequence(xs[1..], keep);
      var rest := Filter(xs[1..], keep);
      if keep(xs[0]) {
        assert ([xs[0]] + rest)[1..] == rest;
      }
    }
  }

  /** Every element that satisfies `hit` is replaced by `change` of it; the others stay. */
  function MapWhere<T>(xs: seq<T>, hit: T -> bool, change: T -> T): (r: seq<T>)
    ensures |r| == |xs|
    ensures forall i :: 0 <= i < |xs| ==> r[i] == if hit(xs[i]) then change(xs[i]) else xs[i]
  {
    if xs == [] then []
    else [if hit(xs[0]) then change(xs[0]) else xs[0]] + MapWhere(xs[1..], hit, change)
  }

  /** Each value occurs in the result as often as in the input if it passes, and never otherwise. */
  lemma {:induction false} FilterCounts<T(!new)>(xs: seq<T>, keep: T -> bool)
    ensures forall x :: multiset(Filter(xs, keep))[x] == if keep(x) then multiset(xs)[x] else 0
  {
    if xs != [] {
      FilterCounts(xs[1..], keep);
      assert xs == [xs[0]] + xs[1..];
      assert multiset(xs) == multiset{xs[0]} + multiset(xs[1..]);
    }
  }

  lemma FilterMembers<T(!new)>(xs: seq<T>, keep: T -> bool)
    ensures forall x :: x in Filter(xs, keep) <==> x in xs && keep(x)
  {
    FilterCounts(xs, keep);
  }

  lemma {:induction false} FilterAllKept<T(!new)>(xs: seq<T>, keep: T -> bool)
    requires forall i :: 0 <= i < |xs| ==> keep(xs[i])
    ensures Filter(xs, keep) == xs
  {
    if xs != [] {
      FilterAllKept(xs[1..], keep);
    }
  }

  /** One step of the filter: the head is kept or dropped, then the tail is filtered. */
  lemma FilterCons<T(!new)>(xs: seq<T>, keep: T -> bool)
    requires xs != []
    ensures Filter(xs, keep) == if keep(xs[0]) then [xs[0]] + Filter(xs[1..], keep) else Filter(xs[1..], keep)
  {
  }

  lemma {:induction false} FilterAppend<T(!new)>(xs: seq<T>, ys: seq<T>, keep: T -> bool)
    ensures Filter(xs + ys, keep) == Filter(xs, keep) + Filter(ys, keep)
  {
    if xs == [] {
      assert xs + ys == ys;
    } else {
      var zs := xs + ys;
      assert zs[0] == xs[0] && zs[1..] == xs[1..] + ys;
      FilterAppend(xs[1..], ys, keep);
      FilterCons(zs, keep);
      FilterCons(xs, keep);
      if keep(xs[0]) {
        var front, back := Filter(xs[1..], keep), Filter(ys, keep);
        assert [xs[0]] + (front + back) == ([xs[0]] + front) + back;
      }
    }
  }

  /** Filtering out just the element appended last gives back the list before it. */
  lemma FilterDropsAppended<T(!new)>(xs: seq<T>, x: T, keep: T -> bool)
    requires forall i :: 0 <= i < |xs| ==> keep(xs[i])
    requires !keep(x)
    ensures Filter(xs + [x], keep) == xs
  {
    FilterAppend(xs, [x], keep);
    FilterAllKept(xs, keep);
    assert Filter([x], keep) == [];
  }

  /** A property every element has is kept by every element the filter lets through. */
  lemma {:induction false} FilterKeepsAll<T(!new)>(xs: seq<T>, keep: T -> bool, p: T -> bool)
    requires forall i :: 0 <= i < |xs| ==> p(xs[i])
    ensures forall i :: 0 <= i < |Filter(xs, keep)| ==> p(Filter(xs, keep)[i])
  {
    if xs != [] {
      var tail := xs[1..];
      assert forall i :: 0 <= i < |tail| ==> tail[i] == xs[i + 1];
      FilterKeepsAll(tail, keep, p);
      FilterCons(xs, keep);
    }
  }

  /** Filtering twice with the same test is filtering once. */
  lemma FilterIdempotent<T(!new)>(xs: seq<T>, keep: T -> bool)
    ensures Filter(Filter(xs, keep), keep) == Filter(xs, keep)
  {
    FilterAllKept(Filter(xs, keep), keep);
  }

  /** Appending an element whose key no element carries keeps keys distinct. */
  lemma AppendFreshKeepsKeysDistinct<T, K>(xs: seq<T>, x: T, key: T -> K)
    requires KeysDistinct(xs, key) && !HasKey(xs, key, key(x))
    ensures KeysDistinct(xs + [x], key)
  {
    var out := xs + [x];
    forall i, j | 0 <= i < j < |out| ensures key(out[i]) != key(out[j]) {
      assert out[i] == xs[i];
      if j < |xs| {
        assert out[j] == xs[j];
      }
    }
  }

  /** Filtering keeps keys distinct. */
  lemma {:induction false} FilterKeepsKeysDistinct<T(!new), K>(xs: seq<T>, keep: T -> bool, key: T -> K)
    requires KeysDistinct(xs, key)
    ensures KeysDistinct(Filter(xs, keep), key)
  {
    if xs != [] {
      var tail := xs[1..];
      assert KeysDistinct(tail, key) by {
        forall i, j | 0 <= i < j < |tail| ensures key(tail[i]) != key(tail[j]) {
          assert tail[i] == xs[i + 1] && tail[j] == xs[j + 1];
        }
      }
      FilterKeepsKeysDistinct(tail, keep, key);
      FilterCons(xs, keep);
      if keep(xs[0]) {
        var first := key(xs[0]);
        forall i | 0 <= i < |tail| ensures key(tail[i]) != first {
          assert tail[i] == xs[i + 1];
        }
        FilterKeepsAll(tail, keep, (x: T) => key(x) != first);
        var rest := Filter(tail, keep);
        var r := [xs[0]] + rest;
        forall i, j | 0 <= i < j < |r| ensures key(r[i]) != key(r[j]) {
          assert r[j] == rest[j - 1];
          if i > 0 {
            assert r[i] == rest[i - 1];
          }
        }
      }
    }
  }
}
