/** Finite sums of integers, and sums over increasing lists of indices. */
module Sums {

  function Sum(w: seq<int>): int {
    if w == [] then 0 else Sum(w[..|w| - 1]) + w[|w| - 1]
  }

  /** Strictly increasing: in arrival order, each id at most once. */
  ghost predicate Increasing(ids: seq<nat>) {
    forall i, j | 0 <= i < j < |ids| :: ids[i] < ids[j]
  }

  ghost predicate InRange(ids: seq<nat>, n: nat) {
    forall i | 0 <= i < |ids| :: ids[i] < n
  }

  /** Where `k` first stands in `ids`. */
  function IndexOf(ids: seq<nat>, k: nat): (i: nat)
    requires k in ids
    ensures i < |ids| && ids[i] == k
  {
    if ids[0] == k then 0 else IndexOf(ids[1..], k) + 1
  }

  lemma {:induction false} SumSnoc(w: seq<int>, x: int)
    ensures Sum(w + [x]) == Sum(w) + x
  {
    assert (w + [x])[..|w|] == w;
  }

  lemma {:induction false} SumConcat(u: seq<int>, v: seq<int>)
    ensures Sum(u + v) == Sum(u) + Sum(v)
  {
    if v == [] {
      assert u + v == u;
    } else {
      var n := |v| - 1;
      SumConcat(u, v[..n]);
      assert (u + v)[..|u + v| - 1] == u + v[..n];
    }
  }

  lemma {:induction false} SumMonotone(u: seq<int>, v: seq<int>)
    requires |u| == |v|
    requires forall i | 0 <= i < |u| :: u[i] <= v[i]
    ensures Sum(u) <= Sum(v)
    ensures (exists i | 0 <= i < |u| :: u[i] < v[i]) ==> Sum(u) < Sum(v)
  {
    if u != [] {
      var n := |u| - 1;
      SumMonotone(u[..n], v[..n]);
      if u[n] == v[n] && exists i | 0 <= i < |u| :: u[i] < v[i] {
        var i :| 0 <= i < |u| && u[i] < v[i];
        assert u[..n][i] < v[..n][i];
      }
    }
  }

  lemma {:induction false} SumPrefix(w: seq<int>, n: nat)
    requires n <= |w|
    requires forall i | n <= i < |w| :: 0 <= w[i]
    ensures Sum(w[..n]) <= Sum(w)
  {
    if n < |w| {
      SumPrefix(w[..|w| - 1], n);
      assert w[..|w| - 1][..n] == w[..n];
    } else {
      assert w[..n] == w;
    }
  }

  lemma {:induction false} SumConstant(w: seq<int>, c: int)
    requires forall i | 0 <= i < |w| :: w[i] == c
    ensures Sum(w) == c * |w|
  {
    if w != [] {
      SumConstant(w[..|w| - 1], c);
    }
  }

  lemma {:induction false} SumShift(u: seq<int>, v: seq<int>, c: int)
    requires |u| == |v|
    requires forall i | 0 <= i < |u| :: u[i] == v[i] + c
    ensures Sum(u) == Sum(v) + c * |u|
  {
    if u != [] {
      var n := |u| - 1;
      SumShift(u[..n], v[..n], c);
    }
  }

  lemma {:induction false} SumAdd(u: seq<int>, v: seq<int>, w: seq<int>)
    requires |u| == |v| == |w|
    requires forall i | 0 <= i < |u| :: u[i] == v[i] + w[i]
    ensures Sum(u) == Sum(v) + Sum(w)
  {
    if u != [] {
      var n := |u| - 1;
      SumAdd(u[..n], v[..n], w[..n]);
    }
  }

  /** The entries of `w` at the indices `ids`, in the order of `ids`. */
  function Pick(w: seq<int>, ids: seq<nat>): (r: seq<int>)
    requires forall i | 0 <= i < |ids| :: ids[i] < |w|
    ensures |r| == |ids|
  {
    seq(|ids|, i requires 0 <= i < |ids| => w[ids[i]])
  }

  /** `w` with every entry outside `ids` erased to zero. */
  function Masked(w: seq<int>, ids: seq<nat>): (r: seq<int>)
    ensures |r| == |w|
  {
    seq(|w|, j requires 0 <= j < |w| => if j in ids then w[j] else 0)
  }

  lemma {:induction false} SumUpdate(w: seq<int>, i: nat, x: int)
    requires i < |w|
    ensures Sum(w[i := x]) == Sum(w) - w[i] + x
  {
    var n := |w| - 1;
    if i == n {
      assert w[i := x][..n] == w[..n];
    } else {
      SumUpdate(w[..n], i, x);
      assert w[i := x][..n] == w[..n][i := x];
    }
  }

  lemma {:induction false} PickSnoc(w: seq<int>, ids: seq<nat>, k: nat)
    requires InRange(ids, |w|) && k < |w|
    ensures Pick(w, ids + [k]) == Pick(w, ids) + [w[k]]
  {
  }

  lemma {:induction false} MaskedSnoc(w: seq<int>, ids: seq<nat>, k: nat)
    requires k < |w|
    ensures Masked(w, ids + [k]) == Masked(w, ids)[k := w[k]]
  {
  }

  /** Summing along a list of distinct ids is summing over all ids with the others erased. */
  lemma {:induction false} SumPick(w: seq<int>, ids: seq<nat>)
    requires Increasing(ids) && InRange(ids, |w|)
    ensures Sum(Pick(w, ids)) == Sum(Masked(w, ids))
  {
    if ids == [] {
      SumConstant(Masked(w, ids), 0);
    } else {
      var m := |ids| - 1;
      var earlier, k := ids[..m], ids[m];
      assert ids == earlier + [k];
      SumPick(w, earlier);
      PickSnoc(w, earlier, k);
      SumSnoc(Pick(w, earlier), w[k]);
      MaskedSnoc(w, earlier, k);
      SumUpdate(Masked(w, earlier), k, w[k]);
      hide Sum, Pick;
    }
  }
}
