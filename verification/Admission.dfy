/** The two queues, the admission rule, and what each scheduler operation does to them. */
module Admission {
  import opened Sums
  import opened Requests

  /** `table[k]` is the k-th request ever accepted; both queues hold such ids. */
  datatype State = State(
    waiting: seq<nat>, running: seq<nat>, table: seq<Entry>, slots: int, maxTokens: int)

  /** Queued ids exist, and running ++ waiting is in arrival order without repetition. */
  ghost predicate Shaped(st: State) {
    InRange(st.running + st.waiting, |st.table|) && Increasing(st.running + st.waiting)
  }

  lemma {:induction false} ShapedParts(st: State)
    requires Shaped(st)
    ensures InRange(st.running, |st.table|) && Increasing(st.running)
    ensures InRange(st.waiting, |st.table|) && Increasing(st.waiting)
    ensures forall k, m | k in st.running && m in st.waiting :: k < m
  {
    var all := st.running + st.waiting;
    var r := |st.running|;
    assert forall i | 0 <= i < r :: all[i] == st.running[i];
    assert forall i | 0 <= i < |st.waiting| :: all[r + i] == st.waiting[i];
  }

  lemma {:induction false} ShapedFromParts(st: State)
    requires InRange(st.running, |st.table|) && Increasing(st.running)
    requires InRange(st.waiting, |st.table|) && Increasing(st.waiting)
    requires forall k, m | k in st.running && m in st.waiting :: k < m
    ensures Shaped(st)
  {
    var all := st.running + st.waiting;
    var r := |st.running|;
    forall i, j | 0 <= i < j < |all| ensures all[i] < all[j] {
      if i < r <= j {
        assert all[i] in st.running && all[j] in st.waiting;
      }
    }
  }

  // ---- schedule ----

  /** The unfinished ones, in order. */
  function Live(table: seq<Entry>, ids: seq<nat>): (r: seq<nat>)
    requires InRange(ids, |table|)
    ensures forall k :: k in r <==> k in ids && k < |table| && !table[k].Finished()
    ensures |r| <= |ids|
  {
    if ids == [] then []
    else
      var n := |ids| - 1;
      var rest := Live(table, ids[..n]);
      assert ids == ids[..n] + [ids[n]];
      if table[ids[n]].Finished() then rest else rest + [ids[n]]
  }

  lemma {:induction false} LiveIncreasing(table: seq<Entry>, ids: seq<nat>)
    requires InRange(ids, |table|) && Increasing(ids)
    ensures Increasing(Live(table, ids))
    ensures InRange(Live(table, ids), |table|)
  {
    var live := Live(table, ids);
    forall i | 0 <= i < |live| ensures live[i] < |table| {
      assert live[i] in live;
    }
    if ids != [] {
      var n := |ids| - 1;
      LiveIncreasing(table, ids[..n]);
      var rest := Live(table, ids[..n]);
      if !table[ids[n]].Finished() {
        forall i | 0 <= i < |rest| ensures rest[i] < ids[n] {
          assert rest[i] in ids[..n];
        }
      }
    }
  }

  lemma {:induction false} LiveIsAll(table: seq<Entry>, ids: seq<nat>)
    requires InRange(ids, |table|)
    requires forall k | k in ids :: !table[k].Finished()
    ensures Live(table, ids) == ids
  {
    if ids != [] {
      var n := |ids| - 1;
      assert ids == ids[..n] + [ids[n]];
      LiveIsAll(table, ids[..n]);
    }
  }

  function Lens(table: seq<Entry>): (r: seq<int>)
    ensures |r| == |table|
  {
    seq(|table|, k requires 0 <= k < |table| => table[k].Len())
  }

  /** Total tokens of some queued requests. */
  function TokenSum(table: seq<Entry>, ids: seq<nat>): int
    requires InRange(ids, |table|)
  {
    Sum(Pick(Lens(table), ids))
  }

  lemma {:induction false} TokenSumSnoc(table: seq<Entry>, ids: seq<nat>, k: nat)
    requires InRange(ids, |table|) && k < |table|
    ensures InRange(ids + [k], |table|)
    ensures TokenSum(table, ids + [k]) == TokenSum(table, ids) + table[k].Len()
  {
    assert Pick(Lens(table), ids + [k]) == Pick(Lens(table), ids) + [table[k].Len()];
    SumSnoc(Pick(Lens(table), ids), table[k].Len());
  }

  /** May `batch` together with the first n of `waiting` run as one batch? Nothing new always
      may; otherwise it needs the slots, and, unless it is a single row, the tokens. */
  ghost predicate Fits(st: State, batch: seq<nat>, n: nat)
    requires InRange(batch, |st.table|) && InRange(st.waiting, |st.table|) && n <= |st.waiting|
  {
    n == 0 ||
    (|batch| + n <= st.slots &&
     (|batch| + n == 1 || TokenSum(st.table, batch + st.waiting[..n]) <= st.maxTokens))
  }

  /** Smaller admissions fit whenever larger ones do. */
  lemma {:induction false} FitsDownward(st: State, batch: seq<nat>, m: nat, n: nat)
    requires InRange(batch, |st.table|) && InRange(st.waiting, |st.table|)
    requires m <= n <= |st.waiting| && Fits(st, batch, n)
    ensures Fits(st, batch, m)
    decreases n
  {
    if m < n {
      var ids := batch + st.waiting[..n - 1];
      TokenSumSnoc(st.table, ids, st.waiting[n - 1]);
      assert ids + [st.waiting[n - 1]] == batch + st.waiting[..n];
      FitsDownward(st, batch, m, n - 1);
    }
  }

  /** The largest number that fits, searched from the top. */
  ghost function Admitted(st: State, batch: seq<nat>, n: nat): (r: nat)
    requires InRange(batch, |st.table|) && InRange(st.waiting, |st.table|) && n <= |st.waiting|
    ensures r <= n && Fits(st, batch, r)
    ensures forall m | r < m <= n :: !Fits(st, batch, m)
  {
    if Fits(st, batch, n) then n else Admitted(st, batch, n - 1)
  }

  /** Admitting one at a time until the next does not fit reaches the largest that fits. */
  lemma {:induction false} GreedyIsLargest(st: State, batch: seq<nat>, n: nat)
    requires InRange(batch, |st.table|) && InRange(st.waiting, |st.table|) && n <= |st.waiting|
    requires Fits(st, batch, n)
    requires n == |st.waiting| || !Fits(st, batch, n + 1)
    ensures Admitted(st, batch, |st.waiting|) == n
  {
    var a := Admitted(st, batch, |st.waiting|);
    if a > n {
      FitsDownward(st, batch, n + 1, a);
    }
  }

  /** Sweep the finished rows out, then admit the longest prefix of `waiting` that fits. */
  ghost function Schedule(st: State): State
    requires Shaped(st)
  {
    ShapedParts(st);
    LiveIncreasing(st.table, st.running);
    var live := Live(st.table, st.running);
    var n := Admitted(st, live, |st.waiting|);
    st.(running := live + st.waiting[..n], waiting := st.waiting[n..])
  }

  function Add(st: State, req: Request): State {
    var q := Submitted(Created(req));
    var k := |st.table|;
    st.(table := st.table + [q], waiting := if q.Finished() then st.waiting else st.waiting + [k])
  }

  /** Remove the first occurrence, if there is one. */
  function Remove(ids: seq<nat>, k: nat): (r: seq<nat>) {
    if ids == [] then []
    else if ids[0] == k then ids[1..]
    else [ids[0]] + Remove(ids[1..], k)
  }

  lemma {:induction false} RemoveOne(ids: seq<nat>, k: nat)
    requires Increasing(ids)
    ensures Increasing(Remove(ids, k))
    ensures forall m :: m in Remove(ids, k) <==> m in ids && m != k
    ensures k !in ids ==> Remove(ids, k) == ids
  {
    if ids != [] {
      assert ids == [ids[0]] + ids[1..];
      if ids[0] == k {
        assert forall i | 0 <= i < |ids[1..]| :: ids[1..][i] == ids[i + 1] > k;
      } else {
        RemoveOne(ids[1..], k);
        var r := Remove(ids[1..], k);
        forall i | 0 <= i < |r| ensures ids[0] < r[i] {
          assert r[i] in r;
          assert r[i] in ids[1..];
        }
      }
    }
  }

  function Abort(st: State, k: nat, reason: Reason): State
    requires k < |st.table|
  {
    if st.table[k].Finished() then st
    else st.(table := st.table[k := Aborted(st.table[k], reason)], waiting := Remove(st.waiting, k))
  }

  function FailAll(st: State): State {
    st.(waiting := [], running := [],
        table := seq(|st.table|, k requires 0 <= k < |st.table| =>
          if k in st.running || k in st.waiting then Failed(st.table[k]) else st.table[k]))
  }

  function Min(a: nat, b: nat): nat { if a <= b then a else b }

  /** Hand the i-th token to the i-th row, for as long as there are both. */
  function Postprocess(st: State, batch: seq<nat>, tokens: seq<int>): (r: State)
    requires InRange(batch, |st.table|)
    ensures |r.table| == |st.table|
    decreases Min(|batch|, |tokens|)
  {
    var n := Min(|batch|, |tokens|);
    if n == 0 then st
    else
      var before := Postprocess(st, batch[..n - 1], tokens[..n - 1]);
      var k := batch[n - 1];
      before.(table := before.table[k := Delivered(before.table[k], tokens[n - 1])])
  }

  function AbortEach(st: State, ids: seq<nat>): (r: State)
    requires InRange(ids, |st.table|)
    ensures |r.table| == |st.table|
  {
    if ids == [] then st
    else Abort(AbortEach(st, ids[..|ids| - 1]), ids[|ids| - 1], Error)
  }

  /** Rows whose pick is None, and rows that got a token together with those tokens. */
  function Casualties(batch: seq<nat>, picks: seq<Option<int>>): (r: seq<nat>)
    requires |batch| == |picks|
    ensures forall k | k in r :: k in batch
  {
    if batch == [] then []
    else
      var n := |batch| - 1;
      assert forall k | k in batch[..n] :: k in batch;
      Casualties(batch[..n], picks[..n]) + (if picks[n].None? then [batch[n]] else [])
  }

  function Survivors(batch: seq<nat>, picks: seq<Option<int>>): (r: seq<nat>)
    requires |batch| == |picks|
    ensures forall k | k in r :: k in batch
    ensures |r| == |Drawn(picks)|
  {
    if batch == [] then []
    else
      var n := |batch| - 1;
      assert forall k | k in batch[..n] :: k in batch;
      Survivors(batch[..n], picks[..n]) + (if picks[n].Some? then [batch[n]] else [])
  }

  function Drawn(picks: seq<Option<int>>): seq<int> {
    if picks == [] then []
    else
      var n := |picks| - 1;
      Drawn(picks[..n]) + (match picks[n] case Some(t) => [t] case None => [])
  }

  lemma {:induction false} InRangeOf(ids: seq<nat>, batch: seq<nat>, n: nat)
    requires InRange(batch, n) && forall k | k in ids :: k in batch
    ensures InRange(ids, n)
  {
    forall i | 0 <= i < |ids| ensures ids[i] < n {
      assert ids[i] in ids;
    }
  }

  /** The end of a tick: drop the rows that failed, then record one token for each other row. */
  function EndTick(st: State, batch: seq<nat>, picks: seq<Option<int>>): (r: State)
    requires InRange(batch, |st.table|) && |batch| == |picks|
    ensures |r.table| == |st.table|
  {
    InRangeOf(Casualties(batch, picks), batch, |st.table|);
    InRangeOf(Survivors(batch, picks), batch, |st.table|);
    var swept := AbortEach(st, Casualties(batch, picks));
    Postprocess(swept, Survivors(batch, picks), Drawn(picks))
  }
}
