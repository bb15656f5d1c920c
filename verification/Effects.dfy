/** What schedule, abort and the end of a tick do, read off entry by entry. */
module Effects {
  import opened Sums
  import opened Requests
  import opened Admission

  /**
   * One schedule call: the finished rows are swept, the first n waiting requests join behind
   * the others in arrival order, everyone else keeps waiting. Nobody is passed over.
   */
  lemma {:induction false} ScheduleShape(st: State) returns (n: nat)
    requires Shaped(st)
    ensures InRange(st.running, |st.table|) && InRange(st.waiting, |st.table|) && n <= |st.waiting|
    ensures Schedule(st) == st.(
      running := Live(st.table, st.running) + st.waiting[..n], waiting := st.waiting[n..])
    ensures Shaped(Schedule(st))
    ensures InRange(Live(st.table, st.running), |st.table|)
    ensures Fits(st, Live(st.table, st.running), n)
    ensures n < |st.waiting| ==> !Fits(st, Live(st.table, st.running), n + 1)
  {
    ShapedParts(st);
    LiveIncreasing(st.table, st.running);
    var live := Live(st.table, st.running);
    n := Admitted(st, live, |st.waiting|);
    var r := Schedule(st);
    assert r.running + r.waiting == live + st.waiting by {
      assert st.waiting == st.waiting[..n] + st.waiting[n..];
    }
    ShapedFromParts(st.(running := live));
  }

  /**
   * A schedule fills the batch: whoever still waits could not have been added. If anybody joined,
   * the batch is within the slots and, unless it is a single row, within the token budget; and
   * where somebody is left, the slots are full, or the head's tokens do not fit next to the others.
   */
  lemma {:induction false} ScheduleFills(st: State)
    requires Shaped(st)
    ensures var r := Schedule(st);
      && InRange(r.running, |st.table|) && InRange(st.running, |st.table|)
      && (|r.waiting| < |st.waiting| ==>
            && |r.running| <= st.slots
            && (|r.running| == 1 || TokenSum(st.table, r.running) <= st.maxTokens))
      && (r.waiting != [] ==>
            || |r.running| >= st.slots
            || (r.running != [] && InRange(r.running + [r.waiting[0]], |st.table|)
                && TokenSum(st.table, r.running + [r.waiting[0]]) > st.maxTokens))
  {
    hide Schedule, TokenSum, Live;
    var n := ScheduleShape(st);
    var r, live := Schedule(st), Live(st.table, st.running);
    ShapedParts(r);
    if n < |st.waiting| {
      assert live + st.waiting[..n + 1] == r.running + [r.waiting[0]];
    }
  }

  /** After a schedule the running set is exactly the unfinished requests that hold a slot. */
  lemma {:induction false} ScheduleMembers(st: State)
    requires Shaped(st)
    requires forall k | k in st.waiting :: k < |st.table| && !st.table[k].Finished()
    ensures var r := Schedule(st);
      && (forall k | k in r.running :: k < |st.table| && !st.table[k].Finished())
      && (forall k | k in r.running :: k in st.running || k in st.waiting)
      && (forall k | k in r.waiting :: k in st.waiting)
      && (forall k | k in st.waiting :: k in r.running || k in r.waiting)
      && (forall k | k in st.running && k < |st.table| && !st.table[k].Finished() :: k in r.running)
  {
    hide Schedule, Shaped, Fits, Increasing, InRange;
    var n := ScheduleShape(st);
    var live := Live(st.table, st.running);
    hide Live;
    CutMembers(live, st.waiting, n);
  }

  /** Nobody is lost where the queue is cut. */
  lemma {:induction false} CutMembers(live: seq<nat>, waiting: seq<nat>, n: nat)
    requires n <= |waiting|
    ensures forall k :: k in live + waiting[..n] <==> k in live || k in waiting[..n]
    ensures forall k :: k in waiting <==> k in waiting[..n] || k in waiting[n..]
  {
    assert waiting == waiting[..n] + waiting[n..];
  }

  /**
   * An empty batch leaves nothing to do exactly when there are slots to give, or nobody waits.
   * With no slots and somebody waiting the loop would spin.
   */
  lemma {:induction false} EmptyBatchIsIdleIff(st: State)
    requires Shaped(st)
    requires Schedule(st).running == []
    ensures Schedule(st).waiting == [] <==> st.slots >= 1 || st.waiting == []
  {
    var n := ScheduleShape(st);
    assert n == 0;
    if st.waiting != [] && st.slots >= 1 {
      assert Fits(st, Live(st.table, st.running), 1);
    }
  }

  /** The batch never grows past the slots by admission. */
  lemma {:induction false} ScheduleSlots(st: State)
    requires Shaped(st)
    requires |st.running| <= st.slots || st.running == []
    ensures |Schedule(st).running| <= st.slots || Schedule(st).running == []
  {
    var n := ScheduleShape(st);
  }

  // ---- abort ----

  lemma {:induction false} AbortShape(st: State, k: nat, reason: Reason)
    requires Shaped(st) && k < |st.table|
    ensures var r := Abort(st, k, reason);
      && Shaped(r)
      && r == st.(table := st.table[k := Aborted(st.table[k], reason)], waiting := r.waiting)
      && (forall m :: m in r.waiting <==> m in st.waiting && (m != k || st.table[k].Finished()))
      && (k !in st.waiting ==> r.waiting == st.waiting)
  {
    ShapedParts(st);
    RemoveOne(st.waiting, k);
    var r := Abort(st, k, reason);
    if !st.table[k].Finished() {
      forall i | 0 <= i < |r.waiting| ensures r.waiting[i] < |r.table| {
        assert r.waiting[i] in r.waiting;
      }
      ShapedFromParts(r);
    } else {
      assert st.table[k := st.table[k]] == st.table;
    }
  }

  // ---- the end of a tick ----

  lemma {:induction false} AbortEachShape(st: State, ids: seq<nat>)
    requires Shaped(st) && InRange(ids, |st.table|)
    requires forall k | k in ids :: k !in st.waiting
    ensures AbortEach(st, ids) == st.(table := AbortEach(st, ids).table)
  {
    if ids != [] {
      var n := |ids| - 1;
      assert ids == ids[..n] + [ids[n]];
      AbortEachShape(st, ids[..n]);
      AbortShape(AbortEach(st, ids[..n]), ids[n], Error);
    }
  }

  lemma {:induction false} AbortEachElsewhere(st: State, ids: seq<nat>, k: nat)
    requires InRange(ids, |st.table|) && k < |st.table| && k !in ids
    ensures AbortEach(st, ids).table[k] == st.table[k]
  {
    if ids != [] {
      var n := |ids| - 1;
      assert ids == ids[..n] + [ids[n]];
      AbortEachElsewhere(st, ids[..n], k);
    }
  }

  lemma {:induction false} AbortEachAt(st: State, ids: seq<nat>, k: nat)
    requires InRange(ids, |st.table|) && k in ids
    ensures k < |st.table| && AbortEach(st, ids).table[k] == Aborted(st.table[k], Error)
  {
    var n := |ids| - 1;
    assert ids == ids[..n] + [ids[n]];
    if k in ids[..n] {
      AbortEachAt(st, ids[..n], k);
    } else {
      AbortEachElsewhere(st, ids[..n], k);
    }
  }

  lemma {:induction false} PostprocessShape(st: State, batch: seq<nat>, tokens: seq<int>)
    requires InRange(batch, |st.table|)
    ensures Postprocess(st, batch, tokens) == st.(table := Postprocess(st, batch, tokens).table)
    decreases Min(|batch|, |tokens|)
  {
    var n := Min(|batch|, |tokens|);
    if n > 0 {
      PostprocessShape(st, batch[..n - 1], tokens[..n - 1]);
    }
  }

  lemma {:induction false} PostprocessElsewhere(st: State, batch: seq<nat>, tokens: seq<int>, k: nat)
    requires InRange(batch, |st.table|) && k < |st.table| && k !in batch
    ensures Postprocess(st, batch, tokens).table[k] == st.table[k]
    decreases Min(|batch|, |tokens|)
  {
    var n := Min(|batch|, |tokens|);
    if n > 0 {
      assert batch[n - 1] in batch;
      PostprocessElsewhere(st, batch[..n - 1], tokens[..n - 1], k);
    }
  }

  /** A row's token lands on that row's own request, and only once. */
  lemma {:induction false} PostprocessAt(st: State, batch: seq<nat>, tokens: seq<int>, i: nat)
    requires InRange(batch, |st.table|) && Increasing(batch)
    requires |batch| == |tokens| && i < |batch|
    ensures Postprocess(st, batch, tokens).table[batch[i]] == Delivered(st.table[batch[i]], tokens[i])
    decreases |batch|
  {
    hide Postprocess, Delivered;
    var n := |batch| - 1;
    PostprocessLast(st, batch, tokens);
    if i < n {
      PostprocessAt(st, batch[..n], tokens[..n], i);
      assert batch[i] < batch[n];
    } else {
      assert batch[n] !in batch[..n];
      PostprocessElsewhere(st, batch[..n], tokens[..n], batch[n]);
    }
  }

  lemma {:induction false} PostprocessLast(st: State, batch: seq<nat>, tokens: seq<int>)
    requires InRange(batch, |st.table|) && |batch| == |tokens| > 0
    ensures var n := |batch| - 1; var before := Postprocess(st, batch[..n], tokens[..n]);
      Postprocess(st, batch, tokens).table == before.table[batch[n] := Delivered(before.table[batch[n]], tokens[n])]
  {
    hide Delivered;
  }

  lemma {:induction false} SurvivorAt(batch: seq<nat>, picks: seq<Option<int>>, i: nat) returns (j: nat)
    requires |batch| == |picks| && Increasing(batch) && i < |batch| && picks[i].Some?
    ensures j < |Survivors(batch, picks)|
    ensures Survivors(batch, picks)[j] == batch[i] && Drawn(picks)[j] == picks[i].value
  {
    var n := |batch| - 1;
    if i == n {
      j := |Survivors(batch[..n], picks[..n])|;
    } else {
      j := SurvivorAt(batch[..n], picks[..n], i);
    }
  }

  lemma {:induction false} SurvivorsIncreasing(batch: seq<nat>, picks: seq<Option<int>>)
    requires |batch| == |picks| && Increasing(batch)
    ensures Increasing(Survivors(batch, picks))
  {
    if batch != [] {
      var n := |batch| - 1;
      SurvivorsIncreasing(batch[..n], picks[..n]);
      var r := Survivors(batch[..n], picks[..n]);
      forall j | 0 <= j < |r| ensures r[j] < batch[n] {
        assert r[j] in r;
        assert r[j] in batch[..n];
      }
    }
  }

  /** A row is a casualty exactly when its pick is None, and a survivor otherwise. */
  lemma {:induction false} RowSplit(batch: seq<nat>, picks: seq<Option<int>>, i: nat)
    requires |batch| == |picks| && Increasing(batch) && i < |batch|
    ensures batch[i] in Casualties(batch, picks) <==> picks[i].None?
    ensures batch[i] in Survivors(batch, picks) <==> picks[i].Some?
  {
    var n := |batch| - 1;
    if i == n {
      assert batch[n] !in batch[..n];
    } else {
      RowSplit(batch[..n], picks[..n], i);
    }
  }

  /**
   * Row attribution: at the end of a tick every row's pick reaches exactly the request of its
   * own row, a row without a token changes no other request, and neither queue moves.
   */
  lemma {:induction false} CommitRow(st: State, batch: seq<nat>, picks: seq<Option<int>>, i: nat)
    requires Shaped(st) && InRange(batch, |st.table|) && Increasing(batch)
    requires |batch| == |picks| && i < |batch|
    ensures EndTick(st, batch, picks).table[batch[i]] == RowResult(st.table[batch[i]], picks[i])
  {
    var cs, ss := Casualties(batch, picks), Survivors(batch, picks);
    InRangeOf(cs, batch, |st.table|);
    InRangeOf(ss, batch, |st.table|);
    RowSplit(batch, picks, i);
    var swept := AbortEach(st, cs);
    if picks[i].None? {
      AbortEachAt(st, cs, batch[i]);
      PostprocessElsewhere(swept, ss, Drawn(picks), batch[i]);
    } else {
      AbortEachElsewhere(st, cs, batch[i]);
      SurvivorsIncreasing(batch, picks);
      var j := SurvivorAt(batch, picks, i);
      PostprocessAt(swept, ss, Drawn(picks), j);
    }
  }

  lemma {:induction false} CommitElsewhere(st: State, batch: seq<nat>, picks: seq<Option<int>>, k: nat)
    requires InRange(batch, |st.table|) && |batch| == |picks|
    requires k < |st.table| && k !in batch
    ensures EndTick(st, batch, picks).table[k] == st.table[k]
  {
    var cs, ss := Casualties(batch, picks), Survivors(batch, picks);
    InRangeOf(cs, batch, |st.table|);
    InRangeOf(ss, batch, |st.table|);
    AbortEachElsewhere(st, cs, k);
    PostprocessElsewhere(AbortEach(st, cs), ss, Drawn(picks), k);
  }

  lemma {:induction false} CommitShape(st: State, batch: seq<nat>, picks: seq<Option<int>>)
    requires Shaped(st) && InRange(batch, |st.table|) && |batch| == |picks|
    requires forall k | k in batch :: k !in st.waiting
    ensures EndTick(st, batch, picks) == st.(table := EndTick(st, batch, picks).table)
  {
    var cs, ss := Casualties(batch, picks), Survivors(batch, picks);
    InRangeOf(cs, batch, |st.table|);
    InRangeOf(ss, batch, |st.table|);
    AbortEachShape(st, cs);
    PostprocessShape(AbortEach(st, cs), ss, Drawn(picks));
  }

  /** Everything one tick does to the table, for all requests at once. */
  ghost predicate Ticked(before: seq<Entry>, after: seq<Entry>, batch: seq<nat>, picks: seq<Option<int>>) {
    && |after| == |before| && |picks| == |batch| && InRange(batch, |before|)
    && (forall i | 0 <= i < |batch| :: after[batch[i]] == RowResult(before[batch[i]], picks[i]))
    && (forall k | 0 <= k < |before| && k !in batch :: after[k] == before[k])
  }

  lemma {:induction false} CommitTicks(st: State, batch: seq<nat>, picks: seq<Option<int>>)
    requires Shaped(st) && InRange(batch, |st.table|) && Increasing(batch) && |batch| == |picks|
    requires forall k | k in batch :: k !in st.waiting
    ensures EndTick(st, batch, picks) == st.(table := EndTick(st, batch, picks).table)
    ensures Ticked(st.table, EndTick(st, batch, picks).table, batch, picks)
  {
    CommitShape(st, batch, picks);
    forall i | 0 <= i < |batch|
      ensures EndTick(st, batch, picks).table[batch[i]] == RowResult(st.table[batch[i]], picks[i])
    {
      CommitRow(st, batch, picks, i);
    }
    forall k | 0 <= k < |st.table| && k !in batch
      ensures EndTick(st, batch, picks).table[k] == st.table[k]
    {
      CommitElsewhere(st, batch, picks, k);
    }
  }
}
