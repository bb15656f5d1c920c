/** How far a running batch can outgrow its token budget. */
module Budget {
  import opened Sums
  import opened Requests
  import opened Admission
  import opened Effects
  import opened Protocol
  import opened Invariants

  /** Tokens of each request, less `base`. */
  function Relative(table: seq<Entry>, base: int): (r: seq<int>)
    ensures |r| == |table|
  {
    seq(|table|, k requires 0 <= k < |table| => table[k].Len() - base)
  }

  function Prompts(table: seq<Entry>): (r: seq<int>)
    ensures |r| == |table|
  {
    seq(|table|, k requires 0 <= k < |table| => |table[k].req.prompt|)
  }

  /** A batch as `schedule` returns it: nobody in it is finished. */
  ghost predicate FreshBatch(st: State) {
    Shaped(st) && Paced(st) && forall k | k in st.running :: k < |st.table| && !st.table[k].Finished()
  }

  lemma {:induction false} ScheduledIsFresh(s: Sys)
    requires Inv(s)
    ensures FreshBatch(Schedule(s.st))
  {
    hide Schedule, Channels, Flying, Following, Coherent, Paced, Fits;
    assert Paced(s.st);
    var n := ScheduleShape(s.st);
    ScheduleMembers(s.st);
    SchedulePaced(s.st);
  }

  lemma {:induction false} PrefixIds(ids: seq<nat>, prefix: seq<nat>, j: nat, n: nat)
    requires Increasing(ids) && InRange(ids, n) && j < |ids| && prefix == ids[..j + 1]
    ensures Increasing(prefix) && InRange(prefix, n)
    ensures forall k :: k in prefix <==> k in ids && k <= ids[j]
  {
    forall k ensures k in prefix <==> k in ids && k <= ids[j] {
      if k in ids && k <= ids[j] {
        var i :| 0 <= i < |ids| && ids[i] == k;
        assert !(j < i);
        assert prefix[i] == k;
      }
    }
  }

  /** The share of row j is the sum, over the rows up to j, of their tokens less j's outputs. */
  lemma {:induction false} ShareIsPrefixSum(st: State, j: nat)
    requires FreshBatch(st) && j < |st.running|
    ensures InRange(st.running[..j + 1], |st.table|) && st.running[j] < |st.table|
    ensures Sum(Pick(Relative(st.table, |st.table[st.running[j]].out|), st.running[..j + 1]))
         == Sum(Share(st, st.running[j]))
  {
    ShapedParts(st);
    var ids, k := st.running[..j + 1], st.running[j];
    PrefixIds(st.running, ids, j, |st.table|);
    var w := Relative(st.table, |st.table[k].out|);
    SumPick(w, ids);
    var masked := Masked(w, ids);
    MaskedSplits(masked, Share(st, k));
  }

  lemma {:induction false} MaskedSplits(masked: seq<int>, share: seq<int>)
    requires |share| <= |masked|
    requires forall i | 0 <= i < |share| :: masked[i] == share[i]
    requires forall i | |share| <= i < |masked| :: masked[i] == 0
    ensures Sum(masked) == Sum(share)
  {
    var rest := masked[|share|..];
    assert masked == share + rest;
    SumConcat(share, rest);
    SumConstant(rest, 0);
  }

  /**
   * In every batch the scheduler returns, every row but the first still fits the token budget
   * together with all rows before it, the progress it has itself made set aside.
   */
  lemma {:induction false} EveryRowWasAdmitted(s: Sys, j: nat)
    requires Inv(s)
    requires 1 <= j < |Schedule(s.st).running|
    ensures var st := Schedule(s.st);
      && InRange(st.running[..j + 1], |st.table|) && st.running[j] < |st.table|
      && Sum(Pick(Relative(st.table, |st.table[st.running[j]].out|), st.running[..j + 1])) <= st.maxTokens
  {
    ScheduledIsFresh(s);
    hide Inv, Schedule, FreshBatch;
    RowFits(Schedule(s.st), j);
  }

  lemma {:induction false} RowFits(st: State, j: nat)
    requires FreshBatch(st) && 1 <= j < |st.running|
    ensures InRange(st.running[..j + 1], |st.table|) && st.running[j] < |st.table|
    ensures Sum(Pick(Relative(st.table, |st.table[st.running[j]].out|), st.running[..j + 1])) <= st.maxTokens
  {
    ShapedParts(st);
    ShareIsPrefixSum(st, j);
    assert Carries(st, st.running[0]) && Carries(st, st.running[j]);
    assert st.running[0] < st.running[j];
  }

  /**
   * So two or more rows together hold at most the budget plus what every row may have gained
   * since the last of them joined, and their prompts alone fit the budget.
   */
  lemma {:induction false} OverrunIsBounded(s: Sys)
    requires Inv(s) && |Schedule(s.st).running| >= 2
    ensures var st := Schedule(s.st); var rows := |st.running|;
      && InRange(st.running, |st.table|)
      && TokenSum(st.table, st.running) <= st.maxTokens + rows * |st.table[st.running[rows - 1]].out|
      && Sum(Pick(Prompts(st.table), st.running)) <= st.maxTokens
  {
    ScheduledIsFresh(s);
    hide Inv, Schedule, FreshBatch;
    BatchBound(Schedule(s.st));
  }

  lemma {:induction false} BatchBound(st: State)
    requires FreshBatch(st) && |st.running| >= 2
    ensures InRange(st.running, |st.table|)
    ensures var rows := |st.running|;
      && TokenSum(st.table, st.running) <= st.maxTokens + rows * |st.table[st.running[rows - 1]].out|
      && Sum(Pick(Prompts(st.table), st.running)) <= st.maxTokens
  {
    ShapedParts(st);
    var rows := |st.running|;
    var last := st.running[rows - 1];
    var base := |st.table[last].out|;
    RowFits(st, rows - 1);
    assert st.running[..rows] == st.running;
    var relative := Pick(Relative(st.table, base), st.running);
    SumShift(Pick(Lens(st.table), st.running), relative, base);
    OldestAhead(st);
    SumMonotone(Pick(Prompts(st.table), st.running), relative);
  }

  lemma {:induction false} OldestAhead(st: State)
    requires FreshBatch(st) && |st.running| >= 1
    ensures InRange(st.running, |st.table|)
    ensures forall i | 0 <= i < |st.running| ::
      |st.table[st.running[i]].out| >= |st.table[st.running[|st.running| - 1]].out|
  {
    ShapedParts(st);
    var last := st.running[|st.running| - 1];
    forall i | 0 <= i < |st.running| - 1
      ensures |st.table[st.running[i]].out| >= |st.table[last].out|
    {
      assert Carries(st, st.running[i]) && Carries(st, last);
      assert st.running[i] < last;
    }
  }

  // ---- exactly when a batch is over its budget ----

  lemma {:induction false} PartOfTokens(table: seq<Entry>, ids: seq<nat>, n: nat)
    requires InRange(ids, |table|) && n <= |ids|
    ensures InRange(ids[..n], |table|)
    ensures TokenSum(table, ids[..n]) <= TokenSum(table, ids)
  {
    SumPrefix(Pick(Lens(table), ids), n);
    assert Pick(Lens(table), ids)[..n] == Pick(Lens(table), ids[..n]);
  }

  lemma {:induction false} LoneTokens(table: seq<Entry>, k: nat)
    requires k < |table|
    ensures InRange([k], |table|) && TokenSum(table, [k]) == table[k].Len()
  {
    TokenSumSnoc(table, [], k);
    assert [] + [k] == [k];
  }

  /**
   * The budget itself is not an invariant, for two reasons. The first is admission: a schedule
   * returns a batch within its budget if and only if the rows that it keeps are within it and,
   * where it keeps nobody, the head of the queue is, which is then let in whatever its length.
   */
  lemma {:induction false} ScheduleStaysInBudgetIff(st: State)
    requires Shaped(st)
    ensures InRange(Schedule(st).running, |st.table|) && Schedule(st).table == st.table
    ensures InRange(st.running, |st.table|) && InRange(st.waiting, |st.table|)
    ensures var live := Live(st.table, st.running);
      && InRange(live, |st.table|)
      && (TokenSum(st.table, Schedule(st).running) <= st.maxTokens
          <==> && TokenSum(st.table, live) <= st.maxTokens
               && (live == [] && st.slots >= 1 && st.waiting != [] ==>
                     st.table[st.waiting[0]].Len() <= st.maxTokens))
  {
    hide Schedule, Live, TokenSum;
    var n := ScheduleShape(st);
    ShapedParts(Schedule(st));
    AdmittedTokens(st, Live(st.table, st.running), n);
  }

  lemma {:induction false} AdmittedTokens(st: State, live: seq<nat>, n: nat)
    requires InRange(live, |st.table|) && InRange(st.waiting, |st.table|) && n <= |st.waiting|
    requires InRange(live + st.waiting[..n], |st.table|)
    requires Fits(st, live, n) && (n < |st.waiting| ==> !Fits(st, live, n + 1))
    ensures TokenSum(st.table, live + st.waiting[..n]) <= st.maxTokens
      <==> && TokenSum(st.table, live) <= st.maxTokens
           && (live == [] && st.slots >= 1 && st.waiting != [] ==> st.table[st.waiting[0]].Len() <= st.maxTokens)
  {
    hide TokenSum;
    var batch := live + st.waiting[..n];
    assert batch[..|live|] == live;
    PartOfTokens(st.table, batch, |live|);
    if n == 0 {
      assert batch == live;
    } else if live == [] {
      assert batch[..1] == [st.waiting[0]];
      PartOfTokens(st.table, batch, 1);
      LoneTokens(st.table, st.waiting[0]);
      NoTokens(st.table);
      assert n == 1 ==> batch[..1] == batch;
    }
  }

  lemma {:induction false} NoTokens(table: seq<Entry>)
    ensures InRange([], |table|) && TokenSum(table, []) == 0
  {
  }

  /** One for each row that got a token. */
  function Gains(picks: seq<Option<int>>): (r: seq<int>)
    ensures |r| == |picks|
  {
    seq(|picks|, i requires 0 <= i < |picks| => if picks[i].Some? then 1 else 0)
  }

  lemma {:induction false} GainsAreDrawn(picks: seq<Option<int>>)
    ensures Sum(Gains(picks)) == |Drawn(picks)|
  {
    if picks != [] {
      var n := |picks| - 1;
      GainsAreDrawn(picks[..n]);
      assert Gains(picks)[..n] == Gains(picks[..n]);
    }
  }

  /** The second reason is growth: a tick adds exactly the tokens that it draws, so the batch is
      within the budget afterwards if and only if it was at least that far below it. */
  lemma {:induction false} TickStaysInBudgetIff(st: State, batch: seq<nat>, picks: seq<Option<int>>)
    requires Shaped(st) && batch == st.running && |picks| == |batch|
    ensures InRange(batch, |st.table|)
    ensures TokenSum(EndTick(st, batch, picks).table, batch) == TokenSum(st.table, batch) + |Drawn(picks)|
    ensures TokenSum(EndTick(st, batch, picks).table, batch) <= st.maxTokens
      <==> TokenSum(st.table, batch) <= st.maxTokens - |Drawn(picks)|
  {
    hide EndTick, Shaped, Sum, Ticked;
    ShapedParts(st);
    CommitTicks(st, batch, picks);
    GainsAreDrawn(picks);
    RowsGain(st.table, EndTick(st, batch, picks).table, batch, picks);
  }

  lemma {:induction false} RowsGain(before: seq<Entry>, after: seq<Entry>, batch: seq<nat>, picks: seq<Option<int>>)
    requires Ticked(before, after, batch, picks)
    ensures InRange(batch, |after|)
    ensures TokenSum(after, batch) == TokenSum(before, batch) + Sum(Gains(picks))
  {
    SumAdd(Pick(Lens(after), batch), Pick(Lens(before), batch), Gains(picks));
  }
}
