/** Every step of the protocol keeps every invariant. */
module Invariants {
  import opened Sums
  import opened Requests
  import opened Padding
  import opened Admission
  import opened Effects
  import opened Protocol

  lemma {:induction false} StartInv(slots: int, maxTokens: int, runner: Runner)
    ensures Inv(Start(slots, maxTokens, runner))
  {
  }

  // ---- pacing ----

  /** Rows that keep their slot all advance by the same amount; others only leave. */
  ghost predicate InStep(st: State, later: State, d: nat) {
    && later.maxTokens == st.maxTokens
    && forall k: nat | Carries(later, k) ::
      && Carries(st, k) && later.table[k].req == st.table[k].req
      && |later.table[k].out| == |st.table[k].out| + d
  }

  lemma {:induction false} PacedInStep(st: State, later: State, d: nat)
    requires Paced(st) && InStep(st, later, d)
    ensures Paced(later)
  {
    forall j, k | 0 <= j < k && Carries(later, j) && Carries(later, k)
      ensures Sum(Share(later, k)) <= later.maxTokens
    {
      ShareShrinks(st, later, d, k);
      SumMonotone(Share(later, k), Share(st, k));
    }
  }

  lemma {:induction false} ShareShrinks(st: State, later: State, d: nat, k: nat)
    requires Paced(st) && InStep(st, later, d) && Carries(later, k)
    ensures k < |st.table|
    ensures forall j | 0 <= j <= k :: Share(later, k)[j] <= Share(st, k)[j]
  {
    forall j | 0 <= j <= k ensures Share(later, k)[j] <= Share(st, k)[j] {
      if Carries(st, j) && j < k {
        assert |st.table[j].out| >= |st.table[k].out|;
      }
    }
  }

  /** A schedule keeps every unfinished row, and those it adds are younger and have no output. */
  lemma {:induction false} ScheduleCarries(st: State, k: nat)
    requires Shaped(st) && Queued(st)
    ensures k in st.running ==> (Carries(Schedule(st), k) <==> Carries(st, k))
    ensures Carries(Schedule(st), k) && k !in st.running ==>
      k in st.waiting && st.table[k].out == [] && !Carries(st, k)
    ensures forall j | j in st.running :: k in st.waiting ==> j < k
  {
    ScheduleMembers(st);
    ShapedParts(st);
  }

  lemma {:induction false} SchedulePacedAt(st: State, j: nat, k: nat)
    requires Shaped(st) && Queued(st) && Paced(st)
    requires j < k && Carries(Schedule(st), j) && Carries(Schedule(st), k)
    ensures Schedule(st).table == st.table && k < |st.table|
    ensures |st.table[j].out| >= |st.table[k].out|
    ensures Sum(Share(Schedule(st), k)) <= st.maxTokens
  {
    ScheduleCarries(st, j);
    ScheduleCarries(st, k);
    if k in st.running {
      OlderShareUnmoved(st, k);
    } else {
      NewcomerFits(st, j, k);
    }
  }

  lemma {:induction false} SchedulePaced(st: State)
    requires Shaped(st) && Queued(st) && Paced(st)
    ensures Paced(Schedule(st))
  {
    forall j, k | 0 <= j < k && Carries(Schedule(st), j) && Carries(Schedule(st), k)
      ensures |Schedule(st).table[j].out| >= |Schedule(st).table[k].out|
      ensures Sum(Share(Schedule(st), k)) <= Schedule(st).maxTokens
    {
      SchedulePacedAt(st, j, k);
    }
  }

  lemma {:induction false} OlderShareUnmoved(st: State, k: nat)
    requires Shaped(st) && Queued(st) && k in st.running && Carries(st, k)
    ensures k < |Schedule(st).table| && Share(Schedule(st), k) == Share(st, k)
  {
    hide Schedule, Shaped, Queued, Fits, Share, InRange, Live;
    var n := ScheduleShape(st);
    forall i | 0 <= i <= k
      ensures Carries(Schedule(st), i) <==> Carries(st, i)
    {
      OlderCarries(st, i, k);
    }
    SameShare(st, Schedule(st), k);
  }

  lemma {:induction false} OlderCarries(st: State, i: nat, k: nat)
    requires Shaped(st) && Queued(st) && k in st.running && i <= k
    ensures Carries(Schedule(st), i) <==> Carries(st, i)
  {
    ScheduleCarries(st, i);
  }

  lemma {:induction false} SameShare(st: State, later: State, k: nat)
    requires k < |st.table| && later.table == st.table
    requires forall i | 0 <= i <= k :: Carries(later, i) <==> Carries(st, i)
    ensures Share(later, k) == Share(st, k)
  {
    hide Carries;
  }

  lemma {:induction false} TwoRows(ids: seq<nat>, j: nat, k: nat)
    requires j in ids && k in ids && j != k
    ensures |ids| >= 2
  {
    var a :| 0 <= a < |ids| && ids[a] == j;
    var b :| 0 <= b < |ids| && ids[b] == k;
    assert a != b;
  }

  /** A request that joins others was admitted within the token budget. */
  lemma {:induction false} NewcomerFits(st: State, j: nat, k: nat)
    requires Shaped(st) && Queued(st)
    requires j != k && Carries(Schedule(st), j) && Carries(Schedule(st), k) && k in st.waiting
    ensures Sum(Share(Schedule(st), k)) <= st.maxTokens
  {
    var r := Schedule(st);
    var n := ScheduleShape(st);
    TwoRows(r.running, j, k);
    ShapedParts(st);
    assert n > 0 by {
      assert k in Live(st.table, st.running) + st.waiting[..n];
    }
    ShapedParts(r);
    assert TokenSum(st.table, r.running) <= st.maxTokens;
    ScheduleMembers(st);
    ShareWithinTotal(r, k);
  }

  lemma {:induction false} ShareIsMasked(st: State, k: nat)
    requires k < |st.table| && st.table[k].out == []
    requires forall j | j in st.running && j < |st.table| :: !st.table[j].Finished()
    ensures Share(st, k) == Masked(Lens(st.table), st.running)[..k + 1]
  {
  }

  lemma {:induction false} ShareWithinTotal(st: State, k: nat)
    requires Increasing(st.running) && InRange(st.running, |st.table|)
    requires k < |st.table| && st.table[k].out == []
    requires forall j | j in st.running && j < |st.table| :: !st.table[j].Finished()
    ensures Sum(Share(st, k)) <= TokenSum(st.table, st.running)
  {
    ShareIsMasked(st, k);
    SumPick(Lens(st.table), st.running);
    SumPrefix(Masked(Lens(st.table), st.running), k + 1);
  }

  // ---- submit ----

  lemma {:induction false} RowsUnmoved(table: seq<Entry>, later: seq<Entry>, ids: seq<nat>)
    requires InRange(ids, |table|) && |table| <= |later|
    requires forall k | k in ids :: later[k] == table[k]
    ensures InRange(ids, |later|) && Rows(later, ids) == Rows(table, ids)
  {
  }

  lemma {:induction false} SubmitInv(s: Sys, req: Request)
    requires Inv(s)
    ensures Inv(Submitting(s, req))
  {
    var r := Submitting(s, req);
    SubmittedTold(req);
    SubmitShaped(s, req);
    SubmitFlying(s, req);
    SubmitFollowing(s, req);
    ShapedParts(s.st);
    assert forall j | j in s.st.running :: j < |s.st.table|;
    PacedInStep(s.st, r.st, 0);
    SubmitCoherent(s, req);
  }

  lemma {:induction false} SubmitShaped(s: Sys, req: Request)
    requires Inv(s)
    ensures Shaped(Submitting(s, req).st) && Queued(Submitting(s, req).st)
  {
    ShapedParts(s.st);
    ShapedFromParts(Submitting(s, req).st);
  }

  lemma {:induction false} SubmitFlying(s: Sys, req: Request)
    requires Inv(s)
    ensures Flying(Submitting(s, req))
  {
    ShapedParts(s.st);
    hide Queued, Channels, Following, Paced, Coherent;
    assert forall j | 0 <= j < |s.st.table| :: Submitting(s, req).st.table[j] == s.st.table[j];
  }

  lemma {:induction false} SubmitFollowing(s: Sys, req: Request)
    requires Inv(s)
    ensures Following(Submitting(s, req))
  {
    ShapedParts(s.st);
    hide Queued, Channels, Flying, Paced, Coherent;
    var r := Submitting(s, req);
    assert forall j | 0 <= j < |s.st.table| :: r.st.table[j] == s.st.table[j] && r.served[j] == s.served[j];
    assert forall j | j in s.st.running :: j < |s.st.table|;
  }

  lemma {:induction false} SubmitCoherent(s: Sys, req: Request)
    requires Inv(s)
    ensures Coherent(Submitting(s, req))
  {
    var r := Submitting(s, req);
    RowsUnmoved(s.st.table, r.st.table, s.members);
    if s.phase.Exec? {
      ShapedParts(s.st);
      RowsUnmoved(s.st.table, r.st.table, s.phase.batch);
    }
  }

  // ---- cancel ----

  lemma {:induction false} CancelInv(s: Sys, k: nat)
    requires Inv(s) && k < |s.st.table|
    ensures Inv(Cancelling(s, k))
  {
    AbortShape(s.st, k, Cancelled);
    CancelQueued(s, k);
    CancelFlying(s, k);
    CancelFollowing(s, k);
    PacedInStep(s.st, Cancelling(s, k).st, 0);
    CancelCoherent(s, k);
  }

  lemma {:induction false} CancelQueued(s: Sys, k: nat)
    requires Inv(s) && k < |s.st.table|
    ensures Queued(Cancelling(s, k).st) && Channels(Cancelling(s, k))
  {
    AbortShape(s.st, k, Cancelled);
    AbortedTold(s.st.table[k], Cancelled, k in s.gone);
  }

  lemma {:induction false} CancelFollowing(s: Sys, k: nat)
    requires Inv(s) && k < |s.st.table|
    ensures Following(Cancelling(s, k))
  {
    AbortShape(s.st, k, Cancelled);
    assert Follows(s.served[k], s.st.table[k]);
  }

  lemma {:induction false} CancelFlying(s: Sys, k: nat)
    requires Inv(s) && k < |s.st.table|
    ensures Flying(Cancelling(s, k))
  {
    AbortShape(s.st, k, Cancelled);
    assert Told(s.st.table[k], k in s.gone);
  }

  lemma {:induction false} CancelCoherent(s: Sys, k: nat)
    requires Shaped(s.st) && Coherent(s) && k < |s.st.table|
    ensures Coherent(Cancelling(s, k))
  {
    var r := Cancelling(s, k);
    AbortShape(s.st, k, Cancelled);
    hide Shaped, Abort, Holds;
    if s.runner.Qwen? && s.phase.Exec? {
      HoldsSame(s.cache, s.runner.pad, s.st.table, r.st.table, s.phase.batch);
    } else if s.runner.Qwen? && !s.phase.Dead? {
      HoldsSame(s.cache, s.runner.pad, s.st.table, r.st.table, s.members);
      if m :| m in s.members && s.st.table[m].Finished() {
        assert r.st.table[m].Finished();
      }
    }
  }

  /** Cancelling a request, even in flight, does not change what its row is computed from. */
  ghost predicate SameInput(table: seq<Entry>, later: seq<Entry>) {
    |later| >= |table| && forall k | 0 <= k < |table| ::
      later[k].req == table[k].req && later[k].out == table[k].out
  }

  lemma {:induction false} HoldsSame(
      cache: Option<Cache>, pad: int, table: seq<Entry>, later: seq<Entry>, batch: seq<nat>)
    requires InRange(batch, |table|) && SameInput(table, later)
    ensures InRange(batch, |later|)
    ensures Holds(cache, pad, Rows(table, batch)) <==> Holds(cache, pad, Rows(later, batch))
  {
    SameAllButLast(pad, Rows(table, batch), Rows(later, batch));
  }

  lemma {:induction false} SameAllButLast(pad: int, a: seq<Entry>, b: seq<Entry>)
    requires |a| == |b|
    requires forall i | 0 <= i < |a| :: b[i].req == a[i].req && b[i].out == a[i].out
    ensures Width(a) == Width(b)
    ensures Width(a) > 0 ==> AllButLast(pad, a) == AllButLast(pad, b)
  {
    SameWidth(a, b);
    if Width(a) > 0 {
      forall i | 0 <= i < |a| ensures AllButLast(pad, a)[i] == AllButLast(pad, b)[i] {
        SameFull(pad, Width(a), a[i], b[i]);
      }
    }
  }

  lemma {:induction false} SameFull(pad: int, width: nat, q: Entry, r: Entry)
    requires r.req == q.req && r.out == q.out && q.Len() <= width
    ensures Full(pad, width, q) == Full(pad, width, r)
  {
  }

  lemma {:induction false} SameWidth(a: seq<Entry>, b: seq<Entry>)
    requires |a| == |b|
    requires forall i | 0 <= i < |a| :: b[i].Len() == a[i].Len()
    ensures Width(a) == Width(b)
  {
    if a != [] {
      var i :| 0 <= i < |a| && a[i].Len() == Width(a);
      var j :| 0 <= j < |b| && b[j].Len() == Width(b);
      assert b[i].Len() == a[i].Len() && b[j].Len() == a[j].Len();
    }
  }

  // ---- the loop ----

  lemma {:induction false} TurnInv(s: Sys)
    requires Inv(s) && s.phase.Ready?
    ensures Inv(Turning(s))
  {
    if s.st.waiting == [] && s.st.running == [] {
    } else {
      var r := Turning(s);
      var n := ScheduleShape(s.st);
      ScheduleMembers(s.st);
      ScheduleSlots(s.st);
      SchedulePaced(s.st);
      assert Queued(r.st);
      assert Following(r);
      TurnCoherent(s);
      assert Flying(r);
    }
  }

  lemma {:induction false} TurnCoherent(s: Sys)
    requires Inv(s) && s.phase.Ready?
    requires !(s.st.waiting == [] && s.st.running == [])
    ensures Coherent(Turning(s))
  {
    var n := ScheduleShape(s.st);
    ScheduleMembers(s.st);
    ShapedParts(Schedule(s.st));
  }

  lemma {:induction false} FailInv(s: Sys)
    requires Inv(s) && s.phase.Exec?
    ensures Inv(Failing(s))
  {
    var r := Failing(s);
    ShapedParts(s.st);
    forall k | 0 <= k < |s.st.table| ensures Told(r.st.table[k], k in s.gone) {
      assert Told(s.st.table[k], k in s.gone);
      if k in s.st.running || k in s.st.waiting {
        FailedTold(s.st.table[k], k in s.gone);
      }
    }
    assert Paced(r.st);
    assert Following(r);
  }

  lemma {:induction false} SwapInv(s: Sys, to: Runner)
    requires Inv(s) && (s.phase.Exec? || s.phase.Dead? || HoldsNobody(s))
    ensures Inv(Swapping(s, to))
  {
    ShapedParts(s.st);
    if s.phase.Exec? { FailInv(s); }
    var r := Swapping(s, to);
    assert r.st.running == [];
    assert Shaped(r.st) && Queued(r.st) && Channels(r) && Paced(r.st);
    assert Following(r);
  }

  // ---- the end of a tick ----

  lemma {:induction false} CommitChannels(s: Sys, picks: seq<Option<int>>, cache: Option<Cache>)
    requires Inv(s) && s.phase.Exec? && InRange(s.phase.batch, |s.st.table|) && |picks| == |s.phase.batch|
    requires Ticked(s.st.table, Committing(s, picks, cache).st.table, s.phase.batch, picks)
    ensures Channels(Committing(s, picks, cache))
  {
    var r := Committing(s, picks, cache);
    forall k | 0 <= k < |s.st.table| ensures Told(r.st.table[k], k in s.gone) {
      var q := s.st.table[k];
      assert Told(q, k in s.gone);
      if k in s.phase.batch {
        var i := IndexOf(s.phase.batch, k);
        if picks[i].None? {
          AbortedTold(q, Error, k in s.gone);
        } else {
          DeliveredTold(q, picks[i].value, k in s.gone);
        }
      }
    }
  }

  lemma {:induction false} CommitQueued(s: Sys, picks: seq<Option<int>>, cache: Option<Cache>)
    requires Inv(s) && s.phase.Exec? && InRange(s.phase.batch, |s.st.table|) && |picks| == |s.phase.batch|
    requires Ticked(s.st.table, Committing(s, picks, cache).st.table, s.phase.batch, picks)
    requires Committing(s, picks, cache).st == s.st.(table := Committing(s, picks, cache).st.table)
    ensures Queued(Committing(s, picks, cache).st)
    ensures Shaped(Committing(s, picks, cache).st)
  {
    ShapedParts(s.st);
    var r := Committing(s, picks, cache);
    forall k | 0 <= k < |s.st.table| && !r.st.table[k].Finished()
      ensures k in r.st.running || k in r.st.waiting
    {
      if k in s.phase.batch {
      } else {
        assert r.st.table[k] == s.st.table[k];
      }
    }
    forall k | k in s.st.waiting ensures r.st.table[k] == s.st.table[k] {
      assert k !in s.phase.batch;
    }
  }

  /** A row that is still unfinished afterwards was unfinished before and gained exactly one token. */
  lemma {:induction false} OpenRow(q: Entry, pick: Option<int>)
    requires !RowResult(q, pick).Finished()
    ensures !q.Finished() && pick.Some?
    ensures RowResult(q, pick).req == q.req && RowResult(q, pick).out == q.out + [pick.value]
  {
  }

  lemma {:induction false} StillOpen(
      before: seq<Entry>, after: seq<Entry>, batch: seq<nat>, picks: seq<Option<int>>, k: nat)
    requires Ticked(before, after, batch, picks) && k in batch && !after[k].Finished()
    ensures k < |before| && !before[k].Finished()
    ensures after[k].req == before[k].req && |after[k].out| == |before[k].out| + 1
    ensures before[k].out <= after[k].out
  {
    var i := IndexOf(batch, k);
    OpenRow(before[k], picks[i]);
  }

  lemma {:induction false} CommitPaced(s: Sys, picks: seq<Option<int>>, cache: Option<Cache>)
    requires Inv(s) && s.phase.Exec? && InRange(s.phase.batch, |s.st.table|) && |picks| == |s.phase.batch|
    requires Ticked(s.st.table, Committing(s, picks, cache).st.table, s.phase.batch, picks)
    requires Committing(s, picks, cache).st == s.st.(table := Committing(s, picks, cache).st.table)
    ensures Paced(Committing(s, picks, cache).st)
  {
    var r := Committing(s, picks, cache);
    forall k: nat | Carries(r.st, k)
      ensures Carries(s.st, k) && r.st.table[k].req == s.st.table[k].req
      ensures |r.st.table[k].out| == |s.st.table[k].out| + 1
    {
      assert k in s.phase.batch;
      StillOpen(s.st.table, r.st.table, s.phase.batch, picks, k);
    }
    PacedInStep(s.st, r.st, 1);
  }

  /** The picks are what each row's request would have been given alone. */
  ghost predicate EachAlone(s: Sys, picks: seq<Option<int>>)
    requires s.phase.Exec? && InRange(s.phase.batch, |s.st.table|)
  {
    |picks| == |s.phase.batch| && forall i | 0 <= i < |picks| ::
      var q := s.st.table[s.phase.batch[i]]; picks[i] == Next(s.runner, q.req, q.Tokens())
  }

  lemma {:induction false} FollowsOneMore(r: Runner, q: Entry, later: Entry, t: int)
    requires Follows(r, q) && later.req == q.req && later.out == q.out + [t]
    requires Next(r, q.req, q.Tokens()) == Some(t)
    ensures Follows(r, later)
  {
    forall i | 0 <= i < |later.out|
      ensures Next(r, later.req, later.req.prompt + later.out[..i]) == Some(later.out[i])
    {
      assert later.out[..i] == q.out[..i];
      if i == |q.out| { assert q.out[..i] == q.out; }
    }
  }

  lemma {:induction false} CommitFollowing(s: Sys, picks: seq<Option<int>>, cache: Option<Cache>)
    requires Inv(s) && s.phase.Exec? && InRange(s.phase.batch, |s.st.table|) && EachAlone(s, picks)
    requires Ticked(s.st.table, Committing(s, picks, cache).st.table, s.phase.batch, picks)
    requires Committing(s, picks, cache).st == s.st.(table := Committing(s, picks, cache).st.table)
    ensures Following(Committing(s, picks, cache))
  {
    var r := Committing(s, picks, cache);
    forall k | 0 <= k < |s.st.table| ensures Follows(r.served[k], r.st.table[k]) {
      var q := s.st.table[k];
      assert Follows(s.served[k], q);
      if k in s.phase.batch {
        var i := IndexOf(s.phase.batch, k);
        assert Follows(s.runner, q) by {
          if q.out != [] { assert s.served[k] == s.runner; }
        }
        if picks[i].Some? {
          FollowsOneMore(s.runner, q, r.st.table[k], picks[i].value);
        } else {
          assert r.st.table[k].out == q.out && r.st.table[k].req == q.req;
        }
      }
    }
  }

  /**
   * The columns cached during a tick are the next batch without its newest column, if nobody
   * in that batch has finished: every row has then gained exactly one token.
   */
  lemma {:induction false} CommitCoherent(s: Sys, picks: seq<Option<int>>, cache: Option<Cache>)
    requires Inv(s) && s.phase.Exec? && InRange(s.phase.batch, |s.st.table|) && |picks| == |s.phase.batch|
    requires Ticked(s.st.table, Committing(s, picks, cache).st.table, s.phase.batch, picks)
    requires s.runner.Qwen? ==> cache == Some(Matrix(s.runner.pad, Rows(s.st.table, s.phase.batch)))
    ensures Coherent(Committing(s, picks, cache))
  {
    var r := Committing(s, picks, cache);
    var batch := s.phase.batch;
    if s.runner.Qwen? && forall k | k in batch :: !r.st.table[k].Finished() {
      CommitGains(s, picks, cache);
      OldBatchIsAllButLast(s.runner.pad, Rows(s.st.table, batch), Rows(r.st.table, batch));
    }
  }

  lemma {:induction false} CommitGains(s: Sys, picks: seq<Option<int>>, cache: Option<Cache>)
    requires Inv(s) && s.phase.Exec? && InRange(s.phase.batch, |s.st.table|) && |picks| == |s.phase.batch|
    requires Ticked(s.st.table, Committing(s, picks, cache).st.table, s.phase.batch, picks)
    requires forall k | k in s.phase.batch :: !Committing(s, picks, cache).st.table[k].Finished()
    ensures EachGainedOne(
      Rows(s.st.table, s.phase.batch), Rows(Committing(s, picks, cache).st.table, s.phase.batch))
  {
    var batch := s.phase.batch;
    var later := Committing(s, picks, cache).st.table;
    var before, after := Rows(s.st.table, batch), Rows(later, batch);
    forall i | 0 <= i < |batch|
      ensures after[i].req == before[i].req && |after[i].out| == |before[i].out| + 1
      ensures before[i].out <= after[i].out
    {
      StillOpen(s.st.table, later, batch, picks, batch[i]);
    }
  }

  /**
   * The heart of the matter: whether or not the cache is reused, a tick gives every row the
   * token its request would have been given alone, and leaves the whole batch in the cache.
   */
  lemma {:induction false} TickIsTransparent(s: Sys)
    requires Inv(s) && s.phase.Exec? && InRange(s.phase.batch, |s.st.table|)
    requires Executing(s).Done?
    ensures EachAlone(s, Executing(s).picks)
    ensures s.runner.Qwen? ==>
      Executing(s).cache == Some(Matrix(s.runner.pad, Rows(s.st.table, s.phase.batch)))
    ensures s.runner.Qwen? ==>
      Executing(s).columns == if s.phase.prefill then Width(Rows(s.st.table, s.phase.batch)) else 1
  {
    var rows := Rows(s.st.table, s.phase.batch);
    match s.runner
    case Mock =>
    case Qwen(model, pad) =>
      PrefillIsAlone(model, pad, rows);
      if !s.phase.prefill {
        CachedIsPrefill(model, pad, rows);
      }
  }

  lemma {:induction false} CommitInv(s: Sys)
    requires Inv(s) && s.phase.Exec?
    ensures InRange(s.phase.batch, |s.st.table|) && |s.served| == |s.st.table|
    ensures Inv(Ticking(s))
  {
    InFlight(s);
    if Executing(s).Done? {
      var picks, cache := Executing(s).picks, Executing(s).cache;
      TickIsTransparent(s);
      TickingIs(s);
      CommitQueued(s, picks, cache);
      CommitChannels(s, picks, cache);
      CommitFollowing(s, picks, cache);
      CommitPaced(s, picks, cache);
      CommitCoherent(s, picks, cache);
      assert Flying(Committing(s, picks, cache));
    } else {
      FailInv(s);
    }
  }

  lemma {:induction false} InFlight(s: Sys)
    requires Inv(s) && s.phase.Exec?
    ensures Shaped(s.st) && InRange(s.phase.batch, |s.st.table|)
    ensures s.phase.batch == s.st.running && s.phase.batch != [] && |s.served| == |s.st.table|
  {
    ShapedParts(s.st);
  }

  lemma {:induction false} CommitIsTick(s: Sys)
    requires Inv(s) && s.phase.Exec?
    ensures Shaped(s.st) && InRange(s.phase.batch, |s.st.table|)
    ensures s.phase.batch == s.st.running && s.phase.batch != [] && |s.served| == |s.st.table|
    ensures Apply(s, Commit) == Ticking(s)
  {
    hide Inv, Ticking, Submitting, Cancelling, Turning, Failing, Swapping;
    InFlight(s);
  }

  /** The end of a tick, read off entry by entry. */
  lemma {:induction false} TickingIs(s: Sys)
    requires s.phase.Exec? && Shaped(s.st) && InRange(s.phase.batch, |s.st.table|)
    requires s.phase.batch == s.st.running && |s.served| == |s.st.table|
    ensures Executing(s).Done? ==>
      Ticked(s.st.table, Ticking(s).st.table, s.phase.batch, Executing(s).picks)
    ensures Executing(s).Done? ==> Ticking(s).st == s.st.(table := Ticking(s).st.table)
  {
    ShapedParts(s.st);
    hide Executing;
    if Executing(s).Done? {
      CommitTicks(s.st, s.phase.batch, Executing(s).picks);
    }
  }

  /** Whatever happens, every invariant survives it. */
  lemma {:induction false} StepInv(s: Sys, e: Event)
    requires Inv(s)
    ensures Inv(Apply(s, e))
  {
    ShapedParts(s.st);
    match e
    case Submit(req, _) => SubmitInv(s, req);
    case Cancel(k) => if k < |s.st.table| { CancelInv(s, k); }
    case Turn => if s.phase.Ready? { TurnInv(s); }
    case Wake =>
    case Commit => if s.phase.Exec? { CommitInv(s); }
    case Raise => if s.phase.Exec? { FailInv(s); }
    case Kill => if s.phase.Exec? { FailInv(s); }
    case Swap(to) => if s.phase.Exec? || s.phase.Dead? || HoldsNobody(s) { SwapInv(s, to); }
  }

  /** The state after a list of events. */
  ghost function Run(s: Sys, events: seq<Event>): (r: Sys)
    requires Inv(s)
    ensures Inv(r)
  {
    if events == [] then s
    else
      var n := |events| - 1;
      var before := Run(s, events[..n]);
      StepInv(before, events[n]);
      Apply(before, events[n])
  }

  lemma {:induction false} RunOne(s: Sys, events: seq<Event>, e: Event)
    requires Inv(s)
    ensures Run(s, events + [e]) == Apply(Run(s, events), e)
  {
    hide Inv, Apply;
    assert (events + [e])[..|events|] == events;
  }

  lemma {:induction false} ReadySteps(s: Sys, req: Request)
    requires Inv(s) && s.phase.Ready?
    ensures Apply(s, Submit(req, true)) == Submitting(s, req) && Submitting(s, req).phase.Ready?
    ensures Apply(s, Turn) == Turning(s)
  {
  }

  lemma {:induction false} RunTwo(s: Sys, events: seq<Event>, e1: Event, e2: Event)
    requires Inv(s)
    ensures Inv(Apply(Run(s, events), e1))
    ensures Run(s, events + [e1, e2]) == Apply(Apply(Run(s, events), e1), e2)
  {
    hide Inv, Apply, Run;
    StepInv(Run(s, events), e1);
    RunOne(s, events, e1);
    RunOne(s, events + [e1], e2);
    assert events + [e1, e2] == events + [e1] + [e2];
  }

  lemma {:induction false} RunAfter(s: Sys, events: seq<Event>, more: seq<Event>)
    requires Inv(s)
    ensures Run(s, events + more) == Run(Run(s, events), more)
  {
    hide Inv, Apply, Run;
    if more == [] {
      RunNone(Run(s, events));
      assert events + more == events;
    } else {
      var n := |more| - 1;
      var earlier, last := more[..n], more[n];
      assert more == earlier + [last] && events + more == (events + earlier) + [last];
      RunAfter(s, events, earlier);
      RunOne(s, events + earlier, last);
      RunOne(Run(s, events), earlier, last);
    }
  }

  lemma {:induction false} RunNone(s: Sys)
    requires Inv(s)
    ensures Run(s, []) == s
  {
  }

  lemma {:induction false} RunFour(s: Sys, e1: Event, e2: Event, e3: Event, e4: Event)
    requires Inv(s)
    ensures Inv(Apply(s, e1)) && Inv(Apply(Apply(s, e1), e2)) && Inv(Apply(Apply(Apply(s, e1), e2), e3))
    ensures Run(s, [e1, e2, e3, e4]) == Apply(Apply(Apply(Apply(s, e1), e2), e3), e4)
  {
    hide Inv, Apply, Run;
    RunNone(s);
    RunTwo(s, [], e1, e2);
    RunTwo(s, [e1, e2], e3, e4);
    assert [] + [e1, e2] == [e1, e2];
    assert [e1, e2] + [e3, e4] == [e1, e2, e3, e4];
  }

  // ---- what never changes, and what only grows ----

  /** A request is fixed; its outputs and its channel only ever get longer. */
  ghost predicate Extends(q: Entry, later: Entry) {
    later.req == q.req && q.out <= later.out && q.log <= later.log
  }

  lemma {:induction false} RowExtends(q: Entry, pick: Option<int>)
    ensures Extends(q, RowResult(q, pick))
  {
  }

  lemma {:induction false} TickExtends(s: Sys, k: nat)
    requires s.phase.Exec? && Shaped(s.st) && InRange(s.phase.batch, |s.st.table|)
    requires s.phase.batch == s.st.running && |s.served| == |s.st.table|
    requires k < |s.st.table|
    ensures k < |Ticking(s).st.table| && Extends(s.st.table[k], Ticking(s).st.table[k])
    ensures Ticking(s).st.slots == s.st.slots && |Ticking(s).st.table| == |s.st.table|
    ensures Ticking(s).runner == s.runner && Ticking(s).phase == if Executing(s).Done? then Ready else Dead(true)
  {
    TickingIs(s);
    hide Executing, EndTick;
    if Executing(s).Done? && k in s.phase.batch {
      var i := IndexOf(s.phase.batch, k);
      RowExtends(s.st.table[k], Executing(s).picks[i]);
    }
  }

  lemma {:induction false} StepExtends(s: Sys, e: Event, k: nat)
    requires Inv(s) && k < |s.st.table|
    ensures k < |Apply(s, e).st.table| && Extends(s.st.table[k], Apply(s, e).st.table[k])
  {
    match e
    case Commit => if s.phase.Exec? { InFlight(s); TickExtends(s, k); }
    case Cancel(j) => if j < |s.st.table| { AbortShape(s.st, j, Cancelled); }
    case _ =>
  }

  /** What a freshly started server has become after a list of events. */
  ghost function Reach(slots: int, maxTokens: int, runner: Runner, events: seq<Event>): (s: Sys)
    ensures Inv(s)
  {
    StartInv(slots, maxTokens, runner);
    Run(Start(slots, maxTokens, runner), events)
  }

  /** The server after the first t events of a run. */
  ghost function At(s: Sys, events: seq<Event>, t: nat): (r: Sys)
    requires Inv(s) && t <= |events|
    ensures Inv(r)
  {
    Run(s, events[..t])
  }

  lemma {:induction false} AtNext(s: Sys, events: seq<Event>, t: nat)
    requires Inv(s) && t < |events|
    ensures Inv(At(s, events, t)) && At(s, events, t + 1) == Apply(At(s, events, t), events[t])
  {
    assert events[..t + 1] == events[..t] + [events[t]];
    RunOne(s, events[..t], events[t]);
  }

  lemma {:induction false} AtEnd(s: Sys, events: seq<Event>)
    requires Inv(s)
    ensures At(s, events, |events|) == Run(s, events)
  {
    assert events[..|events|] == events;
  }
}
