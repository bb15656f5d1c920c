/** What holds for every request, in every reachable state, up to the death of the loop. */
module Lifecycle {
  import opened Sums
  import opened Requests
  import opened Padding
  import opened Admission
  import opened Protocol
  import opened Invariants

  // ---- conservation and metrics ----

  function NumRunning(st: State): nat
    requires InRange(st.running, |st.table|)
  {
    |Live(st.table, st.running)|
  }

  function NumWaiting(st: State): nat { |st.waiting| }

  /** One for each unfinished request among these ids, zero for everyone else in the table. */
  function Open(table: seq<Entry>, ids: seq<nat>): (r: seq<int>)
    ensures |r| == |table|
  {
    seq(|table|, k requires 0 <= k < |table| => if k in ids && !table[k].Finished() then 1 else 0)
  }

  /** One for each unfinished request, zero for each finished one. */
  function Unfinished(table: seq<Entry>): (r: seq<int>)
    ensures |r| == |table|
  {
    seq(|table|, k requires 0 <= k < |table| => if table[k].Finished() then 0 else 1)
  }

  /**
   * Each gauge counts what it says, and not the other's: the unfinished requests of the table that
   * hold a slot, also between a cancellation and the sweep, and those that wait. Together that is
   * every unfinished request once.
   */
  lemma {:induction false} HonestMetrics(s: Sys)
    requires Inv(s)
    ensures InRange(s.st.running, |s.st.table|)
    ensures NumRunning(s.st) == Sum(Open(s.st.table, s.st.running))
    ensures NumWaiting(s.st) == Sum(Open(s.st.table, s.st.waiting))
    ensures NumRunning(s.st) + NumWaiting(s.st) == Sum(Unfinished(s.st.table))
    ensures NumRunning(s.st) <= s.st.slots || NumRunning(s.st) == 0
    ensures NumRunning(s.st) == 0 <==>
      forall k | k in s.st.running && k < |s.st.table| :: s.st.table[k].Finished()
    ensures NumWaiting(s.st) == 0 <==> s.st.waiting == []
  {
    GaugesApart(s.st);
    EachGauge(s);
    var live := Live(s.st.table, s.st.running);
    SumAdd(Unfinished(s.st.table), Open(s.st.table, s.st.running), Open(s.st.table, s.st.waiting)) by {
      forall k | 0 <= k < |s.st.table|
        ensures Unfinished(s.st.table)[k] == Open(s.st.table, s.st.running)[k] + Open(s.st.table, s.st.waiting)[k]
      {
        Conservation(s, k);
      }
    }
    if live != [] { assert live[0] in live; }
  }

  lemma {:induction false} EachGauge(s: Sys)
    requires Inv(s)
    ensures forall k | k in s.st.waiting :: k < |s.st.table| && !s.st.table[k].Finished()
    ensures InRange(s.st.running, |s.st.table|) && |Live(s.st.table, s.st.running)| <= |s.st.running|
    ensures |s.st.running| <= s.st.slots || s.st.running == []
  {
    ShapedParts(s.st);
  }

  lemma {:induction false} RunningGauge(st: State)
    requires Shaped(st)
    ensures InRange(st.running, |st.table|) && NumRunning(st) == Sum(Open(st.table, st.running))
  {
    ShapedParts(st);
    LiveIncreasing(st.table, st.running);
    CountOnce(st.table, Live(st.table, st.running), Open(st.table, st.running));
  }

  /** Neither gauge depends on more than the shape of its own queue. */
  lemma {:induction false} GaugesApart(st: State)
    requires Shaped(st) && forall k | k in st.waiting :: k < |st.table| && !st.table[k].Finished()
    ensures InRange(st.running, |st.table|)
    ensures NumRunning(st) == Sum(Open(st.table, st.running))
    ensures NumWaiting(st) == Sum(Open(st.table, st.waiting))
  {
    ShapedParts(st);
    RunningGauge(st);
    CountOnce(st.table, st.waiting, Open(st.table, st.waiting));
  }

  lemma {:induction false} CountOnce(table: seq<Entry>, ids: seq<nat>, marks: seq<int>)
    requires Increasing(ids) && InRange(ids, |table|) && |marks| == |table|
    requires forall k | 0 <= k < |table| :: marks[k] == if k in ids then 1 else 0
    ensures |ids| == Sum(marks)
  {
    var ones := seq(|table|, _ => 1);
    SumPick(ones, ids);
    SumConstant(Pick(ones, ids), 1);
    assert Masked(ones, ids) == marks;
  }

  /** Each unfinished request is in exactly one of the queues, exactly once; those waiting have
      no output; and whoever holds a slot arrived before everyone who waits. */
  lemma {:induction false} Conservation(s: Sys, k: nat)
    requires Inv(s) && k < |s.st.table|
    ensures !s.st.table[k].Finished() ==> (k in s.st.running) != (k in s.st.waiting)
    ensures multiset(s.st.running + s.st.waiting)[k] <= 1
    ensures k in s.st.waiting ==> !s.st.table[k].Finished() && s.st.table[k].out == []
    ensures forall j | j in s.st.running && k in s.st.waiting :: j < k
  {
    ShapedParts(s.st);
    AtMostOnce(s.st.running + s.st.waiting, k);
  }

  lemma {:induction false} AtMostOnce(ids: seq<nat>, k: nat)
    requires Increasing(ids)
    ensures multiset(ids)[k] <= 1
  {
    if ids != [] {
      var n := |ids| - 1;
      AtMostOnce(ids[..n], k);
      assert ids == ids[..n] + [ids[n]];
      if k == ids[n] { assert k !in ids[..n]; }
    }
  }

  // ---- one request ----

  /**
   * What a client can read off its own request in any reachable state: the finish reason is
   * decided by the outputs and the limit, the channel carries exactly the outputs, a sentinel is
   * there if and only if the request is finished, and at most one token follows the first one.
   */
  lemma {:induction false} EveryRequestIsTold(slots: int, maxTokens: int, runner: Runner, events: seq<Event>, k: nat)
    requires k < |Reach(slots, maxTokens, runner, events).st.table|
    ensures var q := Reach(slots, maxTokens, runner, events).st.table[k];
      && Honest(q)
      && |q.out| <= (if q.req.maxNew < 0 then 0 else q.req.maxNew)
      && (q.reason !in {Stop, Length} <==> |q.out| < q.req.maxNew && NoEos(q.out, q.req.eos))
      && TokensOf(q.log) == q.out
      && (End in q.log <==> q.Finished())
      && (q.Finished() ==> exists n :: EndsAt(q.log, n))
  {
    var s := Reach(slots, maxTokens, runner, events);
    assert Told(s.st.table[k], k in s.gone);
    hide Inv, Reach;
    ReasonFromOutputs(s.st.table[k]);
    ChannelCarriesOutputs(s.st.table[k], k in s.gone);
  }

  lemma {:induction false} GoneStep(s: Sys, e: Event, k: nat)
    requires Inv(s)
    ensures k in Apply(s, e).gone
      <==> k in s.gone || (e == Cancel(k) && k < |s.st.table| && !s.st.table[k].Finished())
  {
    hide Queued, Channels, Flying, Following, Paced, Coherent, Executing, Schedule;
    ShapedParts(s.st);
  }

  ghost predicate CancelledAt(s: Sys, events: seq<Event>, t: nat, k: nat)
    requires Inv(s) && t < |events|
  {
    var now := At(s, events, t);
    events[t] == Cancel(k) && k < |now.st.table| && !now.st.table[k].Finished()
  }

  /** `gone` is what its name says: a client has cancelled the request while it was unfinished. The
      cancellation that every handler ends with, long after, does not count. */
  lemma {:induction false} GoneIff(s: Sys, events: seq<Event>, k: nat)
    requires Inv(s) && k !in s.gone
    ensures k in Run(s, events).gone <==> exists t | 0 <= t < |events| :: CancelledAt(s, events, t, k)
  {
    hide Inv, Apply;
    if events != [] {
      var n := |events| - 1;
      forall t | 0 <= t < n
        ensures CancelledAt(s, events[..n], t, k) <==> CancelledAt(s, events, t, k)
      {
        assert events[..n][..t] == events[..t];
      }
      GoneIff(s, events[..n], k);
      assert At(s, events, n) == Run(s, events[..n]);
      var now := Run(s, events[..n]);
      assert CancelledAt(s, events, n, k) <==>
        (events[n] == Cancel(k) && k < |now.st.table| && !now.st.table[k].Finished());
      if exists t | 0 <= t < n :: CancelledAt(s, events[..n], t, k) {
        var t :| 0 <= t < n && CancelledAt(s, events[..n], t, k);
        assert CancelledAt(s, events, t, k);
      }
      GoneStep(Run(s, events[..n]), events[n], k);
    }
  }

  /** A request that its client has not given up gets each output once, in order, and one sentinel. */
  lemma {:induction false} UncancelledChannel(
      slots: int, maxTokens: int, runner: Runner, events: seq<Event>, k: nat)
    requires k !in Reach(slots, maxTokens, runner, events).gone
    requires k < |Reach(slots, maxTokens, runner, events).st.table|
    ensures var q := Reach(slots, maxTokens, runner, events).st.table[k];
      q.log == Tokens(q.out) + (if q.Finished() then [End] else [])
  {
    var s := Reach(slots, maxTokens, runner, events);
    assert Told(s.st.table[k], k in s.gone);
  }

  // ---- the death of the loop, and its replacement ----

  /**
   * A tick that raises, or is cancelled, strands nobody: both queues are empty, whoever was unfinished reports
   * "error", and every request in the table has a sentinel in its channel.
   */
  lemma {:induction false} RaiseStrandsNobody(s: Sys, e: Event, k: nat)
    requires Inv(s) && s.phase.Exec? && k < |s.st.table| && e in {Raise, Kill}
    ensures var r := Apply(s, e);
      && r.phase == Dead(true) && r.st.running == [] && r.st.waiting == []
      && |r.st.table| == |s.st.table|
      && r.st.table[k].Finished() && End in r.st.table[k].log
      && r.st.table[k].reason == (if s.st.table[k].Finished() then s.st.table[k].reason else Error)
      && r.st.table[k].out == s.st.table[k].out
  {
    FailInv(s);
    var r := Apply(s, e);
    assert Told(r.st.table[k], k in s.gone);
    hide Inv;
    ChannelCarriesOutputs(r.st.table[k], k in s.gone);
  }

  /** Every submission goes through the check that refuses work once the loop is dead. */
  ghost predicate AllChecked(events: seq<Event>) {
    forall i | 0 <= i < |events| :: events[i].Submit? ==> events[i].checked
  }

  lemma {:induction false} CheckedIsNeverLate(s: Sys, events: seq<Event>)
    requires Inv(s) && AllChecked(events) && s.late == {}
    ensures Run(s, events).late == {}
  {
    hide Inv, Apply;
    if events != [] {
      var n := |events| - 1;
      CheckedIsNeverLate(s, events[..n]);
      NeverLateStep(Run(s, events[..n]), events[n]);
    }
  }

  lemma {:induction false} NeverLateStep(s: Sys, e: Event)
    requires Inv(s) && s.late == {} && (e.Submit? ==> e.checked)
    ensures Apply(s, e).late == {}
  {
  }

  lemma {:induction false} WaitingIsUnfinished(s: Sys)
    requires Inv(s)
    ensures s.st.waiting != [] ==> exists k :: 0 <= k < |s.st.table| && !s.st.table[k].Finished()
  {
    if s.st.waiting != [] {
      assert s.st.waiting[0] in s.st.waiting;
    }
  }

  /**
   * Behind a loop that died on a tick, no request that went through the dead-loop check is ever
   * left unfinished, whatever happened before and whatever happens after.
   */
  lemma {:induction false} DeadLoopOwesNothing(slots: int, maxTokens: int, runner: Runner, events: seq<Event>)
    requires AllChecked(events)
    requires Reach(slots, maxTokens, runner, events).phase == Dead(true)
    ensures var s := Reach(slots, maxTokens, runner, events);
      && s.st.running == [] && s.st.waiting == []
      && forall k | 0 <= k < |s.st.table| :: s.st.table[k].Finished() && End in s.st.table[k].log
  {
    StartInv(slots, maxTokens, runner);
    CheckedIsNeverLate(Start(slots, maxTokens, runner), events);
    var s := Reach(slots, maxTokens, runner, events);
    forall k | 0 <= k < |s.st.table|
      ensures s.st.table[k].Finished() && End in s.st.table[k].log
    {
      assert Told(s.st.table[k], k in s.gone);
      ChannelCarriesOutputs(s.st.table[k], k in s.gone);
    }
    WaitingIsUnfinished(s);
  }

  /**
   * Replacing the loop loses no request. Cancelled in the middle of a tick, the old loop fails
   * everything in flight with a sentinel; cancelled in its idle sleep or before its first step, or
   * dead already, it leaves the table and the queue exactly as they are for the new one. Either way
   * no request ever gets outputs from two runners, and the new loop starts with an empty cache and
   * prefills its first batch.
   */
  lemma {:induction false} SwapLosesNobody(s: Sys, to: Runner)
    requires Inv(s) && (s.phase.Exec? || s.phase.Dead? || s.phase.Asleep? || (s.phase.Ready? && s.st.running == []))
    ensures var r := Apply(s, Swap(to));
      && Inv(r) && Shaped(r.st) && r.phase == Ready && r.cache == None && r.runner == to
      && |r.st.table| == |s.st.table|
      && (s.phase.Exec? ==> r.st.running == [] && r.st.waiting == [])
      && (s.phase.Exec? ==> forall k | 0 <= k < |r.st.table| :: r.st.table[k].Finished())
      && (forall k | 0 <= k < |r.st.table| && r.st.table[k].Finished() :: End in r.st.table[k].log)
      && (!s.phase.Exec? ==> r.st == s.st)
      && (forall k | 0 <= k < |r.st.table| && !r.st.table[k].Finished() :: r.st.table[k].out == [])
      && (Turning(r).phase.Exec? ==> Turning(r).phase.prefill)
  {
    hide Inv, Apply, Turning, Shaped;
    var r := Apply(s, Swap(to));
    StepInv(s, Swap(to));
    SwapShape(s, to);
    FirstBatchPrefills(r);
    forall k | 0 <= k < |r.st.table| && r.st.table[k].Finished() ensures End in r.st.table[k].log {
      FinishedHasSentinel(r, k);
    }
  }

  lemma {:induction false} FinishedHasSentinel(s: Sys, k: nat)
    requires Inv(s) && k < |s.st.table| && s.st.table[k].Finished()
    ensures End in s.st.table[k].log
  {
    assert Told(s.st.table[k], k in s.gone);
    hide Inv;
    ChannelCarriesOutputs(s.st.table[k], k in s.gone);
  }

  lemma {:induction false} SwapShape(s: Sys, to: Runner)
    requires Inv(s) && (s.phase.Exec? || s.phase.Dead? || s.phase.Asleep? || (s.phase.Ready? && s.st.running == []))
    ensures var r := Apply(s, Swap(to));
      && r.phase == Ready && r.cache == None && r.runner == to && r.members == [] && Shaped(r.st)
      && |r.st.table| == |s.st.table|
      && (s.phase.Exec? ==> r.st.running == [] && r.st.waiting == [])
      && (s.phase.Exec? ==> forall k | 0 <= k < |r.st.table| :: r.st.table[k].Finished())
      && (!s.phase.Exec? ==> r.st == s.st)
      && (forall k | 0 <= k < |r.st.table| && !r.st.table[k].Finished() :: r.st.table[k].out == [])
  {
    hide Channels, Following, Paced, Coherent;
  }

  lemma {:induction false} FirstBatchPrefills(s: Sys)
    requires Shaped(s.st) && s.phase.Ready? && s.members == []
    ensures Turning(s).phase.Exec? ==> Turning(s).phase.prefill
  {
    hide Schedule;
  }

  /** A cancellation in the idle sleep, or before the first step, does not fail anyone: this is the
      one death that can leave requests in the queue. */
  lemma {:induction false} KilledAsleepIff(s: Sys)
    requires Inv(s) && (s.phase.Asleep? || (s.phase.Ready? && s.st.running == []))
    ensures var r := Apply(s, Kill);
      && r.phase == Dead(false) && r.st == s.st
      && ((exists k :: 0 <= k < |r.st.table| && !r.st.table[k].Finished()) <==> s.st.waiting != [])
  {
    WaitingIsUnfinished(s);
  }
}
