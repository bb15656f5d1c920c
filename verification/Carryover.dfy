/** A request accepted under one runner and served by another: exactly when. */
module Carryover {
  import opened Sums
  import opened Requests
  import opened Padding
  import opened Admission
  import opened Effects
  import opened Protocol
  import opened Invariants
  import opened Progress
  import opened Finality

  /** Nobody in a queue has been served by a runner that is no longer installed. */
  ghost predicate Owned(s: Sys) {
    && |s.served| == |s.origin| == |s.st.table|
    && (forall k | k in s.st.waiting && k < |s.served| :: s.served[k] == s.origin[k])
    && (forall k | k in s.st.running && k < |s.served| ::
          s.served[k] == s.origin[k] || s.served[k] == s.runner)
  }

  /** The step replaces the runner, and leaves the queue to the new one. */
  ghost predicate HandsOver(s: Sys, e: Event) {
    e.Swap? && (s.phase.Dead? || HoldsNobody(s))
  }

  /** The step records a tick of which request k is a part. */
  ghost predicate Serves(s: Sys, e: Event, k: nat)
    requires Inv(s)
  {
    e.Commit? && InFlightRow(s, k) && (InFlight(s); ComesBack(s))
  }

  // ---- one step ----

  lemma {:induction false} OwnedStep(s: Sys, e: Event)
    requires Inv(s) && Owned(s)
    ensures Owned(Apply(s, e))
  {
    if e.Commit? && s.phase.Exec? {
      CommitIsTick(s);
      hide Inv, Apply, Ticking, Owned;
      OwnedTick(s);
    } else {
      OwnedQuietly(s, e);
    }
  }

  lemma {:induction false} OwnedTick(s: Sys)
    requires Owned(s) && s.phase.Exec? && Shaped(s.st) && InRange(s.phase.batch, |s.st.table|)
    requires s.phase.batch == s.st.running && |s.served| == |s.st.table|
    ensures Owned(Ticking(s))
  {
    hide Executing, EndTick;
    TickingIs(s);
    ShapedParts(s.st);
  }

  lemma {:induction false} OwnedQuietly(s: Sys, e: Event)
    requires Inv(s) && Owned(s) && !(e.Commit? && s.phase.Exec?)
    ensures Owned(Apply(s, e))
  {
    InvIsQueued(s);
    ShapedParts(s.st);
    hide Inv, Schedule, Shaped, Turning, Cancelling, Submitting;
    match e
    case Submit(req, _) => OwnedSubmit(s, req);
    case Cancel(j) => if j < |s.st.table| { OwnedCancel(s, j); }
    case Turn => if s.phase.Ready? { OwnedTurn(s); }
    case _ =>
  }

  /** A loop that is not running a tick and is handed over has nobody in its running queue. */
  lemma {:induction false} InvIsQueued(s: Sys)
    requires Inv(s)
    ensures Shaped(s.st) && (s.phase.Asleep? || s.phase.Dead? ==> s.st.running == [])
    ensures forall k | k in s.st.waiting :: k < |s.st.table| && !s.st.table[k].Finished()
  {
    hide Channels, Following, Paced, Coherent;
  }

  lemma {:induction false} OwnedSubmit(s: Sys, req: Request)
    requires Owned(s) && Shaped(s.st)
    ensures Owned(Submitting(s, req))
  {
    ShapedParts(s.st);
    hide Shaped;
  }

  lemma {:induction false} OwnedCancel(s: Sys, k: nat)
    requires Owned(s) && Shaped(s.st) && k < |s.st.table|
    ensures Owned(Cancelling(s, k))
  {
    AbortShape(s.st, k, Cancelled);
    hide Shaped, Abort;
  }

  lemma {:induction false} OwnedTurn(s: Sys)
    requires Owned(s) && Shaped(s.st)
    requires forall k | k in s.st.waiting :: k < |s.st.table| && !s.st.table[k].Finished()
    ensures Owned(Turning(s))
  {
    hide Shaped, Schedule, Live, Fits, Owned, Turning;
    ScheduleMembers(s.st);
    TurnMoves(s);
    OwnedMoves(s, Turning(s));
  }

  /** A turn only moves requests from the waiting queue to the running set. */
  lemma {:induction false} TurnMoves(s: Sys)
    requires Shaped(s.st)
    ensures var r := Turning(s);
      && r.st.table == s.st.table && r.runner == s.runner && r.origin == s.origin && r.served == s.served
      && (r.st == s.st || r.st == Schedule(s.st))
  {
    hide Shaped, Live, Fits, Admitted;
  }

  lemma {:induction false} OwnedMoves(s: Sys, r: Sys)
    requires Owned(s)
    requires r.st.table == s.st.table && r.runner == s.runner && r.origin == s.origin && r.served == s.served
    requires forall k | k in r.st.waiting :: k in s.st.waiting
    requires forall k | k in r.st.running :: k in s.st.running || k in s.st.waiting
    ensures Owned(r)
  {
  }

  ghost predicate InQueues(s: Sys, k: nat) {
    k in s.st.running || k in s.st.waiting
  }

  /** Nobody enters a queue but by arriving, and whoever is left to a new runner was waiting. */
  lemma {:induction false} QueuedStep(s: Sys, e: Event, k: nat)
    requires Inv(s) && k < |s.st.table| && InQueues(Apply(s, e), k)
    ensures InQueues(s, k)
    ensures Apply(s, e).runner != s.runner ==>
      HandsOver(s, e) && e.to == Apply(s, e).runner && k in s.st.waiting
  {
    ShapedParts(s.st);
    if e.Commit? && s.phase.Exec? {
      hide Inv, Apply, Ticking;
      CommitIsTick(s);
      TickKeepsQueues(s);
    } else {
      hide Channels, Following, Paced, Coherent, Schedule;
      match e
      case Cancel(j) => if j < |s.st.table| { AbortShape(s.st, j, Cancelled); }
      case Turn => if s.phase.Ready? { ScheduleMembers(s.st); }
      case _ =>
    }
  }

  lemma {:induction false} TickKeepsQueues(s: Sys)
    requires s.phase.Exec? && Shaped(s.st) && InRange(s.phase.batch, |s.st.table|)
    requires s.phase.batch == s.st.running && |s.served| == |s.st.table|
    ensures Ticking(s).runner == s.runner
    ensures forall k | InQueues(Ticking(s), k) :: InQueues(s, k)
  {
    hide Executing, EndTick, Ticked;
    TickingIs(s);
  }

  /** The history of request k: where it came from is fixed, and only a tick changes who serves it. */
  lemma {:induction false} HistoryStep(s: Sys, e: Event, k: nat)
    requires Inv(s) && |s.origin| == |s.st.table| && k < |s.st.table|
    ensures k < |Apply(s, e).origin| && Apply(s, e).origin[k] == s.origin[k]
    ensures k < |s.served| && k < |Apply(s, e).served|
    ensures Apply(s, e).served[k] == if Serves(s, e, k) then s.runner else s.served[k]
  {
    if e.Commit? && s.phase.Exec? {
      ComesBackIff(s);
      CommitIsTick(s);
      hide Inv, Executing, EndTick, ComesBack;
    } else {
      hide Channels, Flying, Paced, Coherent, Schedule;
      ShapedParts(s.st);
    }
  }

  lemma {:induction false} BornUnderItsRunner(s: Sys, e: Event, k: nat)
    requires Inv(s) && |s.origin| == |s.st.table| && |s.st.table| <= k < |Apply(s, e).st.table|
    ensures k < |Apply(s, e).origin| && k < |Apply(s, e).served|
    ensures Apply(s, e).origin[k] == Apply(s, e).served[k] == Apply(s, e).runner
  {
    TableGrows(s, e);
    hide Channels, Flying, Paced, Coherent;
  }

  // ---- over a run ----

  lemma {:induction false} OwnedRun(s: Sys, events: seq<Event>)
    requires Inv(s) && Owned(s)
    ensures Owned(Run(s, events))
  {
    if events != [] {
      hide Inv, Apply, Owned;
      OwnedRun(s, events[..|events| - 1]);
      OwnedStep(Run(s, events[..|events| - 1]), events[|events| - 1]);
    }
  }

  lemma {:induction false} AtPrefix(s: Sys, events: seq<Event>, n: nat, t: nat)
    requires Inv(s) && t <= n <= |events|
    ensures At(s, events[..n], t) == At(s, events, t)
  {
    assert events[..n][..t] == events[..t];
  }

  /** At step u, request k is waiting when its server is handed to a runner it did not come to. */
  ghost predicate LeftAt(s: Sys, events: seq<Event>, u: nat, k: nat)
    requires Inv(s) && u < |events|
  {
    var now := At(s, events, u);
    HandsOver(now, events[u]) && k in now.st.waiting && k < |now.origin| && events[u].to != now.origin[k]
  }

  /** At step t, a tick of which request k is a part comes back from this runner. */
  ghost predicate ServedAt(s: Sys, events: seq<Event>, t: nat, k: nat, r: Runner)
    requires Inv(s) && t < |events|
  {
    var now := At(s, events, t);
    now.runner == r && Serves(now, events[t], k)
  }

  lemma {:induction false} SamePrefix(s: Sys, events: seq<Event>, n: nat, u: nat, k: nat)
    requires Inv(s) && u < n <= |events|
    ensures LeftAt(s, events[..n], u, k) <==> LeftAt(s, events, u, k)
    ensures forall r :: ServedAt(s, events[..n], u, k, r) <==> ServedAt(s, events, u, k, r)
  {
    hide Inv, At, HandsOver, Serves;
    AtPrefix(s, events, n, u);
  }

  /** Whoever is queued under a runner it did not come to was left to it while waiting. */
  lemma {:induction false} WasLeft(s: Sys, events: seq<Event>, k: nat) returns (u: nat)
    requires Inv(s) && Owned(s) && s.st.table == []
    requires var r := Run(s, events);
      k < |r.st.table| && InQueues(r, k) && k < |r.origin| && r.runner != r.origin[k]
    ensures u < |events| && LeftAt(s, events, u, k) && events[u].Swap? && events[u].to == Run(s, events).runner
  {
    hide Inv, Apply, Owned, InQueues, HandsOver;
    RunNone(s);
    var n := |events| - 1;
    var before := Run(s, events[..n]);
    OwnedRun(s, events[..n]);
    OwnedIs(before);
    assert At(s, events, n) == before;
    if k < |before.st.table| {
      HistoryStep(before, events[n], k);
      QueuedStep(before, events[n], k);
      if Run(s, events).runner != before.runner {
        u := n;
        HandsOverIs(before, events[n]);
      } else {
        u := WasLeft(s, events[..n], k);
        SamePrefix(s, events, n, u, k);
      }
    } else {
      BornUnderItsRunner(before, events[n], k);
      assert false;
    }
  }

  lemma {:induction false} HandsOverIs(s: Sys, e: Event)
    requires HandsOver(s, e)
    ensures e.Swap?
  {
  }

  lemma {:induction false} OwnedIs(s: Sys)
    requires Owned(s)
    ensures |s.served| == |s.origin| == |s.st.table|
  {
  }

  lemma {:induction false} ServingIsRunning(s: Sys, e: Event, k: nat)
    requires Inv(s) && Serves(s, e, k)
    ensures InQueues(s, k) && k in s.st.running && k !in s.st.waiting
  {
    InFlight(s);
    ShapedParts(s.st);
  }

  /** Whoever was served by a runner it did not come to was left to it, and then took part in a tick. */
  lemma {:induction false} WasServed(s: Sys, events: seq<Event>, k: nat) returns (u: nat, t: nat)
    requires Inv(s) && Owned(s) && s.st.table == []
    requires var r := Run(s, events);
      k < |r.st.table| && k < |r.origin| && k < |r.served| && r.served[k] != r.origin[k]
    ensures u < t < |events| && LeftAt(s, events, u, k)
    ensures events[u].Swap? && ServedAt(s, events, t, k, events[u].to)
  {
    hide Inv, Apply, Owned, InQueues, HandsOver, LeftAt, Serves;
    RunNone(s);
    var n := |events| - 1;
    var before := Run(s, events[..n]);
    OwnedRun(s, events[..n]);
    OwnedIs(before);
    assert At(s, events, n) == before;
    if k < |before.st.table| {
      HistoryStep(before, events[n], k);
      if before.served[k] != before.origin[k] {
        u, t := WasServed(s, events[..n], k);
        SamePrefix(s, events, n, t, k);
      } else {
        ServingIsRunning(before, events[n], k);
        u := WasLeft(s, events[..n], k);
        t := n;
      }
      SamePrefix(s, events, n, u, k);
    } else {
      BornUnderItsRunner(before, events[n], k);
      assert false;
    }
  }

  // ---- the other direction ----

  /** Request k has been in a tick of the runner it has now, if it is in a queue at all. */
  ghost predicate Joined(s: Sys, k: nat) {
    k !in s.st.waiting && (k in s.st.running ==> k < |s.served| && s.served[k] == s.runner)
  }

  lemma {:induction false} JoinedStep(s: Sys, e: Event, k: nat)
    requires Inv(s) && |s.origin| == |s.st.table| && k < |s.st.table| && Joined(s, k)
    ensures Joined(Apply(s, e), k) && k < |s.served| && k < |Apply(s, e).served|
    ensures Apply(s, e).served[k] == s.served[k]
  {
    HistoryStep(s, e, k);
    if Serves(s, e, k) { ServingIsRunning(s, e, k); }
    hide Inv, Apply, Serves, HandsOver;
    if InQueues(Apply(s, e), k) {
      QueuedStep(s, e, k);
      NobodyGoesBack(s, e, k);
    }
  }

  lemma {:induction false} NobodyGoesBack(s: Sys, e: Event, k: nat)
    requires Inv(s) && k < |s.st.table| && k !in s.st.waiting
    ensures k !in Apply(s, e).st.waiting
  {
    if k in Apply(s, e).st.waiting { StillWaiting(s, e, k); }
  }

  lemma {:induction false} ServedJoins(s: Sys, e: Event, k: nat)
    requires Inv(s) && |s.origin| == |s.st.table| && k < |s.st.table| && Serves(s, e, k)
    ensures Joined(Apply(s, e), k) && k < |Apply(s, e).served| && Apply(s, e).served[k] == s.runner
  {
    HistoryStep(s, e, k);
    ServingIsRunning(s, e, k);
    NobodyGoesBack(s, e, k);
    CommitIsTick(s);
    hide Inv, Apply, Ticking, Serves;
    TickKeepsQueues(s);
  }

  lemma {:induction false} JoinedForever(s: Sys, events: seq<Event>, t: nat, m: nat, k: nat)
    requires Inv(s) && Owned(s) && t <= m <= |events|
    requires k < |At(s, events, t).st.table| && Joined(At(s, events, t), k)
    ensures k < |At(s, events, t).served| && k < |At(s, events, t).origin|
    ensures k < |At(s, events, m).served| && k < |At(s, events, m).st.table| && k < |At(s, events, m).origin|
    ensures At(s, events, m).served[k] == At(s, events, t).served[k] && Joined(At(s, events, m), k)
    ensures At(s, events, m).origin[k] == At(s, events, t).origin[k]
    decreases m - t
  {
    hide Inv, Apply, Run, Owned, Joined;
    OwnedRun(s, events[..m]);
    OwnedIs(At(s, events, m));
    if t < m {
      var before := At(s, events, m - 1);
      JoinedForever(s, events, t, m - 1, k);
      AtNext(s, events, m - 1);
      OwnedRun(s, events[..m - 1]);
      OwnedIs(before);
      JoinedStep(before, events[m - 1], k);
      HistoryStep(before, events[m - 1], k);
      TableGrows(before, events[m - 1]);
    }
  }

  /** Left waiting to a runner it did not come to, and later part of a tick of that runner. */
  ghost predicate CarriedOver(s: Sys, events: seq<Event>, k: nat)
    requires Inv(s)
  {
    exists u: nat, t: nat | u < t < |events| ::
      LeftAt(s, events, u, k) && events[u].Swap? && ServedAt(s, events, t, k, events[u].to)
  }

  lemma {:induction false} CarriedIsServed(s: Sys, events: seq<Event>, k: nat)
    requires Inv(s) && Owned(s) && CarriedOver(s, events, k)
    ensures var r := Run(s, events);
      k < |r.st.table| && k < |r.served| && k < |r.origin| && r.served[k] != r.origin[k]
  {
    hide Inv, Apply, Run, At, Owned, Joined, LeftAt, Serves;
    var u: nat, t: nat :| u < t < |events|
      && LeftAt(s, events, u, k) && events[u].Swap? && ServedAt(s, events, t, k, events[u].to);
    LeftIs(s, events, u, k);
    OwnedAt(s, events, u);
    OriginFixed(s, events, u, t, k);
    AtNext(s, events, t);
    ServedJoins(At(s, events, t), events[t], k);
    HistoryStep(At(s, events, t), events[t], k);
    TableGrows(At(s, events, t), events[t]);
    JoinedForever(s, events, t + 1, |events|, k);
    AtEnd(s, events);
  }

  lemma {:induction false} LeftIs(s: Sys, events: seq<Event>, u: nat, k: nat)
    requires Inv(s) && u < |events| && LeftAt(s, events, u, k)
    ensures k < |At(s, events, u).origin| && events[u].Swap? && events[u].to != At(s, events, u).origin[k]
  {
  }

  lemma {:induction false} OwnedAt(s: Sys, events: seq<Event>, t: nat)
    requires Inv(s) && Owned(s) && t <= |events|
    ensures var now := At(s, events, t); |now.served| == |now.origin| == |now.st.table|
  {
    OwnedRun(s, events[..t]);
    OwnedIs(At(s, events, t));
  }

  lemma {:induction false} OriginFixed(s: Sys, events: seq<Event>, t: nat, m: nat, k: nat)
    requires Inv(s) && Owned(s) && t <= m <= |events| && k < |At(s, events, t).origin|
    ensures k < |At(s, events, m).origin| && At(s, events, m).origin[k] == At(s, events, t).origin[k]
    ensures |At(s, events, m).origin| == |At(s, events, m).st.table|
    decreases m - t
  {
    hide Inv, Apply, Run, At, Owned;
    OwnedAt(s, events, m);
    if t < m {
      OriginFixed(s, events, t, m - 1, k);
      AtNext(s, events, m - 1);
      HistoryStep(At(s, events, m - 1), events[m - 1], k);
    }
  }

  lemma {:induction false} StartOwned(slots: int, maxTokens: int, runner: Runner)
    ensures Inv(Start(slots, maxTokens, runner)) && Owned(Start(slots, maxTokens, runner))
    ensures Start(slots, maxTokens, runner).st.table == []
  {
    StartInv(slots, maxTokens, runner);
  }

  /**
   * In every run, a request has been served by another runner than the one it was submitted
   * under if and only if it was still waiting when its server was handed over to another one,
   * and was part of a tick of that one later on. What it gets then is the new runner's answer to
   * the prompt ids and stop tokens of the old.
   */
  lemma {:induction false} ServedElsewhereIff(slots: int, maxTokens: int, runner: Runner, events: seq<Event>, k: nat)
    requires k < |Reach(slots, maxTokens, runner, events).st.table|
    ensures Inv(Start(slots, maxTokens, runner))
    ensures var s := Reach(slots, maxTokens, runner, events);
      && k < |s.served| && k < |s.origin|
      && (s.served[k] != s.origin[k] <==> CarriedOver(Start(slots, maxTokens, runner), events, k))
  {
    hide CarriedOver, Owned, Run;
    var start := Start(slots, maxTokens, runner);
    StartOwned(slots, maxTokens, runner);
    OwnedRun(start, events);
    OwnedIs(Reach(slots, maxTokens, runner, events));
    if CarriedOver(start, events, k) { CarriedIsServed(start, events, k); }
    if Reach(slots, maxTokens, runner, events).served[k] != Reach(slots, maxTokens, runner, events).origin[k] {
      var u, t := WasServed(start, events, k);
      CarriedBy(start, events, k, u, t);
    }
  }

  lemma {:induction false} CarriedBy(s: Sys, events: seq<Event>, k: nat, u: nat, t: nat)
    requires Inv(s) && u < t < |events| && LeftAt(s, events, u, k) && events[u].Swap?
    requires ServedAt(s, events, t, k, events[u].to)
    ensures CarriedOver(s, events, k)
  {
    hide LeftAt, ServedAt, Inv;
  }
}
