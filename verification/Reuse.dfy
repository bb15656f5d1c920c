/** When the cache of one tick serves the next, and when nothing is cached at all. */
module Reuse {
  import opened Sums
  import opened Requests
  import opened Padding
  import opened Admission
  import opened Effects
  import opened Protocol
  import opened Invariants

  // ---- between two ticks ----

  /** The loop takes no step of its own; clients do as they please. */
  ghost predicate NoTurn(events: seq<Event>) {
    forall i | 0 <= i < |events| :: events[i] != Turn
  }

  /** A batch has just run, and the next one has not been scheduled. */
  ghost predicate BetweenTicks(s: Sys, batch: seq<nat>) {
    s.phase == Ready && batch != [] && s.st.running == batch && s.members == batch
  }

  lemma {:induction false} CommitReturns(s: Sys)
    requires Inv(s) && s.phase.Exec? && Apply(s, Commit).phase.Ready?
    ensures BetweenTicks(Apply(s, Commit), s.phase.batch)
    ensures SameLimits(s, Apply(s, Commit))
  {
    hide Inv, Apply, Ticking;
    CommitIsTick(s);
    TickReturned(s);
  }

  ghost predicate SameLimits(s: Sys, later: Sys) {
    later.st.slots == s.st.slots && later.st.maxTokens == s.st.maxTokens
  }

  lemma {:induction false} TickReturned(s: Sys)
    requires s.phase.Exec? && Shaped(s.st) && InRange(s.phase.batch, |s.st.table|)
    requires s.phase.batch == s.st.running && s.phase.batch != [] && |s.served| == |s.st.table|
    requires Ticking(s).phase.Ready?
    ensures BetweenTicks(Ticking(s), s.phase.batch) && SameLimits(s, Ticking(s))
  {
    TickingIs(s);
    hide Executing, EndTick, Shaped;
  }

  lemma {:induction false} StaysBetween(s: Sys, e: Event, batch: seq<nat>)
    requires Inv(s) && BetweenTicks(s, batch) && e != Turn
    ensures BetweenTicks(Apply(s, e), batch) && SameLimits(s, Apply(s, e))
  {
    hide Queued, Channels, Flying, Following, Paced, Coherent;
    if e.Cancel? && e.id < |s.st.table| { AbortShape(s.st, e.id, Cancelled); }
  }

  lemma {:induction false} StaysBetweenAll(s: Sys, events: seq<Event>, batch: seq<nat>)
    requires Inv(s) && BetweenTicks(s, batch) && NoTurn(events)
    ensures BetweenTicks(Run(s, events), batch) && SameLimits(s, Run(s, events))
  {
    if events != [] {
      hide Inv, Apply, BetweenTicks;
      var n := |events| - 1;
      StaysBetweenAll(s, events[..n], batch);
      StaysBetween(Run(s, events[..n]), events[n], batch);
    }
  }

  // ---- the next batch ----

  /** Nobody can join these rows: nobody waits, or there is no slot for the head of the queue, or
      not enough of the token budget. */
  ghost predicate NobodyJoins(st: State, batch: seq<nat>)
    requires InRange(batch, |st.table|)
  {
    st.waiting == [] || |batch| + 1 > st.slots ||
    (InRange(batch + [st.waiting[0]], |st.table|) &&
     TokenSum(st.table, batch + [st.waiting[0]]) > st.maxTokens)
  }

  ghost predicate AllOpen(table: seq<Entry>, batch: seq<nat>) {
    forall k | k in batch && k < |table| :: !table[k].Finished()
  }

  /** A schedule returns the rows it found if and only if none has finished and nobody can join. */
  lemma {:induction false} SameBatchIff(st: State)
    requires Shaped(st) && st.running != []
    ensures InRange(st.running, |st.table|)
    ensures Schedule(st).running == st.running <==> AllOpen(st.table, st.running) && NobodyJoins(st, st.running)
  {
    hide Schedule, TokenSum, Fits;
    var n := ScheduleShape(st);
    ShapedParts(st);
    var live := Live(st.table, st.running);
    if AllOpen(st.table, st.running) {
      LiveIsAll(st.table, st.running);
      JoinsIff(st, n);
      if n > 0 { assert |live + st.waiting[..n]| > |st.running|; }
    } else {
      var k :| k in st.running && k < |st.table| && st.table[k].Finished();
      assert k !in st.waiting;
      assert k !in live + st.waiting[..n];
    }
  }

  lemma {:induction false} JoinsIff(st: State, n: nat)
    requires InRange(st.running, |st.table|) && InRange(st.waiting, |st.table|) && st.running != []
    requires n <= |st.waiting| && Fits(st, st.running, n)
    requires n < |st.waiting| ==> !Fits(st, st.running, n + 1)
    ensures n == 0 <==> NobodyJoins(st, st.running)
  {
    if st.waiting != [] {
      assert st.waiting[..1] == [st.waiting[0]];
      if n > 0 { FitsDownward(st, st.running, 1, n); }
    }
  }

  lemma {:induction false} NextTurn(s: Sys, batch: seq<nat>)
    requires Inv(s) && BetweenTicks(s, batch)
    ensures InRange(batch, |s.st.table|)
    ensures Apply(s, Turn).phase == Exec(batch, false) <==> AllOpen(s.st.table, batch) && NobodyJoins(s.st, batch)
    ensures Apply(s, Turn).phase.Exec? ==>
      (!Apply(s, Turn).phase.prefill <==> Apply(s, Turn).phase.batch == batch)
  {
    ShapedParts(s.st);
    SameBatchIff(s.st);
    hide Queued, Channels, Flying, Following, Paced, Coherent, Schedule, AllOpen, NobodyJoins;
  }

  /**
   * After a tick that came back, whatever the clients have done in between, the next batch reuses
   * its cache if and only if it has the same rows in the same order: so if and only if every row is
   * still unfinished and nobody can join. One row that finished, failed or was cancelled, or one
   * that joins, forces a prefill.
   */
  lemma {:induction false} CacheIsReusedIff(s: Sys, between: seq<Event>)
    requires Inv(s) && s.phase.Exec? && NoTurn(between)
    requires Run(s, [Commit]).phase.Ready?
    ensures var batch := s.phase.batch;
      var before, next := Run(s, [Commit] + between), Run(s, [Commit] + between + [Turn]);
      && InRange(batch, |before.st.table|)
      && (next.phase == Exec(batch, false) <==>
            && (forall k | k in batch && k < |before.st.table| :: !before.st.table[k].Finished())
            && NobodyJoins(before.st, batch))
      && (next.phase.Exec? ==> (!next.phase.prefill <==> next.phase.batch == batch))
  {
    hide Inv, Apply, Run, BetweenTicks, NobodyJoins;
    RunNone(s);
    RunOne(s, [], Commit);
    assert [] + [Commit] == [Commit];
    CommitReturns(s);
    RunAfter(s, [Commit], between);
    StaysBetweenAll(Run(s, [Commit]), between, s.phase.batch);
    RunOne(s, [Commit] + between, Turn);
    NextTurn(Run(s, [Commit] + between), s.phase.batch);
  }

  // ---- when nothing is cached ----

  /** A cache is held only while a batch runs or is about to be swept and scheduled again. */
  ghost predicate Lean(s: Sys) {
    && (s.runner.Mock? ==> s.cache == None)
    && (s.cache.Some? ==> s.phase.Exec? || (s.phase.Ready? && s.st.running != []))
  }

  lemma {:induction false} LeanStep(s: Sys, e: Event)
    requires Inv(s) && Lean(s)
    ensures Lean(Apply(s, e))
  {
    if e.Commit? && s.phase.Exec? {
      hide Inv, Apply, Ticking;
      CommitIsTick(s);
      LeanTick(s);
    } else {
      ShapedParts(s.st);
      hide Queued, Channels, Flying, Following, Paced, Coherent, Schedule;
    }
  }

  lemma {:induction false} LeanTick(s: Sys)
    requires s.phase.Exec? && Shaped(s.st) && InRange(s.phase.batch, |s.st.table|)
    requires s.phase.batch == s.st.running && s.phase.batch != [] && |s.served| == |s.st.table| && Lean(s)
    ensures Lean(Ticking(s))
  {
    TickingIs(s);
    hide EndTick, Shaped, ExecuteQwen;
  }

  lemma {:induction false} LeanRun(s: Sys, events: seq<Event>)
    requires Inv(s) && Lean(s)
    ensures Lean(Run(s, events))
  {
    if events != [] {
      hide Inv, Apply, Lean;
      LeanRun(s, events[..|events| - 1]);
      LeanStep(Run(s, events[..|events| - 1]), events[|events| - 1]);
    }
  }

  /** An idle server caches nothing: whenever the loop sleeps, has ended, or has nobody in its running
      set, the cache is gone. */
  lemma {:induction false} IdleHoldsNoCache(slots: int, maxTokens: int, runner: Runner, events: seq<Event>)
    ensures var s := Reach(slots, maxTokens, runner, events);
      s.phase.Asleep? || s.phase.Dead? || s.st.running == [] ==> s.cache == None
  {
    StartInv(slots, maxTokens, runner);
    LeanRun(Start(slots, maxTokens, runner), events);
    var s := Reach(slots, maxTokens, runner, events);
    if s.phase.Exec? { InFlight(s); }
  }
}
