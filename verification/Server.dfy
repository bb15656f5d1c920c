/** The server: one scheduler, one loop, one runner, stepped in place and proved equal to the protocol. */
module Server {
  import opened Sums
  import opened Requests
  import opened Padding
  import A = Admission
  import opened Protocol
  import opened Invariants
  import opened Batching
  import opened Runners

  ghost predicate Within(part: seq<Sequence>, batch: seq<Sequence>) {
    forall i | 0 <= i < |part| :: exists j :: 0 <= j < |batch| && batch[j] == part[i]
  }

  /** Rows without a token, and the other rows with theirs. */
  method Split(batch: seq<Sequence>, picks: seq<Option<int>>)
    returns (casualties: seq<Sequence>, survivors: seq<Sequence>, tokens: seq<int>)
    requires |batch| == |picks|
    ensures Ids(casualties) == A.Casualties(Ids(batch), picks)
    ensures Ids(survivors) == A.Survivors(Ids(batch), picks) && tokens == A.Drawn(picks)
    ensures Within(casualties, batch) && Within(survivors, batch)
  {
    ghost var ids := Ids(batch);
    casualties, survivors, tokens := [], [], [];
    var i := 0;
    while i < |batch|
      invariant 0 <= i <= |batch|
      invariant Ids(casualties) == A.Casualties(ids[..i], picks[..i])
      invariant Ids(survivors) == A.Survivors(ids[..i], picks[..i]) && tokens == A.Drawn(picks[..i])
      invariant Within(casualties, batch) && Within(survivors, batch)
    {
      assert ids[..i + 1][..i] == ids[..i] && picks[..i + 1][..i] == picks[..i];
      match picks[i] {
        case None =>
          IdsSnoc(casualties, batch[i]);
          casualties := casualties + [batch[i]];
        case Some(t) =>
          IdsSnoc(survivors, batch[i]);
          survivors, tokens := survivors + [batch[i]], tokens + [t];
      }
      i := i + 1;
    }
    assert ids[..i] == ids && picks[..i] == picks;
  }

  lemma {:induction false} AbortOneMore(st: A.State, ids: seq<nat>, i: nat)
    requires InRange(ids, |st.table|) && i < |ids|
    ensures A.AbortEach(st, ids[..i + 1]) == A.Abort(A.AbortEach(st, ids[..i]), ids[i], Error)
  {
    assert ids[..i + 1][..i] == ids[..i];
  }

  lemma {:induction false} AbortNone(st: A.State)
    ensures A.AbortEach(st, []) == st
  {
  }

  /** Drop each of these rows with an error. */
  method AbortAll(scheduler: Scheduler, casualties: seq<Sequence>)
    requires scheduler.Valid() && scheduler.Known(casualties)
    modifies scheduler`waiting, casualties
    ensures scheduler.Valid() && InRange(Ids(casualties), |old(scheduler.View()).table|)
    ensures scheduler.View() == A.AbortEach(old(scheduler.View()), Ids(casualties))
  {
    ghost var was, ids := scheduler.View(), Ids(casualties);
    hide A.Shaped, A.AbortEach, Views, A.Remove;
    AbortNone(was);
    var i := 0;
    while i < |casualties|
      invariant 0 <= i <= |casualties| && scheduler.Valid() && scheduler.Known(casualties)
      invariant scheduler.View() == A.AbortEach(was, ids[..i])
    {
      AbortOneMore(was, ids, i);
      scheduler.Abort(casualties[i], Error);
      i := i + 1;
    }
    assert ids[..i] == ids;
  }

  /** The end of a tick: abort the rows that failed, record one token for each of the others. */
  method Finish(scheduler: Scheduler, batch: seq<Sequence>, picks: seq<Option<int>>)
    requires scheduler.Valid() && scheduler.Known(batch) && |batch| == |picks|
    modifies scheduler`waiting, batch
    ensures scheduler.Valid() && InRange(Ids(batch), |old(scheduler.View()).table|)
    ensures scheduler.View() == A.EndTick(old(scheduler.View()), Ids(batch), picks)
  {
    var casualties, survivors, tokens := Split(batch, picks);
    KnownPart(scheduler, batch, casualties);
    KnownPart(scheduler, batch, survivors);
    EndTickIs(scheduler.View(), Ids(batch), picks);
    hide A.Shaped, A.Casualties, A.Survivors, A.Drawn, A.AbortEach, A.Postprocess, A.EndTick, Views, InRange, Ids;
    AbortAll(scheduler, casualties);
    var finished := scheduler.Postprocess(survivors, tokens);
  }

  lemma {:induction false} EndTickIs(st: A.State, batch: seq<nat>, picks: seq<Option<int>>)
    requires InRange(batch, |st.table|) && |batch| == |picks|
    ensures InRange(A.Casualties(batch, picks), |st.table|) && InRange(A.Survivors(batch, picks), |st.table|)
    ensures A.EndTick(st, batch, picks)
      == A.Postprocess(A.AbortEach(st, A.Casualties(batch, picks)), A.Survivors(batch, picks), A.Drawn(picks))
  {
    A.InRangeOf(A.Casualties(batch, picks), batch, |st.table|);
    A.InRangeOf(A.Survivors(batch, picks), batch, |st.table|);
  }

  lemma {:induction false} KnownPart(scheduler: Scheduler, batch: seq<Sequence>, part: seq<Sequence>)
    requires scheduler.Known(batch) && Within(part, batch)
    ensures scheduler.Known(part) && InRange(Ids(batch), |scheduler.arrivals|)
  {
  }

  class Server {
    const scheduler: Scheduler
    // The mock when null.
    var runner: QwenRunner?
    var members: seq<nat>
    var phase: Phase
    // The batch handed to the worker thread.
    var batch: seq<Sequence>
    // Sequence ids are drawn from a counter.
    var nextId: nat

    ghost var gone: set<nat>
    ghost var late: set<nat>
    ghost var origin: seq<Runner>
    ghost var served: seq<Runner>

    constructor (maxBatchSize: int, maxBatchTokens: int)
      ensures Valid() && fresh(scheduler) && scheduler.arrivals == [] && runner == null
      ensures View() == Start(maxBatchSize, maxBatchTokens, Mock)
    {
      scheduler := new Scheduler(maxBatchSize, maxBatchTokens);
      runner, members, phase, batch, nextId := null, [], Ready, [], 0;
      gone, late, origin, served := {}, {}, [], [];
      new;
      hide *;
      Begun(maxBatchSize, maxBatchTokens);
    }

    lemma {:induction false} Begun(maxBatchSize: int, maxBatchTokens: int)
      requires scheduler.Valid() && scheduler.arrivals == [] && nextId == 0
      requires scheduler.View() == A.State([], [], [], maxBatchSize, maxBatchTokens)
      requires runner == null && members == [] && phase == Ready
      requires gone == late == {} && origin == served == []
      ensures Valid() && View() == Start(maxBatchSize, maxBatchTokens, Mock)
    {
      hide Inv, Views, Scheduler.View, Scheduler.Valid;
      StartInv(maxBatchSize, maxBatchTokens, Mock);
    }

    function RunnerView(): Runner
      reads this`runner
    {
      if runner == null then Mock else Qwen(runner.model, runner.padId)
    }

    /** The cache the loop can still reach: none once it has ended. */
    function CacheView(): Option<Cache>
      reads this`runner, this`phase, runner
    {
      if runner == null || phase.Dead? then None else runner.cache
    }

    ghost function View(): Sys
      reads this, scheduler, scheduler.arrivals, runner
    {
      Sys(scheduler.View(), members, phase, CacheView(), RunnerView(), gone, late, origin, served)
    }

    /** The parts fit together; nothing is said about the protocol. */
    ghost predicate Sound()
      reads this, scheduler, scheduler.arrivals
    {
      && scheduler.Valid() && nextId == |scheduler.arrivals| == |served|
      && (phase.Exec? ==> Ids(batch) == phase.batch && scheduler.Known(batch) && batch != [])
    }

    ghost predicate Valid()
      reads this, scheduler, scheduler.arrivals, runner
    {
      Sound() && Inv(View())
    }

    /** A request arrives. `checked`: its handler refuses once the loop is dead. */
    method Submit(req: Request, checked: bool) returns (s: Sequence?)
      requires Valid()
      modifies this`late, this`origin, this`served, this`nextId, scheduler`waiting, scheduler`arrivals
      ensures Valid() && View() == Apply(old(View()), Event.Submit(req, checked))
      ensures s == null <==> checked && phase.Dead?
      ensures s != null ==> fresh(s) && scheduler.arrivals == old(scheduler.arrivals) + [s] && s.req == req
      ensures s == null ==> scheduler.arrivals == old(scheduler.arrivals)
    {
      StepInv(View(), Event.Submit(req, checked));
      if checked && phase.Dead? {
        return null;
      }
      hide Inv, Sound, Submitting;
      s := Enqueue(req);
    }

    method Enqueue(req: Request) returns (s: Sequence)
      requires Sound()
      modifies this`late, this`origin, this`served, this`nextId, scheduler`waiting, scheduler`arrivals
      ensures Sound() && View() == Submitting(old(View()), req)
      ensures fresh(s) && scheduler.arrivals == old(scheduler.arrivals) + [s] && s.req == req
    {
      hide A.Shaped, Views, A.Add;
      AddedLength(View().st, req);
      s := new Sequence(nextId, req);
      scheduler.Add(s);
      Register();
    }

    /** The arrival is written into the history, and the counter moves on. */
    method Register()
      requires scheduler.Valid() && |scheduler.arrivals| == nextId + 1 && |served| == nextId
      requires phase.Exec? ==> Ids(batch) == phase.batch && scheduler.Known(batch) && batch != []
      modifies this`late, this`origin, this`served, this`nextId
      ensures Sound()
      ensures View() == old(View()).(
        late := if phase.Dead? then old(late) + {old(nextId)} else old(late),
        origin := old(origin) + [RunnerView()], served := old(served) + [RunnerView()])
    {
      hide A.Shaped, Views, Scheduler.Valid, Scheduler.View, Scheduler.Known, Ids;
      if phase.Dead? { late := late + {nextId}; }
      origin, served := origin + [RunnerView()], served + [RunnerView()];
      nextId := nextId + 1;
    }

    /** A client goes away. */
    method Cancel(s: Sequence)
      requires Valid() && s.id < |scheduler.arrivals| && scheduler.arrivals[s.id] == s
      modifies this`gone, scheduler`waiting, s
      ensures Valid() && View() == Apply(old(View()), Event.Cancel(s.id))
    {
      StepInv(View(), Event.Cancel(s.id));
      hide Inv, Sound, Cancelling;
      Abandon(s);
    }

    method Abandon(s: Sequence)
      requires Sound() && s.id < |scheduler.arrivals| && scheduler.arrivals[s.id] == s
      modifies this`gone, scheduler`waiting, s
      ensures Sound() && s.id < |old(View()).st.table| && View() == Cancelling(old(View()), s.id)
    {
      hide A.Shaped, Views;
      if !s.IsFinished() { gone := gone + {s.id}; }
      scheduler.Abort(s, Cancelled);
    }

    /** One pass of the loop, from its test for work to the next suspension. */
    method Turn()
      requires Valid() && phase.Ready?
      modifies this`phase, this`members, this`batch, scheduler`running, scheduler`waiting, runner
      ensures Valid() && View() == Apply(old(View()), Event.Turn)
    {
      StepInv(View(), Event.Turn);
      hide Inv, Sound, Turning;
      Pass();
    }

    method Pass()
      requires Sound() && phase.Ready?
      modifies this`phase, this`members, this`batch, scheduler`running, scheduler`waiting, runner
      ensures Sound() && A.Shaped(old(View()).st) && View() == Turning(old(View()))
    {
      hide A.Shaped, A.Schedule, Views, Ids, Scheduler.Known, InRange;
      if !scheduler.HasWork() {
        phase := Asleep;
        return;
      }
      var scheduled := scheduler.Schedule();
      if scheduled == [] {
        members := [];
        if runner != null { runner.Reset(); }
        return;
      }
      var current := Ids(scheduled);
      phase, batch := Exec(current, current != members), scheduled;
    }

    method Wake()
      requires Valid() && phase.Asleep?
      modifies this`phase
      ensures Valid() && View() == Apply(old(View()), Event.Wake)
    {
      hide Inv, Sound;
      StepInv(View(), Event.Wake);
      MoveTo(Ready);
    }

    method MoveTo(next: Phase)
      requires Sound() && !next.Exec? && !phase.Dead?
      modifies this`phase
      ensures Sound()
      ensures View() == old(View()).(phase := next, cache := if next.Dead? then None else old(CacheView()))
    {
      hide A.Shaped, Views;
      phase := next;
    }

    /** Does memory run out while a row of this batch is sampled? The mock samples nothing. */
    predicate RunsOut(exhausted: Option<nat>)
      requires phase.Exec?
      reads this`runner, this`phase
    {
      runner != null && exhausted.Some? && exhausted.value < |phase.batch|
    }

    /** Run the batch on whichever runner is installed. */
    method RunBatch(exhausted: Option<nat>) returns (done: Executed)
      requires Sound() && phase.Exec?
      modifies runner
      ensures Sound() && InRange(phase.batch, |old(View()).st.table|)
      ensures done == if RunsOut(exhausted) then Raised else Executing(old(View()))
      ensures View() == old(View()).(cache := CacheView())
      ensures done.Done? ==> CacheView() == done.cache
    {
      BatchRows();
      hide A.Shaped, Views, ExecuteQwen, Rows;
      if runner == null {
        var picks := MockExecute(batch);
        done := Done(picks, None, 0);
      } else {
        done := RunQwen(runner, exhausted);
      }
    }

    method RunQwen(q: QwenRunner, exhausted: Option<nat>) returns (done: Executed)
      requires Sound() && phase.Exec? && runner == q
      modifies q
      ensures Sound() && scheduler.View() == old(scheduler.View())
      ensures done == if RunsOut(exhausted) then Raised
        else ExecuteQwen(q.model, q.padId, old(q.cache), phase.prefill, old(Views(batch)))
      ensures done.Done? ==> q.cache == done.cache
    {
      hide ExecuteQwen;
      done := q.Execute(batch, phase.prefill, exhausted);
    }

    lemma {:induction false} BatchRows()
      requires Sound() && phase.Exec?
      ensures InRange(phase.batch, |scheduler.View().table|)
      ensures Rows(scheduler.View().table, phase.batch) == Views(batch)
    {
    }

    /** Fail everything in flight and end the loop. */
    method GiveUp()
      requires Sound()
      modifies this`phase, scheduler`waiting, scheduler`running, scheduler.arrivals
      ensures Sound() && View() == Failing(old(View()))
    {
      hide A.Shaped, Views, A.FailAll;
      FailingQueues();
      var failed := scheduler.FailAll();
      phase := Dead(true);
    }

    lemma {:induction false} FailingQueues()
      requires Sound()
      ensures Within(scheduler.running, scheduler.arrivals) && Within(scheduler.waiting, scheduler.arrivals)
    {
    }

    lemma {:induction false} BatchKnown()
      requires Sound() && phase.Exec?
      ensures Within(batch, scheduler.arrivals)
      ensures |scheduler.View().table| == |served| && InRange(phase.batch, |served|) && phase.batch == Ids(batch)
    {
    }

    /** Record a tick that came back. */
    method Record(picks: seq<Option<int>>)
      requires Sound() && phase.Exec? && |picks| == |phase.batch|
      requires InRange(phase.batch, |View().st.table|) && |View().served| == |View().st.table|
      modifies this`phase, this`members, this`served, scheduler`waiting, scheduler.arrivals
      ensures Sound() && View() == Committing(old(View()), picks, old(CacheView()))
    {
      CommittingIs(View(), picks, CacheView());
      hide A.EndTick, InRange, Serving, Committing, Sound;
      FinishBatch(picks);
      Advance();
    }

    method FinishBatch(picks: seq<Option<int>>)
      requires Sound() && phase.Exec? && |picks| == |phase.batch|
      requires InRange(phase.batch, |scheduler.View().table|)
      modifies scheduler`waiting, scheduler.arrivals
      ensures Sound()
      ensures scheduler.View() == A.EndTick(old(scheduler.View()), phase.batch, picks)
    {
      BatchKnown();
      hide A.Shaped, Views, A.EndTick, InRange;
      Finish(scheduler, batch, picks);
    }

    /** The batch that has run becomes the one the cache describes. */
    method Advance()
      requires Sound() && phase.Exec?
      modifies this`phase, this`members, this`served
      ensures Sound() && View() == old(View()).(
        members := old(phase).batch, phase := Ready,
        served := Serving(old(served), old(phase).batch, RunnerView()))
    {
      hide A.Shaped, Views, Serving;
      served := Serving(served, phase.batch, RunnerView());
      members, phase := phase.batch, Ready;
    }

    /** The batch comes back from the worker thread: record it, or die loudly. Memory may run
        out while some row is sampled, and that is everybody's failure. */
    method Tick(exhausted: Option<nat>)
      requires Valid() && phase.Exec?
      modifies this`phase, this`members, this`served, scheduler`waiting, scheduler`running, scheduler.arrivals, runner
      ensures Valid()
      ensures View() == Apply(old(View()), if old(RunsOut(exhausted)) then Event.Raise else Event.Commit)
    {
      hide Inv, Sound, Apply, Executing, Failing, Committing;
      ghost var was := View();
      CommitIs(was);
      var done := RunBatch(exhausted);
      FailingAnyCache(was, CacheView());
      if done.Raised? {
        GiveUp();
      } else {
        BatchKnown();
        Record(done.picks);
      }
    }

    /** The forward pass raises, for everybody. */
    method RaiseTick()
      requires Valid() && phase.Exec?
      modifies this`phase, scheduler`waiting, scheduler`running, scheduler.arrivals
      ensures Valid() && View() == Apply(old(View()), Event.Raise)
    {
      hide Inv, Sound, Failing, Apply;
      DyingIs(View(), Event.Raise);
      GiveUp();
    }

    /** Cancel the loop, at either of its two suspensions or before its first step. */
    method Kill()
      requires Valid()
      modifies this`phase, scheduler`waiting, scheduler`running, scheduler.arrivals
      ensures Valid() && View() == Apply(old(View()), Event.Kill)
    {
      hide Inv, Sound, Failing, Apply;
      DyingIs(View(), Event.Kill);
      if phase.Exec? {
        GiveUp();
      } else if phase.Asleep? || (phase.Ready? && scheduler.running == []) {
        MoveTo(Dead(false));
      }
    }

    /** The model is loaded: cancel the old loop and start a new one on the new runner. */
    method Load(loaded: QwenRunner)
      requires Valid() && loaded.cache == None && (phase.Ready? ==> scheduler.running == [])
      modifies this`phase, this`members, this`runner, scheduler`waiting, scheduler`running, scheduler.arrivals
      ensures Valid() && View() == Apply(old(View()), Event.Swap(Qwen(loaded.model, loaded.padId)))
      ensures runner == loaded
    {
      hide Inv, Sound, Failing, Apply;
      SwapIs(View(), Qwen(loaded.model, loaded.padId));
      if phase.Exec? {
        GiveUp();
      }
      Install(loaded);
    }

    method Install(loaded: QwenRunner)
      requires Sound() && loaded.cache == None
      modifies this`phase, this`members, this`runner
      ensures Sound() && runner == loaded
      ensures View() == old(View()).(
        phase := Ready, members := [], cache := None, runner := Qwen(loaded.model, loaded.padId))
    {
      hide A.Shaped, Views;
      runner, members, phase := loaded, [], Ready;
    }
  }

  lemma {:induction false} AddedLength(st: A.State, req: Request)
    ensures |A.Add(st, req).table| == |st.table| + 1
  {
  }

  lemma {:induction false} CommittingIs(s: Sys, picks: seq<Option<int>>, cache: Option<Cache>)
    requires s.phase.Exec? && InRange(s.phase.batch, |s.st.table|)
    requires |picks| == |s.phase.batch| && |s.served| == |s.st.table|
    ensures Committing(s, picks, cache) == s.(
      st := A.EndTick(s.st, s.phase.batch, picks), members := s.phase.batch, phase := Ready, cache := cache,
      served := Serving(s.served, s.phase.batch, s.runner))
  {
    hide A.EndTick;
  }

  lemma {:induction false} CommitIs(s: Sys)
    requires Inv(s) && s.phase.Exec?
    ensures InRange(s.phase.batch, |s.st.table|) && |s.served| == |s.st.table|
    ensures Inv(Apply(s, Event.Commit)) && Inv(Apply(s, Event.Raise)) && Apply(s, Event.Raise) == Failing(s)
    ensures Apply(s, Event.Commit) == match Executing(s)
      case Raised => Failing(s)
      case Done(picks, cache, _) => Committing(s.(cache := cache), picks, cache)
  {
    hide Inv, Executing, Failing, Committing, Ticking;
    StepInv(s, Event.Commit);
    StepInv(s, Event.Raise);
    InFlight(s);
    assert Apply(s, Event.Commit) == Ticking(s);
    TickingCases(s);
  }

  lemma {:induction false} TickingCases(s: Sys)
    requires s.phase.Exec? && InRange(s.phase.batch, |s.st.table|) && |s.served| == |s.st.table|
    ensures Ticking(s) == match Executing(s)
      case Raised => Failing(s)
      case Done(picks, cache, _) => Committing(s.(cache := cache), picks, cache)
  {
    hide Executing, InRange, A.EndTick;
  }

  lemma {:induction false} FailingAnyCache(s: Sys, cache: Option<Cache>)
    ensures Failing(s.(cache := cache)) == Failing(s)
  {
    hide A.FailAll;
  }

  lemma {:induction false} DyingIs(s: Sys, e: Event)
    requires Inv(s) && e in {Event.Raise, Event.Kill}
    ensures Inv(Apply(s, e))
    ensures s.phase.Exec? ==> Apply(s, e) == Failing(s)
    ensures e == Event.Kill && HoldsNobody(s) ==> Apply(s, e) == s.(phase := Dead(false), cache := None)
    ensures e == Event.Kill && !s.phase.Exec? && !HoldsNobody(s) ==> Apply(s, e) == s
  {
    StepInv(s, e);
    hide Inv, Failing;
  }

  lemma {:induction false} SwapIs(s: Sys, to: Runner)
    requires Inv(s) && (s.phase.Ready? ==> s.st.running == [])
    ensures Inv(Apply(s, Event.Swap(to)))
    ensures Apply(s, Event.Swap(to)) == (if s.phase.Exec? then Failing(s) else s).(
      phase := Ready, members := [], cache := None, runner := to)
  {
    StepInv(s, Event.Swap(to));
    hide Inv;
  }

  function Serving(served: seq<Runner>, batch: seq<nat>, r: Runner): (after: seq<Runner>)
    ensures |after| == |served|
  {
    seq(|served|, k requires 0 <= k < |served| => if k in batch then r else served[k])
  }
}
