/** How long a request can wait, and how long the loop can work. */
module Progress {
  import opened Sums
  import opened Requests
  import opened Padding
  import opened Admission
  import opened Effects
  import opened Protocol
  import opened Invariants

  /** Tokens request k may still get in ticks that have not begun. */
  ghost function Pending(s: Sys, k: nat): int
    requires k < |s.st.table|
  {
    var q := s.st.table[k];
    if q.Finished() then 0
    else q.Left() - (if s.phase.Exec? && k in s.phase.batch then 1 else 0)
  }

  ghost function PendingUpTo(s: Sys, n: nat): (r: seq<int>)
    requires n <= |s.st.table|
    ensures |r| == n
  {
    seq(n, k requires 0 <= k < n => Pending(s, k))
  }

  /** The work in front of request n: what everybody who arrived earlier may still get. */
  ghost function WorkBefore(s: Sys, n: nat): int
    requires n <= |s.st.table|
  {
    Sum(PendingUpTo(s, n))
  }

  ghost predicate Begins(s: Sys, e: Event)
    requires Inv(s)
  {
    s.phase.Ready? && Apply(s, e).phase.Exec?
  }

  /** How many non-empty ticks begin during a run. */
  ghost function Ticks(s: Sys, events: seq<Event>): nat
    requires Inv(s)
  {
    if events == [] then 0
    else
      var n := |events| - 1;
      Ticks(s, events[..n]) + (if Begins(Run(s, events[..n]), events[n]) then 1 else 0)
  }

  lemma {:induction false} PendingNonNegative(s: Sys, k: nat)
    requires Inv(s) && k < |s.st.table|
    ensures 0 <= Pending(s, k)
  {
    assert Told(s.st.table[k], k in s.gone);
    ReasonFromOutputs(s.st.table[k]);
  }

  lemma {:induction false} TableGrows(s: Sys, e: Event)
    requires Inv(s)
    ensures |s.st.table| <= |Apply(s, e).st.table|
    ensures !e.Submit? ==> |s.st.table| == |Apply(s, e).st.table|
  {
    ShapedParts(s.st);
  }

  lemma {:induction false} CommitPending(s: Sys, k: nat)
    requires Inv(s) && s.phase.Exec? && k < |s.st.table|
    ensures k < |Apply(s, Commit).st.table|
    ensures Pending(Apply(s, Commit), k) <= Pending(s, k)
  {
    hide Inv, Apply, Executing, Ticking, Shaped;
    PendingNonNegative(s, k);
    CommitIsTick(s);
    if Executing(s).Done? {
      TickPending(s, k);
    } else {
      RaisedPending(s, k);
    }
  }

  lemma {:induction false} RaisedPending(s: Sys, k: nat)
    requires s.phase.Exec? && InRange(s.phase.batch, |s.st.table|) && |s.served| == |s.st.table|
    requires s.phase.batch == s.st.running && k < |s.st.table| && Executing(s).Raised? && 0 <= Pending(s, k)
    ensures k < |Ticking(s).st.table| && Pending(Ticking(s), k) <= Pending(s, k)
  {
    hide Executing;
  }

  lemma {:induction false} TickPending(s: Sys, k: nat)
    requires s.phase.Exec? && Shaped(s.st) && InRange(s.phase.batch, |s.st.table|)
    requires s.phase.batch == s.st.running && |s.served| == |s.st.table|
    requires k < |s.st.table| && Executing(s).Done? && 0 <= Pending(s, k)
    ensures k < |Ticking(s).st.table|
    ensures Pending(Ticking(s), k) <= Pending(s, k)
  {
    hide Executing, Ticking, Shaped;
    TickingIs(s);
    TickExtends(s, k);
    if k in s.phase.batch && !Ticking(s).st.table[k].Finished() {
      StillOpen(s.st.table, Ticking(s).st.table, s.phase.batch, Executing(s).picks, k);
    }
  }

  lemma {:induction false} TurnPending(s: Sys, k: nat)
    requires Inv(s) && s.phase.Ready? && k < |s.st.table|
    ensures Turning(s).st.table == s.st.table
    ensures Pending(Turning(s), k) <= Pending(s, k)
    ensures Turning(s).phase.Exec? && k in Turning(s).phase.batch ==> Pending(Turning(s), k) < Pending(s, k)
  {
    if !(s.st.waiting == [] && s.st.running == []) {
      var n := ScheduleShape(s.st);
      ScheduleMembers(s.st);
    }
  }

  /** No step ever adds to what a request may still get. */
  lemma {:induction false} StepPending(s: Sys, e: Event, k: nat)
    requires Inv(s) && k < |s.st.table|
    ensures k < |Apply(s, e).st.table|
    ensures Pending(Apply(s, e), k) <= Pending(s, k)
    ensures Begins(s, e) && k in Apply(s, e).phase.batch ==> Pending(Apply(s, e), k) < Pending(s, k)
  {
    PendingNonNegative(s, k);
    match e
    case Turn => if s.phase.Ready? { TurnPending(s, k); }
    case Commit => if s.phase.Exec? { CommitPending(s, k); }
    case _ =>
  }

  /** Each tick that takes anyone from before n takes at least one token from the work before n. */
  lemma {:induction false} StepWork(s: Sys, e: Event, n: nat)
    requires Inv(s) && n <= |s.st.table|
    ensures n <= |Apply(s, e).st.table|
    ensures WorkBefore(Apply(s, e), n) <= WorkBefore(s, n)
    ensures Begins(s, e) && (exists k :: k in Apply(s, e).phase.batch && k < n) ==>
      WorkBefore(Apply(s, e), n) < WorkBefore(s, n)
  {
    TableGrows(s, e);
    var u, v := PendingUpTo(Apply(s, e), n), PendingUpTo(s, n);
    forall k | 0 <= k < n
      ensures u[k] <= v[k]
      ensures Begins(s, e) && k in Apply(s, e).phase.batch ==> u[k] < v[k]
    {
      StepPending(s, e, k);
    }
    SumMonotone(u, v);
  }

  lemma {:induction false} WorkNonNegative(s: Sys, n: nat)
    requires Inv(s) && n <= |s.st.table|
    ensures 0 <= WorkBefore(s, n)
  {
    var zeros := seq(n, _ => 0);
    SumConstant(zeros, 0);
    forall k | 0 <= k < n ensures 0 <= PendingUpTo(s, n)[k] { PendingNonNegative(s, k); }
    SumMonotone(zeros, PendingUpTo(s, n));
  }

  // ---- bounded waiting ----

  /** Nobody comes back to the waiting queue, and a tick that leaves k waiting runs only
      requests that arrived before k. */
  lemma {:induction false} StillWaiting(s: Sys, e: Event, k: nat)
    requires Inv(s) && k < |s.st.table| && k in Apply(s, e).st.waiting
    ensures k in s.st.waiting
    ensures Begins(s, e) ==> exists j :: j in Apply(s, e).phase.batch && j < k
  {
    ShapedParts(s.st);
    match e
    case Turn => if s.phase.Ready? { StillWaitingTurn(s, k); }
    case Cancel(j) => if j < |s.st.table| { AbortShape(s.st, j, Cancelled); }
    case Commit => if s.phase.Exec? { TickEnds(s); }
    case _ =>
  }

  lemma {:induction false} StillWaitingTurn(s: Sys, k: nat)
    requires Inv(s) && s.phase.Ready? && k in Turning(s).st.waiting
    ensures k in s.st.waiting
    ensures Turning(s).phase.Exec? ==> exists j :: j in Turning(s).phase.batch && j < k
  {
    hide Channels, Flying, Following, Paced, Coherent, Schedule;
    ScheduleMembers(s.st);
    var n := ScheduleShape(s.st);
    ShapedParts(Schedule(s.st));
    if Turning(s).phase.Exec? {
      var j := Turning(s).phase.batch[0];
      assert j in Schedule(s.st).running && j < k;
    }
  }

  /**
   * Bounded waiting. Whatever arrives later and whoever leaves, a request that is still waiting
   * has seen at most as many non-empty ticks as there was work before it; so it has left the
   * queue by the tick after that.
   */
  lemma {:induction false} BoundedWaiting(s: Sys, events: seq<Event>, k: nat)
    requires Inv(s) && k < |s.st.table|
    requires k in Run(s, events).st.waiting
    ensures k < |Run(s, events).st.table|
    ensures Ticks(s, events) + WorkBefore(Run(s, events), k) <= WorkBefore(s, k)
    ensures Ticks(s, events) <= WorkBefore(s, k)
    ensures k in s.st.waiting
  {
    if events == [] {
      WorkNonNegative(s, k);
    } else {
      var n := |events| - 1;
      var before := Run(s, events[..n]);
      RunGrows(s, events[..n]);
      StillWaiting(before, events[n], k);
      BoundedWaiting(s, events[..n], k);
      StepWork(before, events[n], k);
      TableGrows(before, events[n]);
      WorkNonNegative(Run(s, events), k);
    }
  }

  /** While k is unfinished, each batch that begins holds somebody who arrived no later than k. */
  lemma {:induction false} StillUnfinished(s: Sys, e: Event, k: nat)
    requires Inv(s) && k < |s.st.table| && k < |Apply(s, e).st.table| && !Apply(s, e).st.table[k].Finished()
    ensures !s.st.table[k].Finished()
    ensures Begins(s, e) ==> exists j :: j in Apply(s, e).phase.batch && j < k + 1
  {
    if s.st.table[k].Finished() { NobodyRevives(s, e, k); }
    hide Inv, Apply;
    StepInv(s, e);
    InSomeQueue(Apply(s, e), k);
    if k in Apply(s, e).st.waiting {
      StillWaiting(s, e, k);
    } else if Begins(s, e) {
      InFlight(Apply(s, e));
      assert k in Apply(s, e).phase.batch && k < k + 1;
    }
  }

  lemma {:induction false} InSomeQueue(s: Sys, k: nat)
    requires Inv(s) && k < |s.st.table| && !s.st.table[k].Finished()
    ensures k in s.st.running || k in s.st.waiting
  {
  }

  lemma {:induction false} NobodyRevives(s: Sys, e: Event, k: nat)
    requires Inv(s) && k < |s.st.table| && s.st.table[k].Finished()
    ensures k < |Apply(s, e).st.table| && Apply(s, e).st.table[k].Finished()
  {
    if e.Commit? && s.phase.Exec? {
      hide Inv, Apply, Ticking;
      CommitIsTick(s);
      TickRevivesNobody(s, k);
    } else {
      ShapedParts(s.st);
      hide Queued, Channels, Flying, Following, Paced, Coherent, Schedule;
    }
  }

  lemma {:induction false} TickRevivesNobody(s: Sys, k: nat)
    requires s.phase.Exec? && Shaped(s.st) && InRange(s.phase.batch, |s.st.table|)
    requires s.phase.batch == s.st.running && |s.served| == |s.st.table|
    requires k < |s.st.table| && s.st.table[k].Finished()
    ensures k < |Ticking(s).st.table| && Ticking(s).st.table[k].Finished()
  {
    TickingIs(s);
    hide Executing, EndTick, Shaped;
    if Executing(s).Done? && k in s.phase.batch && !Ticking(s).st.table[k].Finished() {
      StillOpen(s.st.table, Ticking(s).st.table, s.phase.batch, Executing(s).picks, k);
    }
  }

  /**
   * Bounded completion. A request that is still unfinished has seen at most as many non-empty
   * ticks as there was work up to and including its own.
   */
  lemma {:induction false} BoundedCompletion(s: Sys, events: seq<Event>, k: nat)
    requires Inv(s) && k < |s.st.table|
    requires k < |Run(s, events).st.table| ==> !Run(s, events).st.table[k].Finished()
    ensures k < |Run(s, events).st.table|
    ensures Ticks(s, events) + WorkBefore(Run(s, events), k + 1) <= WorkBefore(s, k + 1)
    ensures Ticks(s, events) <= WorkBefore(s, k + 1)
  {
    RunGrows(s, events);
    WorkNonNegative(Run(s, events), k + 1);
    if events != [] {
      hide Inv, Apply, WorkBefore, Begins;
      var n := |events| - 1;
      var before := Run(s, events[..n]);
      RunGrows(s, events[..n]);
      StillUnfinished(before, events[n], k);
      BoundedCompletion(s, events[..n], k);
      StepWork(before, events[n], k + 1);
    }
  }

  lemma {:induction false} RunGrows(s: Sys, events: seq<Event>)
    requires Inv(s)
    ensures |s.st.table| <= |Run(s, events).st.table|
  {
    if events != [] {
      var n := |events| - 1;
      RunGrows(s, events[..n]);
      TableGrows(Run(s, events[..n]), events[n]);
    }
  }

  /** The only ways out of the waiting queue: a slot, its own client, or the death of the loop. */
  lemma {:induction false} LeavingTheQueue(s: Sys, e: Event, k: nat)
    requires Inv(s) && k in s.st.waiting && k !in Apply(s, e).st.waiting
    ensures k < |Apply(s, e).st.table|
    ensures k in Apply(s, e).st.running
      || (e == Cancel(k) && Apply(s, e).st.table[k].reason == Cancelled)
      || (s.phase.Exec? && Apply(s, e).st.table[k].reason == Error)
  {
    ShapedParts(s.st);
    StepInv(s, e);
    match e
    case Turn =>
      if s.phase.Ready? && !(s.st.waiting == [] && s.st.running == []) {
        ScheduleMembers(s.st);
      }
    case Cancel(j) => if j < |s.st.table| { AbortShape(s.st, j, Cancelled); }
    case Commit =>
      if s.phase.Exec? { InFlight(s); TickingIs(s); }
    case _ =>
  }

  // ---- draining ----

  /** What the loop does next when nothing else happens. */
  ghost function LoopStep(s: Sys): Event {
    match s.phase
    case Exec(_, _) => Commit
    case Asleep => Wake
    case _ => Turn
  }

  /** Asleep, or ended by a tick that raised, with both queues empty. */
  ghost predicate AtRest(s: Sys) {
    (s.phase.Asleep? || s.phase == Dead(true)) && s.st.waiting == [] && s.st.running == []
  }

  ghost function Drain(s: Sys, steps: nat): (r: Sys)
    requires Inv(s)
    ensures Inv(r)
    decreases steps
  {
    if steps == 0 || AtRest(s) then s
    else
      StepInv(s, LoopStep(s));
      Drain(Apply(s, LoopStep(s)), steps - 1)
  }

  /** The request has a prompt, or asks for no token and so is never in a batch. */
  predicate Feeds(req: Request) {
    req.prompt != [] || req.maxNew <= 0
  }

  /** Every batch has a column to feed: the mock needs none, a chat template always makes one. */
  ghost predicate NeverEmptyRows(s: Sys) {
    s.runner.Mock? || forall k | 0 <= k < |s.st.table| :: Feeds(s.st.table[k].req)
  }

  lemma {:induction false} RowIsFed(s: Sys, k: nat)
    requires Inv(s) && s.phase.Exec? && k in s.phase.batch && k < |s.st.table| && Feeds(s.st.table[k].req)
    ensures s.st.table[k].Len() >= 1
  {
    assert Told(s.st.table[k], k in s.gone);
    ReasonFromOutputs(s.st.table[k]);
  }

  /** There is a slot to give, or nobody who needs one. */
  ghost predicate CanServe(s: Sys) {
    s.st.slots >= 1 || s.st.waiting == []
  }

  lemma {:induction false} TickSucceeds(s: Sys)
    requires Inv(s) && s.phase.Exec? && NeverEmptyRows(s)
    ensures InRange(s.phase.batch, |s.st.table|) && Executing(s).Done?
  {
    InFlight(s);
    assert s.runner.Qwen? && !s.phase.prefill ==>
      Holds(s.cache, s.runner.pad, Rows(s.st.table, s.phase.batch));
    if s.runner.Qwen? { RowIsFed(s, s.phase.batch[0]); }
    hide Inv;
    var rows := Rows(s.st.table, s.phase.batch);
    if s.runner.Qwen? {
      assert rows[0].Len() >= 1;
      if !s.phase.prefill { FitsOnTop(s.runner.pad, rows); }
    }
  }

  /** A tick comes back with the queues as they were, or takes everybody down and ends the loop. */
  lemma {:induction false} TickEnds(s: Sys)
    requires Inv(s) && s.phase.Exec?
    ensures var s' := Apply(s, Commit);
      && (AtRest(s') || (s'.phase.Ready? && s'.st.waiting == s.st.waiting))
      && s'.st.slots == s.st.slots
  {
    hide Inv, Apply, Ticking, Shaped, AtRest;
    CommitIsTick(s);
    TickEndsIn(s);
  }

  lemma {:induction false} TickEndsIn(s: Sys)
    requires s.phase.Exec? && Shaped(s.st) && InRange(s.phase.batch, |s.st.table|)
    requires s.phase.batch == s.st.running && |s.served| == |s.st.table|
    ensures AtRest(Ticking(s)) || (Ticking(s).phase.Ready? && Ticking(s).st.waiting == s.st.waiting)
    ensures Ticking(s).st.slots == s.st.slots
  {
    hide Executing, Ticking, Shaped, Ticked;
    TickingIs(s);
    RaisedRests(s);
    TickMoves(s);
  }

  lemma {:induction false} TickMoves(s: Sys)
    requires s.phase.Exec? && InRange(s.phase.batch, |s.st.table|) && |s.served| == |s.st.table|
    ensures Executing(s).Done? ==> Ticking(s).phase.Ready?
    ensures Executing(s).Raised? ==> Ticking(s).st.slots == s.st.slots
  {
    hide Executing, EndTick;
  }

  lemma {:induction false} TickGoesOn(s: Sys)
    requires Inv(s) && s.phase.Exec? && NeverEmptyRows(s)
    ensures NeverEmptyRows(Apply(s, Commit)) && Apply(s, Commit).phase.Ready?
  {
    hide Inv, Apply, Executing, Ticking, Shaped, NeverEmptyRows;
    TickSucceeds(s);
    CommitIsTick(s);
    TickMoves(s);
    TickKeepsRequests(s);
    StillFed(s, Ticking(s));
  }

  lemma {:induction false} TickKeepsRequests(s: Sys)
    requires s.phase.Exec? && Shaped(s.st) && InRange(s.phase.batch, |s.st.table|)
    requires s.phase.batch == s.st.running && s.phase.batch != [] && |s.served| == |s.st.table|
    ensures Ticking(s).runner == s.runner && |Ticking(s).st.table| == |s.st.table|
    ensures forall k | 0 <= k < |s.st.table| :: Ticking(s).st.table[k].req == s.st.table[k].req
  {
    hide Executing, Ticking, Shaped;
    TickExtends(s, s.phase.batch[0]);
    forall k | 0 <= k < |s.st.table| ensures Ticking(s).st.table[k].req == s.st.table[k].req {
      TickExtends(s, k);
    }
  }

  lemma {:induction false} StillFed(s: Sys, later: Sys)
    requires NeverEmptyRows(s) && later.runner == s.runner && |later.st.table| == |s.st.table|
    requires forall k | 0 <= k < |s.st.table| :: later.st.table[k].req == s.st.table[k].req
    ensures NeverEmptyRows(later)
  {
  }

  lemma {:induction false} RaisedRests(s: Sys)
    requires s.phase.Exec? && InRange(s.phase.batch, |s.st.table|) && |s.served| == |s.st.table|
    ensures Executing(s).Raised? ==> AtRest(Ticking(s))
  {
    hide Executing;
  }

  /** The measure: two steps for each token of work, and a few for the sweep and the test. */
  ghost function Cost(s: Sys): int {
    if AtRest(s) then 0
    else
      2 * WorkBefore(s, |s.st.table|) +
      (if s.phase.Ready? then (if s.st.waiting == [] && s.st.running == [] then 1 else 2) else 3)
  }

  /** A turn that begins no tick has nothing left to sweep or admit. */
  lemma {:induction false} TurnShape(s: Sys)
    requires Inv(s) && s.phase.Ready? && CanServe(s)
    ensures var r := Turning(s);
      && r.st.table == s.st.table && r.runner == s.runner && r.st.slots == s.st.slots && !r.phase.Dead?
      && (r.phase.Exec? || (r.st.waiting == [] && r.st.running == []))
      && (r.phase.Asleep? <==> s.st.waiting == [] && s.st.running == [])
      && CanServe(r)
  {
    hide Queued, Channels, Following, Paced, Coherent, Live, Fits;
    if !(s.st.waiting == [] && s.st.running == []) {
      var m := ScheduleShape(s.st);
      if Schedule(s.st).running == [] { EmptyBatchIsIdleIff(s.st); }
    }
  }

  lemma {:induction false} TurnCost(s: Sys)
    requires Inv(s) && s.phase.Ready? && CanServe(s)
    ensures Cost(Turning(s)) < Cost(s)
    ensures CanServe(Turning(s)) && !Turning(s).phase.Dead?
    ensures NeverEmptyRows(s) ==> NeverEmptyRows(Turning(s))
  {
    var n := |s.st.table|;
    StepInv(s, Turn);
    TurnShape(s);
    WorkNonNegative(s, n);
    StepWork(s, Turn, n);
    assert Apply(s, Turn) == Turning(s);
    if Begins(s, Turn) { FirstOfBatch(Turning(s)); }
    hide Inv, Turning;
  }

  lemma {:induction false} FirstOfBatch(s: Sys)
    requires Inv(s) && s.phase.Exec?
    ensures exists k :: k in s.phase.batch && k < |s.st.table|
  {
    InFlight(s);
    assert s.phase.batch[0] in s.phase.batch;
  }

  lemma {:induction false} TickCost(s: Sys)
    requires Inv(s) && s.phase.Exec? && CanServe(s)
    ensures var s' := Apply(s, Commit);
      Cost(s') < Cost(s) && CanServe(s') && (AtRest(s') || !s'.phase.Dead?)
  {
    TickEnds(s);
    TableGrows(s, Commit);
    StepWork(s, Commit, |s.st.table|);
    WorkNonNegative(s, |s.st.table|);
    hide Inv, Apply, WorkBefore;
  }

  lemma {:induction false} WakeCost(s: Sys)
    requires Inv(s) && s.phase.Asleep? && !AtRest(s)
    ensures Cost(Apply(s, Wake)) < Cost(s)
    ensures Apply(s, Wake) == s.(phase := Ready)
  {
    StepWork(s, Wake, |s.st.table|);
  }

  lemma {:induction false} LoopStepCost(s: Sys)
    requires Inv(s) && !s.phase.Dead? && CanServe(s) && !AtRest(s)
    ensures var s' := Apply(s, LoopStep(s));
      && Inv(s') && Cost(s') < Cost(s)
      && CanServe(s') && (AtRest(s') || !s'.phase.Dead?)
  {
    hide Inv, NeverEmptyRows, Cost;
    StepInv(s, LoopStep(s));
    match s.phase
    case Exec(_, _) => TickCost(s);
    case Asleep => WakeCost(s);
    case Ready => TurnCost(s);
    case Dead(_) =>
  }

  /** While no row is empty the loop survives its own ticks. */
  lemma {:induction false} LoopSurvives(s: Sys)
    requires Inv(s) && NeverEmptyRows(s) && !s.phase.Dead?
    ensures NeverEmptyRows(Apply(s, LoopStep(s))) && !Apply(s, LoopStep(s)).phase.Dead?
  {
    ShapedParts(s.st);
    match s.phase
    case Exec(_, _) => TickGoesOn(s);
    case _ =>
  }

  /** Without slots nobody is ever admitted. */
  lemma {:induction false} StuckStep(s: Sys)
    requires Inv(s) && !s.phase.Dead? && !CanServe(s)
    ensures !Apply(s, LoopStep(s)).phase.Dead? && !CanServe(Apply(s, LoopStep(s)))
  {
    NoBatch(s);
    if s.phase.Ready? { StuckTurn(s); }
    hide Inv, Turning;
  }

  lemma {:induction false} NoBatch(s: Sys)
    requires Inv(s) && s.st.slots < 1
    ensures Shaped(s.st) && s.st.running == [] && !s.phase.Exec?
  {
    hide Channels, Following, Paced, Coherent;
  }

  lemma {:induction false} StuckTurn(s: Sys)
    requires Shaped(s.st) && s.st.running == [] && !CanServe(s)
    ensures !Turning(s).phase.Dead? || s.phase.Dead?
    ensures !CanServe(Turning(s))
  {
    hide Schedule, Shaped, Live, TokenSum;
    var n := ScheduleShape(s.st);
    NobodyLives(s.st.table);
  }

  lemma {:induction false} NobodyLives(table: seq<Entry>)
    ensures Live(table, []) == []
  {
  }

  lemma {:induction false} StuckForever(s: Sys, steps: nat)
    requires Inv(s) && !s.phase.Dead? && !CanServe(s)
    ensures !AtRest(Drain(s, steps))
    decreases steps
  {
    hide Inv, Apply;
    if steps > 0 {
      StepInv(s, LoopStep(s));
      StuckStep(s);
      StuckForever(Apply(s, LoopStep(s)), steps - 1);
    }
  }

  /**
   * With no new arrivals the loop runs dry: within two steps for each token of remaining work,
   * and three more, it comes to rest, if and only if there is a slot to give or nobody waits.
   * Every accepted request is finished then, and unless a row was empty the loop has survived.
   */
  lemma {:induction false} Drains(s: Sys, steps: nat)
    requires Inv(s) && !s.phase.Dead?
    requires steps >= 2 * WorkBefore(s, |s.st.table|) + 3
    ensures var r := Drain(s, steps);
      && (AtRest(r) <==> s.st.slots >= 1 || s.st.waiting == [])
      && (AtRest(r) ==> forall k | 0 <= k < |r.st.table| :: r.st.table[k].Finished())
      && (NeverEmptyRows(s) ==> !r.phase.Dead?)
  {
    if CanServe(s) {
      CostIsSmall(s);
      DrainsWithin(s, steps);
    } else {
      StuckForever(s, steps);
    }
    if NeverEmptyRows(s) { DrainSurvives(s, steps); }
    if AtRest(Drain(s, steps)) { RestIsFinished(Drain(s, steps)); }
  }

  lemma {:induction false} CostIsSmall(s: Sys)
    requires Inv(s)
    ensures Cost(s) <= 2 * WorkBefore(s, |s.st.table|) + 3
  {
    WorkNonNegative(s, |s.st.table|);
  }

  lemma {:induction false} RestIsFinished(s: Sys)
    requires Inv(s) && AtRest(s)
    ensures forall k | 0 <= k < |s.st.table| :: s.st.table[k].Finished()
  {
  }

  lemma {:induction false} CostNonNegative(s: Sys)
    requires Inv(s)
    ensures 0 <= Cost(s)
    ensures Cost(s) == 0 ==> AtRest(s)
  {
    WorkNonNegative(s, |s.st.table|);
  }

  lemma {:induction false} DrainsWithin(s: Sys, steps: nat)
    requires Inv(s) && (AtRest(s) || !s.phase.Dead?) && CanServe(s)
    requires steps >= Cost(s)
    ensures AtRest(Drain(s, steps))
    decreases steps
  {
    hide Inv, NeverEmptyRows, Cost, Apply, CanServe;
    CostNonNegative(s);
    if !AtRest(s) {
      LoopStepCost(s);
      DrainsWithin(Apply(s, LoopStep(s)), steps - 1);
    }
  }

  lemma {:induction false} DrainSurvives(s: Sys, steps: nat)
    requires Inv(s) && NeverEmptyRows(s) && !s.phase.Dead?
    ensures NeverEmptyRows(Drain(s, steps)) && !Drain(s, steps).phase.Dead?
    decreases steps
  {
    hide Inv, NeverEmptyRows, Apply;
    if steps > 0 && !AtRest(s) {
      StepInv(s, LoopStep(s));
      LoopSurvives(s);
      DrainSurvives(Apply(s, LoopStep(s)), steps - 1);
    }
  }
}
