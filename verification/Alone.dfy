/** The whole answer of a request, errors included, and what comes of serving it alone. */
module Alone {
  import opened Sums
  import opened Requests
  import opened Padding
  import opened Admission
  import opened Effects
  import opened Protocol
  import opened Invariants
  import opened Transparency
  import opened Progress
  import opened Lifecycle
  import opened Finality

  // ---- whose failure an error is ----

  /** An error comes from the request's own row, a cancellation from its own client. */
  ghost predicate Earned(r: Runner, q: Entry, gone: bool) {
    && (q.reason == Error ==> Next(r, q.req, q.Tokens()) == None)
    && (q.reason == Cancelled ==> gone)
  }

  /** The step takes the loop down during a tick, and the unfinished request with it. */
  ghost predicate Tears(s: Sys, e: Event, k: nat)
    requires Inv(s)
  {
    k < |s.st.table| && !s.st.table[k].Finished() && s.phase.Exec? &&
    (InFlight(s);
     match e
     case Commit => !ComesBack(s)
     case Raise => true
     case Kill => true
     case Swap(_) => true
     case _ => false)
  }

  /** Some step of the run does. */
  ghost predicate Torn(s: Sys, events: seq<Event>, k: nat)
    requires Inv(s)
  {
    exists t | 0 <= t < |events| :: Tears(At(s, events, t), events[t], k)
  }

  lemma {:induction false} TornSnoc(s: Sys, events: seq<Event>, k: nat)
    requires Inv(s) && events != []
    ensures var n := |events| - 1;
      Torn(s, events, k) <==> Torn(s, events[..n], k) || Tears(Run(s, events[..n]), events[n], k)
  {
    hide Inv, Run, Tears;
    var n := |events| - 1;
    forall t | 0 <= t <= n ensures events[..n][..t] == events[..t] { }
    assert At(s, events, n) == Run(s, events[..n]);
    forall t | 0 <= t < n
      ensures Tears(At(s, events, t), events[t], k) <==> Tears(At(s, events[..n], t), events[..n][t], k)
    {
      assert At(s, events[..n], t) == At(s, events, t);
    }
    if Torn(s, events[..n], k) {
      var t :| 0 <= t < n && Tears(At(s, events[..n], t), events[..n][t], k);
      assert Tears(At(s, events, t), events[t], k);
    }
  }

  lemma {:induction false} TearFails(s: Sys, e: Event, k: nat)
    requires Inv(s) && Tears(s, e, k)
    ensures k < |Apply(s, e).st.table| && Apply(s, e).st.table[k].reason == Error
    ensures !Apply(s, e).phase.Exec?
  {
    ShapedParts(s.st);
    if e.Commit? {
      ComesBackIff(s);
      CommitIsTick(s);
    }
    hide Executing, Channels, Following, Paced, Coherent;
  }

  lemma {:induction false} EarnedTick(s: Sys, k: nat)
    requires Inv(s) && s.phase.Exec? && k < |s.st.table| && !Tears(s, Commit, k)
    requires k < |s.served| && Earned(s.served[k], s.st.table[k], k in s.gone)
    ensures InRange(s.phase.batch, |s.st.table|) && |s.served| == |s.st.table|
    ensures k < |Ticking(s).st.table| && k < |Ticking(s).served|
    ensures Earned(Ticking(s).served[k], Ticking(s).st.table[k], k in Ticking(s).gone)
  {
    hide Inv, Executing, Ticking, Shaped, Next, Ticked, RowResult;
    CommitIsTick(s);
    ComesBackIff(s);
    if s.st.table[k].Finished() && InFlightRow(s, k) { InFlightIsCancelled(s, k); }
    if Executing(s).Done? {
      TickingIs(s);
      TickedLater(s, k);
      ServedAfter(s, k);
      if k in s.phase.batch { EarnedRow(s.runner, s.served[k], s.st.table[k], k in s.gone); }
    } else {
      FinishedNotWaiting(s, k);
      RaisedLater(s, k);
      ServedAfter(s, k);
    }
  }

  lemma {:induction false} ServedAfter(s: Sys, k: nat)
    requires s.phase.Exec? && InRange(s.phase.batch, |s.st.table|)
    requires |s.served| == |s.st.table| && k < |s.served|
    ensures Ticking(s).gone == s.gone && k < |Ticking(s).served|
    ensures Ticking(s).served[k] == if Executing(s).Done? && k in s.phase.batch then s.runner else s.served[k]
  {
    hide Executing, EndTick;
  }

  /** One row of a tick, given the token its own request would get alone. */
  lemma {:induction false} EarnedRow(r: Runner, before: Runner, q: Entry, gone: bool)
    requires Earned(before, q, gone) && (q.Finished() ==> q.reason == Cancelled)
    ensures Earned(r, RowResult(q, Next(r, q.req, q.Tokens())), gone)
  {
    hide Next;
  }

  lemma {:induction false} EarnedStep(s: Sys, e: Event, k: nat)
    requires Inv(s) && k < |s.st.table| && !Tears(s, e, k)
    requires k < |s.served| && Earned(s.served[k], s.st.table[k], k in s.gone)
    ensures k < |Apply(s, e).st.table| && k < |Apply(s, e).served|
    ensures Earned(Apply(s, e).served[k], Apply(s, e).st.table[k], k in Apply(s, e).gone)
  {
    if e.Commit? && s.phase.Exec? {
      hide Inv, Apply, Ticking, Earned, Tears;
      CommitIsTick(s);
      EarnedTick(s, k);
    } else {
      EarnedElsewhere(s, e, k);
    }
  }

  lemma {:induction false} EarnedElsewhere(s: Sys, e: Event, k: nat)
    requires Inv(s) && k < |s.st.table| && !Tears(s, e, k) && !(e.Commit? && s.phase.Exec?)
    requires k < |s.served| && Earned(s.served[k], s.st.table[k], k in s.gone)
    ensures k < |Apply(s, e).st.table| && k < |Apply(s, e).served|
    ensures Earned(Apply(s, e).served[k], Apply(s, e).st.table[k], k in Apply(s, e).gone)
  {
    SameServed(s, e, k);
    GoneStep(s, e, k);
    if s.st.table[k].Finished() {
      FinishedStep(s, e, k);
    } else {
      UntornEntry(s, e, k);
    }
    hide Inv, Apply, Next;
  }

  lemma {:induction false} SameServed(s: Sys, e: Event, k: nat)
    requires Inv(s) && k < |s.served| && !(e.Commit? && s.phase.Exec?)
    ensures k < |Apply(s, e).served| && Apply(s, e).served[k] == s.served[k]
  {
    ShapedParts(s.st);
    hide Channels, Flying, Following, Paced, Coherent, Schedule;
  }

  lemma {:induction false} UntornEntry(s: Sys, e: Event, k: nat)
    requires Inv(s) && k < |s.st.table| && !s.st.table[k].Finished()
    requires !Tears(s, e, k) && !(e.Commit? && s.phase.Exec?)
    ensures k < |Apply(s, e).st.table|
    ensures Apply(s, e).st.table[k] == s.st.table[k]
      || (Apply(s, e).st.table[k] == Aborted(s.st.table[k], Cancelled) && k in Apply(s, e).gone)
  {
    ShapedParts(s.st);
    hide Channels, Following, Paced, Coherent, Schedule;
  }

  lemma {:induction false} EarnedAtBirth(s: Sys, e: Event, k: nat)
    requires Inv(s) && |s.st.table| <= k < |Apply(s, e).st.table|
    ensures k < |Apply(s, e).served|
    ensures Earned(Apply(s, e).served[k], Apply(s, e).st.table[k], k in Apply(s, e).gone)
  {
    TableGrows(s, e);
    hide Channels, Flying, Paced, Coherent, Next;
  }

  lemma {:induction false} ServedIsLong(s: Sys)
    requires Inv(s)
    ensures |s.served| == |s.st.table|
  {
  }

  lemma {:induction false} NobodyToTear(s: Sys, events: seq<Event>, k: nat)
    requires Inv(s) && |Run(s, events).st.table| <= k
    ensures !Torn(s, events, k)
  {
    if events != [] {
      hide Inv, Apply, Torn;
      var n := |events| - 1;
      TornSnoc(s, events, k);
      TableGrows(Run(s, events[..n]), events[n]);
      NobodyToTear(s, events[..n], k);
    }
  }

  /** What a run has decided about request k: torn and failed, or nobody's failure but its own. */
  ghost predicate Settles(s: Sys, k: nat, torn: bool)
    requires k < |s.st.table|
  {
    if torn then s.st.table[k].reason == Error && !InFlightRow(s, k)
    else k < |s.served| && Earned(s.served[k], s.st.table[k], k in s.gone)
  }

  lemma {:induction false} SettlesStep(s: Sys, e: Event, k: nat, torn: bool)
    requires Inv(s) && k < |s.st.table| && Settles(s, k, torn)
    ensures k < |Apply(s, e).st.table| && Settles(Apply(s, e), k, torn || Tears(s, e, k))
  {
    hide Inv, Apply, Earned, Tears, InFlightRow;
    if torn {
      SettledStep(s, e, k);
    } else if Tears(s, e, k) {
      TearFails(s, e, k);
      NotExecNotInFlight(Apply(s, e), k);
    } else {
      EarnedStep(s, e, k);
    }
  }

  lemma {:induction false} NotExecNotInFlight(s: Sys, k: nat)
    requires !s.phase.Exec?
    ensures !InFlightRow(s, k)
  {
  }

  lemma {:induction false} RunSettles(s: Sys, events: seq<Event>, k: nat)
    requires Inv(s) && k < |Run(s, events).st.table|
    requires k < |s.st.table| ==> Settles(s, k, false)
    ensures Settles(Run(s, events), k, Torn(s, events, k))
  {
    if events != [] {
      hide Inv, Apply, Torn, Tears, Earned, InFlightRow;
      var n := |events| - 1;
      var before := Run(s, events[..n]);
      TornSnoc(s, events, k);
      if k < |before.st.table| {
        RunSettles(s, events[..n], k);
        SettlesStep(before, events[n], k, Torn(s, events[..n], k));
      } else {
        NobodyToTear(s, events[..n], k);
        TableGrows(s, events[n]);
        EarnedAtBirth(before, events[n], k);
        assert !Tears(before, events[n], k);
      }
    }
  }

  // ---- the whole answer ----

  lemma {:induction false} SoloReaches(r: Runner, req: Request, out: seq<int>, i: nat)
    requires forall j | 0 <= j < |out| :: Next(r, req, req.prompt + out[..j]) == Some(out[j])
    requires NoEos(out, req.eos) && |out| < req.maxNew && i <= |out|
    ensures Solo(r, req, out[..i]) == Solo(r, req, out)
    decreases |out| - i
  {
    if i < |out| {
      SoloStep(r, req, out[..i], out[i]);
      assert out[..i] + [out[i]] == out[..i + 1];
      SoloReaches(r, req, out, i + 1);
    } else {
      assert out[..i] == out;
    }
  }

  lemma {:induction false} FinishedIsSolo(s: Sys, k: nat)
    requires Inv(s) && k < |s.st.table| && s.st.table[k].Finished() && k !in s.gone
    requires Settles(s, k, false)
    ensures Solo(s.served[k], s.st.table[k].req, []) == (s.st.table[k].out, s.st.table[k].reason)
  {
    var q := s.st.table[k];
    TransparentEntry(s, k);
    if q.reason == Error {
      assert Follows(s.served[k], q) && Told(q, k in s.gone);
      ReasonFromOutputs(q);
      SoloReaches(s.served[k], q.req, q.out, 0);
      assert q.out[..0] == [];
    }
  }

  /** From a fresh server: some step of the run took the loop down over request k. */
  ghost predicate TornSince(slots: int, maxTokens: int, runner: Runner, events: seq<Event>, k: nat) {
    StartInv(slots, maxTokens, runner);
    Torn(Start(slots, maxTokens, runner), events, k)
  }

  /**
   * The whole answer. In every run, a finished request that its client did not cancel has the
   * outputs and the reason that it gets alone, "error" included; unless the loop went down in the
   * middle of a tick while the request was unfinished, and then it reports "error" and has a part
   * of those outputs.
   */
  lemma {:induction false} AnswerIsSoloOrTorn(slots: int, maxTokens: int, runner: Runner, events: seq<Event>, k: nat)
    requires k !in Reach(slots, maxTokens, runner, events).gone
    requires k < |Reach(slots, maxTokens, runner, events).st.table|
    requires Reach(slots, maxTokens, runner, events).st.table[k].Finished()
    ensures var s := Reach(slots, maxTokens, runner, events);
      && k < |s.served|
      && var q := s.st.table[k]; var alone := Solo(s.served[k], q.req, []);
        if TornSince(slots, maxTokens, runner, events, k) then q.reason == Error && q.out <= alone.0
        else alone == (q.out, q.reason)
  {
    var s := Reach(slots, maxTokens, runner, events);
    hide Torn, Settles;
    TransparentEntry(s, k);
    StartInv(slots, maxTokens, runner);
    RunSettles(Start(slots, maxTokens, runner), events, k);
    if Torn(Start(slots, maxTokens, runner), events, k) {
      SettledReason(s, k);
    } else {
      FinishedIsSolo(s, k);
    }
  }

  lemma {:induction false} SettledReason(s: Sys, k: nat)
    requires k < |s.st.table| && Settles(s, k, true)
    ensures s.st.table[k].reason == Error
  {
  }

  // ---- runs in which nobody is torn ----

  /** The loop is not taken down from outside, and the model always has a column to be fed. */
  ghost predicate Calm(runner: Runner, events: seq<Event>) {
    forall i | 0 <= i < |events| :: CalmEvent(runner, events[i])
  }

  ghost predicate CalmEvent(runner: Runner, e: Event) {
    !e.Raise? && !e.Kill? && !e.Swap? && (e.Submit? ==> runner.Mock? || Feeds(e.req))
  }

  lemma {:induction false} CalmStep(s: Sys, e: Event, k: nat)
    requires Inv(s) && NeverEmptyRows(s) && CalmEvent(s.runner, e)
    ensures !Tears(s, e, k)
    ensures NeverEmptyRows(Apply(s, e)) && Apply(s, e).runner == s.runner
  {
    ShapedParts(s.st);
    if e.Commit? && s.phase.Exec? {
      TickGoesOn(s);
      TickSucceeds(s);
      ComesBackIff(s);
      CommitIsTick(s);
      TickExtends(s, s.phase.batch[0]);
    }
    hide Channels, Flying, Following, Paced, Coherent, Schedule, Ticking;
  }

  lemma {:induction false} CalmTearsNobody(s: Sys, events: seq<Event>, k: nat)
    requires Inv(s) && NeverEmptyRows(s) && Calm(s.runner, events)
    ensures !Torn(s, events, k) && NeverEmptyRows(Run(s, events)) && Run(s, events).runner == s.runner
  {
    if events != [] {
      hide Inv, Apply, Torn, Tears, NeverEmptyRows, CalmEvent;
      var n := |events| - 1;
      CalmTearsNobody(s, events[..n], k);
      CalmStep(Run(s, events[..n]), events[n], k);
      TornSnoc(s, events, k);
    }
  }

  /** Without such failures every finished request that its client did not cancel has its whole
      solo answer. */
  lemma {:induction false} CalmAnswerIsSolo(slots: int, maxTokens: int, runner: Runner, events: seq<Event>, k: nat)
    requires k !in Reach(slots, maxTokens, runner, events).gone && Calm(runner, events)
    requires k < |Reach(slots, maxTokens, runner, events).st.table|
    requires Reach(slots, maxTokens, runner, events).st.table[k].Finished()
    ensures var q := Reach(slots, maxTokens, runner, events).st.table[k];
      Solo(runner, q.req, []) == (q.out, q.reason)
  {
    StartInv(slots, maxTokens, runner);
    CalmTearsNobody(Start(slots, maxTokens, runner), events, k);
    hide Torn;
    AnswerIsSoloOrTorn(slots, maxTokens, runner, events, k);
    OneRunner(slots, maxTokens, runner, events);
  }

  // ---- serving one request alone ----

  /** A server that has seen only this request. */
  ghost predicate OnlyThis(s: Sys, runner: Runner, req: Request) {
    |s.st.table| == 1 && s.st.table[0].req == req && s.runner == runner && 0 !in s.gone
  }

  lemma {:induction false} OnlyThisStep(s: Sys, runner: Runner, req: Request)
    requires Inv(s) && OnlyThis(s, runner, req) && Apply(s, LoopStep(s)).runner == s.runner
    ensures OnlyThis(Apply(s, LoopStep(s)), runner, req)
  {
    TableGrows(s, LoopStep(s));
    StepExtends(s, LoopStep(s), 0);
    GoneStep(s, LoopStep(s), 0);
    hide Inv, Apply;
  }

  lemma {:induction false} DrainSettles(s: Sys, runner: Runner, req: Request, steps: nat)
    requires Inv(s) && OnlyThis(s, runner, req) && NeverEmptyRows(s)
    requires |s.served| == 1 && s.served[0] == runner && Settles(s, 0, false)
    ensures var r := Drain(s, steps);
      && OnlyThis(r, runner, req) && |r.served| == 1 && r.served[0] == runner && Settles(r, 0, false)
    decreases steps
  {
    hide Inv, Apply, Settles, NeverEmptyRows, OnlyThis;
    if steps > 0 && !AtRest(s) {
      var e := LoopStep(s);
      StepInv(s, e);
      OnlyThisIs(s, runner, req);
      LoopIsCalm(s);
      CalmStep(s, e, 0);
      OnlyThisStep(s, runner, req);
      OnlyThisIs(Apply(s, e), runner, req);
      SettlesStep(s, e, 0, false);
      OneRunnerStep(s, e);
      ServedIsLong(Apply(s, e));
      DrainSettles(Apply(s, e), runner, req, steps - 1);
    }
  }

  lemma {:induction false} OnlyThisIs(s: Sys, runner: Runner, req: Request)
    requires OnlyThis(s, runner, req)
    ensures |s.st.table| == 1 && s.st.table[0].req == req && s.runner == runner && 0 !in s.gone
  {
  }

  lemma {:induction false} LoopIsCalm(s: Sys)
    ensures CalmEvent(s.runner, LoopStep(s)) && !LoopStep(s).Swap?
  {
  }

  /** An empty prompt, alone on the model: it never gets a token. */
  ghost predicate Starved(s: Sys) {
    |s.st.table| == 1 && s.runner.Qwen? && s.st.table[0].Len() == 0 && s.st.table[0].reason in {Unfinished, Error}
  }

  lemma {:induction false} StarvedStep(s: Sys)
    requires Inv(s) && Starved(s)
    ensures Starved(Apply(s, LoopStep(s)))
  {
    ShapedParts(s.st);
    if s.phase.Exec? {
      TickRaisesIff(s);
      CommitIsTick(s);
    }
    hide Queued, Channels, Following, Paced, Coherent, Executing, Schedule;
  }

  lemma {:induction false} DrainStarves(s: Sys, steps: nat)
    requires Inv(s) && Starved(s)
    ensures Starved(Drain(s, steps))
    decreases steps
  {
    hide Inv, Apply, Starved;
    if steps > 0 && !AtRest(s) {
      StepInv(s, LoopStep(s));
      StarvedStep(s);
      DrainStarves(Apply(s, LoopStep(s)), steps - 1);
    }
  }

  /** The model is installed and has nothing to feed, although a token is asked for. */
  predicate StarvesAlone(runner: Runner, req: Request) {
    runner.Qwen? && req.prompt == [] && req.maxNew >= 1
  }

  /** A fresh server to which this request has just been submitted. */
  ghost function Visited(slots: int, maxTokens: int, runner: Runner, req: Request): (s: Sys)
    ensures Inv(s)
  {
    Reach(slots, maxTokens, runner, [Submit(req, true)])
  }

  lemma {:induction false} VisitedIs(slots: int, maxTokens: int, runner: Runner, req: Request)
    ensures var s := Visited(slots, maxTokens, runner, req);
      && s == Submitting(Start(slots, maxTokens, runner), req)
      && s.st.table == [Submitted(Created(req))] && s.served == [runner]
      && WorkBefore(s, 1) == (if req.maxNew <= 0 then 0 else req.maxNew)
      && s.phase.Ready? && s.st.slots == slots && (s.st.waiting == [] <==> req.maxNew <= 0)
      && OnlyThis(s, runner, req) && Settles(s, 0, false)
      && (if StarvesAlone(runner, req) then Starved(s) else NeverEmptyRows(s))
  {
    var start := Start(slots, maxTokens, runner);
    StartInv(slots, maxTokens, runner);
    RunNone(start);
    RunOne(start, [], Submit(req, true));
    ReadySteps(start, req);
    assert [] + [Submit(req, true)] == [Submit(req, true)];
    var s := Visited(slots, maxTokens, runner, req);
    assert s.st.table == [Submitted(Created(req))];
    SumSnoc([], Pending(s, 0));
    assert PendingUpTo(s, 1) == [] + [Pending(s, 0)];
  }

  /**
   * What `Solo` computes is what a server comes to that never sees another request: after two
   * steps for each token allowed, and three more. The one exception is an empty prompt, which
   * leaves the model nothing to feed: alone it takes the loop down. (What its row samples from when
   * another row makes the batch wider is an assumption of the abstract model.)
   */
  lemma {:induction false} ServedAlone(slots: int, maxTokens: int, runner: Runner, req: Request, steps: nat)
    requires slots >= 1 || req.maxNew <= 0
    requires steps >= 2 * (if req.maxNew <= 0 then 0 else req.maxNew) + 3
    ensures var s := Drain(Visited(slots, maxTokens, runner, req), steps);
      && AtRest(s) && |s.st.table| == 1
      && (s.st.table[0].out, s.st.table[0].reason)
        == if StarvesAlone(runner, req) then ([], Error) else Solo(runner, req, [])
  {
    hide Inv, Drain, Visited, AtRest, WorkBefore, StarvesAlone, NeverEmptyRows, Settles, OnlyThis;
    hide Starved, Solo, Submitting;
    var s := Visited(slots, maxTokens, runner, req);
    VisitedIs(slots, maxTokens, runner, req);
    Drains(s, steps);
    var r := Drain(s, steps);
    if StarvesAlone(runner, req) {
      DrainStarves(s, steps);
      StarvedAnswer(r);
    } else {
      DrainSettles(s, runner, req, steps);
      OnlyThisIs(r, runner, req);
      FinishedIsSolo(r, 0);
    }
  }

  lemma {:induction false} StarvedAnswer(s: Sys)
    requires Starved(s) && forall k | 0 <= k < |s.st.table| :: s.st.table[k].Finished()
    ensures |s.st.table| == 1 && s.st.table[0].out == [] && s.st.table[0].reason == Error
  {
  }

  // ---- the mock ----

  function Zeros(n: int): (r: seq<int>)
    ensures |r| == if n < 0 then 0 else n
  {
    seq(if n < 0 then 0 else n, _ => 0)
  }

  lemma {:induction false} SoloMock(req: Request, out: seq<int>)
    requires req.eos == {}
    ensures Solo(Mock, req, out) == (out + Zeros(req.maxNew - |out|), Length)
    decreases req.maxNew - |out|
  {
    if |out| < req.maxNew {
      assert out + [0] + Zeros(req.maxNew - |out| - 1) == out + Zeros(req.maxNew - |out|);
      SoloMock(req, out + [0]);
    } else {
      assert out + Zeros(req.maxNew - |out|) == out;
    }
  }

  /** On the mock, which has no stop tokens, every request that is neither cancelled nor torn runs
      to its limit and reports "length". */
  lemma {:induction false} MockReportsLength(slots: int, maxTokens: int, runner: Runner, events: seq<Event>, k: nat)
    requires var s := Reach(slots, maxTokens, runner, events);
      && k !in s.gone && k < |s.st.table| && s.st.table[k].Finished() && s.st.table[k].req.eos == {}
      && k < |s.served| && s.served[k] == Mock
    requires !TornSince(slots, maxTokens, runner, events, k)
    ensures var q := Reach(slots, maxTokens, runner, events).st.table[k];
      q.reason == Length && q.out == Zeros(q.req.maxNew)
  {
    hide TornSince, Reach, Solo;
    AnswerIsSoloOrTorn(slots, maxTokens, runner, events, k);
    SoloMock(Reach(slots, maxTokens, runner, events).st.table[k].req, []);
  }
}
