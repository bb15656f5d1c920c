/** Concrete runs: where a tempting claim fails, and that the cache really is reused. */
module Witnesses {
  import opened Sums
  import opened Requests
  import opened Sampling
  import opened Padding
  import opened Admission
  import opened Effects
  import opened Protocol
  import opened Invariants
  import opened Transparency
  import opened Reuse
  import opened Streaming
  import opened EndToEnd
  import opened Budget

  function Ask(tokens: int): Request {
    Request([7], tokens, 0.0, None, {})
  }

  /** The only waiting request is admitted into an empty batch, if there is a slot. */
  lemma {:induction false} OneFits(st: State)
    requires Shaped(st) && st.running == [] && st.waiting == [0] && |st.table| == 1
    ensures Schedule(st) == if st.slots >= 1 then st.(running := [0], waiting := []) else st
  {
    ShapedParts(st);
    var live := Live(st.table, st.running);
    assert live + st.waiting[..1] == [0] && live + st.waiting[..0] == [] && st.waiting[0..] == st.waiting;
    assert Fits(st, live, 1) <==> st.slots >= 1;
    var n := Admitted(st, live, 1);
  }

  /** One request, submitted to a fresh server and taken into its first batch. */
  lemma {:induction false} FirstTurn(slots: int, maxTokens: int, runner: Runner, req: Request)
    requires req.maxNew >= 1 && slots >= 1
    ensures var a := Submitting(Start(slots, maxTokens, runner), req);
      && Inv(a) && a.phase.Ready? && a.st.table == [Created(req)] && a.st.waiting == [0] && a.st.running == []
      && Inv(Turning(a)) && Turning(a).phase == Exec([0], true) && Turning(a).runner == runner
      && Turning(a).st == a.st.(running := [0], waiting := []) && Turning(a).served == [runner]
      && Turning(a).cache == None && Turning(a).gone == {}
  {
    hide Inv, Turning, Schedule;
    var s := Start(slots, maxTokens, runner);
    StartInv(slots, maxTokens, runner);
    SubmitInv(s, req);
    OneArrives(s, req);
    var a := Submitting(s, req);
    TurnInv(a);
    InvIsShaped(a);
    TakenIn(a);
  }

  function CancelInFlight(): seq<Event> {
    [Submit(Ask(1), true), Turn, Cancel(0), Commit]
  }

  lemma {:induction false} ExecSteps(s: Sys)
    requires Inv(s) && s.phase.Exec?
    ensures InRange(s.phase.batch, |s.st.table|) && |s.served| == |s.st.table|
    ensures Apply(s, Commit) == Ticking(s)
    ensures |s.st.table| > 0 ==> Apply(s, Cancel(0)) == Cancelling(s, 0)
  {
    hide Inv, Ticking, Cancelling;
    InFlight(s);
  }

  lemma {:induction false} ReachIs(slots: int, maxTokens: int, runner: Runner, events: seq<Event>)
    ensures Inv(Start(slots, maxTokens, runner))
    ensures Reach(slots, maxTokens, runner, events) == Run(Start(slots, maxTokens, runner), events)
  {
    StartInv(slots, maxTokens, runner);
  }

  /**
   * A client that leaves while its token is being computed: the token arrives behind the
   * sentinel, a second sentinel follows, and "cancelled" turns into "length".
   */
  lemma {:induction false} LateToken()
    ensures var s := Reach(1, 1, Mock, CancelInFlight());
      |s.st.table| == 1 && s.st.table[0] == Entry(Ask(1), [0], Length, [End, Token(0), End])
  {
    hide Inv, Turning, Submitting, Cancelling, Ticking, Run, Apply, Reach, Ask;
    var s, req := Start(1, 1, Mock), Ask(1);
    ReachIs(1, 1, Mock, CancelInFlight());
    AskIs(1);
    FirstTurn(1, 1, Mock, req);
    var b := Turning(Submitting(s, req));
    ReadySteps(s, req);
    ReadySteps(Submitting(s, req), req);
    ExecSteps(b);
    LateTokenTick(b);
    RunFour(s, Submit(req, true), Turn, Cancel(0), Commit);
    ExecSteps(Cancelling(b, 0));
  }

  lemma {:induction false} AskIs(tokens: int)
    ensures Ask(tokens).maxNew == tokens
  {
  }

  lemma {:induction false} LateTokenTick(b: Sys)
    requires b.phase == Exec([0], true) && b.runner == Mock && b.st.table == [Created(Ask(1))]
    requires b.st.running == [0] && b.st.waiting == [] && |b.served| == 1 && Shaped(b.st)
    ensures var c := Cancelling(b, 0);
      && c.phase == Exec([0], true) && InRange([0], |c.st.table|) && |c.served| == |c.st.table|
      && Ticking(c).st.table == [Entry(Ask(1), [0], Length, [End, Token(0), End])]
  {
    AbortShape(b.st, 0, Cancelled);
    var c := Cancelling(b, 0);
    assert [] + [End] == [End];
    assert c.st.table == [Entry(Ask(1), [], Cancelled, [End])];
    hide Cancelling, Ticking;
    LateDelivery(c);
  }

  lemma {:induction false} LateDelivery(c: Sys)
    requires c.phase == Exec([0], true) && c.runner == Mock && Shaped(c.st)
    requires c.st.table == [Entry(Ask(1), [], Cancelled, [End])] && c.st.running == [0] && |c.served| == 1
    ensures InRange([0], |c.st.table|)
    ensures Ticking(c).st.table == [Entry(Ask(1), [0], Length, [End, Token(0), End])]
  {
    hide Executing, EndTick, Ticking, RowResult, Shaped;
    MockPicks(c);
    TickingIs(c);
    LateRow();
    TickedAlone(c.st.table, Ticking(c).st.table, Some(0));
  }

  lemma {:induction false} MockPicks(c: Sys)
    requires c.phase.Exec? && c.phase.batch == [0] && c.runner == Mock && InRange([0], |c.st.table|)
    ensures Executing(c).Done? && Executing(c).picks == [Some(0)]
  {
  }

  lemma {:induction false} TickedAlone(before: seq<Entry>, after: seq<Entry>, pick: Option<int>)
    requires |before| == 1 && Ticked(before, after, [0], [pick])
    ensures after == [RowResult(before[0], pick)]
  {
    assert after[[0][0]] == RowResult(before[[0][0]], [pick][0]);
  }

  lemma {:induction false} LateRow()
    ensures RowResult(Entry(Ask(1), [], Cancelled, [End]), Some(0)) == Entry(Ask(1), [0], Length, [End, Token(0), End])
  {
    assert [] + [0] == [0] && [End] + [Token(0)] + [End] == [End, Token(0), End];
  }

  /** A model that always has something to choose from. */
  ghost predicate Talks(model: Model) {
    forall cells: seq<Cell> :: model.logits(cells) != []
  }

  /** The cache is reused: the second tick of a request that is alone feeds one column. */
  lemma {:induction false} CacheIsReused(model: Model, pad: int)
    requires Talks(model)
    ensures Reach(1, 1, Qwen(model, pad), [Submit(Ask(2), true), Turn, Commit, Turn]).phase == Exec([0], false)
  {
    hide Inv, Turning, Submitting, Ticking, Run, Apply, Reach, Ask;
    var r, req := Qwen(model, pad), Ask(2);
    var s := Start(1, 1, r);
    ReachIs(1, 1, r, [Submit(req, true), Turn, Commit, Turn]);
    AskIs(2);
    FirstTurn(1, 1, r, req);
    var b := Turning(Submitting(s, req));
    ReadySteps(s, req);
    ReadySteps(Submitting(s, req), req);
    ExecSteps(b);
    FirstTickGoesOn(b);
    SecondTurn(Ticking(b));
    RunFour(s, Submit(req, true), Turn, Commit, Turn);
    ReadySteps(Ticking(b), req);
  }

  lemma {:induction false} FirstTickGoesOn(b: Sys)
    requires b.phase == Exec([0], true) && b.runner.Qwen? && Talks(b.runner.model) && Shaped(b.st)
    requires b.st.table == [Created(Ask(2))] && b.st.running == [0] && b.st.waiting == [] && |b.served| == 1
    ensures InRange([0], |b.st.table|) && |b.served| == |b.st.table|
    ensures var c := Ticking(b);
      && c.phase.Ready? && c.members == [0] && c.st.running == [0] && c.st.waiting == []
      && |c.st.table| == 1 && !c.st.table[0].Finished() && Shaped(c.st)
  {
    FirstPicks(b);
    TickingIs(b);
    TickExtends(b, 0);
    hide Executing, EndTick;
    assert Ticking(b).st.table[[0][0]] == RowResult(b.st.table[[0][0]], Executing(b).picks[0]);
    ShapedTable(b.st, Ticking(b).st);
  }

  lemma {:induction false} ShapedTable(st: State, later: State)
    requires Shaped(st) && later.running == st.running && later.waiting == st.waiting
    requires |later.table| == |st.table|
    ensures Shaped(later)
  {
  }

  /** The model has a token for the only row of the first tick. */
  lemma {:induction false} FirstPicks(b: Sys)
    requires b.phase == Exec([0], true) && b.runner.Qwen? && Talks(b.runner.model)
    requires b.st.table == [Created(Ask(2))]
    ensures InRange([0], |b.st.table|) && Executing(b).Done? && Executing(b).picks[0].Some?
  {
    var rows := Rows(b.st.table, [0]);
    assert rows[0] == Created(Ask(2)) && rows[0].Len() == 1;
    assert Width(rows) > 0;
    hide Width;
    PrefillIsAlone(b.runner.model, b.runner.pad, rows);
    hide Picks, Fed, Matrix;
  }

  lemma {:induction false} SecondTurn(c: Sys)
    requires c.phase.Ready? && c.members == [0] && c.st.running == [0] && c.st.waiting == []
    requires |c.st.table| == 1 && !c.st.table[0].Finished() && Shaped(c.st)
    ensures Turning(c) == c.(phase := Exec([0], false))
  {
    var n := ScheduleShape(c.st);
    LiveIsAll(c.st.table, [0]);
  }

  lemma {:induction false} NoSlotTurn(a: Sys)
    requires Inv(a) && a.phase.Ready? && a.st.slots == 0
    requires a.st.waiting == [0] && a.st.running == [] && |a.st.table| == 1 && a.members == [] && a.runner == Mock
    ensures Turning(a) == a
  {
    hide Queued, Channels, Flying, Following, Paced, Coherent;
    OneFits(a.st);
  }

  lemma {:induction false} OneArrives(s: Sys, req: Request)
    requires s.st.table == [] && s.st.waiting == [] && s.st.running == [] && req.maxNew >= 1
    ensures Submitting(s, req).st == s.st.(table := [Created(req)], waiting := [0])
    ensures Submitting(s, req).phase == s.phase && Submitting(s, req).members == s.members
    ensures Submitting(s, req).runner == s.runner && Submitting(s, req).gone == s.gone
  {
    assert [] + [0] == [0] && [] + [Created(req)] == [Created(req)];
  }

  /** Without a slot to give, one waiting request makes the loop spin: a turn changes nothing. */
  lemma {:induction false} NoSlotsSpins()
    ensures var s := Reach(0, 1, Mock, [Submit(Ask(1), true), Turn]);
      s.phase.Ready? && s.st.waiting == [0] && Apply(s, Turn) == s
  {
    hide Inv, Apply, Turning, Submitting, Run, Reach, Ask;
    var s, req := Start(0, 1, Mock), Ask(1);
    ReachIs(0, 1, Mock, [Submit(req, true), Turn]);
    AskIs(1);
    OneArrives(s, req);
    ReadySteps(s, req);
    SubmitInv(s, req);
    var a := Submitting(s, req);
    ReadySteps(a, req);
    NoSlotTurn(a);
    RunNone(s);
    RunTwo(s, [], Submit(req, true), Turn);
    assert [] + [Submit(req, true), Turn] == [Submit(req, true), Turn];
  }

  lemma {:induction false} QuietSteps(s: Sys, req: Request)
    requires Inv(s)
    ensures s.phase.Ready? && s.st.waiting == [] && s.st.running == [] ==> Apply(s, Turn) == s.(phase := Asleep)
    ensures s.phase.Asleep? ==> Apply(s, Submit(req, true)) == Submitting(s, req)
    ensures s.phase.Asleep? ==> Apply(s, Kill) == s.(phase := Dead(false), cache := None)
    ensures s.phase.Dead? ==> Apply(s, Wake) == s
  {
    hide Queued, Channels, Flying, Following, Paced, Coherent, Submitting;
  }

  /** A request that arrives during the idle sleep of a loop that is then cancelled stays unfinished. */
  lemma {:induction false} KilledAsleepStrands()
    ensures var s := Reach(1, 1, Mock, [Turn, Submit(Ask(1), true), Kill, Wake]);
      s.phase == Dead(false) && s.st.table == [Created(Ask(1))] && s.st.waiting == [0]
  {
    hide Inv, Apply, Submitting, Run, Reach, Ask;
    var s, req := Start(1, 1, Mock), Ask(1);
    AskIs(1);
    ReachIs(1, 1, Mock, [Turn, Submit(req, true), Kill, Wake]);
    RunFour(s, Turn, Submit(req, true), Kill, Wake);
    QuietSteps(s, req);
    var a := s.(phase := Asleep);
    QuietSteps(a, req);
    OneArrives(a, req);
    var b := Submitting(a, req);
    QuietSteps(b, req);
    QuietSteps(b.(phase := Dead(false), cache := None), req);
  }

  /** A decoder that writes something for no tokens tells a stream and a one-shot answer apart. */
  lemma {:induction false} EmptyStreamDiffers(decoders: Decoders, r: Runner)
    requires Monotone(decoders) && decoders(r)([]) != ""
    ensures var obs := [Observation(End, [], Length, r)]; var chunks := [Chunk("", Some(Length))];
      Legal(obs) && Streams(decoders, obs, chunks) && Text(chunks) != Whole(decoders, obs)
  {
    var chunks := [Chunk("", Some(Length))];
    TextSnoc([], chunks[0]);
    assert [] + [chunks[0]] == chunks;
    assert [Observation(End, [], Length, r)][..0] == [];
  }

  // ---- over the token budget ----

  function Overrun(): seq<Event> {
    [Submit(Ask(3), true), Submit(Ask(3), true), Turn, Commit]
  }

  lemma {:induction false} OverrunRun(s: Sys) returns (a: Sys, b: Sys)
    requires Inv(s) && s.phase.Ready?
    ensures a == Submitting(s, Ask(3)) && b == Submitting(a, Ask(3)) && b.phase.Ready?
    ensures Inv(b) && Inv(Turning(b)) && Run(s, Overrun()) == Apply(Turning(b), Commit)
  {
    hide Inv, Submitting, Turning, Apply, Run;
    var submit := Submit(Ask(3), true);
    RunFour(s, submit, submit, Turn, Commit);
    a := Submitting(s, Ask(3));
    b := Submitting(a, Ask(3));
    ReadySteps(s, Ask(3));
    ReadySteps(a, Ask(3));
    ReadySteps(b, Ask(3));
  }

  lemma {:induction false} TwoFit(st: State)
    requires Shaped(st) && st.running == [] && st.waiting == [0, 1] && |st.table| == 2
    requires st.table[0].Len() == 1 && st.table[1].Len() == 1 && st.slots == 8 && st.maxTokens == 2
    ensures Schedule(st) == st.(running := [0, 1], waiting := [])
    ensures InRange([0, 1], |st.table|) && TokenSum(st.table, [0, 1]) == 2
  {
    ShapedParts(st);
    TokenSumSnoc(st.table, [], 0);
    TokenSumSnoc(st.table, [0], 1);
    assert [] + [0] == [0] && [0] + [1] == [0, 1];
    var live := Live(st.table, st.running);
    assert live + st.waiting[..2] == [0, 1];
    assert Fits(st, live, 2);
  }

  /** Both tiny requests are admitted together, and run as one prefill. */
  lemma {:induction false} BothRun(b: Sys)
    requires b == Submitting(Submitting(Start(8, 2, b.runner), Ask(3)), Ask(3))
    requires Inv(b)
    ensures var c := Turning(b);
      && c.phase == Exec([0, 1], true) && c.st == b.st.(running := [0, 1], waiting := []) && c.runner == b.runner
      && InRange([0, 1], |c.st.table|) && TokenSum(c.st.table, [0, 1]) == 2
  {
    assert b.st.waiting == [0, 1] && b.st.running == [] && |b.st.table| == 2;
    hide Inv;
    TwoFit(b.st);
  }

  /** A reachable batch over its budget: two one-token prompts under a budget of two, one tick later. */
  lemma {:induction false} BudgetIsOverrun()
    ensures var s := Reach(8, 2, Mock, Overrun());
      && s.phase.Ready? && s.st.running == [0, 1]
      && InRange(s.st.running, |s.st.table|)
      && TokenSum(s.st.table, s.st.running) == 4 > s.st.maxTokens
  {
    hide Inv, Run;
    StartInv(8, 2, Mock);
    var a, b := OverrunRun(Start(8, 2, Mock));
    BothRun(b);
    AfterBoth(b);
  }

  lemma {:induction false} AfterBoth(b: Sys)
    requires Inv(b) && b.phase.Ready? && Shaped(b.st) && Inv(Turning(b))
    requires Turning(b).phase == Exec([0, 1], true)
    requires Turning(b).st == b.st.(running := [0, 1], waiting := []) && Turning(b).runner == Mock
    requires InRange([0, 1], |b.st.table|) && TokenSum(b.st.table, [0, 1]) == 2
    ensures var r := Apply(Turning(b), Commit);
      && r.phase.Ready? && r.st.running == [0, 1] && r.st.maxTokens == b.st.maxTokens
      && InRange([0, 1], |r.st.table|) && TokenSum(r.st.table, [0, 1]) == 4
  {
    hide Inv, Turning;
    var c := Turning(b);
    InFlight(c);
    OneTickLater(c);
  }

  lemma {:induction false} OneTickLater(c: Sys)
    requires Shaped(c.st) && c.phase == Exec([0, 1], true) && c.st.running == [0, 1] && c.runner == Mock
    requires InRange([0, 1], |c.st.table|) && |c.served| == |c.st.table| && TokenSum(c.st.table, [0, 1]) == 2
    ensures var r := Ticking(c);
      && r.phase.Ready? && r.st.running == [0, 1] && r.st.maxTokens == c.st.maxTokens
      && InRange([0, 1], |r.st.table|) && TokenSum(r.st.table, [0, 1]) == 4
  {
    var picks: seq<Option<int>> := [Some(0), Some(0)];
    assert Executing(c).Done? && Executing(c).picks == picks;
    assert |Drawn(picks)| == 2 by { assert |Drawn(picks[..1])| == 1; }
    TickStaysInBudgetIff(c.st, [0, 1], picks);
    TickingIs(c);
    hide Executing, EndTick;
  }

  /** Three prompt tokens under a budget of two, and no tick at all: the head of the queue is let
      into an empty batch whatever its length. */
  lemma {:induction false} LongPromptRuns()
    ensures var s := Reach(1, 2, Mock, [Submit(Long(), true), Turn]);
      && s.phase == Exec([0], true) && s.st.running == [0]
      && InRange(s.st.running, |s.st.table|)
      && TokenSum(s.st.table, s.st.running) == 3 > s.st.maxTokens
  {
    hide Inv, Run, Reach, Apply, Turning, Submitting, Long;
    var s, req := Start(1, 2, Mock), Long();
    ReachIs(1, 2, Mock, [Submit(req, true), Turn]);
    LongIs();
    FirstTurn(1, 2, Mock, req);
    ReadySteps(s, req);
    ReadySteps(Submitting(s, req), req);
    RunNone(s);
    RunTwo(s, [], Submit(req, true), Turn);
    assert [] + [Submit(req, true), Turn] == [Submit(req, true), Turn];
    LoneTokens([Created(req)], 0);
    SameTokens(s, req);
  }

  function Long(): Request {
    Request([7, 7, 7], 1, 0.0, None, {})
  }

  lemma {:induction false} LongIs()
    ensures Long().maxNew == 1 && Created(Long()).Len() == 3
  {
  }

  lemma {:induction false} SameTokens(s: Sys, req: Request)
    ensures Submitting(s, req).st.maxTokens == s.st.maxTokens
  {
  }

  // ---- carried to another runner ----

  function Handover(model: Model, pad: int): seq<Event> {
    [Turn, Submit(Ask(2), true), Swap(Qwen(model, pad)), Turn, Commit]
  }

  /** A request that the mock accepted in its idle sleep is waiting when the model takes over. */
  lemma {:induction false} Reloaded(model: Model, pad: int) returns (c: Sys)
    ensures Inv(Start(1, 1, Mock))
    ensures Run(Start(1, 1, Mock), Handover(model, pad)[..3]) == c && Inv(c)
    ensures c.phase.Ready? && c.members == [] && c.runner == Qwen(model, pad)
    ensures c.st.table == [Created(Ask(2))] && c.st.waiting == [0] && c.st.running == [] && c.st.slots == 1
    ensures c.origin == [Mock] && c.served == [Mock]
  {
    hide Inv, Apply, Submitting, Run, Ask;
    StartInv(1, 1, Mock);
    AskIs(2);
    var s, req, to := Start(1, 1, Mock), Ask(2), Qwen(model, pad);
    RunNone(s);
    RunTwo(s, [], Turn, Submit(req, true));
    RunOne(s, [Turn, Submit(req, true)], Swap(to));
    assert [] + [Turn, Submit(req, true)] == [Turn, Submit(req, true)];
    assert Handover(model, pad)[..3] == [Turn, Submit(req, true)] + [Swap(to)];
    QuietSteps(s, req);
    var a := s.(phase := Asleep);
    QuietSteps(a, req);
    OneArrives(a, req);
    BothMock(a, req);
    var b := Submitting(a, req);
    SwapAsleep(b, to);
    c := Run(s, Handover(model, pad)[..3]);
  }

  lemma {:induction false} BothMock(s: Sys, req: Request)
    requires s.origin == [] && s.served == [] && s.runner == Mock
    ensures Submitting(s, req).origin == [Mock] && Submitting(s, req).served == [Mock]
  {
  }

  lemma {:induction false} SwapAsleep(s: Sys, to: Runner)
    requires Inv(s) && s.phase.Asleep?
    ensures Apply(s, Swap(to)) == s.(phase := Ready, members := [], cache := None, runner := to)
  {
    hide Inv;
  }

  lemma {:induction false} TakenIn(c: Sys)
    requires c.phase.Ready? && c.members == [] && Shaped(c.st) && c.st.slots >= 1
    requires |c.st.table| == 1 && c.st.waiting == [0] && c.st.running == []
    ensures Turning(c) == c.(st := c.st.(running := [0], waiting := []), phase := Exec([0], true))
  {
    OneFits(c.st);
  }

  lemma {:induction false} FirstAnswer(d: Sys)
    requires d.phase == Exec([0], true) && d.runner.Qwen? && Talks(d.runner.model) && Shaped(d.st)
    requires d.st.table == [Created(Ask(2))] && d.st.running == [0] && d.st.waiting == [] && |d.served| == 1
    ensures InRange([0], |d.st.table|) && |d.served| == |d.st.table|
    ensures var e := Ticking(d);
      && e.origin == d.origin && e.served == [d.runner]
      && |e.st.table| == 1 && e.st.table[0].req == Ask(2) && |e.st.table[0].out| == 1
  {
    hide Executing, Ticking, Ticked, RowResult, Shaped, Ask;
    FirstPicks(d);
    TickingIs(d);
    var picks := Executing(d).picks;
    assert picks == [picks[0]];
    TickedAlone(d.st.table, Ticking(d).st.table, picks[0]);
    FirstRow(picks[0]);
    TickRecordsRunner(d);
  }

  lemma {:induction false} FirstRow(pick: Option<int>)
    requires pick.Some?
    ensures RowResult(Created(Ask(2)), pick).req == Ask(2) && |RowResult(Created(Ask(2)), pick).out| == 1
  {
  }

  lemma {:induction false} TickRecordsRunner(d: Sys)
    requires d.phase == Exec([0], true) && InRange([0], |d.st.table|) && |d.served| == |d.st.table| == 1
    ensures Executing(d).Done? ==> Ticking(d).origin == d.origin && Ticking(d).served == [d.runner]
  {
    hide Executing, EndTick;
  }

  /**
   * Accepted under the mock, answered by the model: after the handover the request keeps its
   * prompt ids and stop tokens, and its first output is the new model's.
   */
  lemma {:induction false} AnsweredByAnother(model: Model, pad: int)
    requires Talks(model)
    ensures var s := Reach(1, 1, Mock, Handover(model, pad));
      && s.origin == [Mock] && s.served == [Qwen(model, pad)]
      && |s.st.table| == 1 && s.st.table[0].req == Ask(2) && |s.st.table[0].out| == 1
      && Next(Qwen(model, pad), Ask(2), Ask(2).prompt) == Some(s.st.table[0].out[0])
  {
    hide Inv, Apply, Turning, Ticking, Run, Ask, Next;
    var c := Reloaded(model, pad);
    var events := Handover(model, pad);
    assert events == events[..3] + [Turn, Commit];
    RunTwo(Start(1, 1, Mock), events[..3], Turn, Commit);
    ReadySteps(c, Ask(2));
    InvIsShaped(c);
    TakenIn(c);
    var d := Turning(c);
    ExecSteps(d);
    FirstAnswer(d);
    FirstOutput(Reach(1, 1, Mock, events));
  }

  lemma {:induction false} InvIsShaped(s: Sys)
    requires Inv(s)
    ensures Shaped(s.st)
  {
  }

  lemma {:induction false} FirstOutput(s: Sys)
    requires Inv(s) && |s.st.table| == 1 && |s.served| == 1 && |s.st.table[0].out| == 1
    ensures Next(s.served[0], s.st.table[0].req, s.st.table[0].req.prompt) == Some(s.st.table[0].out[0])
  {
    var q := s.st.table[0];
    assert Follows(s.served[0], q);
    assert q.req.prompt + q.out[..0] == q.req.prompt;
  }

  // ---- one reading, from the submission to the last frame ----

  function OneToken(): seq<Event> {
    [Submit(Ask(1), true), Turn, Commit]
  }

  lemma {:induction false} OneTokenRun()
    ensures Inv(Start(1, 1, Mock))
    ensures var s := Run(Start(1, 1, Mock), OneToken());
      s.runner == Mock && s.gone == {} && s.st.table == [Entry(Ask(1), [0], Length, [Token(0), End])]
  {
    hide Inv, Turning, Submitting, Ticking, Run, Apply, Ask;
    var s, req := Start(1, 1, Mock), Ask(1);
    StartInv(1, 1, Mock);
    AskIs(1);
    FirstTurn(1, 1, Mock, req);
    var b := Turning(Submitting(s, req));
    ReadySteps(s, req);
    ReadySteps(Submitting(s, req), req);
    ExecSteps(b);
    InvIsShaped(b);
    OnlyTick(b, Created(req));
    OnlyRow();
    RunNone(s);
    RunOne(s, [], Submit(req, true));
    RunTwo(s, [Submit(req, true)], Turn, Commit);
    assert [] + [Submit(req, true)] == [Submit(req, true)];
    assert OneToken() == [Submit(req, true)] + [Turn, Commit];
  }

  /** One tick of the mock with a single row. */
  lemma {:induction false} OnlyTick(b: Sys, q: Entry)
    requires b.phase.Exec? && b.phase.batch == [0] && b.runner == Mock && Shaped(b.st)
    requires b.st.table == [q] && b.st.running == [0] && |b.served| == 1
    ensures InRange([0], |b.st.table|) && |b.served| == |b.st.table|
    ensures Ticking(b).st == b.st.(table := [RowResult(q, Some(0))])
    ensures Ticking(b).phase.Ready? && Ticking(b).members == [0] && Ticking(b).runner == Mock
    ensures Ticking(b).gone == b.gone && Ticking(b).served == [Mock]
  {
    hide Executing, EndTick, Ticking, RowResult, Shaped;
    MockPicks(b);
    TickingIs(b);
    TickedAlone(b.st.table, Ticking(b).st.table, Some(0));
    MockTickMoves(b);
  }

  lemma {:induction false} MockTickMoves(b: Sys)
    requires b.phase.Exec? && b.phase.batch == [0] && b.runner == Mock
    requires InRange([0], |b.st.table|) && |b.served| == |b.st.table| == 1
    ensures var c := Ticking(b);
      && c.phase.Ready? && c.members == [0] && c.runner == Mock && c.gone == b.gone && c.served == [Mock]
  {
    hide EndTick;
  }

  lemma {:induction false} OnlyRow()
    ensures RowResult(Created(Ask(1)), Some(0)) == Entry(Ask(1), [0], Length, [Token(0), End])
  {
    assert [] + [0] == [0] && [] + [Token(0)] + [End] == [Token(0), End];
  }

  /** Each runner with its own tokenizer, the mock with its word. */
  ghost predicate MockWrites(decoders: Decoders) {
    decoders(Mock) == MockDecode
  }

  /** After the tick the reader finds its token and then the sentinel; the client gets the text,
      the reason, and [DONE]. */
  lemma {:induction false} OneReading(decoders: Decoders)
    requires MockWrites(decoders)
    ensures Inv(Start(1, 1, Mock))
    ensures var s := Start(1, 1, Mock);
      var chunks := [Chunk("mock ", None), Chunk("", Some(Length))];
      && Answered(s, OneToken(), 0, [3, 3])
      && var obs := Seen(s, OneToken(), 0, [3, 3]);
      && obs == [Observation(Token(0), [0], Length, Mock), Observation(End, [0], Length, Mock)]
      && Streams(decoders, obs, chunks)
      && Framed(chunks, Length, [Data(chunks[0]), Data(chunks[1]), DoneMark])
  {
    hide Inv, Run, Ask;
    OneTokenRun();
    AtEnd(Start(1, 1, Mock), OneToken());
    ReadingIs(Start(1, 1, Mock), OneToken());
    MockWord();
    var obs := Seen(Start(1, 1, Mock), OneToken(), 0, [3, 3]);
    SplicedNext(decoders, obs, 0);
    assert obs[..0] == [];
  }

  lemma {:induction false} ReadingIs(s: Sys, events: seq<Event>)
    requires Inv(s) && |events| == 3
    requires At(s, events, 3).st.table == [Entry(Ask(1), [0], Length, [Token(0), End])]
    requires At(s, events, 3).runner == Mock && At(s, events, 3).gone == {}
    ensures Answered(s, events, 0, [3, 3])
    ensures Seen(s, events, 0, [3, 3])
      == [Observation(Token(0), [0], Length, Mock), Observation(End, [0], Length, Mock)]
  {
    hide Inv, At;
    assert ReadsAt(s, events, 0, 3, 0, false) && ReadsAt(s, events, 0, 3, 1, true);
  }

  lemma {:induction false} MockWord()
    ensures MockDecode([0]) == "mock "
    ensures Text([Chunk("mock ", None), Chunk("", Some(Length))]) == "mock "
  {
    var word, last := Chunk("mock ", None), Chunk("", Some(Length));
    TextSnoc([], word);
    TextSnoc([word], last);
    assert [] + [word] == [word] && [word] + [last] == [word, last];
  }

  // ---- read after a reload ----

  /** Two tokens on the mock; then everybody is done, the loop falls asleep, and a model is loaded. */
  function Reload(to: Runner): seq<Event> {
    [Submit(Ask(2), true), Turn, Commit, Turn, Commit, Turn, Turn, Swap(to)]
  }

  function Answer(): Entry {
    Entry(Ask(2), [0, 0], Length, [Token(0), Token(0), End])
  }

  lemma {:induction false} TwoDeliveries()
    ensures var q := RowResult(Created(Ask(2)), Some(0)); !q.Finished() && RowResult(q, Some(0)) == Answer()
  {
    var q := RowResult(Created(Ask(2)), Some(0));
    assert q == Entry(Ask(2), [0], Unfinished, [Token(0)]);
    assert [0] + [0] == [0, 0] && [Token(0)] + [Token(0)] + [End] == [Token(0), Token(0), End];
  }

  lemma {:induction false} TwoTokens(to: Runner) returns (f: Sys)
    ensures Inv(Start(1, 1, Mock)) && f == Run(Start(1, 1, Mock), Reload(to)[..5]) && Inv(f)
    ensures f.phase.Ready? && f.members == [0] && f.st.running == [0] && f.st.waiting == []
    ensures f.st.table == [Answer()] && f.runner == Mock && f.gone == {} && f.served == [Mock]
  {
    hide Inv, Turning, Submitting, Ticking, Run, Apply, Ask, RowResult, Shaped;
    var s, req := Start(1, 1, Mock), Ask(2);
    StartInv(1, 1, Mock);
    AskIs(2);
    FirstTurn(1, 1, Mock, req);
    TwoDeliveries();
    var a := Submitting(s, req);
    InvIsShaped(a);
    var b := Turning(a);
    RunFour(s, Submit(req, true), Turn, Commit, Turn);
    ReadySteps(s, req);
    ReadySteps(a, req);
    ExecSteps(b);
    InvIsShaped(b);
    OnlyTick(b, Created(req));
    var c := Ticking(b);
    InvIsShaped(c);
    ReadySteps(c, req);
    SecondTurn(c);
    var d := Turning(c);
    ExecSteps(d);
    InvIsShaped(d);
    OnlyTick(d, c.st.table[0]);
    RunOne(s, [Submit(req, true), Turn, Commit, Turn], Commit);
    assert Reload(to)[..5] == [Submit(req, true), Turn, Commit, Turn] + [Commit];
    f := Run(s, Reload(to)[..5]);
  }

  /** Nobody is left: the finished row is swept, and at the next test the loop goes to sleep. */
  lemma {:induction false} FallsAsleep(f: Sys)
    requires Inv(f) && f.phase.Ready? && f.runner == Mock
    requires f.st.running == [0] && f.st.waiting == [] && |f.st.table| == 1 && f.st.table[0].Finished()
    ensures Apply(f, Turn) == f.(st := f.st.(running := []), members := []) && Inv(Apply(f, Turn))
    ensures Apply(Apply(f, Turn), Turn) == f.(st := f.st.(running := []), members := [], phase := Asleep)
  {
    InvIsShaped(f);
    StepInv(f, Turn);
    SweptTurn(f);
    ReadySteps(f, Ask(1));
    hide Inv, Turning, Apply;
    QuietSteps(Apply(f, Turn), Ask(1));
  }

  lemma {:induction false} SweptTurn(f: Sys)
    requires Shaped(f.st) && f.phase.Ready? && f.runner == Mock
    requires f.st.running == [0] && f.st.waiting == [] && |f.st.table| == 1 && f.st.table[0].Finished()
    ensures Turning(f) == f.(st := f.st.(running := []), members := [])
  {
    var n := ScheduleShape(f.st);
    assert [0][..0] == [];
  }

  /** Before the row is swept, and once the model is loaded. */
  lemma {:induction false} BeforeAndAfter(to: Runner) returns (f: Sys, h: Sys)
    ensures Inv(Start(1, 1, Mock))
    ensures At(Start(1, 1, Mock), Reload(to), 5) == f && At(Start(1, 1, Mock), Reload(to), 8) == h
    ensures f.st.table == h.st.table == [Answer()] && f.runner == Mock && h.runner == to
    ensures f.gone == h.gone == {} && f.served == h.served == [Mock]
  {
    hide Inv, Apply, Run, Answer, Ask;
    var s := Start(1, 1, Mock);
    f := TwoTokens(to);
    AnswerIs();
    FallsAsleep(f);
    var events := Reload(to);
    RunTwo(s, events[..5], Turn, Turn);
    RunOne(s, events[..7], Swap(to));
    assert events[..7] == events[..5] + [Turn, Turn] && events == events[..7] + [Swap(to)];
    SwapAsleep(Run(s, events[..7]), to);
    AtEnd(s, events);
    h := Run(s, events);
  }

  lemma {:induction false} AnswerIs()
    ensures Answer().Finished()
  {
  }

  /**
   * The text comes from whoever is installed when the client reads. Two tokens of the mock, read
   * after the reload, are the new model's text; read on either side of it, the first under the
   * mock, they are a mixture: the mock's words, and the new model's text from that length on.
   */
  lemma {:induction false} ReadByAnother(to: Runner, decoders: Decoders)
    requires MockWrites(decoders)
    ensures Inv(Start(1, 1, Mock))
    ensures var s, events := Start(1, 1, Mock), Reload(to);
      && Answered(s, events, 0, [8, 8, 8]) && LastRead(s, events, 0, [8, 8, 8]).served == [Mock]
      && Spliced(decoders, Seen(s, events, 0, [8, 8, 8])[..2]) == decoders(to)([0, 0])
      && Whole(decoders, Seen(s, events, 0, [8, 8, 8])) == decoders(to)([0, 0])
      && Answered(s, events, 0, [5, 8, 8])
      && Spliced(decoders, Seen(s, events, 0, [5, 8, 8])[..2]) == Splice("mock mock ", decoders(to)([0, 0]))
  {
    hide Inv, Spliced;
    var f, h := BeforeAndAfter(to);
    LateReading(Start(1, 1, Mock), Reload(to), 8, to);
    LateReading(Start(1, 1, Mock), Reload(to), 5, to);
    var late := Seen(Start(1, 1, Mock), Reload(to), 0, [8, 8, 8]);
    var mixed := Seen(Start(1, 1, Mock), Reload(to), 0, [5, 8, 8]);
    TwoSpliced(decoders, late);
    TwoSpliced(decoders, mixed);
    MockWords();
  }

  lemma {:induction false} LateReading(s: Sys, events: seq<Event>, t: nat, to: Runner)
    requires Inv(s) && |events| == 8 && t <= 8
    requires At(s, events, t).st.table == At(s, events, 8).st.table == [Answer()]
    requires At(s, events, 8).gone == {} && At(s, events, 8).runner == to && At(s, events, 8).served == [Mock]
    ensures Answered(s, events, 0, [t, 8, 8]) && LastRead(s, events, 0, [t, 8, 8]).served == [Mock]
    ensures Seen(s, events, 0, [t, 8, 8]) == [
      Observation(Token(0), [0, 0], Length, At(s, events, t).runner),
      Observation(Token(0), [0, 0], Length, to), Observation(End, [0, 0], Length, to)]
  {
    hide Inv, At;
    assert ReadsAt(s, events, 0, t, 0, false);
    assert ReadsAt(s, events, 0, 8, 1, false) && ReadsAt(s, events, 0, 8, 2, true);
  }

  lemma {:induction false} TwoSpliced(decoders: Decoders, obs: seq<Observation>)
    requires |obs| == 3
    ensures Spliced(decoders, obs[..2])
      == Splice(decoders(obs[0].runner)(obs[0].out), decoders(obs[1].runner)(obs[1].out))
  {
    SplicedNext(decoders, obs, 0);
    SplicedNext(decoders, obs, 1);
    assert obs[..0] == [];
  }

  lemma {:induction false} MockWords()
    ensures MockDecode([0, 0]) == "mock mock "
  {
    MockWord();
    assert [0, 0][..1] == [0];
  }

  // ---- two rows and one cache ----

  /** Every row of this request gets a token. */
  ghost predicate Speaks(r: Runner) {
    r.Qwen? ==> Talks(r.model)
  }

  lemma {:induction false} SpeaksTo(r: Runner, toks: seq<int>, tokens: int)
    requires Speaks(r)
    ensures Next(r, Ask(tokens), toks).Some?
  {
  }

  lemma {:induction false} BothGoOn(c: Sys)
    requires Inv(c) && c.phase == Exec([0, 1], true) && c.st.waiting == [] && Speaks(c.runner)
    requires c.st.table == [Created(Ask(3)), Created(Ask(3))]
    ensures var d := Apply(c, Commit);
      && d.phase.Ready? && d.st.waiting == []
      && |d.st.table| == 2 && !d.st.table[0].Finished() && !d.st.table[1].Finished()
  {
    hide Inv, Apply, Executing, Ticking, Ticked, Shaped, Ask;
    AskIs(3);
    CommitIsTick(c);
    TickRaisesIff(c);
    AskedLen(c);
    TickIsTransparent(c);
    TickingIs(c);
    TickReturns(c);
    var picks := Executing(c).picks;
    BothPicks(c, picks);
    BothRows(c.st.table, Ticking(c).st.table, picks);
  }

  lemma {:induction false} AskedLen(c: Sys)
    requires c.phase == Exec([0, 1], true) && c.st.table == [Created(Ask(3)), Created(Ask(3))]
    ensures 0 in c.phase.batch && c.st.table[0].Len() == 1
  {
    assert [0, 1][0] == 0;
  }

  lemma {:induction false} TickReturns(c: Sys)
    requires c.phase.Exec? && InRange(c.phase.batch, |c.st.table|) && |c.served| == |c.st.table|
    ensures Executing(c).Done? ==> Ticking(c).phase.Ready?
  {
    hide Executing, EndTick;
  }

  lemma {:induction false} BothPicks(c: Sys, picks: seq<Option<int>>)
    requires c.phase == Exec([0, 1], true) && InRange([0, 1], |c.st.table|)
    requires c.st.table == [Created(Ask(3)), Created(Ask(3))] && Speaks(c.runner) && EachAlone(c, picks)
    ensures |picks| == 2 && picks[0].Some? && picks[1].Some?
  {
    SpeaksTo(c.runner, c.st.table[0].Tokens(), 3);
    assert [0, 1][0] == 0 && [0, 1][1] == 1;
  }

  lemma {:induction false} BothRows(before: seq<Entry>, after: seq<Entry>, picks: seq<Option<int>>)
    requires before == [Created(Ask(3)), Created(Ask(3))] && Ticked(before, after, [0, 1], picks)
    requires |picks| == 2 && picks[0].Some? && picks[1].Some?
    ensures |after| == 2 && !after[0].Finished() && !after[1].Finished()
  {
    assert after[[0, 1][0]] == RowResult(before[[0, 1][0]], picks[0]);
    assert after[[0, 1][1]] == RowResult(before[[0, 1][1]], picks[1]);
  }

  /** Both requests are in the first batch. */
  lemma {:induction false} FirstPair(r: Runner) returns (c: Sys)
    ensures var s, submit := Start(8, 2, r), Submit(Ask(3), true);
      Inv(s) && Inv(c) && c == Run(s, [submit, submit, Turn])
    ensures c.phase == Exec([0, 1], true) && c.st.waiting == [] && c.runner == r
    ensures c.st.table == [Created(Ask(3)), Created(Ask(3))]
  {
    hide Inv, Run, Apply, Turning, Submitting, Ask;
    var s, submit := Start(8, 2, r), Submit(Ask(3), true);
    StartInv(8, 2, r);
    var a, b := OverrunRun(s);
    BothArrive(a, b, s);
    BothRun(b);
    SubmitInv(s, Ask(3));
    ReadySteps(s, Ask(3));
    ReadySteps(a, Ask(3));
    ReadySteps(b, Ask(3));
    RunNone(s);
    RunTwo(s, [], submit, submit);
    RunOne(s, [submit, submit], Turn);
    assert [] + [submit, submit] == [submit, submit] && [submit, submit] + [Turn] == [submit, submit, Turn];
    c := Run(s, [submit, submit, Turn]);
  }

  /** Two rows, a tick, and nobody else: the second tick is not a prefill. */
  lemma {:induction false} PairIsReused(r: Runner)
    requires Speaks(r)
    ensures Reach(8, 2, r, Overrun() + [Turn]).phase == Exec([0, 1], false)
  {
    hide Inv, Run, Apply, Ask, Speaks;
    var submit := Submit(Ask(3), true);
    ReachIs(8, 2, r, Overrun() + [Turn]);
    var c := FirstPair(r);
    BothGoOn(c);
    RunNone(c);
    RunOne(c, [], Commit);
    assert [] + [Commit] == [Commit] && [Commit] + [] == [Commit];
    CacheIsReusedIff(c, []);
    RunAfter(Start(8, 2, r), [submit, submit, Turn], [Commit, Turn]);
    assert Overrun() + [Turn] == [submit, submit, Turn] + [Commit, Turn];
    assert [Commit] + [] + [Turn] == [Commit, Turn];
  }

  lemma {:induction false} BothArrive(a: Sys, b: Sys, s: Sys)
    requires s == Start(8, 2, s.runner) && a == Submitting(s, Ask(3)) && b == Submitting(a, Ask(3))
    ensures b == Submitting(Submitting(Start(8, 2, b.runner), Ask(3)), Ask(3))
    ensures b.st.table == [Created(Ask(3)), Created(Ask(3))] && b.runner == s.runner
  {
  }

  // ---- an answer that stops ----

  /** The greedy token of this model for a prompt of one token is its stop token. */
  function Stopping(model: Model): Request
    requires model.logits(Plain([7])) != []
  {
    Request([7], 5, 0.0, None, {ArgMax(model.logits(Plain([7])))})
  }

  function Stopped(model: Model): Entry
    requires model.logits(Plain([7])) != []
  {
    var t := ArgMax(model.logits(Plain([7])));
    Entry(Stopping(model), [t], Stop, [Token(t), End])
  }

  lemma {:induction false} StopsAtOnce(model: Model, pad: int)
    requires model.logits(Plain([7])) != []
    ensures var req := Stopping(model);
      && req.maxNew >= 1 && req.prompt != []
      && RowResult(Created(req), Next(Qwen(model, pad), req, Created(req).Tokens())) == Stopped(model)
  {
    assert [7] + [] == [7];
    var t := ArgMax(model.logits(Plain([7])));
    assert [] + [t] == [t] && [] + [Token(t)] + [End] == [Token(t), End];
  }

  /** The first tick of a lone request, on any runner. */
  lemma {:induction false} LoneTick(b: Sys, req: Request)
    requires Inv(b) && b.phase == Exec([0], true) && b.st.table == [Created(req)] && req.prompt != []
    ensures var c := Apply(b, Commit);
      && c.runner == b.runner && c.gone == b.gone
      && c.st.table == [RowResult(Created(req), Next(b.runner, req, Created(req).Tokens()))]
  {
    hide Inv, Apply, Executing, Ticking, Ticked, Shaped, RowResult, Next;
    CommitIsTick(b);
    TickRaisesIff(b);
    assert [0][0] in b.phase.batch && b.st.table[0].Len() >= 1;
    TickIsTransparent(b);
    TickingIs(b);
    var picks := Executing(b).picks;
    assert picks == [Next(b.runner, req, Created(req).Tokens())] by {
      assert b.phase.batch[0] == 0;
    }
    TickedAlone(b.st.table, Ticking(b).st.table, picks[0]);
    LoneTickMoves(b);
  }

  lemma {:induction false} LoneTickMoves(b: Sys)
    requires b.phase.Exec? && InRange(b.phase.batch, |b.st.table|) && |b.served| == |b.st.table|
    ensures Ticking(b).runner == b.runner && Ticking(b).gone == b.gone
  {
    hide Executing, EndTick;
  }

  lemma {:induction false} StopRun(model: Model, pad: int)
    requires model.logits(Plain([7])) != []
    ensures var s, events := Start(1, 1, Qwen(model, pad)), [Submit(Stopping(model), true), Turn, Commit];
      && Inv(s) && At(s, events, 3).st.table == [Stopped(model)]
      && At(s, events, 3).runner == Qwen(model, pad) && At(s, events, 3).gone == {}
  {
    hide Inv, Turning, Submitting, Run, Apply, Stopping, Stopped, RowResult, Next;
    var r, req := Qwen(model, pad), Stopping(model);
    var s := Start(1, 1, r);
    StartInv(1, 1, r);
    StopsAtOnce(model, pad);
    FirstTurn(1, 1, r, req);
    var a := Submitting(s, req);
    InvIsShaped(a);
    ReadySteps(s, req);
    ReadySteps(a, req);
    LoneTick(Turning(a), req);
    RunNone(s);
    RunOne(s, [], Submit(req, true));
    RunTwo(s, [Submit(req, true)], Turn, Commit);
    assert [] + [Submit(req, true)] == [Submit(req, true)];
    assert [Submit(req, true)] + [Turn, Commit] == [Submit(req, true), Turn, Commit];
    AtEnd(s, [Submit(req, true), Turn, Commit]);
  }

  lemma {:induction false} StopReading(s: Sys, events: seq<Event>, model: Model)
    requires Inv(s) && |events| == 3 && model.logits(Plain([7])) != []
    requires At(s, events, 3).st.table == [Stopped(model)] && At(s, events, 3).gone == {}
    ensures Answered(s, events, 0, [3, 3])
    ensures var t, r := ArgMax(model.logits(Plain([7]))), At(s, events, 3).runner;
      Seen(s, events, 0, [3, 3]) == [Observation(Token(t), [t], Stop, r), Observation(End, [t], Stop, r)]
  {
    hide Inv, At, ArgMax;
    assert ReadsAt(s, events, 0, 3, 0, false) && ReadsAt(s, events, 0, 3, 1, true);
  }

  /** The chunks of a single text: none for the text if it is empty. */
  function OneText(text: string, reason: Reason): seq<Chunk> {
    (if text == "" then [] else [Chunk(text, None)]) + [Chunk("", Some(reason))]
  }

  function Undisturbed(chunks: seq<Chunk>): seq<Frame> {
    seq(|chunks|, i requires 0 <= i < |chunks| => Data(chunks[i])) + [DoneMark]
  }

  lemma {:induction false} OneTextIs(text: string, reason: Reason)
    ensures StreamShape(OneText(text, reason), reason) && Text(OneText(text, reason)) == text
    ensures reason in {Stop, Length} ==> Framed(OneText(text, reason), reason, Undisturbed(OneText(text, reason)))
  {
    var first, last := Chunk(text, None), Chunk("", Some(reason));
    hide Text;
    NoChunks();
    TextSnoc([], first);
    TextSnoc([], last);
    TextSnoc([first], last);
    assert [] + [first] == [first] && [] + [last] == [last];
    assert OneText(text, reason) == if text == "" then [last] else [first] + [last];
    hide OneText;
  }

  lemma {:induction false} NoChunks()
    ensures Text([]) == ""
  {
  }

  /** An answer that ends on a stop token reaches its client whole: the text, "stop", and [DONE]; and
      its one-shot form is a success. */
  lemma {:induction false} StopIsDone(model: Model, pad: int, decoders: Decoders)
    requires model.logits(Plain([7])) != []
    ensures var s, events := Start(1, 1, Qwen(model, pad)), [Submit(Stopping(model), true), Turn, Commit];
      var text := decoders(Qwen(model, pad))([ArgMax(model.logits(Plain([7])))]);
      var chunks := OneText(text, Stop);
      && Inv(s) && Answered(s, events, 0, [3, 3])
      && Streams(decoders, Seen(s, events, 0, [3, 3]), chunks) && Framed(chunks, Stop, Undisturbed(chunks))
      && Respond(Completion(text, 1, 1, Stop)) == Success(Completion(text, 1, 1, Stop))
  {
    hide Inv, At, ArgMax, Spliced, StreamShape, OneText;
    var s, events := Start(1, 1, Qwen(model, pad)), [Submit(Stopping(model), true), Turn, Commit];
    StopRun(model, pad);
    StopReading(s, events, model);
    var obs := Seen(s, events, 0, [3, 3]);
    OneTextIs(decoders(Qwen(model, pad))([ArgMax(model.logits(Plain([7])))]), Stop);
    SplicedNext(decoders, obs, 0);
    NothingSpliced(decoders, obs);
  }

  lemma {:induction false} NothingSpliced(decoders: Decoders, obs: seq<Observation>)
    ensures Spliced(decoders, obs[..0]) == ""
  {
  }
}
