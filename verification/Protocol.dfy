/** The whole server as a state machine: clients, one scheduling loop, and its runner. */
module Protocol {
  import opened Sums
  import opened Requests
  import opened Padding
  import opened Admission

  /**
   * Where the loop is suspended. `Ready`: about to test for work. `Asleep`: in the idle sleep.
   * `Exec`: a worker thread runs the batch. `Dead`: the loop has ended; `failed` tells whether
   * it went through fail_all on the way out.
   */
  datatype Phase = Ready | Asleep | Exec(batch: seq<nat>, prefill: bool) | Dead(failed: bool)

  /**
   * `members` is the batch of the previous tick. The last four fields are history: requests
   * whose own client cancelled them before they finished, requests submitted after the loop
   * had died, the runner each request was submitted under, and the runner whose ticks it was
   * last part of (until it has been in one, the runner it was submitted under).
   */
  datatype Sys = Sys(
    st: State, members: seq<nat>, phase: Phase, cache: Option<Cache>, runner: Runner,
    gone: set<nat>, late: set<nat>, origin: seq<Runner>, served: seq<Runner>)

  /**
   * Client steps: Submit (`checked`: the handler refuses when the loop is dead) and Cancel.
   * Loop steps: Turn, Wake, Commit, and Raise for a tick that raises. Kill cancels the loop;
   * Swap cancels it and starts a new one on another runner.
   */
  datatype Event =
    | Submit(req: Request, checked: bool) | Cancel(id: nat)
    | Turn | Wake | Commit | Raise | Kill | Swap(to: Runner)

  function Start(slots: int, maxTokens: int, runner: Runner): Sys {
    Sys(State([], [], [], slots, maxTokens), [], Ready, None, runner, {}, {}, [], [])
  }

  // ---- invariants ----

  /** Waiting requests have not started; an unfinished request is in one of the queues. */
  ghost predicate Queued(st: State) {
    && (forall k | k in st.waiting :: k < |st.table| && !st.table[k].Finished() && st.table[k].out == [])
    && (forall k | 0 <= k < |st.table| && !st.table[k].Finished() :: k in st.running || k in st.waiting)
    && (|st.running| <= st.slots || st.running == [])
  }

  ghost predicate Channels(s: Sys) {
    && (forall k | k in s.gone :: k < |s.st.table|)
    && (forall k | 0 <= k < |s.st.table| :: Told(s.st.table[k], k in s.gone))
  }

  ghost predicate Flying(s: Sys) {
    match s.phase
    case Ready => true
    case Asleep => s.st.running == []
    case Exec(batch, _) =>
      && batch == s.st.running && batch != []
      && (forall k | k in batch && k < |s.st.table| && s.st.table[k].Finished() ::
            k in s.gone && s.st.table[k].reason == Cancelled && Clean(s.st.table[k]))
    case Dead(failed) =>
      && s.st.running == []
      && (failed ==> forall k | 0 <= k < |s.st.table| && !s.st.table[k].Finished() :: k in s.late)
  }

  /** Each output is the token its own request would have been given alone. */
  ghost predicate Follows(r: Runner, q: Entry) {
    forall i | 0 <= i < |q.out| :: Next(r, q.req, q.req.prompt + q.out[..i]) == Some(q.out[i])
  }

  ghost predicate Following(s: Sys) {
    && |s.served| == |s.st.table|
    && (forall k | 0 <= k < |s.st.table| :: Follows(s.served[k], s.st.table[k]))
    && (forall k | k in s.st.running && k < |s.st.table| && s.st.table[k].out != [] ::
          s.served[k] == s.runner)
  }

  /** An unfinished request that holds a slot. */
  ghost predicate Carries(st: State, k: nat) {
    k < |st.table| && k in st.running && !st.table[k].Finished()
  }

  ghost function Share(st: State, k: nat): (r: seq<int>)
    requires k < |st.table|
    ensures |r| == k + 1
  {
    seq(k + 1, j requires 0 <= j < k + 1 =>
      if Carries(st, j) then st.table[j].Len() - |st.table[k].out| else 0)
  }

  /** Older rows are at least as far as younger ones, and each row but the oldest still fits the
      token budget together with everyone before it, its own progress set aside. */
  ghost predicate Paced(st: State) {
    && (forall j, k | 0 <= j < k && Carries(st, j) && Carries(st, k) ::
          |st.table[j].out| >= |st.table[k].out|)
    && (forall j, k | 0 <= j < k && Carries(st, j) && Carries(st, k) ::
          Sum(Share(st, k)) <= st.maxTokens)
  }

  ghost function Rows(table: seq<Entry>, ids: seq<nat>): (r: seq<Entry>)
    requires InRange(ids, |table|)
    ensures |r| == |ids|
  {
    seq(|ids|, i requires 0 <= i < |ids| => table[ids[i]])
  }

  ghost predicate Holds(cache: Option<Cache>, pad: int, rows: seq<Entry>) {
    Width(rows) > 0 && cache == Some(AllButLast(pad, rows))
  }

  /** The cache describes the next batch whenever the loop would say that it does. */
  ghost predicate Coherent(s: Sys) {
    && InRange(s.members, |s.st.table|)
    && (s.runner.Qwen? ==>
        match s.phase
        case Exec(batch, prefill) =>
          InRange(batch, |s.st.table|) &&
          (prefill || Holds(s.cache, s.runner.pad, Rows(s.st.table, batch)))
        case Dead(_) => true
        case _ =>
          s.members == [] || (exists k :: k in s.members && s.st.table[k].Finished())
          || Holds(s.cache, s.runner.pad, Rows(s.st.table, s.members)))
  }

  ghost predicate Inv(s: Sys) {
    Shaped(s.st) && Queued(s.st) && Channels(s) && Flying(s) && Following(s) && Paced(s.st) && Coherent(s)
  }

  // ---- steps ----

  ghost function Submitting(s: Sys, req: Request): Sys {
    var k := |s.st.table|;
    s.(st := Add(s.st, req), origin := s.origin + [s.runner], served := s.served + [s.runner],
       late := if s.phase.Dead? then s.late + {k} else s.late)
  }

  ghost function Cancelling(s: Sys, k: nat): Sys
    requires k < |s.st.table|
  {
    s.(st := Abort(s.st, k, Cancelled),
       gone := if s.st.table[k].Finished() then s.gone else s.gone + {k})
  }

  function Reset(r: Runner, cache: Option<Cache>): Option<Cache> {
    match r
    case Mock => cache
    case Qwen(_, _) => None
  }

  /** From the test for work to the next suspension, one pass at a time. */
  ghost function Turning(s: Sys): Sys
    requires Shaped(s.st)
  {
    if s.st.waiting == [] && s.st.running == [] then s.(phase := Asleep)
    else
      var st := Schedule(s.st);
      if st.running == [] then s.(st := st, members := [], cache := Reset(s.runner, s.cache))
      else s.(st := st, phase := Exec(st.running, st.running != s.members))
  }

  /** Every request in flight is failed, and the loop ends; nobody reads its cache again. */
  ghost function Failing(s: Sys): Sys {
    s.(st := FailAll(s.st), phase := Dead(true), cache := None)
  }

  /** The loop ends without failing anyone. */
  function Ending(s: Sys): Sys {
    s.(phase := Dead(false), cache := None)
  }

  /** Cancelled here, the loop holds nobody: it sleeps, or it has not taken its first step. */
  predicate HoldsNobody(s: Sys) {
    s.phase.Asleep? || (s.phase.Ready? && s.st.running == [])
  }

  ghost function Executing(s: Sys): (r: Executed)
    requires s.phase.Exec? && InRange(s.phase.batch, |s.st.table|)
    ensures r.Done? ==> |r.picks| == |s.phase.batch|
  {
    Execute(s.runner, s.cache, s.phase.prefill, Rows(s.st.table, s.phase.batch))
  }

  ghost function Committing(s: Sys, picks: seq<Option<int>>, cache: Option<Cache>): Sys
    requires s.phase.Exec? && InRange(s.phase.batch, |s.st.table|)
    requires |picks| == |s.phase.batch| && |s.served| == |s.st.table|
  {
    var batch := s.phase.batch;
    s.(st := EndTick(s.st, batch, picks), members := batch, phase := Ready, cache := cache,
       served := seq(|s.served|, k requires 0 <= k < |s.served| =>
         if k in batch then s.runner else s.served[k]))
  }

  ghost function Swapping(s: Sys, to: Runner): Sys {
    var st := if s.phase.Exec? then FailAll(s.st) else s.st;
    s.(st := st, phase := Ready, members := [], cache := None, runner := to)
  }

  /** The worker thread comes back, or it raises. */
  ghost function Ticking(s: Sys): Sys
    requires s.phase.Exec? && InRange(s.phase.batch, |s.st.table|) && |s.served| == |s.st.table|
  {
    match Executing(s)
    case Raised => Failing(s)
    case Done(picks, cache, _) => Committing(s, picks, cache)
  }

  /** One event. An event that cannot happen in the current phase changes nothing. */
  ghost function Apply(s: Sys, e: Event): Sys
    requires Inv(s)
  {
    ShapedParts(s.st);
    match e
    case Submit(req, checked) => if checked && s.phase.Dead? then s else Submitting(s, req)
    case Cancel(k) => if k < |s.st.table| then Cancelling(s, k) else s
    case Turn => if s.phase.Ready? then Turning(s) else s
    case Wake => if s.phase.Asleep? then s.(phase := Ready) else s
    case Commit => if s.phase.Exec? then Ticking(s) else s
    case Raise => if s.phase.Exec? then Failing(s) else s
    case Kill => if s.phase.Exec? then Failing(s) else if HoldsNobody(s) then Ending(s) else s
    case Swap(to) => if s.phase.Exec? || s.phase.Dead? || HoldsNobody(s) then Swapping(s, to) else s
  }
}
