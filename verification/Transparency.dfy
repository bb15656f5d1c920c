/** Batching, padding, caching and scheduling are invisible to a request. */
module Transparency {
  import opened Sums
  import opened Requests
  import opened Sampling
  import opened Padding
  import opened Admission
  import opened Effects
  import opened Protocol
  import opened Invariants

  /** What a request produces when it is served alone, from the outputs it has so far. */
  function Solo(r: Runner, req: Request, out: seq<int>): (done: (seq<int>, Reason))
    ensures out <= done.0
    decreases req.maxNew - |out|
  {
    if |out| >= req.maxNew then (out, Length)
    else
      match Next(r, req, req.prompt + out)
      case None => (out, Error)
      case Some(t) =>
        var more := out + [t];
        if t in req.eos then (more, Stop)
        else if |more| >= req.maxNew then (more, Length)
        else Solo(r, req, more)
  }

  /** The end of a finished request, seen from its outputs alone. */
  ghost predicate Ended(req: Request, out: seq<int>, reason: Reason) {
    && (forall i | 0 <= i < |out| - 1 :: out[i] !in req.eos)
    && (|out| <= req.maxNew || out == [])
    && (reason == Stop ==> out != [] && out[|out| - 1] in req.eos)
    && (reason == Length ==> |out| >= req.maxNew && (out != [] ==> out[|out| - 1] !in req.eos))
  }

  lemma {:induction false} HonestEnded(q: Entry)
    requires Honest(q)
    ensures Ended(q.req, q.out, q.reason)
  {
    ReasonFromOutputs(q);
  }

  lemma {:induction false} SoloStep(r: Runner, req: Request, out: seq<int>, t: int)
    requires |out| < req.maxNew && Next(r, req, req.prompt + out) == Some(t)
    ensures Solo(r, req, out) ==
      if t in req.eos then (out + [t], Stop)
      else if |out| + 1 >= req.maxNew then (out + [t], Length)
      else Solo(r, req, out + [t])
  {
  }

  lemma {:induction false} SoloFrom(r: Runner, req: Request, out: seq<int>, reason: Reason, i: nat)
    requires forall j | 0 <= j < |out| :: Next(r, req, req.prompt + out[..j]) == Some(out[j])
    requires Ended(req, out, reason) && i < |out|
    ensures out <= Solo(r, req, out[..i]).0
    ensures reason in {Stop, Length} ==> Solo(r, req, out[..i]) == (out, reason)
    decreases |out| - i
  {
    SoloStep(r, req, out[..i], out[i]);
    assert out[..i] + [out[i]] == out[..i + 1];
    if i + 1 < |out| {
      SoloFrom(r, req, out, reason, i + 1);
    } else {
      assert out[..i + 1] == out;
    }
  }

  /**
   * In every run, whatever else arrives, leaves, fails or is cancelled, and whatever the batch
   * limits are, a request's outputs are a prefix of what it would have produced alone; when it
   * ends with "stop" or "length" they are all of it, and the reason is the same.
   */
  lemma {:induction false} BatchingIsTransparent(slots: int, maxTokens: int, runner: Runner, events: seq<Event>, k: nat)
    requires k < |Reach(slots, maxTokens, runner, events).st.table|
    ensures var s := Reach(slots, maxTokens, runner, events);
      && k < |s.served|
      && var q := s.st.table[k]; var alone := Solo(s.served[k], q.req, []);
      && q.out <= alone.0
      && (q.reason in {Stop, Length} ==> alone == (q.out, q.reason))
  {
    var s := Reach(slots, maxTokens, runner, events);
    TransparentEntry(s, k);
  }

  lemma {:induction false} TransparentEntry(s: Sys, k: nat)
    requires Inv(s) && k < |s.st.table|
    ensures k < |s.served|
    ensures var q := s.st.table[k]; var alone := Solo(s.served[k], q.req, []);
      q.out <= alone.0 && (q.reason in {Stop, Length} ==> alone == (q.out, q.reason))
  {
    var q := s.st.table[k];
    assert Follows(s.served[k], q) && Told(q, k in s.gone);
    HonestEnded(q);
    if q.out != [] {
      assert q.out[..0] == [];
      SoloFrom(s.served[k], q.req, q.out, q.reason, 0);
    }
  }

  ghost predicate NoSwap(events: seq<Event>) {
    forall i | 0 <= i < |events| :: !events[i].Swap?
  }

  lemma {:induction false} OneRunner(slots: int, maxTokens: int, runner: Runner, events: seq<Event>)
    requires NoSwap(events)
    ensures var s := Reach(slots, maxTokens, runner, events);
      s.runner == runner && forall k | 0 <= k < |s.served| :: s.served[k] == runner
  {
    if events != [] {
      var n := |events| - 1;
      OneRunner(slots, maxTokens, runner, events[..n]);
      OneRunnerStep(Reach(slots, maxTokens, runner, events[..n]), events[n]);
    }
  }

  lemma {:induction false} OneRunnerStep(s: Sys, e: Event)
    requires Inv(s) && !e.Swap?
    requires forall k | 0 <= k < |s.served| :: s.served[k] == s.runner
    ensures Apply(s, e).runner == s.runner
    ensures forall k | 0 <= k < |Apply(s, e).served| :: Apply(s, e).served[k] == s.runner
  {
    hide Queued, Channels, Paced, Coherent, Executing, Schedule;
  }

  /** Two servers with different limits, different traffic and different histories of runners give
      one request the same answer, if the same runner has served it. */
  lemma {:induction false} SameAnswerEverywhere(
      slots: int, maxTokens: int, runner: Runner, events: seq<Event>, k: nat,
      slots': int, maxTokens': int, runner': Runner, events': seq<Event>, k': nat)
    requires var s, s' := Reach(slots, maxTokens, runner, events), Reach(slots', maxTokens', runner', events');
      && k < |s.st.table| && k' < |s'.st.table| && k < |s.served| && k' < |s'.served|
      && s.served[k] == s'.served[k'] && s.st.table[k].req == s'.st.table[k'].req
      && s.st.table[k].reason in {Stop, Length} && s'.st.table[k'].reason in {Stop, Length}
    ensures var s, s' := Reach(slots, maxTokens, runner, events), Reach(slots', maxTokens', runner', events');
      && s.st.table[k].out == s'.st.table[k'].out
      && s.st.table[k].reason == s'.st.table[k'].reason
  {
    TransparentEntry(Reach(slots, maxTokens, runner, events), k);
    TransparentEntry(Reach(slots', maxTokens', runner', events'), k');
  }

  // ---- the tick itself ----

  /** In every reachable tick that reuses the cache, the cached columns are exactly the current
      padded batch without its last column, and feeding one column equals a full prefill. */
  lemma {:induction false} CachedTickIsPrefill(s: Sys)
    requires Inv(s) && s.phase.Exec? && !s.phase.prefill && s.runner.Qwen?
    ensures InRange(s.phase.batch, |s.st.table|)
    ensures var rows := Rows(s.st.table, s.phase.batch);
      && Width(rows) > 0
      && s.cache == Some(AllButLast(s.runner.pad, rows))
      && Executing(s) == Execute(s.runner, None, true, rows).(columns := 1)
  {
    var rows := Rows(s.st.table, s.phase.batch);
    CachedIsPrefill(s.runner.model, s.runner.pad, rows);
  }

  /** The cache is reused exactly when the same requests are still unfinished, in the same order:
      one row that finished, failed or was cancelled forces a prefill on the next batch. */
  lemma {:induction false} OneFinishedRowForcesPrefill(s: Sys, k: nat)
    requires Inv(s) && s.phase.Ready? && Turning(s).phase.Exec?
    requires k in s.members && k < |s.st.table|
    ensures s.st.table[k].Finished() ==> Turning(s).phase.prefill
    ensures !Turning(s).phase.prefill ==> Turning(s).phase.batch == s.members && !s.st.table[k].Finished()
  {
    hide Queued, Channels, Flying, Following, Paced, Coherent;
    assert Queued(s.st);
    FinishedNeverRuns(s, k);
  }

  lemma {:induction false} FinishedNeverRuns(s: Sys, k: nat)
    requires Inv(s)
    ensures k in Schedule(s.st).running ==> k < |s.st.table| && !s.st.table[k].Finished()
  {
    ScheduleMembers(s.st);
  }

  /** A tick of the model itself raises only if no row of its batch has a single token to feed. */
  lemma {:induction false} TickRaisesIff(s: Sys)
    requires Inv(s) && s.phase.Exec?
    ensures InRange(s.phase.batch, |s.st.table|)
    ensures Executing(s).Raised? <==>
      s.runner.Qwen? && forall k | k in s.phase.batch :: s.st.table[k].Len() == 0
  {
    InFlight(s);
    var rows := Rows(s.st.table, s.phase.batch);
    assert s.runner.Qwen? && !s.phase.prefill ==> Holds(s.cache, s.runner.pad, rows);
    hide Inv;
    EmptyWidthIff(s.st.table, s.phase.batch);
    if s.runner.Qwen? && Width(rows) > 0 {
      FitsOnTop(s.runner.pad, rows);
    }
  }

  lemma {:induction false} EmptyWidthIff(table: seq<Entry>, batch: seq<nat>)
    requires InRange(batch, |table|) && batch != []
    ensures Width(Rows(table, batch)) == 0 <==> forall k | k in batch :: table[k].Len() == 0
  {
    var rows := Rows(table, batch);
    var i :| 0 <= i < |rows| && rows[i].Len() == Width(rows);
    assert batch[i] in batch;
    forall k | k in batch ensures table[k].Len() <= Width(rows) {
      var j :| 0 <= j < |batch| && batch[j] == k;
      assert rows[j].Len() <= Width(rows);
    }
  }

  lemma {:induction false} SameFed(pad: int, cache: Option<Cache>, a: seq<Entry>, b: seq<Entry>)
    requires |a| == |b| && Width(a) == Width(b) && Width(a) > 0
    requires forall i | 0 <= i < |a| :: b[i].req == a[i].req && b[i].out == a[i].out
    requires cache.Some? ==> OneColumnShort(cache.value, a)
    ensures cache.Some? ==> OneColumnShort(cache.value, b)
    ensures Fed(pad, cache, a) == Fed(pad, cache, b)
  {
    forall i | 0 <= i < |a| ensures Fed(pad, cache, a)[i] == Fed(pad, cache, b)[i] {
      SameFull(pad, Width(a), a[i], b[i]);
    }
  }

  lemma {:induction false} SamePicks(model: Model, fed: Cache, a: seq<Entry>, b: seq<Entry>)
    requires |a| == |b| && Width(a) == Width(b)
    requires forall i | 0 <= i < |a| :: b[i].req == a[i].req && b[i].out == a[i].out
    requires |fed| == |a| && forall i | 0 <= i < |fed| :: |fed[i]| == Width(a)
    ensures Picks(model, fed, a) == Picks(model, fed, b)
  {
    forall i | 0 <= i < |a| ensures RowMask(Width(a), a[i]) == RowMask(Width(b), b[i]) {
      assert a[i].Len() == b[i].Len();
    }
  }

  /** Clients may come and go while the worker thread runs: at whatever moment it reads the
      rows, it computes the same. */
  lemma {:induction false} ClientsDoNotDisturbATick(s: Sys, e: Event)
    requires Inv(s) && s.phase.Exec? && (e.Submit? || e.Cancel?)
    ensures InRange(s.phase.batch, |s.st.table|)
    ensures Apply(s, e).phase == s.phase && InRange(s.phase.batch, |Apply(s, e).st.table|)
    ensures Executing(Apply(s, e)) == Executing(s)
  {
    InFlight(s);
    ClientsKeepInputs(s, e);
    hide Inv;
    var a, b := Rows(s.st.table, s.phase.batch), Rows(Apply(s, e).st.table, s.phase.batch);
    SameExecute(s.runner, s.cache, s.phase.prefill, a, b);
  }

  lemma {:induction false} ClientsKeepInputs(s: Sys, e: Event)
    requires Inv(s) && s.phase.Exec? && (e.Submit? || e.Cancel?)
    ensures SameInput(s.st.table, Apply(s, e).st.table)
    ensures Apply(s, e) == s.(st := Apply(s, e).st, gone := Apply(s, e).gone,
                              late := Apply(s, e).late,
                              origin := Apply(s, e).origin, served := Apply(s, e).served)
  {
    ShapedParts(s.st);
    if e.Cancel? && e.id < |s.st.table| { AbortShape(s.st, e.id, Cancelled); }
  }

  lemma {:induction false} SameExecute(r: Runner, cache: Option<Cache>, prefill: bool, a: seq<Entry>, b: seq<Entry>)
    requires |a| == |b|
    requires forall i | 0 <= i < |a| :: b[i].req == a[i].req && b[i].out == a[i].out
    ensures Execute(r, cache, prefill, a) == Execute(r, cache, prefill, b)
  {
    SameWidth(a, b);
    if r.Qwen? && Width(a) > 0 {
      var held := if prefill then None else cache;
      if held.None? || OneColumnShort(held.value, a) {
        SameFed(r.pad, held, a, b);
        SamePicks(r.model, Fed(r.pad, held, a), a, b);
      }
    }
  }
}
