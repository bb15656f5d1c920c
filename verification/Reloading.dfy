/** A runner installed between a request's end and the last reads of its queue: nothing else can
    give a client another runner's text. */
module Reloading {
  import opened Sums
  import opened Requests
  import opened Admission
  import opened Protocol
  import opened Invariants
  import opened Progress
  import opened Lifecycle
  import opened Finality
  import opened Alone
  import opened Streaming
  import opened EndToEnd

  /** The step installs another runner. */
  ghost predicate Reloads(s: Sys, e: Event)
    requires Inv(s)
  {
    Apply(s, e).runner != s.runner
  }

  lemma {:induction false} ReloadIsSwap(s: Sys, e: Event)
    requires Inv(s) && Reloads(s, e)
    ensures e.Swap? && (s.phase.Exec? || s.phase.Dead? || HoldsNobody(s))
    ensures s.phase.Exec? ==> Apply(s, e).st == FailAll(s.st)
  {
    ShapedParts(s.st);
    hide Queued, Channels, Flying, Following, Paced, Coherent, Executing, Schedule, EndTick, FailAll;
  }

  /** An unfinished request with outputs holds a slot. */
  lemma {:induction false} StartedIsRunning(s: Sys, k: nat)
    requires Inv(s) && k < |s.st.table| && !s.st.table[k].Finished() && s.st.table[k].out != []
    ensures k in s.st.running && !s.phase.Dead? && !HoldsNobody(s)
  {
    hide Channels, Following, Paced, Coherent;
  }

  /** A reload in the middle of a request is the end of it. */
  lemma {:induction false} RunnerStays(s: Sys, e: Event, k: nat)
    requires Inv(s) && k < |s.st.table| && k < |Apply(s, e).st.table|
    requires s.st.table[k].out != [] && Apply(s, e).st.table[k].reason != Error
    requires s.st.table[k].Finished() ==> !Reloads(s, e)
    ensures Apply(s, e).runner == s.runner
  {
    hide Inv, Apply, HoldsNobody;
    if Reloads(s, e) {
      ReloadIsSwap(s, e);
      StartedIsRunning(s, k);
    }
  }

  /** Unless its client has given it up, a finished request is final. */
  lemma {:induction false} DoneStays(s: Sys, e: Event, k: nat)
    requires Inv(s) && k < |s.st.table| && k !in s.gone && s.st.table[k].Finished()
    ensures k < |Apply(s, e).st.table| && Apply(s, e).st.table[k] == s.st.table[k]
  {
    if InFlightRow(s, k) { InFlightIsCancelled(s, k); }
    hide Inv, Apply, InFlightRow;
    SettledStep(s, e, k);
  }

  // ---- the runner that has served a request is the one that is installed ----

  /** Started or finished without failure, request k has been served by the installed runner. */
  ghost predicate Attached(s: Sys, k: nat)
    requires k < |s.st.table| && k < |s.served|
  {
    var q := s.st.table[k];
    k !in s.gone && q.reason != Error && (q.Finished() || q.out != []) ==> s.served[k] == s.runner
  }

  lemma {:induction false} AttachedStep(s: Sys, e: Event, k: nat)
    requires Inv(s) && k < |s.st.table| && k < |s.served| && Attached(s, k)
    requires s.st.table[k].Finished() ==> !Reloads(s, e)
    ensures k < |Apply(s, e).st.table| && k < |Apply(s, e).served| && Attached(Apply(s, e), k)
  {
    hide Inv, Apply, Ticking, Reloads, Tears;
    TableGrows(s, e);
    GoneStep(s, e, k);
    if e.Commit? && s.phase.Exec? {
      CommitIsTick(s);
      AttachedTick(s, k);
    } else {
      SameServed(s, e, k);
      if s.st.table[k].Finished() {
        AttachedDone(s, e, k);
      } else if Tears(s, e, k) {
        TearFails(s, e, k);
      } else {
        AttachedOpen(s, e, k);
      }
    }
  }

  lemma {:induction false} AttachedTick(s: Sys, k: nat)
    requires s.phase.Exec? && Shaped(s.st) && InRange(s.phase.batch, |s.st.table|)
    requires s.phase.batch == s.st.running && |s.served| == |s.st.table|
    requires k < |s.st.table| && k < |s.served| && Attached(s, k)
    ensures k < |Ticking(s).st.table| && k < |Ticking(s).served| && Attached(Ticking(s), k)
  {
    TickingIs(s);
    hide Executing, EndTick, Shaped;
  }

  lemma {:induction false} AttachedDone(s: Sys, e: Event, k: nat)
    requires Inv(s) && k < |s.st.table| && k < |s.served| && Attached(s, k)
    requires s.st.table[k].Finished() && !Reloads(s, e)
    requires k < |Apply(s, e).st.table| && k < |Apply(s, e).served| && Apply(s, e).served[k] == s.served[k]
    ensures Attached(Apply(s, e), k)
  {
    hide Inv, Apply;
    GoneStep(s, e, k);
    if k !in s.gone { DoneStays(s, e, k); }
  }

  lemma {:induction false} AttachedOpen(s: Sys, e: Event, k: nat)
    requires Inv(s) && k < |s.st.table| && k < |s.served| && Attached(s, k)
    requires !s.st.table[k].Finished() && !Tears(s, e, k) && !(e.Commit? && s.phase.Exec?)
    requires k < |Apply(s, e).st.table| && k < |Apply(s, e).served| && Apply(s, e).served[k] == s.served[k]
    ensures Attached(Apply(s, e), k)
  {
    UntornEntry(s, e, k);
    NotGone(s, k);
    hide Inv, Apply, Tears;
    if Apply(s, e).st.table[k] == s.st.table[k] && s.st.table[k].out != [] { RunnerStays(s, e, k); }
  }

  lemma {:induction false} NotGone(s: Sys, k: nat)
    requires Inv(s) && k < |s.st.table| && !s.st.table[k].Finished()
    ensures k !in s.gone
  {
    assert Told(s.st.table[k], k in s.gone);
  }

  lemma {:induction false} AttachedAtBirth(s: Sys, e: Event, k: nat)
    requires Inv(s) && |s.st.table| <= k < |Apply(s, e).st.table|
    ensures k < |Apply(s, e).served| && Attached(Apply(s, e), k)
  {
    TableGrows(s, e);
    hide Channels, Flying, Paced, Coherent;
  }

  // ---- over a run ----

  ghost predicate DoneAt(s: Sys, events: seq<Event>, t: nat, k: nat)
    requires Inv(s) && t <= |events|
  {
    k < |At(s, events, t).st.table| && At(s, events, t).st.table[k].Finished()
  }

  /** Between the end of request k and step n no other runner is installed. */
  ghost predicate NoReloadAfter(s: Sys, events: seq<Event>, k: nat, n: nat)
    requires Inv(s) && n <= |events|
  {
    forall t | 0 <= t < n && DoneAt(s, events, t, k) :: !Reloads(At(s, events, t), events[t])
  }

  lemma {:induction false} AttachedAt(s: Sys, events: seq<Event>, k: nat, n: nat)
    requires Inv(s) && |s.st.table| <= k && n <= |events| && NoReloadAfter(s, events, k, n)
    requires k < |At(s, events, n).st.table|
    ensures k < |At(s, events, n).served| && Attached(At(s, events, n), k)
  {
    hide Inv, Apply, Run, Attached, Reloads;
    RunNone(s);
    if n == 0 {
      AtStart(s, events);
    } else {
      var before := At(s, events, n - 1);
      AtNext(s, events, n - 1);
      if k < |before.st.table| {
        AttachedAt(s, events, k, n - 1);
        assert before.st.table[k].Finished() ==> DoneAt(s, events, n - 1, k);
        AttachedStep(before, events[n - 1], k);
      } else {
        AttachedAtBirth(before, events[n - 1], k);
      }
    }
  }

  lemma {:induction false} AtStart(s: Sys, events: seq<Event>)
    requires Inv(s)
    ensures At(s, events, 0) == s
  {
    RunNone(s);
    assert events[..0] == [];
  }

  /** From its first output on, a request that neither fails nor is given up keeps its runner. */
  lemma {:induction false} RunnerStaysUntil(s: Sys, events: seq<Event>, k: nat, t: nat, n: nat)
    requires Inv(s) && t <= n <= |events| && NoReloadAfter(s, events, k, n)
    requires k < |At(s, events, t).st.table| && At(s, events, t).st.table[k].out != []
    requires k < |At(s, events, n).st.table| && At(s, events, n).st.table[k].reason != Error
    requires k !in At(s, events, n).gone
    ensures At(s, events, n).runner == At(s, events, t).runner
    decreases n - t
  {
    hide Inv, Apply, At, Reloads;
    if t < n {
      var before, e := At(s, events, n - 1), events[n - 1];
      AtNext(s, events, n - 1);
      Grows(s, events, t, n - 1, k);
      GoneStep(before, e, k);
      assert before.st.table[k].Finished() ==> DoneAt(s, events, n - 1, k);
      RunnerStays(before, e, k);
      if before.st.table[k].Finished() { DoneStays(before, e, k); }
      RunnerStaysUntil(s, events, k, t, n - 1);
    }
  }

  /**
   * If no other runner is installed between the end of a request and the last read of its queue,
   * every token is read, and the sentinel too, under the runner that has served it. Swaps before
   * its first tick and after that read do no harm, and a swap in between would have failed it.
   */
  lemma {:induction false} ReadInTime(s: Sys, events: seq<Event>, k: nat, times: seq<nat>)
    requires Inv(s) && |s.st.table| <= k && Answered(s, events, k, times)
    requires times[|times| - 1] <= |events| && NoReloadAfter(s, events, k, times[|times| - 1])
    ensures var r := LastRead(s, events, k, times);
      ReadUnder(Seen(s, events, k, times), r.served[k]) && r.runner == r.served[k]
  {
    var n := |times| - 1;
    var obs, r := Seen(s, events, k, times), LastRead(s, events, k, times);
    AnswerIsSolo(s, events, k, times);
    AttachedAt(s, events, k, times[n]);
    assert r.st.table[k].Finished() by {
      StillThere(s, events, k, times, n);
      OneMessage(s, events, k, times[n], n, true);
    }
    hide Inv, NoReloadAfter;
    forall i | 0 <= i < n ensures obs[i].runner == r.served[k] {
      StillThere(s, events, k, times, i);
      OneMessage(s, events, k, times[i], i, false);
      RunnerStaysUntil(s, events, k, times[i], times[n]);
    }
  }
}
