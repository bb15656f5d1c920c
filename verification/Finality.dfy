/** When a finished request is final: its channel, its reason, and everything else about it. */
module Finality {
  import opened Sums
  import opened Requests
  import opened Padding
  import opened Admission
  import opened Effects
  import opened Protocol
  import opened Invariants
  import opened Transparency

  /** A worker thread is computing the request's next token. */
  ghost predicate InFlightRow(s: Sys, k: nat) {
    s.phase.Exec? && k in s.phase.batch
  }

  /** The tick that is running has something to feed; otherwise the model raises. */
  ghost predicate ComesBack(s: Sys)
    requires s.phase.Exec? && InRange(s.phase.batch, |s.st.table|)
  {
    s.runner.Mock? || exists k :: k in s.phase.batch && s.st.table[k].Len() > 0
  }

  /** The token the request's own model has for it, whatever else is in the batch. */
  ghost function OwnToken(s: Sys, k: nat): Option<int>
    requires k < |s.st.table|
  {
    Next(s.runner, s.st.table[k].req, s.st.table[k].Tokens())
  }

  /** What a finished request becomes: the same, unless its row is in flight. */
  ghost function Later(s: Sys, e: Event, k: nat): Entry
    requires Inv(s) && k < |s.st.table|
  {
    var q := s.st.table[k];
    if !InFlightRow(s, k) then q
    else
      InFlight(s);
      match e
      case Commit => if ComesBack(s) then RowResult(q, OwnToken(s, k)) else Failed(q)
      case Raise => Failed(q)
      case Kill => Failed(q)
      case Swap(_) => Failed(q)
      case _ => q
  }

  lemma {:induction false} TickLater(s: Sys, k: nat)
    requires Inv(s) && s.phase.Exec? && k < |s.st.table| && s.st.table[k].Finished()
    ensures InRange(s.phase.batch, |s.st.table|) && |s.served| == |s.st.table|
    ensures k < |Ticking(s).st.table| && Ticking(s).st.table[k] == Later(s, Commit, k)
  {
    hide Inv, Executing, Ticking, Shaped, RowResult, OwnToken, Ticked;
    InFlight(s);
    ComesBackIff(s);
    FinishedNotWaiting(s, k);
    if Executing(s).Done? {
      TickingIs(s);
      TickedLater(s, k);
    } else {
      RaisedLater(s, k);
    }
  }

  lemma {:induction false} ComesBackIff(s: Sys)
    requires Inv(s) && s.phase.Exec?
    ensures InRange(s.phase.batch, |s.st.table|)
    ensures Executing(s).Done? <==> ComesBack(s)
  {
    TickRaisesIff(s);
    hide Inv, Executing;
  }

  lemma {:induction false} TickedLater(s: Sys, k: nat)
    requires Inv(s) && s.phase.Exec? && k < |s.st.table| && |s.served| == |s.st.table|
    requires InRange(s.phase.batch, |s.st.table|) && Executing(s).Done?
    requires Ticked(s.st.table, Ticking(s).st.table, s.phase.batch, Executing(s).picks)
    ensures k < |Ticking(s).st.table|
    ensures Ticking(s).st.table[k]
      == if k in s.phase.batch then RowResult(s.st.table[k], OwnToken(s, k)) else s.st.table[k]
  {
    TickIsTransparent(s);
    hide Inv, Executing, Ticking, RowResult, Next;
    if k in s.phase.batch {
      var i := IndexOf(s.phase.batch, k);
    }
  }

  lemma {:induction false} RaisedLater(s: Sys, k: nat)
    requires s.phase.Exec? && k < |s.st.table| && |s.served| == |s.st.table|
    requires InRange(s.phase.batch, |s.st.table|) && Executing(s).Raised?
    requires k !in s.st.waiting && s.phase.batch == s.st.running
    ensures k < |Ticking(s).st.table|
    ensures Ticking(s).st.table[k] == if k in s.phase.batch then Failed(s.st.table[k]) else s.st.table[k]
  {
    hide Executing, Failed;
  }

  lemma {:induction false} FinishedNotWaiting(s: Sys, k: nat)
    requires Inv(s) && k < |s.st.table| && s.st.table[k].Finished()
    ensures k !in s.st.waiting
  {
  }

  lemma {:induction false} FinishedStep(s: Sys, e: Event, k: nat)
    requires Inv(s) && k < |s.st.table| && s.st.table[k].Finished()
    ensures k < |Apply(s, e).st.table| && Apply(s, e).st.table[k] == Later(s, e, k)
  {
    ShapedParts(s.st);
    FinishedNotWaiting(s, k);
    if s.phase.Exec? { InFlight(s); }
    match e
    case Commit => if s.phase.Exec? { TickLater(s, k); }
    case Cancel(j) => if j < |s.st.table| { AbortShape(s.st, j, Cancelled); }
    case _ =>
  }

  /** A finished row that is in flight was cancelled by its client, and its channel is clean. */
  lemma {:induction false} InFlightIsCancelled(s: Sys, k: nat)
    requires Inv(s) && k < |s.st.table| && s.st.table[k].Finished() && InFlightRow(s, k)
    ensures var q := s.st.table[k];
      k in s.gone && Told(q, true) && Clean(q) && q.reason == Cancelled
  {
    assert Told(s.st.table[k], k in s.gone);
  }

  // ---- the channel ----

  /** The step emits for request k again although it is finished. */
  ghost predicate Disturbs(s: Sys, e: Event, k: nat)
    requires Inv(s) && k < |s.st.table|
  {
    InFlightRow(s, k) &&
    (InFlight(s);
     match e
     case Commit => ComesBack(s) ==> OwnToken(s, k).Some?
     case Raise => true
     case Kill => true
     case Swap(_) => true
     case _ => false)
  }

  /** A clean finished channel stays clean unless its row is in flight and the step brings a
      token for it or takes the loop down: known from the state before the step. */
  lemma {:induction false} ChannelStaysCleanIff(s: Sys, e: Event, k: nat)
    requires Inv(s) && k < |s.st.table| && Clean(s.st.table[k])
    ensures k < |Apply(s, e).st.table|
    ensures Clean(Apply(s, e).st.table[k]) <==> !Disturbs(s, e, k)
  {
    FinishedStep(s, e, k);
    if InFlightRow(s, k) {
      InFlightIsCancelled(s, k);
      InFlight(s);
      hide Inv, Apply, Clean, Told, Next;
      FailedCleanIff(s.st.table[k], true);
      RowCleanIff(s.st.table[k], OwnToken(s, k));
    }
  }

  lemma {:induction false} RowCleanIff(q: Entry, pick: Option<int>)
    requires Told(q, true) && Clean(q) && q.reason == Cancelled
    ensures Clean(RowResult(q, pick)) <==> pick.None?
    ensures q.Finished()
  {
    if pick.Some? { DeliveredCleanIff(q, pick.value, true); }
  }

  // ---- the reason ----

  /** The step rewrites the reason: the tick comes back with a token for this row, and it is a
      stop token or the last one allowed. */
  ghost predicate Rewrites(s: Sys, e: Event, k: nat)
    requires Inv(s) && k < |s.st.table|
  {
    e.Commit? && InFlightRow(s, k) &&
    (InFlight(s); ComesBack(s)) &&
    var q := s.st.table[k];
    match OwnToken(s, k)
    case None => false
    case Some(t) => t in q.req.eos || |q.out| + 1 >= q.req.maxNew
  }

  /** A finished request keeps its reason in every step but one of these. */
  lemma {:induction false} ReasonIsKeptIff(s: Sys, e: Event, k: nat)
    requires Inv(s) && k < |s.st.table| && s.st.table[k].Finished()
    ensures k < |Apply(s, e).st.table|
    ensures Apply(s, e).st.table[k].reason == s.st.table[k].reason <==> !Rewrites(s, e, k)
  {
    FinishedStep(s, e, k);
    if InFlightRow(s, k) {
      InFlightIsCancelled(s, k);
      InFlight(s);
      hide Inv, Apply, Clean, Told, Next;
    }
  }

  // ---- everything, for ever ----

  lemma {:induction false} SettledStep(s: Sys, e: Event, k: nat)
    requires Inv(s) && k < |s.st.table| && s.st.table[k].Finished() && !InFlightRow(s, k)
    ensures k < |Apply(s, e).st.table| && Apply(s, e).st.table[k] == s.st.table[k]
    ensures !InFlightRow(Apply(s, e), k)
  {
    FinishedStep(s, e, k);
    StepInv(s, e);
    if s.phase.Ready? && Apply(s, e).phase.Exec? { FinishedNeverRuns(s, k); }
  }

  lemma {:induction false} SettledForever(s: Sys, events: seq<Event>, k: nat)
    requires Inv(s) && k < |s.st.table| && s.st.table[k].Finished() && !InFlightRow(s, k)
    ensures k < |Run(s, events).st.table| && Run(s, events).st.table[k] == s.st.table[k]
    ensures !InFlightRow(Run(s, events), k)
  {
    if events != [] {
      hide Inv, Apply, InFlightRow;
      var n := |events| - 1;
      SettledForever(s, events[..n], k);
      SettledStep(Run(s, events[..n]), events[n], k);
    }
  }

  ghost predicate SameAfter(s: Sys, events: seq<Event>, k: nat)
    requires Inv(s) && k < |s.st.table|
  {
    k < |Run(s, events).st.table| && Run(s, events).st.table[k] == s.st.table[k]
  }

  /**
   * A finished request is final, whatever happens from then on, if and only if its row is not in
   * flight at that moment; which its client knows when it cancels.
   */
  lemma {:induction false} FinalIff(s: Sys, k: nat)
    requires Inv(s) && k < |s.st.table| && s.st.table[k].Finished()
    ensures (forall events :: SameAfter(s, events, k)) <==> !InFlightRow(s, k)
  {
    if InFlightRow(s, k) {
      RunNone(s);
      RunOne(s, [], Raise);
      assert [] + [Raise] == [Raise];
      FinishedStep(s, Raise, k);
      hide Inv, Apply, Run;
      assert |Failed(s.st.table[k]).log| == |s.st.table[k].log| + 1;
      assert !SameAfter(s, [Raise], k);
    } else {
      forall events ensures SameAfter(s, events, k) {
        SettledForever(s, events, k);
      }
    }
  }
}
