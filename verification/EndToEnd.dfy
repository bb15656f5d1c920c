/** From a run of the server to what one client receives. */
module EndToEnd {
  import opened Requests
  import opened Padding
  import opened Protocol
  import opened Invariants
  import opened Transparency
  import opened Lifecycle
  import opened Alone
  import opened Streaming

  lemma {:induction false} SelfExtends(q: Entry)
    ensures Extends(q, q)
  {
  }

  lemma {:induction false} ExtendsOn(a: Entry, b: Entry, c: Entry)
    requires Extends(a, b) && Extends(b, c)
    ensures Extends(a, c)
  {
  }

  /** From one moment of a run to a later one, a request only grows. */
  lemma {:induction false} Grows(s: Sys, events: seq<Event>, t: nat, u: nat, k: nat)
    requires Inv(s) && t <= u <= |events| && k < |At(s, events, t).st.table|
    ensures k < |At(s, events, u).st.table|
    ensures Extends(At(s, events, t).st.table[k], At(s, events, u).st.table[k])
    decreases u - t
  {
    hide Inv, Apply, Extends, At;
    if t == u {
      SelfExtends(At(s, events, t).st.table[k]);
    } else {
      var before := At(s, events, u - 1);
      Grows(s, events, t, u - 1, k);
      AtNext(s, events, u - 1);
      StepExtends(before, events[u - 1], k);
      ExtendsOn(At(s, events, t).st.table[k], before.st.table[k], At(s, events, u).st.table[k]);
    }
  }

  /** Nobody who has been given up comes back. */
  lemma {:induction false} GoneGrows(s: Sys, events: seq<Event>, t: nat, u: nat, k: nat)
    requires Inv(s) && t <= u <= |events| && k in At(s, events, t).gone
    ensures k in At(s, events, u).gone
    decreases u - t
  {
    hide Inv, Apply, At;
    if t < u {
      GoneGrows(s, events, t, u - 1, k);
      AtNext(s, events, u - 1);
      GoneStep(At(s, events, u - 1), events[u - 1], k);
    }
  }

  /**
   * A reader of request k that takes its i-th message after `times[i]` events, in any
   * interleaving with the loop: each message is there when it is taken, and the reader stops at
   * the first sentinel.
   */
  ghost predicate Reads(s: Sys, events: seq<Event>, k: nat, times: seq<nat>)
    requires Inv(s)
  {
    && times != []
    && (forall i, j | 0 <= i <= j < |times| :: times[i] <= times[j])
    && (forall i | 0 <= i < |times| :: times[i] <= |events| && ReadsAt(s, events, k, times[i], i, i == |times| - 1))
  }

  ghost predicate ReadsAt(s: Sys, events: seq<Event>, k: nat, t: nat, i: nat, last: bool)
    requires Inv(s) && t <= |events|
  {
    && k < |At(s, events, t).st.table|
    && i < |At(s, events, t).st.table[k].log|
    && (At(s, events, t).st.table[k].log[i] == End <==> last)
  }

  ghost function Seen(s: Sys, events: seq<Event>, k: nat, times: seq<nat>): (obs: seq<Observation>)
    requires Inv(s) && Reads(s, events, k, times)
    ensures |obs| == |times|
  {
    seq(|times|, i requires 0 <= i < |times| =>
      assert ReadsAt(s, events, k, times[i], i, i == |times| - 1);
      var q := At(s, events, times[i]).st.table[k];
      Observation(q.log[i], q.out, q.reason, At(s, events, times[i]).runner))
  }

  /** The state in which the reader of request k takes its last message. */
  ghost function LastRead(s: Sys, events: seq<Event>, k: nat, times: seq<nat>): (r: Sys)
    requires Inv(s) && Reads(s, events, k, times)
    ensures Inv(r) && k < |r.st.table| && k < |r.served|
  {
    assert ReadsAt(s, events, k, times[|times| - 1], |times| - 1, true);
    At(s, events, times[|times| - 1])
  }

  /** One message of a request that has not been given up. */
  lemma {:induction false} OneMessage(s: Sys, events: seq<Event>, k: nat, t: nat, i: nat, last: bool)
    requires Inv(s) && t <= |events| && ReadsAt(s, events, k, t, i, last)
    requires k !in At(s, events, t).gone
    ensures var q := At(s, events, t).st.table[k];
      && (last ==> q.Finished() && |q.out| == i)
      && (!last ==> i < |q.out| && q.log[i] == Token(q.out[i]))
  {
    var now := At(s, events, t);
    var q := now.st.table[k];
    assert Told(q, k in now.gone);
    assert q.log == Tokens(q.out) + (if q.Finished() then [End] else []);
  }

  /** Whoever reads to the end has not been given up before. */
  lemma {:induction false} StillThere(s: Sys, events: seq<Event>, k: nat, times: seq<nat>, i: nat)
    requires Inv(s) && Reads(s, events, k, times) && k !in LastRead(s, events, k, times).gone && i < |times|
    ensures times[i] <= |events| && k !in At(s, events, times[i]).gone
    ensures ReadsAt(s, events, k, times[i], i, i == |times| - 1)
  {
    hide Inv;
    assert ReadsAt(s, events, k, times[i], i, i == |times| - 1);
    var n := |times| - 1;
    assert ReadsAt(s, events, k, times[n], n, true);
    if k in At(s, events, times[i]).gone { GoneGrows(s, events, times[i], times[n], k); }
  }

  /** Every reading by a client that stays, in every interleaving, is what `stream` relies on. */
  lemma {:induction false} EveryReadingIsLegal(s: Sys, events: seq<Event>, k: nat, times: seq<nat>)
    requires Inv(s) && Reads(s, events, k, times) && k !in LastRead(s, events, k, times).gone
    ensures Legal(Seen(s, events, k, times))
  {
    hide Inv;
    var obs := Seen(s, events, k, times);
    var n := |obs| - 1;
    forall i, j | 0 <= i <= j <= n ensures obs[i].out <= obs[j].out {
      StillThere(s, events, k, times, i);
      StillThere(s, events, k, times, j);
      Grows(s, events, times[i], times[j], k);
    }
    forall i | 0 <= i <= n
      ensures i == n ==> obs[i].message == End && |obs[i].out| == n
      ensures i < n ==> i < |obs[i].out| && obs[i].message == Token(obs[i].out[i])
    {
      StillThere(s, events, k, times, i);
      OneMessage(s, events, k, times[i], i, i == n);
    }
    forall i | 0 <= i < n ensures obs[i].message == Token(obs[n].out[i]) {
      assert obs[i].out <= obs[n].out;
    }
  }

  // ---- what the client receives ----

  /** A reading up to the sentinel of a request that ended with "stop" or "length". */
  ghost predicate Answered(s: Sys, events: seq<Event>, k: nat, times: seq<nat>)
    requires Inv(s)
  {
    && Reads(s, events, k, times)
    && var r := LastRead(s, events, k, times);
      k !in r.gone && r.st.table[k].reason in {Stop, Length}
  }

  /** What request k gets when it is served alone, by the runner that has served it here. */
  ghost function SoloAnswer(s: Sys, k: nat): (seq<int>, Reason)
    requires k < |s.st.table| && k < |s.served|
  {
    Solo(s.served[k], s.st.table[k].req, [])
  }

  lemma {:induction false} AnswerIsSolo(s: Sys, events: seq<Event>, k: nat, times: seq<nat>)
    requires Inv(s) && Answered(s, events, k, times)
    ensures var last := Seen(s, events, k, times)[|times| - 1];
      var r := LastRead(s, events, k, times);
      && last == Observation(End, r.st.table[k].out, r.st.table[k].reason, r.runner)
      && SoloAnswer(r, k) == (last.out, last.reason)
    ensures Legal(Seen(s, events, k, times))
  {
    var r := LastRead(s, events, k, times);
    var n := |times| - 1;
    EveryReadingIsLegal(s, events, k, times);
    StillThere(s, events, k, times, n);
    OneMessage(s, events, k, times[n], n, true);
    hide Inv;
    TransparentEntry(r, k);
  }

  /** The stream is the served runner's text for the solo outputs. */
  ghost predicate StreamsSolo(decoders: Decoders, s: Sys, events: seq<Event>, k: nat, times: seq<nat>)
    requires Inv(s) && Reads(s, events, k, times)
  {
    var r := LastRead(s, events, k, times);
    Spliced(decoders, Seen(s, events, k, times)[..|times| - 1]) == Shown(decoders(r.served[k]), SoloAnswer(r, k).0)
  }

  /**
   * End to end, in any interleaving. Whatever the tokenizers, a streaming client gets the served
   * runner's text for what its request produces alone: if and only if at each read of a token the
   * runner that is installed is the one that has served it. A swap between the end of a request
   * and the last reads of its queue is what can break it.
   */
  lemma {:induction false} StreamIsSoloIff(s: Sys, events: seq<Event>, k: nat, times: seq<nat>)
    requires Inv(s) && Answered(s, events, k, times)
    ensures (forall decoders | Monotone(decoders) :: StreamsSolo(decoders, s, events, k, times))
      <==> ReadUnder(Seen(s, events, k, times), LastRead(s, events, k, times).served[k])
  {
    AnswerIsSolo(s, events, k, times);
    hide Inv, Reads, Solo, Monotone;
    var obs, r := Seen(s, events, k, times), LastRead(s, events, k, times);
    StreamsForIff(obs, r.served[k]);
    forall decoders ensures StreamsSolo(decoders, s, events, k, times) <==> StreamsFor(decoders, obs, r.served[k]) {
    }
    if forall decoders | Monotone(decoders) :: StreamsSolo(decoders, s, events, k, times) {
      forall decoders | Monotone(decoders) ensures StreamsFor(decoders, obs, r.served[k]) {
        assert StreamsSolo(decoders, s, events, k, times);
      }
    }
  }

  /** The one-shot text is the served runner's text for the solo outputs. */
  ghost predicate AnswersSolo(decoders: Decoders, s: Sys, events: seq<Event>, k: nat, times: seq<nat>)
    requires Inv(s) && Reads(s, events, k, times)
  {
    var r := LastRead(s, events, k, times);
    Whole(decoders, Seen(s, events, k, times)) == decoders(r.served[k])(SoloAnswer(r, k).0)
  }

  /** A one-shot client gets it if and only if that runner is installed when it takes the sentinel. */
  lemma {:induction false} OneShotIsSoloIff(s: Sys, events: seq<Event>, k: nat, times: seq<nat>)
    requires Inv(s) && Answered(s, events, k, times)
    ensures var r := LastRead(s, events, k, times);
      (forall decoders | Monotone(decoders) :: AnswersSolo(decoders, s, events, k, times))
        <==> r.runner == r.served[k]
  {
    AnswerIsSolo(s, events, k, times);
    hide Inv, Reads, Solo, Monotone;
    var obs, r := Seen(s, events, k, times), LastRead(s, events, k, times);
    AnswersForIff(obs, r.served[k]);
    if forall decoders | Monotone(decoders) :: AnswersSolo(decoders, s, events, k, times) {
      forall decoders | Monotone(decoders) ensures AnswersFor(decoders, obs, r.served[k]) {
        assert AnswersSolo(decoders, s, events, k, times);
      }
    }
  }

  /** The last thing a reader that stays sees is the state of a finished request. */
  lemma {:induction false} LastSeen(s: Sys, events: seq<Event>, k: nat, times: seq<nat>)
    requires Inv(s) && Reads(s, events, k, times) && k !in LastRead(s, events, k, times).gone
    ensures var q := LastRead(s, events, k, times).st.table[k];
      && q.Finished()
      && Seen(s, events, k, times)[|times| - 1]
        == Observation(End, q.out, q.reason, LastRead(s, events, k, times).runner)
  {
    var n := |times| - 1;
    StillThere(s, events, k, times, n);
    OneMessage(s, events, k, times[n], n, true);
  }

  /**
   * Over the wire: the body has [DONE], and tells its reason, if and only if the request ended with
   * "stop" or "length", and is torn off otherwise. With [DONE] the reason is the one the request has
   * alone, whatever the server does; and, where the stream was read under the runner that has
   * served it, the body is that runner's text for the whole solo answer.
   */
  lemma {:induction false} StreamedAnswerIsTheSoloAnswer(
      s: Sys, events: seq<Event>, k: nat, times: seq<nat>,
      decoders: Decoders, chunks: seq<Chunk>, frames: seq<Frame>)
    requires Inv(s) && Reads(s, events, k, times) && k !in LastRead(s, events, k, times).gone
    requires var obs := Seen(s, events, k, times);
      Streams(decoders, obs, chunks) && Framed(chunks, obs[|obs| - 1].reason, frames)
    ensures var reason := LastRead(s, events, k, times).st.table[k].reason;
      && (DoneMark in frames <==> reason in {Stop, Length})
      && (Data(Chunk("", Some(reason))) in frames <==> reason in {Stop, Length})
      && (Torn in frames <==> reason in {Error, Cancelled})
    ensures DoneMark in frames ==>
      var r := LastRead(s, events, k, times);
      && chunks[|chunks| - 1].reason == Some(SoloAnswer(r, k).1)
      && (ReadUnder(Seen(s, events, k, times), r.served[k]) && PrefixMonotone(decoders(r.served[k])) ==>
            Payload(frames) == Shown(decoders(r.served[k]), SoloAnswer(r, k).0))
  {
    var obs, r := Seen(s, events, k, times), LastRead(s, events, k, times);
    DoneIsWhole(chunks, obs[|obs| - 1].reason, frames);
    LastSeen(s, events, k, times);
    if r.st.table[k].reason in {Stop, Length} {
      assert Answered(s, events, k, times);
      AnswerIsSolo(s, events, k, times);
      hide Inv, Reads, Solo, PrefixMonotone, ReadUnder;
      if ReadUnder(obs, r.served[k]) && PrefixMonotone(decoders(r.served[k])) {
        StreamsUnder(decoders, obs, r.served[k]);
      }
    }
  }

  /**
   * So a streaming client of a fresh server gets [DONE] if and only if its request, alone, ends with
   * "stop" or "length"; unless a tick took the loop down over it, and then its body is torn off.
   */
  lemma {:induction false} DoneIsSoloOrTorn(
      slots: int, maxTokens: int, runner: Runner, events: seq<Event>, k: nat, times: seq<nat>,
      decoders: Decoders, chunks: seq<Chunk>, frames: seq<Frame>)
    requires var s := Start(slots, maxTokens, runner);
      && Inv(s) && Reads(s, events, k, times) && k !in LastRead(s, events, k, times).gone
      && var obs := Seen(s, events, k, times);
        Streams(decoders, obs, chunks) && Framed(chunks, obs[|obs| - 1].reason, frames)
    ensures var t := times[|times| - 1];
      var r := LastRead(Start(slots, maxTokens, runner), events, k, times);
      && t <= |events|
      && (DoneMark in frames <==> Torn !in frames)
      && (DoneMark in frames <==>
            !TornSince(slots, maxTokens, runner, events[..t], k) && SoloAnswer(r, k).1 in {Stop, Length})
  {
    var s, t := Start(slots, maxTokens, runner), times[|times| - 1];
    StillThere(s, events, k, times, |times| - 1);
    LastSeen(s, events, k, times);
    StreamedAnswerIsTheSoloAnswer(s, events, k, times, decoders, chunks, frames);
    hide Inv, Reads, Streams, Framed, TornSince, Solo;
    assert LastRead(s, events, k, times) == Reach(slots, maxTokens, runner, events[..t]);
    AnswerIsSoloOrTorn(slots, maxTokens, runner, events[..t], k);
  }

  /**
   * The one-shot handler: a request that ended with "stop" or "length" is a success, with the solo
   * counts and reason and the text of the runner that is installed at the end; one that ended
   * otherwise is a failure with its reason.
   */
  lemma {:induction false} OneShotAnswerIsTheSoloAnswer(
      s: Sys, events: seq<Event>, k: nat, times: seq<nat>, decoders: Decoders, done: Completion)
    requires Inv(s) && Reads(s, events, k, times) && k !in LastRead(s, events, k, times).gone
    requires var obs := Seen(s, events, k, times); var last := obs[|times| - 1];
      var prompt := LastRead(s, events, k, times).st.table[k].req.prompt;
      done == Completion(Whole(decoders, obs), |prompt|, |last.out|, last.reason)
    ensures var r := LastRead(s, events, k, times);
      var q, alone := r.st.table[k], SoloAnswer(r, k);
      && q.reason in {Stop, Length, Error, Cancelled}
      && (q.reason in {Stop, Length} ==>
            Respond(done) == Success(Completion(decoders(r.runner)(alone.0), |q.req.prompt|, |alone.0|, alone.1)))
      && (q.reason in {Error, Cancelled} ==> Respond(done) == Failure(q.reason))
  {
    LastSeen(s, events, k, times);
    if LastRead(s, events, k, times).st.table[k].reason in {Stop, Length} {
      assert Answered(s, events, k, times);
      AnswerIsSolo(s, events, k, times);
    }
  }
}
