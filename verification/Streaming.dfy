/** One request's reader: the engine's generate and stream, and what the gateway makes of them. */
module Streaming {
  import opened Requests
  import opened Padding

  /** What the reader finds when it takes one message off its queue: by then the loop may already
      have appended further outputs, and another runner may have been installed. */
  datatype Observation = Observation(message: Message, out: seq<int>, reason: Reason, runner: Runner)

  /** `reason` is None on every text chunk. */
  datatype Chunk = Chunk(text: string, reason: Option<Reason>)

  datatype Completion = Completion(text: string, promptTokens: nat, completionTokens: nat, reason: Reason)

  /** Each runner decodes with its own tokenizer. */
  type Decoders = Runner -> (seq<int> -> string)

  /**
   * A reading of the queue up to its first sentinel, as the loop guarantees it: each token has
   * been appended before it can be read, outputs only grow, and behind the sentinel nothing
   * is missing.
   */
  ghost predicate Legal(obs: seq<Observation>) {
    && obs != []
    && var n := |obs| - 1;
    && obs[n].message == End && |obs[n].out| == n
    && (forall i | 0 <= i < n :: obs[i].message == Token(obs[n].out[i]))
    && (forall i | 0 <= i < n :: i < |obs[i].out|)
    && (forall i, j | 0 <= i <= j <= n :: obs[i].out <= obs[j].out)
  }

  /** More tokens only ever add text. */
  ghost predicate PrefixMonotone(decode: seq<int> -> string) {
    forall a: seq<int>, b: seq<int> | a <= b :: decode(a) <= decode(b)
  }

  ghost predicate Monotone(decoders: Decoders) {
    forall r :: PrefixMonotone(decoders(r))
  }

  function Text(chunks: seq<Chunk>): string {
    if chunks == [] then "" else Text(chunks[..|chunks| - 1]) + chunks[|chunks| - 1].text
  }

  lemma {:induction false} TextSnoc(chunks: seq<Chunk>, c: Chunk)
    ensures Text(chunks + [c]) == Text(chunks) + c.text
  {
    assert (chunks + [c])[..|chunks|] == chunks;
  }

  /** Non-empty text chunks without a reason, then exactly one empty chunk with it. */
  ghost predicate StreamShape(chunks: seq<Chunk>, reason: Reason) {
    && chunks != []
    && var n := |chunks| - 1;
    && chunks[n] == Chunk("", Some(reason))
    && (forall i | 0 <= i < n :: chunks[i].text != "" && chunks[i].reason == None)
  }

  // ---- what has been sent ----

  /** A longer text is sent from where the last one stopped; that they agree so far is not checked. */
  function Splice(sent: string, text: string): string {
    if |text| > |sent| then sent + text[|sent|..] else sent
  }

  /** What has been sent after these reads, each decoded by the runner installed at the time. */
  function Spliced(decoders: Decoders, obs: seq<Observation>): string {
    if obs == [] then ""
    else
      var n := |obs| - 1;
      Splice(Spliced(decoders, obs[..n]), decoders(obs[n].runner)(obs[n].out))
  }

  lemma {:induction false} SplicedNext(decoders: Decoders, obs: seq<Observation>, i: nat)
    requires i < |obs|
    ensures Spliced(decoders, obs[..i + 1])
      == Splice(Spliced(decoders, obs[..i]), decoders(obs[i].runner)(obs[i].out))
  {
    assert obs[..i + 1][..i] == obs[..i];
  }

  /** What the stream of a request adds up to: nothing is sent for the sentinel. */
  ghost predicate Streams(decoders: Decoders, obs: seq<Observation>, chunks: seq<Chunk>)
    requires obs != []
  {
    var n := |obs| - 1;
    StreamShape(chunks, obs[n].reason) && Text(chunks) == Spliced(decoders, obs[..n])
  }

  /** `marks[j]` is how many chunks the client has after j messages, and what they add up to. */
  ghost predicate Prompt(
      decoders: Decoders, obs: seq<Observation>, chunks: seq<Chunk>, marks: seq<nat>, i: nat) {
    && i < |marks| && i <= |obs|
    && forall j | 0 <= j <= i :: marks[j] <= |chunks| && Text(chunks[..marks[j]]) == Spliced(decoders, obs[..j])
  }

  lemma {:induction false} StaysPrompt(
      decoders: Decoders, obs: seq<Observation>, chunks: seq<Chunk>, marks: seq<nat>, i: nat, more: seq<Chunk>)
    requires Prompt(decoders, obs, chunks, marks, i) && chunks <= more
    ensures Prompt(decoders, obs, more, marks, i)
    ensures |marks| == i + 1 && i < |obs| && Text(more) == Spliced(decoders, obs[..i + 1]) ==>
      Prompt(decoders, obs, more, marks + [|more|], i + 1)
  {
    forall j | 0 <= j <= i ensures Text(more[..marks[j]]) == Spliced(decoders, obs[..j]) {
      assert more[..marks[j]] == chunks[..marks[j]];
    }
    assert more[..|more|] == more;
  }

  /** The stream after i messages. */
  ghost predicate SoFar(
      decoders: Decoders, obs: seq<Observation>, chunks: seq<Chunk>, marks: seq<nat>, i: nat) {
    && i <= |obs| && Text(chunks) == Spliced(decoders, obs[..i])
    && (forall j | 0 <= j < |chunks| :: chunks[j].text != "" && chunks[j].reason == None)
    && |marks| == i + 1 && Prompt(decoders, obs, chunks, marks, i)
  }

  lemma {:induction false} SoFarNext(
      decoders: Decoders, obs: seq<Observation>, chunks: seq<Chunk>, marks: seq<nat>, i: nat, more: seq<Chunk>)
    requires SoFar(decoders, obs, chunks, marks, i) && i < |obs|
    requires var text := decoders(obs[i].runner)(obs[i].out); var sent := |Text(chunks)|;
      more == if |text| > sent then chunks + [Chunk(text[sent..], None)] else chunks
    ensures SoFar(decoders, obs, more, marks + [|more|], i + 1)
    ensures |Text(more)| == Max(|Text(chunks)|, |decoders(obs[i].runner)(obs[i].out)|)
  {
    var text := decoders(obs[i].runner)(obs[i].out);
    if |text| > |Text(chunks)| { TextSnoc(chunks, Chunk(text[|Text(chunks)|..], None)); }
    SplicedNext(decoders, obs, i);
    hide Text, Spliced;
    assert Text(more) == Spliced(decoders, obs[..i + 1]);
    StaysPrompt(decoders, obs, chunks, marks, i, more);
  }

  function Max(a: nat, b: nat): nat { if a >= b then a else b }

  lemma {:induction false} SoFarDone(
      decoders: Decoders, obs: seq<Observation>, chunks: seq<Chunk>, marks: seq<nat>)
    requires obs != [] && SoFar(decoders, obs, chunks, marks, |obs| - 1)
    ensures var all := chunks + [Chunk("", Some(obs[|obs| - 1].reason))];
      Streams(decoders, obs, all) && Prompt(decoders, obs, all, marks, |obs| - 1)
  {
    var n := |obs| - 1;
    var terminal := Chunk("", Some(obs[n].reason));
    TextSnoc(chunks, terminal);
    hide Text;
    StaysPrompt(decoders, obs, chunks, marks, n, chunks + [terminal]);
  }

  /** The engine's stream: decode the whole output after each token, by the runner installed then,
      and yield what is longer than all that has been sent. */
  method Stream(decoders: Decoders, obs: seq<Observation>) returns (chunks: seq<Chunk>, ghost marks: seq<nat>)
    requires Legal(obs)
    ensures Streams(decoders, obs, chunks)
    ensures Prompt(decoders, obs, chunks, marks, |obs| - 1)
  {
    chunks := [];
    marks := [0];
    var i, sent := 0, 0;
    assert SoFar(decoders, obs, chunks, marks, 0);
    while obs[i].message != End
      invariant 0 <= i < |obs| && sent == |Text(chunks)|
      invariant SoFar(decoders, obs, chunks, marks, i)
      decreases |obs| - i
    {
      hide Text, Prompt, SoFar;
      var text := decoders(obs[i].runner)(obs[i].out);
      ghost var before := chunks;
      if |text| > sent {
        chunks := chunks + [Chunk(text[sent..], None)];
        sent := |text|;
      }
      SoFarNext(decoders, obs, before, marks, i, chunks);
      i := i + 1;
      marks := marks + [|chunks|];
    }
    SoFarDone(decoders, obs, chunks, marks);
    chunks := chunks + [Chunk("", Some(obs[i].reason))];
  }

  /** The text of a one-shot answer: all outputs, by the runner installed at the last read. */
  function Whole(decoders: Decoders, obs: seq<Observation>): string
    requires obs != []
  {
    var last := obs[|obs| - 1];
    decoders(last.runner)(last.out)
  }

  /** The one-shot path: the queue is only a wake-up channel, the text is decoded once. */
  method Generate(decoders: Decoders, prompt: seq<int>, obs: seq<Observation>) returns (done: Completion)
    requires Legal(obs)
    ensures var last := obs[|obs| - 1];
      done == Completion(Whole(decoders, obs), |prompt|, |last.out|, last.reason)
  {
    var i := 0;
    while obs[i].message != End
      invariant 0 <= i < |obs|
      decreases |obs| - i
    {
      i := i + 1;
    }
    assert i == |obs| - 1;
    done := Completion(decoders(obs[i].runner)(obs[i].out), |prompt|, |obs[i].out|, obs[i].reason);
  }

  // ---- whose text it is ----

  /** Runner r is the one that is installed whenever a token is read. */
  ghost predicate ReadUnder(obs: seq<Observation>, r: Runner) {
    forall i | 0 <= i < |obs| - 1 :: obs[i].runner == r
  }

  /** The text a stream shows for these outputs: none where there are none. */
  function Shown(decode: seq<int> -> string, out: seq<int>): string {
    if out == [] then "" else decode(out)
  }

  lemma {:induction false} MoreText(decode: seq<int> -> string, a: seq<int>, b: seq<int>)
    requires PrefixMonotone(decode) && a <= b
    ensures decode(a) <= decode(b)
  {
  }

  lemma {:induction false} OutputsGrow(obs: seq<Observation>, i: nat, j: nat)
    requires Legal(obs) && i <= j < |obs|
    ensures obs[i].out <= obs[j].out
  {
  }

  lemma {:induction false} SpliceLonger(sent: string, text: string)
    requires sent <= text
    ensures Splice(sent, text) == text
  {
  }

  /** While one runner does all the decoding, what has been sent is all that has been read. */
  lemma {:induction false} SplicedUnder(decoders: Decoders, obs: seq<Observation>, r: Runner, j: nat)
    requires Legal(obs) && ReadUnder(obs, r) && PrefixMonotone(decoders(r)) && j < |obs|
    ensures Spliced(decoders, obs[..j]) == if j == 0 then "" else decoders(r)(obs[j - 1].out)
  {
    if j > 0 {
      assert obs[j - 1].runner == r;
      hide Legal, PrefixMonotone, Spliced, Splice, ReadUnder;
      SplicedUnder(decoders, obs, r, j - 1);
      SplicedNext(decoders, obs, j - 1);
      if j > 1 {
        OutputsGrow(obs, j - 2, j - 1);
        MoreText(decoders(r), obs[j - 2].out, obs[j - 1].out);
      }
      SpliceLonger(Spliced(decoders, obs[..j - 1]), decoders(r)(obs[j - 1].out));
    }
  }

  lemma {:induction false} StreamsUnder(decoders: Decoders, obs: seq<Observation>, r: Runner)
    requires Legal(obs) && ReadUnder(obs, r) && PrefixMonotone(decoders(r))
    ensures Spliced(decoders, obs[..|obs| - 1]) == Shown(decoders(r), obs[|obs| - 1].out)
  {
    var n := |obs| - 1;
    SplicedUnder(decoders, obs, r, n);
    hide PrefixMonotone, Spliced, ReadUnder;
    if n > 0 {
      assert obs[n - 1].out <= obs[n].out;
      assert obs[n - 1].out == obs[n].out;
    }
  }

  /** A family in which runner r writes nothing, and every other one the same text for everything
      except, if `blank` is empty, for nothing. */
  ghost function Odd(r: Runner, blank: string): Decoders {
    (other: Runner) => (ids: seq<int>) => if other == r then "" else if ids == [] then blank else "?"
  }

  lemma {:induction false} OddIsMonotone(r: Runner, blank: string)
    requires blank <= "?"
    ensures Monotone(Odd(r, blank))
  {
    var d := Odd(r, blank);
    forall other, a: seq<int>, b: seq<int> | a <= b ensures d(other)(a) <= d(other)(b) {
    }
  }

  lemma {:induction false} OddSpliced(r: Runner, blank: string, obs: seq<Observation>, n: nat)
    requires n <= |obs| && forall i | 0 <= i < n :: obs[i].out != []
    ensures Spliced(Odd(r, blank), obs[..n]) == if exists i :: 0 <= i < n && obs[i].runner != r then "?" else ""
  {
    if n > 0 {
      OddSpliced(r, blank, obs, n - 1);
      SplicedNext(Odd(r, blank), obs, n - 1);
    }
  }

  /** Read even once under another runner, the odd family's stream shows it. */
  lemma {:induction false} OddStreams(obs: seq<Observation>, r: Runner)
    requires Legal(obs) && !ReadUnder(obs, r)
    ensures !StreamsFor(Odd(r, ""), obs, r)
    ensures Silent(Odd(r, "")) && (obs[|obs| - 1].runner == r ==> !Agree(Odd(r, ""), obs))
  {
    OddSpliced(r, "", obs, |obs| - 1);
    hide Spliced;
  }

  lemma {:induction false} StreamsUnderAll(decoders: Decoders, obs: seq<Observation>, r: Runner)
    requires Legal(obs) && ReadUnder(obs, r) && Monotone(decoders)
    ensures StreamsFor(decoders, obs, r)
    ensures Silent(decoders) && obs[|obs| - 1].runner == r ==> Agree(decoders, obs)
  {
    StreamsUnder(decoders, obs, r);
    hide Spliced, PrefixMonotone, ReadUnder, Legal, Monotone;
  }

  ghost predicate StreamsFor(decoders: Decoders, obs: seq<Observation>, r: Runner)
    requires obs != []
  {
    Spliced(decoders, obs[..|obs| - 1]) == Shown(decoders(r), obs[|obs| - 1].out)
  }

  /** Whatever the tokenizers, the stream is runner r's text for the final outputs: if and only if
      r is the runner installed at each read of a token. */
  lemma {:induction false} StreamsForIff(obs: seq<Observation>, r: Runner)
    requires Legal(obs)
    ensures (forall decoders | Monotone(decoders) :: StreamsFor(decoders, obs, r)) <==> ReadUnder(obs, r)
  {
    assert obs != [];
    hide Legal, Monotone, ReadUnder, StreamsFor, Odd;
    if ReadUnder(obs, r) {
      forall decoders | Monotone(decoders) ensures StreamsFor(decoders, obs, r) {
        StreamsUnderAll(decoders, obs, r);
      }
    } else {
      OddIsMonotone(r, "");
      OddStreams(obs, r);
    }
  }

  ghost predicate AnswersFor(decoders: Decoders, obs: seq<Observation>, r: Runner)
    requires obs != []
  {
    Whole(decoders, obs) == decoders(r)(obs[|obs| - 1].out)
  }

  /** The same for the one-shot text: only the last read matters. */
  lemma {:induction false} AnswersForIff(obs: seq<Observation>, r: Runner)
    requires obs != []
    ensures (forall decoders | Monotone(decoders) :: AnswersFor(decoders, obs, r))
      <==> obs[|obs| - 1].runner == r
  {
    if obs[|obs| - 1].runner != r {
      OddIsMonotone(r, "?");
      assert !AnswersFor(Odd(r, "?"), obs, r);
    }
  }

  /** Nothing decodes to nothing. */
  ghost predicate Silent(decoders: Decoders) {
    forall r :: decoders(r)([]) == ""
  }

  ghost predicate Agree(decoders: Decoders, obs: seq<Observation>)
    requires obs != []
  {
    Spliced(decoders, obs[..|obs| - 1]) == Whole(decoders, obs)
  }

  /** Whatever the tokenizers, as long as nothing decodes to nothing: a stream and a one-shot answer
      read alike give the same text if and only if one runner is installed at every read. */
  lemma {:induction false} StreamAgreesIff(obs: seq<Observation>)
    requires Legal(obs)
    ensures (forall decoders | Monotone(decoders) && Silent(decoders) :: Agree(decoders, obs))
      <==> ReadUnder(obs, obs[|obs| - 1].runner)
  {
    var r := obs[|obs| - 1].runner;
    hide Legal, Monotone, Silent, ReadUnder, StreamsFor, Agree, Odd;
    if ReadUnder(obs, r) {
      forall decoders | Monotone(decoders) && Silent(decoders) ensures Agree(decoders, obs) {
        StreamsUnderAll(decoders, obs, r);
      }
    } else {
      OddIsMonotone(r, "");
      OddStreams(obs, r);
    }
  }

  /**
   * What `Stream` and `Generate` return for one reading under one runner: the concatenated stream
   * is the one-shot text, except that a request without any output streams no text at all, so
   * there the two agree if and only if nothing decodes to nothing.
   */
  lemma {:induction false} StreamIsGenerateIff(
      decoders: Decoders, obs: seq<Observation>, chunks: seq<Chunk>, done: Completion)
    requires Legal(obs) && ReadUnder(obs, obs[|obs| - 1].runner) && PrefixMonotone(decoders(obs[|obs| - 1].runner))
    requires Streams(decoders, obs, chunks) && done.text == Whole(decoders, obs)
    ensures Text(chunks) == done.text
      <==> obs[|obs| - 1].out != [] || decoders(obs[|obs| - 1].runner)([]) == ""
  {
    StreamsUnder(decoders, obs, obs[|obs| - 1].runner);
  }

  // ---- the mock's text ----

  const MOCK_WORD := "mock "

  function MockDecode(ids: seq<int>): string {
    if ids == [] then "" else MockDecode(ids[..|ids| - 1]) + MOCK_WORD
  }

  lemma {:induction false} MockDecodeLonger(a: seq<int>, b: seq<int>)
    requires a <= b
    ensures MockDecode(a) <= MockDecode(b)
    decreases |b|
  {
    if |a| < |b| {
      MockDecodeLonger(a, b[..|b| - 1]);
    } else {
      assert a == b;
    }
  }

  /** The mock meets the assumption that streaming rests on. */
  lemma {:induction false} MockIsMonotone()
    ensures PrefixMonotone(MockDecode) && MockDecode([]) == ""
  {
    forall a: seq<int>, b: seq<int> | a <= b ensures MockDecode(a) <= MockDecode(b) {
      MockDecodeLonger(a, b);
    }
  }

  // ---- the gateway ----

  predicate Fatal(reason: Reason) { reason == Error || reason == Cancelled }

  /** What goes over the wire: a chunk, the [DONE] line, or a body torn off in the middle. */
  datatype Frame = Data(chunk: Chunk) | DoneMark | Torn

  /** An error or a cancellation tears the body off instead of its last chunk; otherwise every chunk
      goes out, and the [DONE] line. */
  ghost predicate Framed(chunks: seq<Chunk>, reason: Reason, frames: seq<Frame>) {
    var torn := reason in {Error, Cancelled};
    && frames != [] && frames[|frames| - 1] == (if torn then Torn else DoneMark)
    && |frames| == (if torn then |chunks| else |chunks| + 1)
    && forall i | 0 <= i < |frames| - 1 :: frames[i] == Data(chunks[i])
  }

  /** Frame a stream. */
  method Frames(chunks: seq<Chunk>, ghost reason: Reason) returns (frames: seq<Frame>)
    requires StreamShape(chunks, reason)
    ensures Framed(chunks, reason, frames)
  {
    frames := [];
    var i := 0;
    while i < |chunks|
      invariant 0 <= i <= |chunks| && |frames| == i
      invariant i == |chunks| ==> !Fatal(reason)
      invariant forall j | 0 <= j < i :: frames[j] == Data(chunks[j])
    {
      if chunks[i].reason.Some? && Fatal(chunks[i].reason.value) {
        frames := frames + [Torn];
        return;
      }
      frames := frames + [Data(chunks[i])];
      i := i + 1;
    }
    frames := frames + [DoneMark];
  }

  /** The text a client can put together from the frames it got. */
  function Payload(frames: seq<Frame>): string {
    if frames == [] then ""
    else
      var n := |frames| - 1;
      Payload(frames[..n]) + (match frames[n] case Data(c) => c.text case _ => "")
  }

  lemma {:induction false} PayloadIsText(frames: seq<Frame>, chunks: seq<Chunk>)
    requires |frames| == |chunks| && forall i | 0 <= i < |frames| :: frames[i] == Data(chunks[i])
    ensures Payload(frames) == Text(chunks)
  {
    if frames != [] {
      var n := |frames| - 1;
      PayloadIsText(frames[..n], chunks[..n]);
    }
  }

  /** A body has [DONE] and tells its reason, or is torn off; either way all the text has gone out. */
  lemma {:induction false} DoneIsWhole(chunks: seq<Chunk>, reason: Reason, frames: seq<Frame>)
    requires StreamShape(chunks, reason) && Framed(chunks, reason, frames)
    ensures DoneMark in frames <==> reason !in {Error, Cancelled}
    ensures Torn in frames <==> reason in {Error, Cancelled}
    ensures Data(Chunk("", Some(reason))) in frames <==> reason !in {Error, Cancelled}
    ensures Payload(frames) == Text(chunks)
  {
    var n := |frames| - 1;
    PayloadIsText(frames[..n], chunks[..n]);
    if reason in {Error, Cancelled} {
      assert frames[n] == Torn;
    } else {
      assert frames[n] == DoneMark && frames[n - 1] == Data(chunks[n - 1]);
      assert chunks[..n] == chunks;
    }
  }

  datatype Response = Failure(reason: Reason) | Success(completion: Completion)

  /** The non-streaming handler never dresses a failure up as an answer. */
  function Respond(done: Completion): Response {
    if Fatal(done.reason) then Failure(done.reason) else Success(done)
  }
}
