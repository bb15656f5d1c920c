/** One request: its tokens, its output channel, and what one step does to it. */
module Requests {

  datatype Option<+T> = None | Some(value: T)

  /** `Unfinished` is the empty finish reason. */
  datatype Reason = Unfinished | Stop | Length | Cancelled | Error

  /** What is put on a request's queue: a sampled token, or the end-of-stream sentinel. */
  datatype Message = Token(id: int) | End

  datatype Request = Request(
    prompt: seq<int>, maxNew: int, temperature: real, topK: Option<int>, eos: set<int>)

  /** The value of one sequence. `log` is everything ever put on its queue, in order. */
  datatype Entry = Entry(req: Request, out: seq<int>, reason: Reason, log: seq<Message>) {
    predicate Finished() { reason != Unfinished }

    function Tokens(): seq<int> { req.prompt + out }

    function Len(): nat { |req.prompt| + |out| }

    /** What is left of the token allowance. */
    function Left(): int { req.maxNew - |out| }
  }

  function Created(req: Request): Entry {
    Entry(req, [], Unfinished, [])
  }

  /** A request that asks for no tokens is answered on submission. */
  function Submitted(q: Entry): Entry {
    if q.req.maxNew <= 0 then q.(reason := Length, log := q.log + [End]) else q
  }

  function ReasonAfter(q: Entry, t: int): Reason {
    if t in q.req.eos then Stop
    else if |q.out| + 1 >= q.req.maxNew then Length
    else q.reason
  }

  function Delivered(q: Entry, t: int): Entry {
    var reason := ReasonAfter(q, t);
    var log := q.log + [Token(t)];
    q.(out := q.out + [t], reason := reason,
       log := if reason != Unfinished then log + [End] else log)
  }

  function Aborted(q: Entry, reason: Reason): Entry {
    if q.Finished() then q else q.(reason := reason, log := q.log + [End])
  }

  function Failed(q: Entry): Entry {
    q.(reason := if q.Finished() then q.reason else Error, log := q.log + [End])
  }

  /** What one tick does to the row of `q`: None is a row that failed on its own. */
  function RowResult(q: Entry, pick: Option<int>): Entry {
    match pick
    case None => Aborted(q, Error)
    case Some(t) => Delivered(q, t)
  }

  // ---- what a request's own fields promise ----

  ghost predicate NoEos(out: seq<int>, eos: set<int>) {
    forall i | 0 <= i < |out| :: out[i] !in eos
  }

  /** The finish reason is what the outputs say it is. */
  ghost predicate Honest(q: Entry) {
    && NoEos(if q.out == [] then [] else q.out[..|q.out| - 1], q.req.eos)
    && (|q.out| <= q.req.maxNew || q.out == [])
    && (q.reason == Stop <==> q.out != [] && q.out[|q.out| - 1] in q.req.eos)
    && (q.reason == Length <==> |q.out| >= q.req.maxNew && NoEos(q.out, q.req.eos))
  }

  function Tokens(out: seq<int>): (r: seq<Message>)
    ensures |r| == |out|
  {
    seq(|out|, i requires 0 <= i < |out| => Token(out[i]))
  }

  /** Every output, in order, then one sentinel. */
  ghost predicate Clean(q: Entry) {
    q.Finished() && q.log == Tokens(q.out) + [End]
  }

  /** A token that was already being computed when its client left arrives behind the sentinel. */
  ghost predicate Echoed(q: Entry) {
    && q.Finished() && q.out != []
    && var n := |q.out| - 1;
      q.log == Tokens(q.out[..n]) + [End, Token(q.out[n]), End]
  }

  /** The loop died while the cancelled request was still in its batch. */
  ghost predicate Doubled(q: Entry) {
    q.Finished() && q.log == Tokens(q.out) + [End, End]
  }

  /** `gone`: the request's own client cancelled it before it finished. */
  ghost predicate LogOk(q: Entry, gone: bool) {
    if !q.Finished() then !gone && q.log == Tokens(q.out)
    else if !gone then Clean(q)
    else Clean(q) || Echoed(q) || Doubled(q)
  }

  ghost predicate Told(q: Entry, gone: bool) {
    Honest(q) && LogOk(q, gone)
  }

  /** The tokens among a list of messages. */
  function TokensOf(log: seq<Message>): seq<int> {
    if log == [] then []
    else TokensOf(log[..|log| - 1]) + (match log[|log| - 1] case Token(t) => [t] case End => [])
  }

  lemma {:induction false} TokensOfConcat(a: seq<Message>, b: seq<Message>)
    ensures TokensOf(a + b) == TokensOf(a) + TokensOf(b)
  {
    if b == [] {
      assert a + b == a;
    } else {
      var n := |b| - 1;
      TokensOfConcat(a, b[..n]);
      assert (a + b)[..|a + b| - 1] == a + b[..n];
    }
  }

  lemma {:induction false} TokensOfTokens(out: seq<int>)
    ensures TokensOf(Tokens(out)) == out
  {
    if out != [] {
      var n := |out| - 1;
      TokensOfTokens(out[..n]);
      assert Tokens(out)[..n] == Tokens(out[..n]);
      assert out == out[..n] + [out[n]];
    }
  }

  /** The first sentinel stands at `n`, and at most one token comes after it. */
  ghost predicate EndsAt(log: seq<Message>, n: nat) {
    && n < |log| && log[n] == End
    && (forall i | 0 <= i < n :: log[i].Token?)
    && |TokensOf(log[n + 1..])| <= 1
  }

  lemma {:induction false} TokensThenEnd(out: seq<int>, tail: seq<Message>)
    ensures TokensOf(Tokens(out) + [End] + tail) == out + TokensOf(tail)
  {
    TokensOfTokens(out);
    TokensOfConcat(Tokens(out), [End]);
    TokensOfConcat(Tokens(out) + [End], tail);
  }

  lemma {:induction false} EndsBefore(out: seq<int>, tail: seq<Message>)
    requires |TokensOf(tail)| <= 1
    ensures EndsAt(Tokens(out) + [End] + tail, |out|)
  {
    assert (Tokens(out) + [End] + tail)[|out| + 1..] == tail;
  }

  /** The outputs a finished log carries before its first sentinel, and what follows it. */
  lemma {:induction false} FinishedLog(q: Entry, gone: bool) returns (n: nat, tail: seq<Message>)
    requires LogOk(q, gone) && q.Finished()
    ensures n <= |q.out| && q.log == Tokens(q.out[..n]) + [End] + tail
    ensures |TokensOf(tail)| <= 1 && q.out == q.out[..n] + TokensOf(tail)
  {
    n, tail := |q.out|, [];
    if Clean(q) {
      assert q.log == Tokens(q.out[..n]) + [End] + tail;
    } else if Doubled(q) {
      tail := [End];
      assert q.log == Tokens(q.out[..n]) + [End] + tail;
    } else {
      n := n - 1;
      tail := [Token(q.out[n]), End];
      TokensOfConcat([Token(q.out[n])], [End]);
      assert tail == [Token(q.out[n])] + [End];
      assert TokensOf([Token(q.out[n])]) == [q.out[n]];
      assert q.log == Tokens(q.out[..n]) + [End] + tail;
    }
  }

  /**
   * What a consumer can rely on, whatever its client did: the tokens on the channel are
   * the outputs; a sentinel is there exactly when the request is finished; and behind the
   * first sentinel there is at most one token.
   */
  lemma {:induction false} ChannelCarriesOutputs(q: Entry, gone: bool)
    requires LogOk(q, gone)
    ensures TokensOf(q.log) == q.out
    ensures End in q.log <==> q.Finished()
    ensures q.Finished() ==> exists n :: EndsAt(q.log, n)
  {
    if q.Finished() {
      var n, tail := FinishedLog(q, gone);
      TokensThenEnd(q.out[..n], tail);
      EndsBefore(q.out[..n], tail);
      assert q.log[n] == End;
    } else {
      TokensOfTokens(q.out);
    }
  }

  /** Which reason a request ends with is decided by its outputs and its limit. */
  lemma {:induction false} ReasonFromOutputs(q: Entry)
    requires Honest(q)
    ensures forall i | 0 <= i < |q.out| - 1 :: q.out[i] !in q.req.eos
    ensures |q.out| <= if q.req.maxNew < 0 then 0 else q.req.maxNew
    ensures q.reason !in {Stop, Length} <==> |q.out| < q.req.maxNew && NoEos(q.out, q.req.eos)
  {
    if q.out != [] {
      var n := |q.out| - 1;
      assert forall i | 0 <= i < n :: q.out[..n][i] == q.out[i];
      assert q.out[n] !in q.req.eos ==> NoEos(q.out, q.req.eos);
    }
  }

  // ---- the four things that happen to a request ----

  lemma {:induction false} SubmittedTold(req: Request)
    ensures Told(Submitted(Created(req)), false)
  {
    assert Tokens([]) == [];
  }

  lemma {:induction false} AbortedTold(q: Entry, reason: Reason, gone: bool)
    requires Told(q, gone) && reason in {Cancelled, Error}
    ensures Told(Aborted(q, reason), gone)
    ensures !q.Finished() ==> Told(Aborted(q, reason), true)
  {
    ReasonFromOutputs(q);
  }

  lemma {:induction false} FailedTold(q: Entry, gone: bool)
    requires Told(q, gone)
    requires q.Finished() ==> gone && Clean(q)
    ensures Told(Failed(q), gone)
  {
    ReasonFromOutputs(q);
    if q.Finished() {
      assert Failed(q).log == Tokens(q.out) + [End, End];
    }
  }

  /** A token for a request that was still open, or whose client left during this very tick. */
  lemma {:induction false} DeliveredTold(q: Entry, t: int, gone: bool)
    requires Told(q, gone)
    requires q.Finished() ==> gone && q.reason == Cancelled && Clean(q)
    ensures Told(Delivered(q, t), gone)
  {
    ReasonFromOutputs(q);
    var r := Delivered(q, t);
    var n := |q.out|;
    assert r.out[..n] == q.out && r.out[n] == t;
    assert NoEos(r.out, q.req.eos) <==> t !in q.req.eos by {
      assert t in q.req.eos ==> r.out[n] in q.req.eos;
      assert forall i | 0 <= i < n :: r.out[i] == q.out[i];
    }
    assert Tokens(r.out) == Tokens(q.out) + [Token(t)];
    if q.Finished() {
      assert r.log == Tokens(q.out) + [End, Token(t), End];
    }
  }

  /**
   * The finished channel is exactly the outputs and one sentinel, unless the token arrives
   * for a request that is finished already: that is the branch where it is not.
   */
  lemma {:induction false} DeliveredCleanIff(q: Entry, t: int, gone: bool)
    requires Told(q, gone)
    requires q.Finished() ==> gone && q.reason == Cancelled && Clean(q)
    requires Delivered(q, t).Finished()
    ensures Clean(Delivered(q, t)) <==> !q.Finished()
  {
    var r := Delivered(q, t);
    assert Tokens(r.out) == Tokens(q.out) + [Token(t)];
    if q.Finished() {
      assert r.log[|q.out|] == End;
      assert (Tokens(r.out) + [End])[|q.out|] == Token(t);
    }
  }

  /** The same for a dying loop: it adds a second sentinel to whatever is finished already. */
  lemma {:induction false} FailedCleanIff(q: Entry, gone: bool)
    requires Told(q, gone)
    requires q.Finished() ==> Clean(q)
    ensures Clean(Failed(q)) <==> !q.Finished()
  {
    if q.Finished() {
      assert |Failed(q).log| == |q.out| + 2;
    }
  }
}
