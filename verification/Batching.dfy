/** The scheduler as the program has it: sequences updated in place, and two queues of them. */
module Batching {
  import opened Sums
  import opened Requests
  import A = Admission
  import opened Effects
  import opened Lifecycle

  class Sequence {
    const id: nat
    const req: Request
    var outputIds: seq<int>
    var finishReason: Reason
    // Everything ever put on the output queue, in order; a reader keeps its own position.
    var queue: seq<Message>

    constructor (id: nat, req: Request)
      ensures this.id == id && this.req == req
      ensures View() == Created(req)
    {
      this.id, this.req := id, req;
      outputIds, finishReason, queue := [], Unfinished, [];
    }

    function View(): Entry
      reads this
    {
      Entry(req, outputIds, finishReason, queue)
    }

    predicate IsFinished()
      reads this
    {
      finishReason != Unfinished
    }

    function Len(): nat
      reads this
    {
      |req.prompt| + |outputIds|
    }

    /** One pass of the recording loop: append, emit, decide, and close the channel if done. */
    method Record(token: int)
      modifies this
      ensures View() == Delivered(old(View()), token)
    {
      outputIds := outputIds + [token];
      Emit(Token(token));
      if token in req.eos {
        finishReason := Stop;
      } else if |outputIds| >= req.maxNew {
        finishReason := Length;
      }
      if IsFinished() {
        Emit(End);
      }
    }

    method Emit(m: Message)
      modifies this`queue
      ensures View() == old(View()).(log := old(queue) + [m])
    {
      queue := queue + [m];
    }
  }

  function Ids(seqs: seq<Sequence>): (r: seq<nat>)
    ensures |r| == |seqs|
  {
    seq(|seqs|, i requires 0 <= i < |seqs| => seqs[i].id)
  }

  lemma {:induction false} TakeNone<T>(r: seq<T>, w: seq<T>)
    ensures r + w[..0] == r && w[0..] == w
  {
  }

  lemma {:induction false} TakeOne<T>(r: seq<T>, w: seq<T>, n: nat)
    requires n < |w|
    ensures r + w[..n] + [w[n..][0]] == r + w[..n + 1] && w[n..][1..] == w[n + 1..]
  {
  }

  lemma {:induction false} IdsSnoc(seqs: seq<Sequence>, s: Sequence)
    ensures Ids(seqs + [s]) == Ids(seqs) + [s.id]
  {
  }

  lemma {:induction false} LiveNone(table: seq<Entry>)
    ensures A.Live(table, []) == []
  {
  }

  lemma {:induction false} LiveOneMore(table: seq<Entry>, ids: seq<nat>, i: nat)
    requires InRange(ids, |table|) && i < |ids|
    ensures A.Live(table, ids[..i + 1]) == A.Live(table, ids[..i]) + (if table[ids[i]].Finished() then [] else [ids[i]])
  {
    assert ids[..i + 1][..i] == ids[..i];
  }

  lemma {:induction false} IdsSplit(r: seq<Sequence>, w: seq<Sequence>, n: nat)
    requires n <= |w|
    ensures Ids(r + w[..n]) == Ids(r) + Ids(w)[..n] && Ids(w[n..]) == Ids(w)[n..]
  {
  }

  ghost function Views(seqs: seq<Sequence>): (r: seq<Entry>)
    reads seqs
    ensures |r| == |seqs|
    ensures forall i | 0 <= i < |seqs| :: r[i] == seqs[i].View()
  {
    if seqs == [] then []
    else Views(seqs[..|seqs| - 1]) + [seqs[|seqs| - 1].View()]
  }

  class Scheduler {
    var waiting: seq<Sequence>
    var running: seq<Sequence>
    const maxBatchSize: int
    const maxBatchTokens: int
    // Every sequence ever accepted; ids count arrivals.
    ghost var arrivals: seq<Sequence>

    constructor (maxBatchSize: int, maxBatchTokens: int)
      ensures Valid() && arrivals == []
      ensures View() == A.State([], [], [], maxBatchSize, maxBatchTokens)
    {
      this.maxBatchSize, this.maxBatchTokens := maxBatchSize, maxBatchTokens;
      waiting, running, arrivals := [], [], [];
    }

    ghost function View(): A.State
      reads this, arrivals
    {
      A.State(Ids(waiting), Ids(running), Views(arrivals), maxBatchSize, maxBatchTokens)
    }

    ghost predicate Known(seqs: seq<Sequence>)
      reads this`arrivals
    {
      forall i | 0 <= i < |seqs| :: seqs[i].id < |arrivals| && arrivals[seqs[i].id] == seqs[i]
    }

    ghost predicate Numbered()
      reads this`arrivals
    {
      forall i | 0 <= i < |arrivals| :: arrivals[i].id == i
    }

    ghost predicate Valid()
      reads this, arrivals
    {
      && Numbered() && Known(running) && Known(waiting)
      && A.Shaped(View())
    }

    /** When one known sequence has changed since `before`, exactly its own entry has. */
    lemma {:induction false} OneEntry(before: seq<Entry>, s: Sequence)
      requires s.id < |arrivals| && arrivals[s.id] == s && |before| == |arrivals|
      requires Numbered()
      requires forall i | 0 <= i < |arrivals| && arrivals[i] != s :: arrivals[i].View() == before[i]
      ensures s.id < |before| && Views(arrivals) == before[s.id := s.View()]
    {
    }

    /** Enqueue a new request; one that asks for no tokens is answered at once. */
    method Add(s: Sequence)
      requires Valid() && s !in arrivals && s.id == |arrivals| && s.View() == Created(s.req)
      modifies this`waiting, this`arrivals, s
      ensures Valid() && arrivals == old(arrivals) + [s]
      ensures View() == A.Add(old(View()), s.req)
    {
      ghost var was := View();
      AddShaped(was, s.req);
      hide A.Shaped, Views;
      arrivals := arrivals + [s];
      if s.req.maxNew <= 0 {
        s.finishReason := Length;
        s.Emit(End);
      } else {
        IdsSnoc(waiting, s);
        waiting := waiting + [s];
      }
      NewEntry(was.table, s);
    }

    /** When a new sequence has arrived, the table has its entry, and the others are as before. */
    lemma {:induction false} NewEntry(before: seq<Entry>, s: Sequence)
      requires |arrivals| == |before| + 1 && arrivals[|before|] == s
      requires forall i | 0 <= i < |before| :: arrivals[i].View() == before[i]
      ensures Views(arrivals) == before + [s.View()]
    {
    }

    /** Total tokens of some sequences. */
    function TotalTokens(seqs: seq<Sequence>): (total: int)
      requires Known(seqs)
      reads this`arrivals, arrivals, seqs
      ensures InRange(Ids(seqs), |arrivals|)
      ensures total == A.TokenSum(Views(arrivals), Ids(seqs))
    {
      if seqs == [] then 0
      else
        var n := |seqs| - 1;
        var total := TotalTokens(seqs[..n]);
        A.TokenSumSnoc(Views(arrivals), Ids(seqs[..n]), seqs[n].id);
        assert Ids(seqs) == Ids(seqs[..n]) + [seqs[n].id];
        total + seqs[n].Len()
    }

    /** The unfinished ones, in order. */
    method Live(seqs: seq<Sequence>) returns (live: seq<Sequence>)
      requires Known(seqs)
      ensures Known(live) && InRange(Ids(seqs), |arrivals|)
      ensures Ids(live) == A.Live(Views(arrivals), Ids(seqs))
    {
      ghost var table, ids := Views(arrivals), Ids(seqs);
      live := [];
      var i := 0;
      hide Views, A.Live;
      LiveNone(table);
      while i < |seqs|
        invariant 0 <= i <= |seqs| && Known(live)
        invariant Ids(live) == A.Live(table, ids[..i])
      {
        LiveOneMore(table, ids, i);
        if !seqs[i].IsFinished() {
          IdsSnoc(live, seqs[i]);
          live := live + [seqs[i]];
        }
        i := i + 1;
      }
      assert ids[..i] == ids;
    }

    /** The two tests of the admission loop: a free slot, and room for the head's tokens. */
    predicate HeadFits()
      requires Known(running) && Known(waiting) && waiting != []
      reads this, arrivals, running, waiting
    {
      assert Known([waiting[0]]) && Known(running + [waiting[0]]);
      && !(|running| + 1 > maxBatchSize)
      && !(running != [] && TotalTokens(running + [waiting[0]]) > maxBatchTokens)
    }

    /** Passing both tests is fitting one more. */
    lemma {:induction false} HeadFitsIff(was: A.State, r: seq<Sequence>, w: seq<Sequence>, n: nat)
      requires Known(r) && Known(w) && n < |w| && running == r + w[..n] && waiting == w[n..]
      requires was == A.State(Ids(w), Ids(r), Views(arrivals), maxBatchSize, maxBatchTokens)
      ensures InRange(Ids(r), |arrivals|) && InRange(Ids(w), |arrivals|)
      ensures HeadFits() <==> A.Fits(was, Ids(r), n + 1)
    {
      assert running + [waiting[0]] == r + w[..n + 1];
      IdsSplit(r, w, n + 1);
      NextFitsIff(was, Ids(r), n);
    }

    /** The admission loop after n of the waiting `w` have joined `r`. */
    ghost predicate Admitting(was: A.State, r: seq<Sequence>, w: seq<Sequence>, n: nat)
      reads this, arrivals
    {
      && Known(r) && Known(w) && n <= |w|
      && was == A.State(Ids(w), Ids(r), Views(arrivals), maxBatchSize, maxBatchTokens)
      && running == r + w[..n] && waiting == w[n..] && Known(running) && Known(waiting)
      && InRange(Ids(r), |was.table|) && InRange(Ids(w), |was.table|) && A.Fits(was, Ids(r), n)
    }

    lemma {:induction false} AdmittingNone()
      requires Known(running) && Known(waiting)
      ensures Admitting(View(), running, waiting, 0)
    {
      hide Ids, Views;
      TakeNone(running, waiting);
      KnownInRange(running);
      KnownInRange(waiting);
      NothingFits(View(), Ids(running));
    }

    lemma {:induction false} KnownInRange(seqs: seq<Sequence>)
      requires Known(seqs)
      ensures InRange(Ids(seqs), |arrivals|)
    {
    }

    /** The loop stops where the largest prefix that fits ends. */
    lemma {:induction false} AdmittingDone(was: A.State, r: seq<Sequence>, w: seq<Sequence>, n: nat)
      requires Admitting(was, r, w, n) && (n < |w| ==> !HeadFits())
      ensures InRange(Ids(r), |was.table|) && InRange(Ids(w), |was.table|)
      ensures n == A.Admitted(was, Ids(r), |w|)
    {
      hide A.Fits, A.Admitted, HeadFits, Views;
      if n < |w| { HeadFitsIff(was, r, w, n); }
      A.GreedyIsLargest(was, Ids(r), n);
    }

    lemma {:induction false} AdmittingNext(was: A.State, r: seq<Sequence>, w: seq<Sequence>, n: nat)
      requires Admitting(was, r, w, n) && n < |w| && HeadFits()
      ensures A.Fits(was, Ids(r), n + 1)
      ensures running + [waiting[0]] == r + w[..n + 1] && waiting[1..] == w[n + 1..]
      ensures Known(r + w[..n + 1]) && Known(w[n + 1..])
    {
      hide A.Fits, HeadFits, Views;
      HeadFitsIff(was, r, w, n);
      TakeOne(r, w, n);
      KnownSplit(r, w, n + 1);
    }

    /** One pass of the admission loop. */
    method AdmitHead(ghost was: A.State, ghost r: seq<Sequence>, ghost w: seq<Sequence>, ghost n: nat)
      requires Admitting(was, r, w, n) && waiting != [] && HeadFits()
      modifies this`running, this`waiting
      ensures Admitting(was, r, w, n + 1)
    {
      AdmittingNext(was, r, w, n);
      hide A.Fits, HeadFits, Views, Ids, Known, InRange;
      running, waiting := running + [waiting[0]], waiting[1..];
    }

    /** Admit from the head of the queue until the next one does not fit. */
    method AdmitWaiting() returns (ghost n: nat)
      requires Known(running) && Known(waiting)
      modifies this`running, this`waiting
      ensures n <= |old(waiting)| && running == old(running + waiting[..n]) && waiting == old(waiting[n..])
      ensures InRange(old(View()).running, |arrivals|) && InRange(old(View()).waiting, |arrivals|)
      ensures n == A.Admitted(old(View()), old(View()).running, |old(View()).waiting|)
    {
      ghost var was, r, w := View(), running, waiting;
      AdmittingNone();
      hide A.Fits, A.Admitted, HeadFits, Views, Ids, Known, InRange;
      n := 0;
      while waiting != [] && HeadFits()
        invariant Admitting(was, r, w, n)
        decreases |w| - n
      {
        AdmitHead(was, r, w, n);
        n := n + 1;
      }
      AdmittingDone(was, r, w, n);
    }

    lemma {:induction false} KnownSplit(r: seq<Sequence>, w: seq<Sequence>, n: nat)
      requires Known(r) && Known(w) && n <= |w|
      ensures Known(r + w[..n]) && Known(w[n..])
    {
    }

    /** Keep the unfinished rows only, so that every slot in use is in use for somebody. */
    method Sweep()
      requires Valid()
      modifies this`running
      ensures Valid() && InRange(old(View()).running, |arrivals|)
      ensures View() == old(View()).(running := A.Live(old(View()).table, old(View()).running))
    {
      SweptShaped(View());
      hide A.Shaped, A.Live, Views, Ids, Known, InRange;
      running := Live(running);
    }

    /** Sweep, admit what fits, and return the full running set. */
    method Schedule() returns (batch: seq<Sequence>)
      requires Valid()
      modifies this`running, this`waiting
      ensures Valid() && batch == running
      ensures View() == A.Schedule(old(View()))
    {
      ghost var was, w := View(), waiting;
      Sweep();
      ghost var r := running;
      hide A.Shaped, A.Live, A.Admitted, A.Schedule, Views, Ids, InRange, Known;
      ghost var n := AdmitWaiting();
      KnownSplit(r, w, n);
      ScheduledIs(was, r, w, n);
      batch := running;
    }

    /** One row of postprocess. */
    method RecordOne(s: Sequence, token: int)
      requires Valid() && s.id < |arrivals| && arrivals[s.id] == s
      modifies s
      ensures Valid() && s.id < |old(View()).table| && (old(s.IsFinished()) ==> s.IsFinished())
      ensures View() == old(View()).(table := old(View()).table[s.id := Delivered(old(View()).table[s.id], token)])
    {
      ghost var before := View();
      hide A.Shaped, Views;
      s.Record(token);
      OneEntry(before.table, s);
      SameQueues(before, View());
    }

    /** Exactly the rows that are done after the first i have been recorded. */
    ghost predicate Reported(finished: seq<Sequence>, batch: seq<Sequence>, i: nat)
      reads finished, batch
    {
      && i <= |batch|
      && (forall s | s in finished :: s in batch[..i] && s.IsFinished())
      && (forall j | 0 <= j < i && batch[j].IsFinished() :: batch[j] in finished)
    }

    /** Row i of the recording loop: whoever is done by now is reported. */
    method RecordRow(batch: seq<Sequence>, i: nat, token: int, finished: seq<Sequence>)
      returns (more: seq<Sequence>)
      requires Valid() && Known(batch) && i < |batch| && Reported(finished, batch, i)
      modifies batch[i]
      ensures Valid() && Known(batch) && Reported(more, batch, i + 1) && batch[i].id < |old(View()).table|
      ensures var k := batch[i].id; var table := old(View()).table;
        View() == old(View()).(table := table[k := Delivered(table[k], token)])
    {
      hide A.Shaped, Views, Ids;
      assert batch[..i + 1] == batch[..i] + [batch[i]];
      RecordOne(batch[i], token);
      more := if batch[i].IsFinished() then finished + [batch[i]] else finished;
    }

    /** Each row takes its token, and the rows that are done with it are returned. */
    method Postprocess(batch: seq<Sequence>, nextIds: seq<int>) returns (finished: seq<Sequence>)
      requires Valid() && Known(batch)
      modifies batch
      ensures Valid() && InRange(Ids(batch), |old(View()).table|)
      ensures View() == A.Postprocess(old(View()), Ids(batch), nextIds)
      ensures Reported(finished, batch, A.Min(|batch|, |nextIds|))
    {
      ghost var was := View();
      finished := [];
      var i := 0;
      KnownInRange(batch);
      assert Reported(finished, batch, 0);
      hide A.Postprocess, A.Min, Views, Reported, Valid, InRange;
      PostprocessNone(was);
      while i < |batch| && i < |nextIds|
        invariant 0 <= i <= |batch| && i <= |nextIds|
        invariant Valid() && Known(batch) && Reported(finished, batch, i)
        invariant View() == A.Postprocess(was, Ids(batch)[..i], nextIds[..i])
      {
        finished := RecordRow(batch, i, nextIds[i], finished);
        PostprocessOneMore(was, Ids(batch), nextIds, i);
        i := i + 1;
      }
      assert i == A.Min(|batch|, |nextIds|) by { SmallerLength(i, |batch|, |nextIds|); }
      PostprocessCut(was, Ids(batch), nextIds, i);
    }

    /** The gauges: finished sequences stay in `running` until the next sweep, and do not count. */
    method Gauges() returns (numRunning: nat, numWaiting: nat)
      requires Valid()
      ensures InRange(Ids(running), |arrivals|)
      ensures numRunning == NumRunning(View()) && numWaiting == NumWaiting(View())
      ensures numRunning == Sum(Open(View().table, View().running)) && numWaiting == |View().waiting|
    {
      RunningGauge(View());
      var live := Live(running);
      numRunning, numWaiting := |live|, |waiting|;
    }

    predicate HasWork()
      reads this
    {
      waiting != [] || running != []
    }

    /** Give up on one sequence, wherever it is; nothing happens to one that is finished already. */
    method Abort(s: Sequence, reason: Reason)
      requires Valid() && s.id < |arrivals| && arrivals[s.id] == s && reason != Unfinished
      modifies this`waiting, s
      ensures Valid() && s.id < |old(View()).table|
      ensures View() == A.Abort(old(View()), s.id, reason)
    {
      if s.IsFinished() {
        return;
      }
      AbortIsShaped(View(), s.id, reason);
      hide A.Shaped, A.Abort, Views, Ids, Known, InRange;
      Withdraw(s, reason);
    }

    /** The sequence was unfinished: it leaves the queue, and its channel is closed. */
    method Withdraw(s: Sequence, reason: Reason)
      requires Valid() && s.id < |arrivals| && arrivals[s.id] == s && !s.IsFinished()
      requires A.Shaped(A.Abort(View(), s.id, reason))
      modifies this`waiting, s
      ensures Valid() && s.id < |old(View()).table|
      ensures View() == A.Abort(old(View()), s.id, reason)
    {
      ghost var was := View();
      KnownRemove(waiting, s);
      hide A.Shaped, Views, A.Remove, Removed, Known, Ids;
      s.finishReason := reason;
      waiting := Removed(waiting, s);
      s.Emit(End);
      OneEntry(was.table, s);
    }

    lemma {:induction false} KnownRemove(seqs: seq<Sequence>, s: Sequence)
      requires Known(seqs) && s.id < |arrivals| && arrivals[s.id] == s
      ensures Known(Removed(seqs, s)) && Ids(Removed(seqs, s)) == A.Remove(Ids(seqs), s.id)
    {
      if seqs != [] {
        assert Ids(seqs)[1..] == Ids(seqs[1..]) && Ids(seqs)[0] == seqs[0].id;
        if seqs[0] != s {
          KnownRemove(seqs[1..], s);
          assert Ids([seqs[0]] + Removed(seqs[1..], s)) == [seqs[0].id] + Ids(Removed(seqs[1..], s));
        }
      }
    }

    /** The teardown after i of these sequences: they have failed, the others are untouched. */
    ghost predicate FailedUpTo(table: seq<Entry>, ids: seq<nat>, i: nat)
      reads this`arrivals, arrivals
    {
      && i <= |ids| && |arrivals| == |table|
      && forall j | 0 <= j < |arrivals| ::
        arrivals[j].View() == if j in ids[..i] then Failed(table[j]) else table[j]
    }

    method FailNext(failed: seq<Sequence>, i: nat, ghost table: seq<Entry>)
      requires Numbered() && Known(failed)
      requires Increasing(Ids(failed)) && i < |failed| && FailedUpTo(table, Ids(failed), i)
      modifies failed[i]
      ensures FailedUpTo(table, Ids(failed), i + 1)
    {
      ghost var ids := Ids(failed);
      NotBefore(ids, i);
      assert ids[..i + 1] == ids[..i] + [ids[i]];
      FailOne(failed[i]);
    }

    /** The loop of the teardown. */
    method FailEach(failed: seq<Sequence>, ghost table: seq<Entry>)
      requires Numbered() && Known(failed) && Increasing(Ids(failed)) && FailedUpTo(table, Ids(failed), 0)
      modifies failed
      ensures FailedUpTo(table, Ids(failed), |failed|)
    {
      hide Known, Numbered, Ids, Increasing, FailedUpTo;
      var i := 0;
      while i < |failed|
        invariant 0 <= i <= |failed| && FailedUpTo(table, Ids(failed), i)
      {
        FailNext(failed, i, table);
        i := i + 1;
      }
    }

    lemma {:induction false} FailedAll(was: A.State, failed: seq<Sequence>)
      requires FailedUpTo(was.table, Ids(failed), |failed|) && Ids(failed) == was.running + was.waiting
      ensures Views(arrivals) == A.FailAll(was).table
    {
      assert Ids(failed)[..|failed|] == Ids(failed);
    }

    /** Tear down every request in flight: each gets a sentinel, the unfinished ones an error. */
    method FailAll() returns (failed: seq<Sequence>)
      requires Valid()
      modifies this`waiting, this`running, waiting, running
      ensures Valid() && failed == old(running + waiting)
      ensures View() == A.FailAll(old(View()))
    {
      hide View, Valid, Known, Numbered, Views, Ids, Increasing, FailedUpTo, A.FailAll;
      ghost var was := View();
      failed := running + waiting;
      FailingStarts(was);
      FailEach(failed, was.table);
      FailedAll(was, failed);
      running, waiting := [], [];
      TornDown(was);
    }

    lemma {:induction false} FailingStarts(was: A.State)
      requires Valid() && was == View()
      ensures Known(running + waiting) && Ids(running + waiting) == was.running + was.waiting
      ensures Increasing(Ids(running + waiting)) && FailedUpTo(was.table, Ids(running + waiting), 0)
      ensures Numbered() && was.slots == maxBatchSize && was.maxTokens == maxBatchTokens
    {
    }

    lemma {:induction false} TornDown(was: A.State)
      requires Numbered() && running == [] && waiting == []
      requires Views(arrivals) == A.FailAll(was).table
      requires was.slots == maxBatchSize && was.maxTokens == maxBatchTokens
      ensures Valid() && View() == A.FailAll(was)
    {
      hide Views;
      NothingQueued(View());
    }

    method FailOne(s: Sequence)
      modifies s
      ensures s.View() == Failed(old(s.View()))
    {
      if !s.IsFinished() {
        s.finishReason := Error;
      }
      s.Emit(End);
    }
  }

  /** `seqs` without the first occurrence of `s`. */
  function Removed(seqs: seq<Sequence>, s: Sequence): seq<Sequence> {
    if seqs == [] then []
    else if seqs[0] == s then seqs[1..]
    else [seqs[0]] + Removed(seqs[1..], s)
  }

  lemma {:induction false} NotBefore(ids: seq<nat>, i: nat)
    requires Increasing(ids) && i < |ids|
    ensures ids[i] !in ids[..i]
  {
  }

  lemma {:induction false} NothingQueued(st: A.State)
    requires st.running == [] && st.waiting == []
    ensures A.Shaped(st)
  {
  }

  lemma {:induction false} AddShaped(st: A.State, req: Request)
    requires A.Shaped(st)
    ensures A.Shaped(A.Add(st, req))
  {
    A.ShapedParts(st);
    A.ShapedFromParts(A.Add(st, req));
  }

  lemma {:induction false} AbortIsShaped(st: A.State, k: nat, reason: Reason)
    requires A.Shaped(st) && k < |st.table|
    ensures A.Shaped(A.Abort(st, k, reason))
  {
    AbortShape(st, k, reason);
  }

  lemma {:induction false} SweptShaped(st: A.State)
    requires A.Shaped(st)
    ensures InRange(st.running, |st.table|) && A.Shaped(st.(running := A.Live(st.table, st.running)))
  {
    A.ShapedParts(st);
    A.LiveIncreasing(st.table, st.running);
    A.ShapedFromParts(st.(running := A.Live(st.table, st.running)));
  }

  /** The two tests of the admission loop, taken together. */
  lemma {:induction false} NextFitsIff(st: A.State, batch: seq<nat>, n: nat)
    requires InRange(batch, |st.table|) && InRange(st.waiting, |st.table|) && n < |st.waiting|
    ensures InRange(batch + st.waiting[..n + 1], |st.table|)
    ensures A.Fits(st, batch, n + 1) <==>
      |batch| + n + 1 <= st.slots &&
      (|batch| + n == 0 || A.TokenSum(st.table, batch + st.waiting[..n + 1]) <= st.maxTokens)
  {
  }

  lemma {:induction false} NothingFits(st: A.State, batch: seq<nat>)
    requires InRange(batch, |st.table|) && InRange(st.waiting, |st.table|)
    ensures A.Fits(st, batch, 0)
  {
  }

  /** Sweeping and then admitting is a schedule. */
  lemma {:induction false} ScheduledIs(st: A.State, r: seq<Sequence>, w: seq<Sequence>, n: nat)
    requires A.Shaped(st) && InRange(st.running, |st.table|) && InRange(st.waiting, |st.table|)
    requires Ids(w) == st.waiting && Ids(r) == A.Live(st.table, st.running) && n <= |w|
    requires InRange(Ids(r), |st.table|)
    requires n == A.Admitted(st.(running := Ids(r)), Ids(r), |st.waiting|)
    ensures A.Schedule(st) == st.(running := Ids(r + w[..n]), waiting := Ids(w[n..]))
    ensures A.Shaped(A.Schedule(st))
  {
    IdsSplit(r, w, n);
    SameAdmitted(st, Ids(r), |st.waiting|);
    var m := ScheduleShape(st);
  }

  /** The limit depends on the rows it is computed for, not on what the running queue holds. */
  lemma {:induction false} SameAdmitted(st: A.State, running: seq<nat>, n: nat)
    requires InRange(running, |st.table|) && InRange(st.waiting, |st.table|) && n <= |st.waiting|
    ensures A.Admitted(st.(running := running), running, n) == A.Admitted(st, running, n)
  {
    if n > 0 {
      SameAdmitted(st, running, n - 1);
    }
  }

  lemma {:induction false} SameQueues(st: A.State, later: A.State)
    requires A.Shaped(st) && later.running == st.running && later.waiting == st.waiting
    requires |later.table| == |st.table|
    ensures A.Shaped(later)
  {
  }

  lemma {:induction false} SmallerLength(i: nat, m: nat, n: nat)
    requires i <= m && i <= n && (i == m || i == n)
    ensures i == A.Min(m, n)
  {
  }

  lemma {:induction false} PostprocessNone(st: A.State)
    ensures A.Postprocess(st, [], []) == st
  {
  }

  lemma {:induction false} PostprocessOneMore(st: A.State, batch: seq<nat>, tokens: seq<int>, i: nat)
    requires InRange(batch, |st.table|) && i < |batch| && i < |tokens|
    ensures var before := A.Postprocess(st, batch[..i], tokens[..i]);
      A.Postprocess(st, batch[..i + 1], tokens[..i + 1])
        == before.(table := before.table[batch[i] := Delivered(before.table[batch[i]], tokens[i])])
  {
    assert batch[..i + 1][..i] == batch[..i] && tokens[..i + 1][..i] == tokens[..i];
  }

  lemma {:induction false} PostprocessCut(st: A.State, batch: seq<nat>, tokens: seq<int>, n: nat)
    requires InRange(batch, |st.table|) && n == A.Min(|batch|, |tokens|)
    ensures A.Postprocess(st, batch, tokens) == A.Postprocess(st, batch[..n], tokens[..n])
  {
    var b, t := batch[..n], tokens[..n];
    assert A.Min(|b|, |t|) == n;
    if n > 0 {
      assert b[..n - 1] == batch[..n - 1] && t[..n - 1] == tokens[..n - 1];
      assert b[n - 1] == batch[n - 1] && t[n - 1] == tokens[n - 1];
      hide A.Min;
    }
  }
}
