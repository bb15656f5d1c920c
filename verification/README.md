# Continuous batching, verified

This project models the continuous-batching engine of `model_server`: the scheduler and its tick
protocol (`batching.py`), the model runner with its row-indexed cache and left-padded batches
(`runners.py`), the per-request reader (`engines.py`), and the life of the loop (`main.py`). It
proves that none of that machinery is visible in what a request produces, and says exactly when a
client gets it.

## How it is built

| file | what it holds |
|---|---|
| `Sums.dfy` | sums over ids, used for token budgets, remaining work and gauges |
| `Requests.dfy` | one request as a value: what a token, an abort and a failure do to it |
| `Sampling.dfy`, `Padding.dfy` | one row's token; padding, positions, the cached forward pass |
| `Admission.dfy`, `Effects.dfy` | the two queues and each scheduler operation; what each does entry by entry |
| `Protocol.dfy`, `Invariants.dfy` | the server as a state machine of clients, loop and runner; every event keeps every invariant |
| `Transparency.dfy`, `Progress.dfy`, `Budget.dfy`, `Lifecycle.dfy` | the main results over all runs |
| `Finality.dfy` | when a finished request is final: its channel, its reason, everything about it |
| `Alone.dfy` | the whole answer, errors included, and what comes of serving a request alone |
| `Carryover.dfy` | when a request is served by another runner than the one that accepted it |
| `Reuse.dfy` | when the cache of one tick serves the next, and when nothing is cached |
| `Witnesses.dfy` | concrete runs: where a tempting claim fails, and that the cache really is reused |
| `Streaming.dfy`, `EndToEnd.dfy`, `Reloading.dfy` | the reader's loops; what one client receives in any interleaving, and when a swap can spoil it |
| `Batching.dfy`, `Runners.dfy`, `Server.dfy` | the classes: objects updated in place, each method proved equal to its step of the state machine |

A request's id is its place in the order of arrival, so "first in, first out" is "the ids in
`running` followed by `waiting` increase". A tick is two atomic steps: `Turn` hands a batch to the
worker thread, `Commit` takes its tokens back; `Submit` and `Cancel` may happen at any moment in
between. `Raise` is a tick that fails as a whole, `Kill` cancels the loop, and `Swap` is the
replacement of loop and runner when the model has been loaded. Theorems speak about
`Reach(slots, maxTokens, runner, events)`, the state of a fresh server after any list of events, or
about any state that satisfies `Inv`, which every reachable state does. An event that cannot happen
in the current phase changes nothing, so no list of events is excluded.

A model is a function from the attended (token, position) columns of a row to logits, and a random
draw is a function of the masked, scaled row: with these fixed, `Solo` is what a request produces
with no batch, no padding, no cache and no other request. `ServedAlone` ties it to the server: one
that never sees another request ends with exactly this answer. The one exception is an empty prompt
on a model, which alone leaves nothing to feed: its first tick raises. Next to a non-empty row the
code feeds it pads that nothing attends to and reads the logits at a pad; that these are the logits
of no columns is an assumption of the abstract model, not behaviour of the code.

Every lemma carries `{:induction false}`: the proofs never rely on automatic induction.

## Where the code says something other than its documentation

- The docstring of `Sequence.emit` says that recording happens on the worker thread. Only
  `runner.execute` runs there (model_server/batching.py:257-260); recording is part of the loop's
  own step, so no client step can fall between recording a tick and the next schedule.
- `MAX_BATCH_TOKENS` is documented as the total across the running batch. There are two ways over
  it. The head of the queue is let into an empty batch whatever its length (`LongPromptRuns`):
  `ScheduleStaysInBudgetIff` says exactly which schedules stay within the budget. And it is checked
  at admission only, while running sequences keep growing (`BudgetIsOverrun`):
  `TickStaysInBudgetIff` says exactly which ticks stay within it. `OverrunIsBounded` is what holds
  of every batch of two or more.
- "Exactly one sentinel" and "a finish reason is final" fail for a request that its own client
  cancels while a worker thread is computing its next token: the token, and possibly a second
  sentinel and another reason, follow. `LateToken` is such a run. A finished request is final,
  whatever happens from then on, if and only if its row is not in flight (`FinalIff`); step by step,
  `ReasonIsKeptIff` says exactly when its reason is rewritten, and `ChannelStaysCleanIff` when its
  channel is disturbed.
- A stream yields no text for a request without outputs, while the one-shot path returns what no
  tokens decode to. `StreamIsGenerateIff` says exactly when the two agree under one runner, and
  `EmptyStreamDiffers` shows the case where they do not.
- The engine decodes with the runner that is installed when the client reads
  (model_server/engines.py:107, 123), and loading a model replaces it (model_server/main.py:159). So
  the text of a request that the mock has served, read after the swap, is the model's text for the
  mock's tokens, and a stream read on both sides of it is a mixture: `ReadByAnother` is such a run.
  `StreamIsSoloIff` and `OneShotIsSoloIff` say exactly when a client gets the text of the runner that
  has served it, and `ReadInTime` that it does if no other runner is installed between the end of
  the request and the last read of its queue.
- A request that arrives during the idle sleep before the model is loaded keeps the prompt ids and
  stop tokens of the runner that was installed then, and is answered by the new one:
  `AnsweredByAnother` is such a run, and `ServedElsewhereIff` says exactly when it happens.

## Model

| member | source | states |
|---|---|---|
| Transparency.BatchingIsTransparent | model_server/batching.py:240-283 | in every run, with any arrivals, cancellations, row failures, limits and runner swaps, a request's outputs are a prefix of what it produces alone; ended by "stop" or "length" they are all of it, with the same reason |
| Transparency.SameAnswerEverywhere | model_server/batching.py:240-283 | two servers with different limits, traffic and histories of runners give the same request the same outputs and reason, if the same runner has served it |
| Transparency.CachedTickIsPrefill | model_server/runners.py:220-246 | in every reachable tick that reuses the cache, the cached columns are the current padded batch without its last column, one column is fed, and picks and cache are those of a full prefill |
| Transparency.ClientsDoNotDisturbATick | model_server/batching.py:257-260 | submissions and cancellations while the worker thread runs do not change what it computes, whenever it reads the rows |
| Reuse.CacheIsReusedIff | model_server/batching.py:252-255 | after a tick that came back, whatever the clients have done since, the next tick runs the same batch without a prefill if and only if every row is still unfinished and nobody can join: nobody waits, or the head finds no slot, or not enough tokens |
| Reuse.IdleHoldsNoCache | model_server/batching.py:246-250 | in every run, whenever the loop sleeps, has ended, or has nobody in its running set, no cache is held |
| Transparency.OneFinishedRowForcesPrefill | model_server/batching.py:252-255 | a batch that lost a finished, failed or cancelled row is prefilled (the direction that correctness needs) |
| Transparency.TickRaisesIff | model_server/runners.py:220-246 | by itself a tick raises if and only if the model has no column to be fed, that is, every row is empty |
| Invariants.TickIsTransparent | model_server/runners.py:220-246 | cached or not, every row of a tick gets the token its request would get alone, and the whole batch ends up in the cache; a prefill feeds every column, any other tick one |
| Invariants.StepInv | model_server/batching.py:217-283 | each event keeps all invariants: queues, channels, phase, provenance of outputs, pacing, cache |
| Invariants.StepExtends | model_server/batching.py:143-164 | a request never changes, and its outputs and its channel only grow, under every event |
| Invariants.SchedulePaced | model_server/batching.py:121-139 | admission keeps older rows at least as far as younger ones, and each row within the budget together with the rows before it |
| Invariants.CommitCoherent | model_server/batching.py:280-283 | after a tick the cache describes the next batch, or some member has finished and the next batch differs |
| Padding.PaddingIsInvisible | model_server/runners.py:139-165 | what a left-padded row attends to is the row itself at positions 0, 1, 2, ..., whatever the padding; its last column is its newest token |
| Padding.CachedIsPrefill | model_server/runners.py:228-246 | feeding one column on top of all the others gives the same tokens and the same cache as a full prefill, which is fed every column |
| Padding.PrefillIsAlone | model_server/runners.py:220-246 | a prefill gives every row of a ragged batch the token it would get without batch or padding |
| Padding.OldBatchIsAllButLast | model_server/runners.py:154-165 | when every row has gained one token the old padded batch is the new one without its last column |
| Progress.BoundedWaiting | model_server/batching.py:121-139 | a request that still waits has seen at most as many non-empty ticks as earlier requests had tokens left, whatever arrives later |
| Progress.BoundedCompletion | model_server/batching.py:121-164 | a request that is still unfinished has seen at most as many non-empty ticks as there was work up to and including its own, whatever arrives later |
| Progress.StepWork | model_server/batching.py:143-164 | the work in front of a request never grows and shrinks with every tick that runs anyone in front of it |
| Progress.LeavingTheQueue | model_server/batching.py:117-214 | the waiting queue is left only for a slot, by the client's own cancellation, or with an error when the loop dies |
| Progress.Drains | model_server/batching.py:240-283 | with no arrivals the loop comes to rest within two steps per token of remaining work and three more, if and only if there is a slot to give or nobody waits; every request is finished then, and unless a row was empty the loop has survived |
| Effects.EmptyBatchIsIdleIff | model_server/batching.py:246-250 | an empty batch leaves nothing to do if and only if there is a slot to give or nobody waits; otherwise the loop would spin |
| Effects.ScheduleShape | model_server/batching.py:117-141 | a schedule sweeps the finished rows and admits a prefix of the queue that fits and cannot be longer |
| Effects.ScheduleFills | model_server/batching.py:123-139 | if anybody joined, the batch is within the slots and, unless it is one row, the tokens; if anybody is left waiting, the slots are full or the head's tokens do not fit next to the others |
| Effects.CommitRow | model_server/batching.py:268-278 | each row's token reaches exactly the request of that row, and a row without one becomes an error |
| Effects.CommitElsewhere | model_server/batching.py:268-278 | a tick changes no request outside its batch |
| Admission.GreedyIsLargest | model_server/batching.py:123-139 | admitting one at a time until the next does not fit admits the longest prefix that fits slots and tokens, a single row being exempt from the token test |
| Admission.FitsDownward | model_server/batching.py:123-139 | whatever fits, every shorter prefix fits too |
| Budget.EveryRowWasAdmitted | model_server/batching.py:127-134 | in every batch the scheduler returns, each row but the first fits the budget with all rows before it, its own outputs subtracted from each |
| Budget.OverrunIsBounded | model_server/batching.py:127-134 | two or more rows hold at most the budget plus rows times the outputs of the last, and their prompts alone fit the budget |
| Budget.ScheduleStaysInBudgetIff | model_server/batching.py:117-141 | a schedule returns a batch within its budget if and only if the rows it keeps are within it and, where it keeps nobody and has a slot, the head of the queue is |
| Budget.TickStaysInBudgetIff | model_server/batching.py:143-148 | a tick adds exactly the tokens that it draws, so the batch is within its budget afterwards if and only if it was at least that far below it |
| Witnesses.BudgetIsOverrun | model_server/batching.py:127-134 | a reachable batch of four tokens under a budget of two |
| Witnesses.LongPromptRuns | model_server/batching.py:129-134 | a reachable batch of three prompt tokens under a budget of two, before any tick |
| Lifecycle.HonestMetrics | model_server/batching.py:166-177 | num_running is the number of unfinished requests that hold a slot, also between a cancellation and the sweep, num_waiting the number of those that wait; together they count each unfinished request once |
| Lifecycle.Conservation | model_server/batching.py:121-139 | an unfinished request is in exactly one queue, once; those waiting have no output; nobody holds a slot before someone who arrived earlier and still waits |
| Lifecycle.EveryRequestIsTold | model_server/batching.py:143-164 | in every reachable state the reason is decided by outputs and limit, the channel's tokens are the outputs, a sentinel is there if and only if the request is finished, and at most one token follows the first |
| Lifecycle.GoneIff | model_server/batching.py:182-197 | a request counts as given up if and only if its client cancelled it while it was unfinished; the cancellation every handler ends with does not count |
| Lifecycle.UncancelledChannel | model_server/batching.py:143-164 | the channel of a request that its client has not given up is exactly its outputs, then one sentinel once it is finished |
| Lifecycle.RaiseStrandsNobody | model_server/batching.py:199-214 | after a tick that raises or is cancelled both queues are empty, every request has a sentinel, and the unfinished ones report "error" with their outputs intact |
| Lifecycle.DeadLoopOwesNothing | model_server/main.py:191-233 | behind a loop that died on a tick no request that passed the dead-loop check is ever unfinished |
| Finality.FinalIff | model_server/batching.py:182-197 | a finished request never changes again, in any run from then on, if and only if its row is not in flight at that moment |
| Finality.ReasonIsKeptIff | model_server/batching.py:151-156 | a finished request keeps its reason in every step except one that brings its row a stop token or the last token allowed |
| Finality.ChannelStaysCleanIff | model_server/batching.py:147-162 | a clean finished channel is disturbed exactly when its row is in flight and the step brings it a token or takes the loop down, told from the state before the step |
| Alone.AnswerIsSoloOrTorn | model_server/batching.py:257-278 | in every run a finished request that was not given up has its whole solo answer, "error" included, unless the loop went down in a tick while it was unfinished; then it reports "error" and has a part of it |
| Alone.CalmAnswerIsSolo | model_server/batching.py:257-278 | where nobody takes the loop down and no prompt is empty, every finished request that was not given up has exactly its solo answer |
| Alone.ServedAlone | model_server/batching.py:240-283 | a server that sees only one request comes to rest with its solo answer; an empty prompt on a model ends in "error" instead |
| Alone.MockReportsLength | model_server/runners.py:277-294 | every request that the mock has served and that was neither given up nor torn runs to its limit and reports "length" |
| Carryover.ServedElsewhereIff | model_server/main.py:156-162 | a request is served by another runner than the one it came to if and only if it was waiting when the server was handed to that one and then took part in a tick of it |
| Witnesses.AnsweredByAnother | model_server/main.py:156-162 | a run in which a request accepted under the mock keeps its prompt ids and stop tokens and gets its first output from the model |
| Lifecycle.SwapLosesNobody | model_server/main.py:156-162 | replacing the loop, in any phase in which it can be cancelled or is dead, fails everything in flight with a sentinel or keeps the whole queue; no request mixes two runners, and the first batch is a prefill |
| Lifecycle.KilledAsleepIff | model_server/batching.py:242-244 | a cancellation in the idle sleep, or before the first step, leaves somebody unfinished if and only if somebody was waiting |
| Requests.ChannelCarriesOutputs | model_server/batching.py:58-75 | whatever the client did, the channel carries the outputs and ends if and only if the request is finished |
| Witnesses.LateToken | model_server/batching.py:147-162 | a run in which a cancelled request gets a token behind its sentinel, a second sentinel, and another finish reason |
| Witnesses.CacheIsReused | model_server/batching.py:252-260 | a run whose second tick is not a prefill, for any model that always has a choice |
| Witnesses.PairIsReused | model_server/batching.py:252-260 | a run in which the second tick of two rows is not a prefill, on the mock and on any model that always has a choice |
| Witnesses.NoSlotsSpins | model_server/batching.py:241-250 | with no slots and one waiting request a turn of the loop changes nothing |
| Witnesses.KilledAsleepStrands | model_server/batching.py:242-244 | a run that ends with a dead loop and an unfinished request, through a cancellation in the idle sleep |
| Witnesses.EmptyStreamDiffers | model_server/engines.py:113-138 | with a decoder that writes something for no tokens, the stream of a request without outputs differs from its one-shot text |
| Sampling.TopKSupport | model_server/runners.py:173-177 | at least k candidates survive, every largest logit among them, fewer than k lie above the threshold and the surplus are ties |
| Sampling.DrawnFrom | model_server/runners.py:167-180 | a row without logits fails, a greedy one takes the first largest, and any other draws from exactly the logits that fewer than top_k others exceed (from all without a top_k), each divided by the temperature |
| Sampling.SampledToken | model_server/runners.py:167-180 | greedy rows and top_k = 1 take a largest logit; otherwise the token is one of the k largest or tied with the k-th |
| Streaming.Stream | model_server/engines.py:113-138 | non-empty text chunks without a reason, one terminal chunk with it; after each message the client holds the splice of what has been read, each read decoded by the runner installed then |
| Streaming.Generate | model_server/engines.py:89-111 | the one-shot text is the final outputs, decoded by the runner installed at the last read, with true counts and reason |
| Streaming.StreamsForIff | model_server/engines.py:117-126 | whatever the tokenizers, the stream is a runner's text for the final outputs if and only if that runner is installed at each read of a token |
| Streaming.StreamAgreesIff | model_server/engines.py:89-138 | whatever the tokenizers, as long as nothing decodes to nothing, a stream and a one-shot answer read alike agree if and only if one runner is installed at every read |
| Streaming.StreamIsGenerateIff | model_server/engines.py:89-138 | what the two methods return for one reading under one runner is the same text if and only if there was an output or nothing decodes to nothing |
| Streaming.MockIsMonotone | model_server/runners.py:288-289 | the mock's decoding only ever adds text, which streaming rests on |
| Streaming.Frames | model_server/main.py:279-288 | every chunk is framed in order, and the body ends with [DONE] unless the reason is "error" or "cancelled", which tear it off |
| EndToEnd.EveryReadingIsLegal | model_server/engines.py:113-138 | any reader that stays to the end, at any moments of any run, sees what `stream` relies on |
| Streaming.DoneIsWhole | model_server/main.py:279-288 | a body holds [DONE] and its reason unless that is "error" or "cancelled"; either way its data frames add up to the whole text |
| Witnesses.OneReading | model_server/engines.py:113-138 | a concrete run and reading: one token, its text, the reason, and [DONE] |
| Witnesses.StopIsDone | model_server/main.py:233-288 | a run and reading of an answer that ends on a stop token: its text, "stop" and [DONE], and a one-shot success |
| EndToEnd.StreamIsSoloIff | model_server/engines.py:113-138 | in any run and interleaving, the stream of an answered request is, whatever the tokenizers, the served runner's text for its solo outputs if and only if that runner is installed at each read of a token |
| EndToEnd.OneShotIsSoloIff | model_server/engines.py:89-111 | the same for the one-shot text, where only the runner installed at the last read matters |
| Reloading.ReadInTime | model_server/main.py:156-162 | that runner is installed at every read if no other one is installed between the end of the request and the last read of its queue |
| Witnesses.ReadByAnother | model_server/engines.py:107-126 | a run in which two tokens of the mock are read as the new model's text, or as a mixture of both |
| EndToEnd.StreamedAnswerIsTheSoloAnswer | model_server/main.py:261-288 | for any reading of a request not given up the body has [DONE] and tells the reason if and only if the request ended with "stop" or "length", and is torn off otherwise; with [DONE] the reason is the solo reason and, read under the runner that has served it, the body is that runner's text for the whole solo answer |
| EndToEnd.DoneIsSoloOrTorn | model_server/main.py:279-288 | in any run of a fresh server a streaming client gets [DONE] if and only if its request ends alone with "stop" or "length" and no tick took the loop down over it |
| EndToEnd.OneShotAnswerIsTheSoloAnswer | model_server/main.py:233-259 | a request not given up that ended with "stop" or "length" is a success with its solo counts and reason, in the text of the runner installed at the end; one that ended otherwise is a failure with its reason |
| Batching.Sequence.Record | model_server/batching.py:147-162 | one row of recording equals its value-level step |
| Batching.Scheduler.Add | model_server/batching.py:105-115 | enqueueing in place equals its step; a request for no tokens is answered at once |
| Batching.Scheduler.HeadFitsIff | model_server/batching.py:125-134 | the two tests of the admission loop hold if and only if one more request fits |
| Batching.Scheduler.AdmitWaiting | model_server/batching.py:123-139 | the admission loop takes the largest prefix of the queue that fits |
| Batching.Scheduler.Schedule | model_server/batching.py:117-141 | sweeping and admitting in place equals the longest-prefix specification |
| Batching.Scheduler.Postprocess | model_server/batching.py:143-164 | recording in place equals the pairing of rows and tokens, and returns exactly the recorded rows that are done |
| Batching.Scheduler.Abort | model_server/batching.py:182-197 | aborting in place equals its step, wherever the sequence is |
| Batching.Scheduler.FailAll | model_server/batching.py:199-214 | the teardown in place equals its step for every request in flight |
| Batching.Scheduler.Gauges | model_server/engines.py:69-76 | the gauges are the number of unfinished requests that hold a slot and of those that wait |
| Runners.PositionIds | model_server/runners.py:164 | the running sum computes the specified positions |
| Runners.QwenRunner.PadAndStack | model_server/runners.py:139-165 | the loops build the padded matrix and the mask of every row |
| Runners.QwenRunner.Sample | model_server/runners.py:182-218 | one pick per row, each from its own columns and under its own settings; memory that runs out on any row ends the whole batch |
| Runners.QwenRunner.Execute | model_server/runners.py:220-246 | the in-place tick equals the specified forward pass, with the columns it feeds and what it leaves in the cache, unless memory runs out |
| Server.Finish | model_server/batching.py:273-278 | aborting the casualties and recording the survivors in place equals the end of a tick |
| Server.Server.Submit | model_server/engines.py:78-83 | a submission equals its event, or is refused behind a dead loop |
| Server.Server.Cancel | model_server/engines.py:85-87 | a client's cancellation equals its event |
| Server.Server.Turn | model_server/batching.py:241-255 | one pass of the loop equals its event, with membership compared as ordered ids |
| Server.Server.Tick | model_server/batching.py:257-283 | running the batch and recording it equals its event, for either runner; running out of memory equals a tick that raises |
| Server.Server.RaiseTick | model_server/batching.py:264-266 | a tick that raises equals its event: everybody in flight fails and the loop ends |
| Server.Server.Kill | model_server/batching.py:242-263 | cancelling the loop equals its event, at both suspensions and before the first step |
| Server.Server.Load | model_server/main.py:156-162 | cancelling the loop and installing the new runner equals its event |

## Left out

- Sample: the largest logit is the first of several equal ones and the draw is a function of the masked row, so torch's choice among ties and its random state are not modelled.
- Execute: what a failing pass leaves in the cache beyond having dropped it; the loop is dead by then, and the next one starts without a cache.
- Stream: a client that leaves in the middle; its reader stops, and `Cancel` is what the server sees.
- Floating point, NaN and infinities: logits are reals; a row that fails on them is a draw that returns nothing.
- Softmax, multinomial and the model itself: abstract functions of the attended columns of one row.
- Tokenizers and chat templates: prompts arrive as ids, and decoding is, for each runner, any function under which more tokens only add text.
- Event-loop and thread mechanics: an emit is an ordered append, sleeps take no time, and a cancelled task reacts before the new one starts.
- The old worker thread that is still computing when the loop is swapped: it touches only the old runner.
- Request validation, HTTP routing, JSON and SSE text, settings, health and metrics endpoints: plumbing around the members above.
- The cluster controller, benchmarks, images and configuration: no behaviour of the engine.
