# Streamerson: a verified model

This project models the request/reply and event streaming core of Streamerson in Dafny and proves
what the code guarantees over whole runs, and where it does not, exactly when.  `dafny verify
dfyconfig.toml` checks all of it.

## What is modelled

- **Messages** (`Messages`): the record that is appended to a stream and the event it is read back
  as.  JSON text is a pair of functions, and only where a theorem says so (`Faithful`) does parsing
  undo printing.
- **The stream read loop** (`StreamRead`, `StreamDelivery`, `StreamLosses`, `StreamProgress`,
  `StreamGuarantees`): the generator over append-only logs with increasing ids.  The state machine has a step for every point at which the
  generator can be interrupted: append, resume, answer, timeout, adding or removing a stream, cancel.
  An answer is any non-empty start of what the server has, within the batch size.  The classes
  `StreamIteration` and `CursorRecord` are the code, with the record of cursors written in place.
- **Deferred replies** (`Deferral`, `Settlement`): the promise tracker with its timers.  A promise is a
  cell that settles at most once; time does not pass a due timer, and due timers fire in any order.
- **The consumer** (`ConsumerPipe`): handlers by message type, and the two stages that turn events into
  answers, and what it writes as a function of the log it reads (`ConsumedLog`).
- **Request and reply end to end** (`RoundTrip`): clients, both streams, the consumer, the tracker and
  the clock in one state machine.  Ids are fresh and unsharded; other parties may write anything to
  both streams under ids of their own; readers may deliver entries in any order, skip and repeat.
- **The state emitter** (`JsTrees`, `PathText`, `Merge`, `Diff`, `ObjectGraph`, `Emitter`): the deep merge
  on finite trees and on arbitrary object graphs, the change paths, and what an observer can
  reconstruct from the notifications.
- **The write-behind cache** (`Decimal`, `CacheStore`, `CacheAgreement`): the local cache, the queue of
  unacknowledged commands and the remote store.
- **Stream names** (`StreamKeys`) and **the readme rewriter** (`Embed`).

Each class or method with a loop is proved against a function on values; the theorems are about runs
of those functions.

## Where the code differs from what one may expect

- A channel's response type always takes the place of the caller's message type
  (packages/core/src/datasource/streamable.ts:60, :88), so a request is handled by the handler for that
  type; `RoundTrip.DispatchReturnsItsOwnResult` says so.
- A change of the stream set during a read ends the iterator instead of switching it over
  (`StreamGuarantees.UpdateDuringReadEndsIt`).  The lost answer still moves a caller's cursor record, and
  so does an answer with an entry that does not decode, both past entries nobody receives;
  `StreamLosses.CursorIsEndExactly` says exactly when.
- A read from `$` that times out, or is answered for other streams only, starts again from the new end:
  `StreamLosses.TimeoutSkipsAnEntry` loses an entry, `StreamLosses.NothingSkippedExactly` says exactly when.
- A consumer reads from `$`, so that it answers nothing from before its first effective read
  (`ConsumedLog.ConsumerAnswersTheLog`), and an entry that does not decode takes the good ones before it in
  its batch with it (`StreamProgress.BadAnswerEndsIt`).
- An expiry timer outlives the deletion of its early entry and can take a later promise's entry
  (`Settlement.StaleExpiryStealsTheReply`, and exactly when: `Settlement.FirstEventWins`); a second event
  pins an early entry for good (`Settlement.SecondEventPinsTheEntry`); a dispatch that times out leaves its
  entry for ever (`RoundTrip.OnlyReturningCleansUp`, `RoundTrip.ThrownEntryStays`).
- A changed top-level field named `*` is announced with the wrong value and misleads every observer
  (`Emitter.StarIsAmbiguous`, `Emitter.UpdateIsObservable`), `set` removes fields silently
  (`Emitter.SetIsObservable`), a key with a dot, as in `{"a.b": 1}`, is announced as undefined
  (`Emitter.DottedKeyIsLost`), and NaN is announced on every update (`Diff.SecondUpdateIsSilent`).
- An evicted counter restarts from zero and an evicted hash loses fields locally, though never on the
  remote (`CacheAgreement.AddAgreesExactly`, `CacheAgreement.SetHashAgreesExactly`,
  `CacheAgreement.RemoteIsMap`).
- Topics and shards share streams where `#` is part of a name (`StreamKeys.SharesKeyExactly`).
- Where a tag pair repeats, only its first place is ever brought up to date (`Embed.RewriteIsLocal`);
  packages/consumer/README.md:93-159 has such a pair.

## Model

| member | source | states |
|---|---|---|
| `StreamGuarantees.StreamsDeliveredExactly` | packages/core/src/datasource/streamable.ts:518-576 | In every run, under any appends, timeouts, stream set changes and cancellations, what the iterator delivered of each stream (yielded plus rest of batch) is in order, gap-free and repeat-free the log from the beginning of delivery up to the stream's cursor; the beginning is the start cursor, or from `$` the end the log had when the read that first returned an entry of the stream was issued; after it has stopped, still the log from there to some position |
| `StreamGuarantees.SingleStreamExactlyOnce` | packages/core/src/datasource/streamable.ts:302-338 | Single-stream mode from a concrete id: all that was delivered is exactly the entries after the start and up to the cursor, each once |
| `StreamGuarantees.ModeRun` | packages/core/src/datasource/streamable.ts:518-576 | From fitting options, exactly one of (stream, string cursor) and (no stream, record cursor) holds in every reachable state |
| `StreamGuarantees.UnrecognizedExactlyWhenInconsistent` | packages/core/src/datasource/streamable.ts:380-380 | The unrecognized control flow error is unreachable exactly from options whose stream and kind of cursor fit |
| `StreamGuarantees.SwitchCarriesTheCursor` | packages/core/src/datasource/streamable.ts:543-549 | An update seen between reads carries the string cursor into the record, and the next read of that stream starts at the same place |
| `StreamGuarantees.UpdateDuringReadEndsIt` | packages/core/src/datasource/streamable.ts:562-567 | An update during a read ends the iteration for good: no event is ever yielded after it |
| `StreamGuarantees.CancelledStops` | packages/core/src/datasource/streamable.ts:537-542 | From any started state and in every continuation: a cancelled iterator issues no further read, delivers nothing but the answer to the read in flight, if there is one, and once its batch is handed out the next request ends it |
| `StreamGuarantees.ChangesTakeEffect` | packages/core/src/datasource/streamable.ts:542-549 | From an addition or removal between reads on, the next read is of exactly the streams that are then in the set |
| `StreamGuarantees.EarlierChangesGoUnnoticed` | packages/core/src/datasource/streamable.ts:525-541 | A change of the set, or a cancellation, before the iterator has started goes unnoticed: the first read is of its own stream from its own cursor, or from the end of the log |
| `StreamGuarantees.NoStreamsFails` | packages/core/src/datasource/streamable.ts:344-348 | Reading all streams of an empty set fails |
| `StreamGuarantees.BatchesAreBounded` | packages/core/src/datasource/streamable.ts:322-322 | In every run no batch of a reader of one stream is longer than the requested batch size, or 10 where none was requested; zero is no bound |
| `StreamGuarantees.UnnamedIsNoStream` | packages/core/src/datasource/streamable.ts:525-541 | A stream without a name is no stream: the iterator starts as a reader of all streams |
| `StreamLosses.NothingSkippedExactly` | packages/core/src/datasource/streamable.ts:302-338 | From `$`, delivery begins where the log ended when the stream was first asked for, so that nothing that came since is lost, if and only if no read of the stream was re-issued, before any of its entries was delivered, after entries of it had come since the read before |
| `StreamLosses.TimeoutSkipsAnEntry` | packages/core/src/datasource/streamable.ts:333-338 | A run of read, timeout, append, read, append, answer delivers the second entry and never the first |
| `StreamLosses.CursorIsEndExactly` | packages/core/src/datasource/streamable.ts:340-378 | In every run and for every stream the cursor is at the end of what was delivered, if and only if no answer to a record reader was dropped (by an entry that does not decode, or by a read that had lost its race) after an entry of the stream had been decoded |
| `StreamLosses.AnswerMovesSlot` | packages/core/src/datasource/streamable.ts:367-372 | An answer, good or bad, moves a stream's slot exactly if it reaches an entry of the stream before one that does not decode, and then to one of its entries |
| `StreamLosses.LostReadMovesTheRecord` | packages/core/src/datasource/streamable.ts:367-372 | The answer to a read that lost against an update moves a stream's slot in the caller's record if and only if it reaches a decodable entry of the stream, which nobody then receives |
| `StreamProgress.CatchesUp` | packages/core/src/datasource/streamable.ts:542-575 | From any moment of a live reader of one stream at a concrete cursor (not started, blocked, or with a batch in hand) and for any number of entries after the cursor, if these decode, some run of reads and yields alone hands out exactly these, in order, after the batch in hand |
| `StreamProgress.RecordCatchesUp` | packages/core/src/datasource/streamable.ts:340-378 | A reader of all streams, or one that is about to change over to them, can hand out in one round everything that every stream of the set holds after its cursor, if that decodes |
| `StreamProgress.BadAnswerEndsIt` | packages/core/src/datasource/streamable.ts:327-332 | An answer with an entry that does not decode ends the iteration: nothing of it is ever handed out, not even the entries before the bad one |
| `StreamProgress.ReadOnce` | packages/core/src/datasource/streamable.ts:302-338 | One read, answered with any number of entries that the batch size allows, hands out the batch in hand and then exactly these entries, and leaves the cursor at the last of them |
| `StreamProgress.YieldBatch` | packages/core/src/datasource/streamable.ts:572-574 | Resuming as often as the batch is long hands out the whole batch in order and changes nothing else |
| `StreamGuarantees.OnlyOriginRun` | packages/core/src/datasource/streamable.ts:302-338 | Before a change of mode every delivered event is of the stream asked for |
| `StreamDelivery.RunInv` | packages/core/src/datasource/streamable.ts:518-576 | The delivery invariant of all streams, the sortedness of the logs and the agreement of a read in flight with the cursors hold in every reachable state |
| `StreamDelivery.StepInv` | packages/core/src/datasource/streamable.ts:518-576 | Every step of the loop and of its environment keeps that invariant |
| `StreamDelivery.AbsorbEffect` | packages/core/src/datasource/streamable.ts:367-372 | Seen from one stream, a decoded answer adds exactly that stream's entries to the events and moves its slot to the last of them |
| `StreamDelivery.TracksReadOn` | packages/core/src/datasource/streamable.ts:327-332 | Reading on from a concrete cursor extends a gap-free slice to a longer gap-free slice |
| `StreamDelivery.AnswerInv` | packages/core/src/datasource/streamable.ts:552-572 | An answer that arrives, in either mode and also after the read has lost its race, keeps every stream's slice exact |
| `StreamRead.AbsorbIntoRecord` | packages/core/src/datasource/streamable.ts:367-372 | The answer loop pushes exactly the decoded events and leaves exactly the specified cursors in the shared record, also when an entry does not decode |
| `StreamRead.StreamIteration.constructor` | packages/core/src/datasource/streamable.ts:525-541 | The generator starts from the given cursor, from `$` for a stream without one, and from a new record otherwise |
| `StreamRead.StreamIteration.AddStreamId` | packages/core/src/datasource/streamable.ts:117-120 | Adding notifies the iterator and then puts the stream last unless it is there; the cursor object stays the same |
| `StreamRead.StreamIteration.RemoveStreamId` | packages/core/src/datasource/streamable.ts:134-137 | Removing notifies the iterator and takes the stream out |
| `StreamRead.StreamIteration.NotifyUpdate` | packages/core/src/datasource/streamable.ts:534-541 | The update listeners: a flag between reads, the end of the iteration during one |
| `StreamRead.StreamIteration.Resume` | packages/core/src/datasource/streamable.ts:542-575 | Resuming hands out the next event of the batch, or goes round the loop: stop, switch mode, read; the cursor object is kept or is a new one |
| `StreamRead.StreamIteration.IssueRead` | packages/core/src/datasource/streamable.ts:302-358 | Which streams are read after which ids, and when the read fails instead |
| `StreamRead.StreamIteration.ReceiveReply` | packages/core/src/datasource/streamable.ts:327-378 | The answer becomes the batch and the cursor; a record cursor is written in place, a string cursor replaced; a late answer writes the record only |
| `StreamRead.StreamIteration.ReceiveTimeout` | packages/core/src/datasource/streamable.ts:333-338 | A timeout gives an empty batch and leaves the cursor where it was, `$` included |
| `Messages.WireRoundTrip` | packages/core/src/datasource/streamable.ts:73-188 | What is written is what is read back: id, stamped type, destination, source and payload arrive unswapped in the decoded event, and the constant fields are the ones every reader expects |
| `Messages.AnyRecordReadsAs` | packages/core/src/datasource/streamable.ts:145-188 | Any record, whoever wrote it, is readable if and only if it has an id and its JSON texts parse, and then each field of the event is that of the record |
| `Messages.DecodeAllConcat` | packages/core/src/datasource/streamable.ts:145-188 | Decoding two runs of entries one after the other is decoding them together, errors included |
| `Settlement.BoundedSettlement` | packages/core/src/deferral/deferred-promise-tracker.ts:128-169 | In every run each promise is settled within the timeout of its creation: one still pending at that age is rejected before time moves on, whatever became of its entry |
| `Settlement.TimeoutsTakeTheirTime` | packages/core/src/deferral/deferred-promise-tracker.ts:165-165 | For every timeout of 1 to 2147483647 ms, in every run: a promise rejected by its timeout is at least that old, a pending one is never older, and one of exactly that age is rejected before time moves |
| `Settlement.EarlyEntriesLastTwiceAsLong` | packages/core/src/deferral/deferred-promise-tracker.ts:66-68 | For every timeout up to half that limit: an undisturbed early entry that no other expiry or event meets is held until twice the timeout is over, and not after |
| `Settlement.GrantedTimeouts` | packages/core/src/deferral/deferred-promise-tracker.ts:165-165 | A timeout that the timer facility cannot take becomes one millisecond; all others are as given |
| `Settlement.DefaultIsThreeSeconds` | packages/core/src/deferral/deferred-promise-tracker.ts:41-50 | A promise of a tracker without a timeout of its own is given 3000 ms |
| `Settlement.LifeOfAPromise` | packages/core/src/deferral/deferred-promise-tracker.ts:128-169 | What each call (the answer, an error, cancelling, deleting, its timeout, asking again) makes of a promise just asked for: its outcome, its timer and its entry |
| `Settlement.LifeOfAnEarlyReply` | packages/core/src/deferral/deferred-promise-tracker.ts:61-72 | What an answer or error leaves behind that nobody asked for, what a claim of it gets, and what its expiry takes away |
| `Settlement.RunInv` | packages/core/src/deferral/deferred-promise-tracker.ts:52-173 | In every reachable state each pending promise has its own armed timer and each entry's timer is its own |
| `Settlement.StepInv` | packages/core/src/deferral/deferred-promise-tracker.ts:52-173 | Every call and every timer keeps that invariant |
| `Settlement.SettledForever` | packages/core/src/deferral/deferred-promise-tracker.ts:156-159 | A settled promise keeps its outcome in every continuation |
| `Settlement.FirstEventWins` | packages/core/src/deferral/deferred-promise-tracker.ts:52-126 | In every state and for an id without entry: whatever undisturbed run follows, the promise stands as the first response, error or timeout for it in the trace says, if and only if no expiry timer of an earlier reply to the id is due within the promise's own timeout |
| `Settlement.StolenReply` | packages/core/src/deferral/deferred-promise-tracker.ts:64-71 | Wherever such an expiry is due, time alone takes the promise's entry, and a reply then goes unheard |
| `Settlement.SafeToAsk` | packages/core/src/deferral/deferred-promise-tracker.ts:128-173 | What a caller can go by: if no early entry of the id was ever deleted, or none was taken away ahead of its expiry within the last two timeouts, the first event wins |
| `Settlement.DeletedLongAgoIsNotEnough` | packages/core/src/deferral/deferred-promise-tracker.ts:64-71 | That no early entry was deleted within the last two timeouts is not enough: a run in which the expiry of an older one takes a later early entry away and leaves that one's expiry behind |
| `Settlement.RunToDue` | packages/core/src/deferral/deferred-promise-tracker.ts:165-165 | From every state a run of timers and clock alone leads to the moment an armed timer is due, and leaves promises whose rejection is not due before as they are |
| `Settlement.OrderDoesNotMatter` | packages/core/src/deferral/deferred-promise-tracker.ts:61-72 | A promise asked for first has the answer's outcome for good; a claim of the early answer up to some time gives the same outcome in every undisturbed run, if and only if no expiry of the id is due by that time |
| `Settlement.EarlyEntryStays` | packages/core/src/deferral/deferred-promise-tracker.ts:61-72 | Until the first expiry of its id is due an undisturbed early entry is kept with its outcome, whatever else happens |
| `Settlement.StaleExpiryStealsTheReply` | packages/core/src/deferral/deferred-promise-tracker.ts:64-71 | A concrete run in which the expiry timer of a deleted early entry removes a new promise's entry, so that a reply in time is not heard |
| `Settlement.EarlyEntriesExpire` | packages/core/src/deferral/deferred-promise-tracker.ts:113-123 | In every run an early entry was made by an event for its id and held since; its expiry is armed if and only if no further event for the id came, and then the entry is never older than twice the timeout, and at that age its removal comes next |
| `Settlement.EarlyEntryGoesExactly` | packages/core/src/deferral/deferred-promise-tracker.ts:61-72 | After twice the timeout an undisturbed early entry is still held if and only if another event for the id met it while no older expiry of the id was armed when it came |
| `Settlement.SecondEventPinsTheEntry` | packages/core/src/deferral/deferred-promise-tracker.ts:58-60 | From every state: after a second event for an early entry every undisturbed continuation keeps the entry, if and only if no other expiry of its id is armed |
| `Settlement.OrphansAreBounded` | packages/core/src/deferral/deferred-promise-tracker.ts:61-72 | In every run early entries whose expiry is armed never outnumber the events of the last two timeouts; those are all early entries, if no event ever met an early entry |
| `Settlement.CancelAllSettlesEverythingHeld` | packages/core/src/deferral/deferred-promise-tracker.ts:83-103 | Cancelling all empties the record and rejects exactly the pending promises it held |
| `Deferral.CancelExtends` | packages/core/src/deferral/deferred-promise-tracker.ts:83-103 | Cancelling one more entry after a set of them is cancelling the larger set at once: the order of the loop does not matter |
| `Deferral.DeferralTracker.constructor` | packages/core/src/deferral/deferred-promise-tracker.ts:41-50 | A new tracker is empty, with the given timeout or the default one |
| `Deferral.DeferralTracker.ResponseEvent` | packages/core/src/deferral/deferred-promise-tracker.ts:52-72 | A response settles the waiting promise and clears its timer, or is kept as an early entry with its own expiry |
| `Deferral.DeferralTracker.ErrorEvent` | packages/core/src/deferral/deferred-promise-tracker.ts:105-123 | The same for an error, rejecting |
| `Deferral.DeferralTracker.Cancel` | packages/core/src/deferral/deferred-promise-tracker.ts:89-103 | One entry's promise is rejected, its timer cleared, the entry removed |
| `Deferral.DeferralTracker.CancelAll` | packages/core/src/deferral/deferred-promise-tracker.ts:83-87 | The loop over all entries has the effect of cancelling all of them at once |
| `Deferral.DeferralTracker.PromiseFor` | packages/core/src/deferral/deferred-promise-tracker.ts:128-169 | An existing entry's promise is handed out again; otherwise a new pending promise with its own rejection timer |
| `Deferral.DeferralTracker.FireTimer` | packages/core/src/deferral/deferred-promise-tracker.ts:165-165 | A due timer rejects its promise if that is pending, or drops its early entry |
| `Deferral.DeferralTracker.SettleEntry` | packages/core/src/deferral/deferred-promise-tracker.ts:154-159 | First settle wins; the functions of an early entry do nothing |
| `RoundTrip.DispatchReturnsItsOwnResult` | packages/core/src/deferral/stream-awaiter.ts:85-115 | In every interleaving of dispatches, writes, reads, handler turns, replies, timeouts and other parties' traffic, a dispatch that returns normally returns the truthy result of the handler for its stamped type on what was read from the record with that dispatch's own id, message, type and source |
| `RoundTrip.SentRequestReadsBack` | packages/core/src/deferral/stream-awaiter.ts:101-109 | The one record a dispatch appends is read back as the event with its id, the stamped or its own type, the reply stream as destination, its own source, and the very payload it was given as text |
| `RoundTrip.DispatchCanReturn` | packages/core/src/deferral/stream-awaiter.ts:85-115 | From every reachable state with an idle consumer: a dispatch of any payload under a fresh id whose handler gives a result can run to its end, returns exactly that result and leaves no entry behind |
| `RoundTrip.CallsAreDispatched` | packages/core/src/deferral/stream-awaiter.ts:85-98 | A call in any reachable state has the arguments of the dispatch that started it |
| `RoundTrip.AnswerDecodes` | packages/consumer/src/stream-consumer.ts:204-226 | The answer to a request, written and read back, carries the handler's result on what it saw of that request, under that request's id |
| `RoundTrip.ReplyAnswersOwnRequest` | packages/core/src/deferral/stream-awaiter.ts:116-133 | Every reply that carries a call's id is the consumer's answer to the request that is read from the record of that very call, with its own message, type and source |
| `RoundTrip.ReturnedFromReply` | packages/core/src/deferral/stream-awaiter.ts:110-114 | What a call returned is the payload of a reply on the stream with the call's id |
| `RoundTrip.EveryDispatchSettles` | packages/core/src/deferral/stream-awaiter.ts:99-114 | No dispatch waits longer than the timeout: when a pending call reaches that age time cannot move on, and a timer can fire after which its promise is not pending |
| `RoundTrip.OnlyReturningCleansUp` | packages/core/src/deferral/stream-awaiter.ts:110-114 | When a call ends in any run it returns its promise's payload or throws its promise's reason, its entry is in the tracker if and only if it threw, and no other entry has changed |
| `RoundTrip.ThrownEntryStays` | packages/core/src/deferral/stream-awaiter.ts:110-114 | The entry of a call that threw is there in every continuation |
| `RoundTrip.EntriesRun` | packages/core/src/deferral/stream-awaiter.ts:85-115 | In every reachable state each call that has not returned has its entry, and no armed expiry can take it |
| `RoundTrip.RunInv` | packages/core/src/deferral/stream-awaiter.ts:85-133 | In every reachable state requests carry fresh ids and their call's own fields, replies to calls are answers to their requests, and fulfilled promises hold replies with their own id |
| `RoundTrip.StepInv` | packages/core/src/deferral/stream-awaiter.ts:85-133 | Every step of clients, consumer, network and clock keeps that invariant |
| `RoundTrip.StreamAwaiter.constructor` | packages/core/src/deferral/stream-awaiter.ts:30-66 | A new client is a part of the initial system |
| `RoundTrip.StreamAwaiter.Dispatch` | packages/core/src/deferral/stream-awaiter.ts:85-100 | Without a target nothing happens but the error; otherwise the call holds the promise of its fresh id before anything is written |
| `RoundTrip.StreamAwaiter.WriteRequest` | packages/core/src/deferral/stream-awaiter.ts:101-109 | What is written is the call's own record, addressed back to the reply stream; `SentRequestReadsBack` says what it reads as |
| `RoundTrip.StreamAwaiter.Resume` | packages/core/src/deferral/stream-awaiter.ts:110-114 | A fulfilled promise returns its payload and deletes the entry, a rejected one throws and deletes nothing |
| `RoundTrip.StreamAwaiter.ReadResponse` | packages/core/src/deferral/stream-awaiter.ts:116-125 | Each event of the reply stream is handed to the tracker as a response |
| `ConsumerPipe.PipeKeepsOrder` | packages/consumer/src/stream-consumer.ts:254-275 | In every run what is written is, in order, one answer per received event up to the first event that gets none, and all of those once the pipe is idle; nothing after that event is ever written |
| `ConsumerPipe.AnswersAreTheHandlers` | packages/consumer/src/stream-consumer.ts:204-226 | Those events are the longest start of the input in which every event has an id, a handler and a truthy, non-rejecting result; each answer carries its request's id and the handler's result |
| `ConsumedLog.ConsumerAnswersTheLog` | packages/consumer/src/stream-consumer.ts:104-108 | For every start and every run of the reader and of the pipe: what is written answers, in order, the entries of the log from where delivery begins up to the first that gets no answer, and all of those up to the cursor once everything was handed over and the pipe is idle; from `$`, the start that the consumer uses, delivery begins where the log ended when the first read that returned anything was issued, and nothing is written before |
| `ConsumerPipe.AnswerIsTheHandlers` | packages/core/src/datasource/streamable.ts:414-437 | An event gets an answer exactly when it has an id, a handler, a payload that parses and a truthy result, and the answer is the record with that id, the response type, the event's source and the printed result |
| `ConsumerPipe.HandlerSeesPayload` | packages/consumer/src/stream-consumer.ts:216-224 | What a handler is called with: every payload that is no text as it is, text as what it parses to, so that printed JSON arrives as the value printed; the result is the handler's on that, and text that does not parse rejects |
| `ConsumerPipe.MissingHandlerStopsTheWriter` | packages/consumer/src/stream-consumer.ts:204-215 | An event without a handler passes the transform as an error object, which stops the writer |
| `ConsumerPipe.RejectionStopsTheTransform` | packages/consumer/src/stream-consumer.ts:255-269 | A rejection stops the transform for good and leaves all that follows unread |
| `ConsumerPipe.RunInv` | packages/consumer/src/stream-consumer.ts:254-275 | In every reachable state inbox, buffer and output are consecutive parts of what was received, and a stopped stage stopped at an event that gets no answer |
| `ConsumerPipe.StepInv` | packages/consumer/src/stream-consumer.ts:254-275 | Every delivery, transform and write keeps that invariant |
| `ConsumerPipe.StreamConsumer.constructor` | packages/consumer/src/stream-consumer.ts:82-84 | A new consumer has no handlers and an empty pipe |
| `ConsumerPipe.StreamConsumer.ProcessEvent` | packages/consumer/src/stream-consumer.ts:204-226 | Without a handler an error object is the result; a payload that does not parse and a rejecting handler reject; else the event with the handler's value |
| `ConsumerPipe.StreamConsumer.TransformNext` | packages/consumer/src/stream-consumer.ts:255-269 | The transform takes events one at a time and stops for good at a rejection |
| `ConsumerPipe.StreamConsumer.WriteNext` | packages/core/src/datasource/streamable.ts:414-436 | The writer writes one record per good chunk and stops for good at a chunk without id or payload |
| `ObjectGraph.CycleDetectionExact` | packages/emitter/emitter.ts:99-117 | On any object graph the merge throws exactly when a cycle of objects is reachable from the source; otherwise the source has a finite unfolding, shared objects or not, and the result is the tree merge with it |
| `ObjectGraph.DeepMerge` | packages/emitter/emitter.ts:99-117 | The recursive merge with its in-place path set terminates on every graph, computes the specified walk, and on success leaves the set as it found it |
| `ObjectGraph.ThrowGivesWalk` | packages/emitter/emitter.ts:104-106 | A throw exhibits a walk from the source that returns to an object on it |
| `ObjectGraph.UnfoldingExcludesCycle` | packages/emitter/emitter.ts:104-106 | A value with a finite unfolding reaches no cycle |
| `ObjectGraph.MergesUnfolding` | packages/emitter/emitter.ts:99-117 | On a graph with an unfolding the walk never meets its own path and yields the tree merge |
| `Merge.MergeComposes` | packages/emitter/emitter.ts:99-117 | Two updates reach the state of one update with their merge, from every state, if and only if the first holds no non-object at a path where the second holds an object |
| `Merge.MergeHolds` | packages/emitter/emitter.ts:99-117 | At every path a merge holds: the source's own leaf where the source has one, an object where it has an object, nothing below its leaves, and everywhere else what the target holds |
| `Merge.MergeIdempotent` | packages/emitter/emitter.ts:99-117 | Merging the same partial state twice reads the same at every path as merging it once |
| `Merge.LookupMerge` | packages/emitter/emitter.ts:109-113 | At every path the source decides where it has the first step, the target everywhere else |
| `JsTrees.PutOrder` | packages/emitter/emitter.ts:109-113 | Writing a field keeps the order of the others; a field that is there keeps its place, a new one comes last |
| `Merge.IncompatibleWitness` | packages/emitter/emitter.ts:99-117 | Where the condition fails, a concrete state tells two updates from one |
| `Diff.ReportedPathsSoundAndMinimal` | packages/emitter/emitter.ts:65-81 | The reported paths are exactly the places where old and new differ below common objects; none repeats and none is a prefix of another |
| `Diff.ChangedExactly` | packages/emitter/emitter.ts:65-81 | A path is reported if and only if it is such a change, told without the traversal |
| `Diff.PatchCompleteExactly` | packages/emitter/emitter.ts:53-81 | Replaying the reported values on the old state reads like the new one at every path if and only if no field with a value was silently removed |
| `Diff.PatchCompleteWhereNewExists` | packages/emitter/emitter.ts:53-81 | At every path that exists in the new state the replayed state always reads like the new one |
| `Diff.MergeRemovesNothing` | packages/emitter/emitter.ts:99-117 | A merge never removes a field, at any depth |
| `Diff.SilentExactlyWithoutNaN` | packages/emitter/emitter.ts:65-81 | Between two equal states nothing is reported, if and only if they hold no NaN |
| `Diff.SecondUpdateIsSilent` | packages/emitter/emitter.ts:22-34 | The second of two identical updates reports nothing, if and only if the merged state holds no NaN |
| `Emitter.UpdateIsObservable` | packages/emitter/emitter.ts:22-34 | After an update an observer who replays the notifications reads the new state at every path, if and only if the update does not change a top-level field `*` |
| `Emitter.SetIsObservable` | packages/emitter/emitter.ts:36-44 | After `set` the observer reads the new state wherever it has a value, unless a field `*` changed; and everywhere if and only if moreover nothing was silently removed |
| `Emitter.ObserverKeepsUpExactly` | packages/emitter/emitter.ts:53-63 | Any copy that reads like the old state reads like the new one after the replay, if and only if nothing is silently removed and no top-level field `*` changes |
| `Emitter.ObserverFollowsExactly` | packages/emitter/emitter.ts:22-44 | Over a whole history of updates and sets an observer's copy reads like the state after every operation, if and only if every operation is of that kind |
| `Emitter.EmissionsAreTheChanges` | packages/emitter/emitter.ts:53-63 | One announcement per reported path, in order, and the state change last; the announced path leads back to the reported one if and only if no key has a dot and the path does not open with the empty key; then it carries the two values that were compared, except that a changed top-level `*` comes with the whole state |
| `Emitter.AnnouncedApart` | packages/emitter/emitter.ts:53-63 | Two such changes are never announced under one path |
| `Emitter.DottedKeyIsLost` | packages/emitter/emitter.ts:85-97 | A new field `a.b` is announced as undefined |
| `Emitter.MadeGoodByAccident` | packages/emitter/emitter.ts:53-63 | Two states between which not every reported path leads back to itself, and whose replay still gives the very new state |
| `Emitter.DottedFieldMisleads` | packages/emitter/emitter.ts:53-63 | A change of a top-level field with a dot in its name always leaves an observer with a state that reads wrong |
| `Emitter.StarIsAmbiguous` | packages/emitter/emitter.ts:46-51 | A changed top-level field named `*` is announced with the whole state instead of its value |
| `Emitter.GetNestedValue` | packages/emitter/emitter.ts:85-97 | The loop over the split path returns the value at that path, undefined once a step is missing |
| `Emitter.GetChangedPaths` | packages/emitter/emitter.ts:65-81 | The traversal collects exactly the specified paths, in iteration order |
| `Emitter.StateEmitter.constructor` | packages/emitter/emitter.ts:9-12 | The emitter starts with the given state and has announced nothing |
| `Emitter.StateEmitter.Fetch` | packages/emitter/emitter.ts:46-51 | `*` reads the whole state, anything else the value at the path |
| `Emitter.StateEmitter.EmitChanges` | packages/emitter/emitter.ts:53-63 | Announces the specified changes and then the state change, after all earlier announcements |
| `Emitter.StateEmitter.EmitEach` | packages/emitter/emitter.ts:56-60 | One announcement per path, in order |
| `Emitter.StateEmitter.Update` | packages/emitter/emitter.ts:22-34 | Throws exactly on a cyclic partial state, and then neither state nor announcements change; otherwise the state is the merge with the unfolding and every change is announced |
| `Emitter.StateEmitter.Set` | packages/emitter/emitter.ts:36-44 | Refuses a non-object without effect, otherwise replaces the state and announces every change |
| `PathText.SplitJoin` | packages/emitter/emitter.ts:86-86 | Splitting undoes joining of dot-free keys |
| `PathText.JoinSplit` | packages/emitter/emitter.ts:86-86 | Joining undoes splitting, on every string |
| `PathText.SplitDottedExactly` | packages/emitter/emitter.ts:71-71 | A path grown key by key splits back into its keys if and only if no key has a dot and it does not open with the empty key, unless that is all of it |
| `CacheAgreement.CacheRefinesMap` | packages/state-machine/src/datasources/cacheable.ts:70-219 | In every history of non-overlapping calls on owned, replicated keys, with any evictions and a remote that lags behind at any pace, the drained remote is the plain map; and key by key, whatever becomes of the others, the cache agrees with it at every moment, and all calls on the key answer like the map, if and only if no call writes to it while it is a counter or hash that the remote has and the cache lacks (but for a zero or covered fields) |
| `CacheAgreement.RunAgrees` | packages/state-machine/src/datasources/cacheable.ts:70-219 | The same if-and-only-if for one key from any sound state that agrees on it |
| `CacheAgreement.RemoteIsMap` | packages/state-machine/src/datasources/cacheable.ts:141-219 | From any sound state the drained remote is the map after every disciplined history, guarded or not |
| `CacheAgreement.UnevictedIsGuarded` | packages/state-machine/src/datasources/cacheable.ts:70-219 | Plain keys are always guarded, and so is a counter or hash that is never evicted and that the remote had only if cached |
| `CacheAgreement.StepIsSound` | packages/state-machine/src/datasources/cacheable.ts:70-219 | Each step leaves a drained remote that is the map's next state and a usable cache |
| `CacheAgreement.StepExactly` | packages/state-machine/src/datasources/cacheable.ts:70-219 | From agreement on a key a step keeps it if and only if it is about another key or guarded, and then answers like the map |
| `CacheAgreement.OtherKeysKept` | packages/state-machine/src/datasources/cacheable.ts:70-219 | A step leaves all other keys as they are, in the cache and in the drained remote |
| `CacheAgreement.RentMakesNoDifference` | packages/state-machine/src/datasources/cacheable.ts:45-53 | Whether calls on owned, replicated keys say `rent` makes no difference to any history |
| `CacheAgreement.CounterIsNetCount` | packages/state-machine/src/datasources/cacheable.ts:24-60 | After any history with any evictions a new counter's drained remote text is the net of its increments and integer sets, and if its own writes are guarded so is the cached text |
| `CacheAgreement.HashIsNetFields` | packages/state-machine/src/datasources/cacheable.ts:180-219 | After any such history the drained remote hash holds the last value given to each field, and if its own writes are guarded so does the cached one |
| `CacheAgreement.NoPlaceholderSurvives` | packages/state-machine/src/datasources/cacheable.ts:82-92 | No completed call leaves the placeholder in the cache, unless the remote holds that very text |
| `CacheAgreement.AddAgreesExactly` | packages/state-machine/src/datasources/cacheable.ts:24-60 | An increment leaves cache and drained remote in agreement if and only if the counter was cached or the remote has none or zero |
| `CacheAgreement.SetHashAgreesExactly` | packages/state-machine/src/datasources/cacheable.ts:180-219 | A hash write leaves them in agreement if and only if the hash was cached or the remote has no field that the write lacks |
| `CacheAgreement.HashWriteOnMap` | packages/state-machine/src/datasources/cacheable.ts:186-206 | Sending the whole merged hash has on the remote the effect of sending the new fields |
| `CacheStore.CacheableDataSource.GetValue` | packages/state-machine/src/datasources/cacheable.ts:70-101 | A truthy cached value is returned at once; otherwise the read waits for the queue, and the cache ends up with the text read, or without the key |
| `CacheStore.CacheableDataSource.GetHash` | packages/state-machine/src/datasources/cacheable.ts:103-134 | The same for hashes, where an absent one is cached as empty |
| `CacheStore.CacheableDataSource.SetValue` | packages/state-machine/src/datasources/cacheable.ts:141-178 | An owned value is cached and, if replicated, queued; null changes nothing |
| `CacheStore.CacheableDataSource.IncrOrDecr` | packages/state-machine/src/datasources/cacheable.ts:24-60 | The cached number, or zero, is changed and cached as text; the command is queued or sent |
| `CacheStore.CacheableDataSource.SetHash` | packages/state-machine/src/datasources/cacheable.ts:180-219 | The fields are written into the cached hash itself, or to an object made of a cached string or number; the whole of its entries is queued or sent; assigning to a string's own indices throws and changes nothing |
| `CacheStore.SetByMode` | packages/state-machine/src/datasources/cacheable.ts:141-178 | By mode of use: the owner caches a value and, if replicated, queues it; a renter writes it to the remote at once; anyone else does nothing; all but null answer true |
| `CacheStore.AddByMode` | packages/state-machine/src/datasources/cacheable.ts:24-60 | The owner counts on from its cached number, from the text of an object made of one, or from zero; a renter counts at the remote; anyone else gets zero |
| `CacheStore.NoNumberIsNaN` | packages/state-machine/src/datasources/cacheable.ts:31-37 | A hash, and a text that is no number, counts as NaN, which is cached as text while the command is still sent |
| `CacheStore.GetByMode` | packages/state-machine/src/datasources/cacheable.ts:70-101 | Which texts come from the cache, which from the remote after the queue, which at once, and what each read leaves in the cache, the placeholder after a failure included |
| `CacheStore.GetHashByMode` | packages/state-machine/src/datasources/cacheable.ts:103-134 | The same for hashes |
| `CacheStore.SetHashByMode` | packages/state-machine/src/datasources/cacheable.ts:180-219 | By mode of use: a cached hash is merged in place by everyone, an absent one is cached by the owner only; who queues and who writes at once |
| `CacheStore.SetHashOfString` | packages/state-machine/src/datasources/cacheable.ts:180-186 | Fields assigned to a cached string make an object that lists its characters too, or throw, exactly if one of them is the string's length or one of its indices |
| `CacheStore.SetHashOfNumber` | packages/state-machine/src/datasources/cacheable.ts:180-186 | Fields assigned to a cached number make an object of which only these fields are sent |
| `CacheStore.SetHashOfObject` | packages/state-machine/src/datasources/cacheable.ts:180-186 | Such an object takes further fields in place, whoever assigns them, and a string's own indices stay as they are |
| `CacheStore.RemoteExecutes` | packages/state-machine/src/datasources/cacheable.ts:24-60 | What the remote makes of each command on an absent, a text and a hash value |
| `Decimal.ParseOfText` | packages/state-machine/src/datasources/cacheable.ts:31-32 | Parsing undoes printing, for every integer |
| `Decimal.ReadsBaseTen` | packages/state-machine/src/datasources/cacheable.ts:31-32 | Numbers are read in base ten, signed, up to the first character that is no digit, and only if they start with one |
| `Decimal.NoNeedlessZero` | packages/state-machine/src/datasources/cacheable.ts:36-36 | Printed numbers have no needless zero or sign |
| `StreamKeys.KeysAreUnambiguous` | packages/core/src/utils/topic.ts:34-60 | With namespaces that have no two colons in a row and none at the end, and `#`-free topics, two keys are equal if and only if party, namespace, topic and shard are (an empty shard being none) |
| `StreamKeys.KeysSpelledOut` | packages/core/src/utils/topic.ts:34-60 | Which key is which: namespace, topic, shard and the party's own suffix in this order, with the default topic and no trace of an empty shard |
| `StreamKeys.ConsumerIsNeverProducer` | packages/core/src/utils/keys.ts:17-23 | No consumer key equals any producer key, on all inputs |
| `StreamKeys.OtherNamespacesCollide` | packages/core/src/utils/keys.ts:3-8 | Every other namespace shares all its keys with a shorter one |
| `StreamKeys.SharesKeyExactly` | packages/core/src/utils/keys.ts:10-15 | A topic with its shard shares its key with another topic or shard if and only if there is a shard, or a `#` inside the topic's name |
| `StreamKeys.SameBodyExactly` | packages/core/src/utils/keys.ts:10-15 | Two topics with their shards are decorated alike if and only if they are the same, or the shorter topic's shard continues into the longer topic |
| `StreamKeys.SameKeyExactly` | packages/core/src/utils/topic.ts:34-60 | With plain namespaces two keys are equal if and only if party, namespace and decorated topic are |
| `StreamKeys.BareNamespaceIsDefaultTopic` | packages/core/src/utils/topic.ts:15-24 | A topic made from a bare namespace shares its streams with exactly those options of that namespace that name no topic or `DEFAULT` |
| `Embed.RewriteIsLocal` | tools/embed.ts:39-77 | On a well tagged document the rewrite puts each named file between its tags, exactly where no earlier pair has the same tags, and leaves everything else, tags and repeated pairs included, unchanged; or it writes nothing, exactly when some file is missing or of an unsupported type |
| `Embed.RewriteIsIdempotent` | tools/embed.ts:39-77 | Rewriting the rewritten document changes nothing, whether or not pairs repeat |
| `Embed.EmbeddedIs` | tools/embed.ts:26-64 | What stands between the tags afterwards: a line with a link that is named by the reference's last part, and the file's own content, fenced for `ts` and bare for `js` and `md`; nothing for any other type or a missing file |
| `Embed.TagNamesItsFile` | tools/embed.ts:54-54 | A tag of the documented form names its file, without the spaces around it |
| `Embed.DocumentedTags` | tools/embed.ts:44-45 | Begin and end tags of the documented form are found as tags |
| `Embed.DocumentedSpaces` | tools/embed.ts:44-45 | A tab separates like a space, and no tag runs over a line end |
| `Embed.UntaggedIsKept` | tools/embed.ts:46-48 | A document without begin tags or without end tags is written back as it was |
| `Embed.MismatchWritesNothing` | tools/embed.ts:48-53 | With fewer end tags than begin tags nothing is written |
| `Embed.TurnRefreshes` | tools/embed.ts:56-64 | The turn of a repeated pair writes its file between the first such pair's tags, where it already is |
| `Embed.RefreshedWellTagged` | tools/embed.ts:60-64 | Every document in the middle of the rewrite is still well tagged |
| `Embed.FoundTags` | tools/embed.ts:44-45 | The pattern finds the tags of such a document, all of them, in order |
| `Embed.IndexOfTag` | tools/embed.ts:56-57 | Searching the string being rewritten finds the tag at its own place, if no earlier tag could be taken for it |
| `Embed.ReplacedBetween` | tools/embed.ts:56-64 | One turn of the loop replaces the text between the two tags and nothing else |
| `Embed.NoLongerTag` | tools/embed.ts:44-45 | A greedy match does not run past the end of a tag's line |
| `Embed.LoopRefreshes` | tools/embed.ts:48-65 | From any pair on, the loop refreshes what is left or stops at the first file it cannot embed |
| `Embed.AddEmbeddings` | tools/embed.ts:39-77 | The loop writes the specified rewrite, counts the embedded files, and writes nothing once it throws |

## Left out

- RoundTrip.DispatchReturnsItsOwnResult: unsharded streams only, since some paths decorate the shard into the key twice; a caller's target override is part of `StreamAwaiter.Dispatch`, but the system has one request stream.
- RoundTrip.EveryDispatchSettles: speaks of the promise; the write that precedes the await may itself never be acknowledged.
- RoundTrip.ThrownEntryStays: cancelling by hand is not a step of that system; `Deferral` and `Settlement` have it.
- RoundTrip.DispatchCanReturn: from a moment at which the consumer has nothing else to do; every step of the run is enabled, but that the parties take them is not modelled.
- StreamGuarantees.BatchesAreBounded: reads of all streams at once are not bounded, as in the code no size is sent with them.
- StreamProgress.CatchesUp: every step of such a run is enabled, but that a server does answer is not modelled.
- StreamProgress.RecordCatchesUp: not from a moment at which a read is in flight.
- StreamGuarantees.SingleStreamExactlyOnce: what was delivered once the iterator has stopped is covered by `StreamsDeliveredExactly` only.
- CacheAgreement.CacheRefinesMap: one kind of use per key (plain, counter or hash); counters are set to numbers only.
- CacheAgreement.CounterIsNetCount: of a counter that the remote does not have at first; likewise `HashIsNetFields`.
- CacheAgreement.AddAgreesExactly: integers are unbounded; the remote's 64-bit limit and the local floating point beyond 2^53 are not modelled.
- Decimal.ParseOfText: `parseInt` on text that no printing gives (leading blanks, `0x`) is not modelled.
- CacheStore.CacheableDataSource.SetHash: an assignment that throws half-way into a cached string object is modelled as assigning nothing.
- CacheStore.CacheableDataSource.GetHash: the source returns the cached object itself, which a caller could change; the model returns its value.
- Emitter.GetNestedValue: own properties of strings and arrays met on the way (`name.length`, `list.0`) are not modelled and read as undefined.
- Emitter.UpdateIsObservable: where a reported path does not lead back to itself, as with a dot in a key, `DottedFieldMisleads` covers top-level fields; deeper ones can be made good by accident (`MadeGoodByAccident`), so that what such an observer reads is not characterised. The same holds for `SetIsObservable`, `ObserverKeepsUpExactly` and `ObserverFollowsExactly`.
- Emitter.StateEmitter.Set: the new state is a finite tree; a cyclic state given to `set` or to the constructor is not modelled.
- Emitter.StateEmitter.Update: the partial state is an object, as its type requires; arrays are leaves compared by identity, and an object merged over an array or over a string, which would index into it, is treated as merged over a value without fields.
- Embed.AddEmbeddings: paths are not resolved; a file is looked up by the reference as written in the tag, and writing the file is the returned text.
- Embed.RewriteIsLocal: documents whose tags alternate, end their lines, and agree in both tags of a pair or in none; on other documents `AddEmbeddings` is specified, but what is lost there is not described.
- Embed.FoundTags: the greedy match is defined as the longest one, which for this pattern it is.
- Listeners that call back into the emitter, inherited properties, `__proto__` keys, and the reordering of integer-like keys.
- Consumer groups: delivery rests on the server's group semantics, and members overwrite their options after construction.
- Sharded reads and writes; a topic's mode and meta data, which do not enter its keys.
- CacheAgreement.RemoteIsMap: owned, replicated keys only; what one call does with rented and owner-only keys is said (`CacheStore.SetByMode` and the lemmas beside it), but the code gives no agreement there.
- Overlapping cache calls, the time to live, and `del`, which does nothing.
- Connections, retries, logging, error wrapping, failed commands: input and output.
- The unhandled rejection of an early error, and the extra turn of the event loop that an async `promise` takes.
- Buffering limits of Node streams, and a batch size of zero beyond its meaning of no limit.
- The Fastify and WebSocket gateways, the state machine and state cache classes, subtopics, the command line parts of the readme tool, benchmarks and deployment scripts.
