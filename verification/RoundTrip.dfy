/**
 Request and reply end to end (packages/core/src/deferral/stream-awaiter.ts with the stream
 writers, the consumer and the tracker): any number of dispatches at once, each waiting for the
 reply that carries its id.

 Readers deliver entries in any order, possibly skipping or repeating some; what a reader really
 delivers is the subject of StreamGuarantees.
 */
module RoundTrip {
  import opened Wrappers
  import opened Messages
  import D = Deferral
  import S = Settlement
  import C = ConsumerPipe

  datatype Settings = Settings(
    codec: Codec,
    handlers: C.Handlers,
    requestType: Option<string>,
    replyType: Option<string>,
    requestStream: string,
    replyStream: string,
    timeout: nat)

  datatype Stage =
    | Writing
    | Sent
    | Awaiting
    | Returned(payload: Json)
    | Threw(reason: D.Reason)

  /** One call of `dispatch`: its arguments, the promise it holds, and where it stands. */
  datatype Call = Call(message: string, messageType: string, source: string, cell: nat, stage: Stage)

  datatype World = World(
    tracker: D.Tracker,
    calls: map<string, Call>,
    used: set<string>,
    requests: seq<Entry>,
    replies: seq<Entry>,
    pipe: C.Pipe)

  function Init(s: Settings): World {
    World(D.Init(s.timeout), map[], {}, [], [], C.EMPTY)
  }

  /** What `dispatch` writes: the reply stream is the record's destination. */
  function RequestRecord(s: Settings, id: string, call: Call): Record {
    WireRecord(s.requestType, Some(s.replyStream), call.messageType, id, call.message, call.source)
  }

  function Append(log: seq<Entry>, gap: nat, record: Record): seq<Entry> {
    log + [Entry((if log == [] then 0 else log[|log| - 1].id) + 1 + gap, record)]
  }

  datatype Step =
    | Dispatch(id: string, message: string, messageType: string, source: string)
    | Send(id: string, gap: nat)
    | Acknowledge(id: string)
    | Finish(id: string)
    | ForeignRequest(record: Record, gap: nat)
    | ForeignReply(record: Record, gap: nat)
    | Consume(i: nat)
    | Transform
    | Answer(gap: nat)
    | Hear(i: nat)
    | Clock(tick: D.Step)

  predicate InStage(w: World, id: string, stage: Stage) {
    id in w.calls && w.calls[id].stage == stage
  }

  function CellOutcome(w: World, id: string): D.Outcome
    requires id in w.calls
  {
    if w.calls[id].cell < |w.tracker.cells| then w.tracker.cells[w.calls[id].cell].outcome else D.Pending
  }

  /** Ids are fresh; other parties on the streams use ids of their own. */
  predicate Enabled(s: Settings, w: World, step: Step) {
    match step
    case Dispatch(id, _, _, _) => id !in w.used && id != ""
    case Send(id, _) => InStage(w, id, Writing)
    case Acknowledge(id) => InStage(w, id, Sent)
    case Finish(id) => InStage(w, id, Awaiting) && !CellOutcome(w, id).Pending?
    case ForeignRequest(record, _) => record.messageId !in w.calls
    case ForeignReply(record, _) => record.messageId !in w.calls
    case Consume(i) => i < |w.requests| && Decode(s.codec, s.requestStream, w.requests[i]).Some?
    case Transform => true
    case Answer(_) => true
    case Hear(i) => i < |w.replies| && Decode(s.codec, s.replyStream, w.replies[i]).Some?
    case Clock(t) => (t.Tick? || t.Fire?) && D.Enabled(w.tracker, t)
  }

  function WithStage(w: World, id: string, stage: Stage): map<string, Call>
    requires id in w.calls
  {
    w.calls[id := w.calls[id].(stage := stage)]
  }

  function Do(s: Settings, w: World, step: Step): World
    requires Enabled(s, w, step)
  {
    match step
    case Dispatch(id, message, messageType, source) =>
      w.(calls := w.calls[id := Call(message, messageType, source, D.HandedOut(w.tracker, id), Writing)],
         used := w.used + {id}, tracker := D.AfterPromise(w.tracker, id))
    case Send(id, gap) =>
      w.(calls := WithStage(w, id, Sent), requests := Append(w.requests, gap, RequestRecord(s, id, w.calls[id])))
    case Acknowledge(id) => w.(calls := WithStage(w, id, Awaiting))
    case Finish(id) =>
      // a rejection propagates before the tracker entry is deleted
      if CellOutcome(w, id).Fulfilled? then
        w.(calls := WithStage(w, id, Returned(CellOutcome(w, id).event.payload)),
           tracker := D.AfterDelete(w.tracker, id))
      else w.(calls := WithStage(w, id, Threw(CellOutcome(w, id).reason)))
    case ForeignRequest(record, gap) =>
      w.(used := w.used + {record.messageId}, requests := Append(w.requests, gap, record))
    case ForeignReply(record, gap) =>
      w.(used := w.used + {record.messageId}, replies := Append(w.replies, gap, record))
    case Consume(i) =>
      w.(pipe := C.Do(s.codec, s.handlers, s.replyType, w.pipe,
                      C.Receive(Decode(s.codec, s.requestStream, w.requests[i]).value)))
    case Transform => w.(pipe := C.AfterTransform(s.codec, s.handlers, w.pipe))
    case Answer(gap) =>
      var pipe := C.AfterWrite(s.codec, s.replyType, w.pipe);
      w.(pipe := pipe,
         replies := if |pipe.written| > |w.pipe.written|
                    then Append(w.replies, gap, pipe.written[|w.pipe.written|]) else w.replies)
    case Hear(i) =>
      w.(tracker := D.Apply(w.tracker, D.Response(Decode(s.codec, s.replyStream, w.replies[i]).value)))
    case Clock(t) => w.(tracker := D.Apply(w.tracker, t))
  }

  predicate IsRun(s: Settings, steps: seq<Step>)
    decreases |steps|, 0
  {
    steps != [] ==>
      IsRun(s, steps[..|steps| - 1]) && Enabled(s, Run(s, steps[..|steps| - 1]), steps[|steps| - 1])
  }

  function Run(s: Settings, steps: seq<Step>): World
    requires IsRun(s, steps)
    decreases |steps|, 1
  {
    if steps == [] then Init(s) else Do(s, Run(s, steps[..|steps| - 1]), steps[|steps| - 1])
  }

  // ---------- where things come from ----------

  ghost predicate FromRequest(s: Settings, requests: seq<Entry>, e: Event) {
    exists j :: 0 <= j < |requests| && Decode(s.codec, s.requestStream, requests[j]) == Some(e)
  }

  ghost predicate FromReply(s: Settings, replies: seq<Entry>, e: Event) {
    exists i :: 0 <= i < |replies| && Decode(s.codec, s.replyStream, replies[i]) == Some(e)
  }

  /** The chunk is what processing some request gave. */
  ghost predicate ChunkOk(s: Settings, requests: seq<Entry>, chunk: C.Chunk) {
    exists e :: FromRequest(s, requests, e) && C.Process(s.codec, s.handlers, e) == Some(chunk)
  }

  /** The record is the consumer's answer to some request with the same id. */
  ghost predicate IsAnswer(s: Settings, requests: seq<Entry>, record: Record) {
    exists e :: FromRequest(s, requests, e) && e.messageId == record.messageId
                && C.AnswerTo(s.codec, s.handlers, s.replyType, e) == Some(record)
  }

  ghost predicate RequestsOk(s: Settings, w: World) {
    forall j | 0 <= j < |w.requests| ::
      var r := w.requests[j].record;
      r.messageId in w.used && (r.messageId in w.calls ==> r == RequestRecord(s, r.messageId, w.calls[r.messageId]))
  }

  ghost predicate RepliesOk(s: Settings, w: World) {
    forall i | 0 <= i < |w.replies| ::
      var r := w.replies[i].record;
      r.messageId in w.used && (r.messageId in w.calls ==> IsAnswer(s, w.requests, r))
  }

  ghost predicate PipeOk(s: Settings, w: World) {
    && (forall i | 0 <= i < |w.pipe.inbox| :: FromRequest(s, w.requests, w.pipe.inbox[i]))
    && (forall i | 0 <= i < |w.pipe.buffer| :: ChunkOk(s, w.requests, w.pipe.buffer[i]))
  }

  ghost predicate TrackerOk(s: Settings, t: D.Tracker, used: set<string>, replies: seq<Entry>) {
    && S.Inv(t) && t.timeout == s.timeout
    && (forall id | id in t.promises :: id in used)
    && (forall c | 0 <= c < |t.cells| && t.cells[c].outcome.Fulfilled? ::
          t.cells[c].outcome.event.messageId == t.cells[c].owner && FromReply(s, replies, t.cells[c].outcome.event))
  }

  ghost predicate CallsOk(s: Settings, w: World) {
    forall id | id in w.calls ::
      var call := w.calls[id];
      && id in w.used
      && call.cell < |w.tracker.cells| && w.tracker.cells[call.cell].owner == id
      && (call.stage.Returned? ==> w.tracker.cells[call.cell].outcome.Fulfilled?
                                   && call.stage.payload == w.tracker.cells[call.cell].outcome.event.payload)
  }

  ghost predicate Inv(s: Settings, w: World) {
    RequestsOk(s, w) && RepliesOk(s, w) && PipeOk(s, w) && CallsOk(s, w)
    && TrackerOk(s, w.tracker, w.used, w.replies)
  }

  // ---------- the logs only grow ----------

  lemma FromRequestGrows(s: Settings, a: seq<Entry>, b: seq<Entry>, e: Event)
    requires a <= b && FromRequest(s, a, e)
    ensures FromRequest(s, b, e)
  {
    var j :| 0 <= j < |a| && Decode(s.codec, s.requestStream, a[j]) == Some(e);
    assert b[j] == a[j];
  }

  lemma FromReplyGrows(s: Settings, a: seq<Entry>, b: seq<Entry>, e: Event)
    requires a <= b && FromReply(s, a, e)
    ensures FromReply(s, b, e)
  {
    var j :| 0 <= j < |a| && Decode(s.codec, s.replyStream, a[j]) == Some(e);
    assert b[j] == a[j];
  }

  lemma ChunkOkGrows(s: Settings, a: seq<Entry>, b: seq<Entry>, chunk: C.Chunk)
    requires a <= b && ChunkOk(s, a, chunk)
    ensures ChunkOk(s, b, chunk)
  {
    var e :| FromRequest(s, a, e) && C.Process(s.codec, s.handlers, e) == Some(chunk);
    FromRequestGrows(s, a, b, e);
  }

  lemma IsAnswerGrows(s: Settings, a: seq<Entry>, b: seq<Entry>, record: Record)
    requires a <= b && IsAnswer(s, a, record)
    ensures IsAnswer(s, b, record)
  {
    var e :| FromRequest(s, a, e) && e.messageId == record.messageId
             && C.AnswerTo(s.codec, s.handlers, s.replyType, e) == Some(record);
    FromRequestGrows(s, a, b, e);
  }

  lemma PipeOkGrows(s: Settings, w: World, v: World)
    requires PipeOk(s, w) && w.requests <= v.requests && v.pipe == w.pipe
    ensures PipeOk(s, v)
  {
    hide FromRequest, ChunkOk;
    forall i | 0 <= i < |v.pipe.inbox| ensures FromRequest(s, v.requests, v.pipe.inbox[i]) {
      FromRequestGrows(s, w.requests, v.requests, v.pipe.inbox[i]);
    }
    forall i | 0 <= i < |v.pipe.buffer| ensures ChunkOk(s, v.requests, v.pipe.buffer[i]) {
      ChunkOkGrows(s, w.requests, v.requests, v.pipe.buffer[i]);
    }
  }

  /** The ids of the calls and what they wrote stay as they are; new calls have new ids. */
  ghost predicate SameCalls(w: World, v: World) {
    && w.used <= v.used
    && (forall id | id in w.calls :: id in v.calls && v.calls[id] == w.calls[id].(stage := v.calls[id].stage))
    && (forall id | id in v.calls :: id in w.calls || id !in w.used)
  }

  lemma RequestsOkGrows(s: Settings, w: World, v: World)
    requires RequestsOk(s, w) && SameCalls(w, v) && v.requests == w.requests
    ensures RequestsOk(s, v)
  {
    forall j | 0 <= j < |v.requests| ensures
      var r := v.requests[j].record;
      r.messageId in v.used && (r.messageId in v.calls ==> r == RequestRecord(s, r.messageId, v.calls[r.messageId]))
    {
      assert w.requests[j].record.messageId in w.used;
    }
  }

  lemma RepliesOkGrows(s: Settings, w: World, v: World)
    requires RepliesOk(s, w) && SameCalls(w, v) && v.replies == w.replies && w.requests <= v.requests
    ensures RepliesOk(s, v)
  {
    hide IsAnswer;
    forall i | 0 <= i < |v.replies| ensures
      var r := v.replies[i].record; r.messageId in v.used && (r.messageId in v.calls ==> IsAnswer(s, v.requests, r))
    {
      var r := w.replies[i].record;
      assert r.messageId in w.used;
      if r.messageId in v.calls {
        IsAnswerGrows(s, w.requests, v.requests, r);
      }
    }
  }

  /** One call's stage changes; a returned payload is the one its promise was fulfilled with. */
  lemma CallsOkStage(s: Settings, w: World, v: World, id: string, stage: Stage)
    requires CallsOk(s, w) && id in w.calls && v.calls == WithStage(w, id, stage)
    requires w.used <= v.used && v.tracker.cells == w.tracker.cells
    requires stage.Returned? ==> CellOutcome(w, id).Fulfilled? && stage.payload == CellOutcome(w, id).event.payload
    ensures CallsOk(s, v) && SameCalls(w, v)
  {
  }

  // ---------- the tracker's part ----------

  lemma TrackerOkGrows(s: Settings, t: D.Tracker, used: set<string>, used': set<string>, a: seq<Entry>, b: seq<Entry>)
    requires TrackerOk(s, t, used, a) && used <= used' && a <= b
    ensures TrackerOk(s, t, used', b)
  {
    hide FromReply, S.Inv;
    forall c | 0 <= c < |t.cells| && t.cells[c].outcome.Fulfilled? ensures FromReply(s, b, t.cells[c].outcome.event) {
      FromReplyGrows(s, a, b, t.cells[c].outcome.event);
    }
  }

  lemma TrackerStep(s: Settings, t: D.Tracker, step: D.Step, used: set<string>, replies: seq<Entry>)
    requires TrackerOk(s, t, used, replies) && D.Enabled(t, step)
    requires step.Promise? || step.Delete? || step.Tick? || step.Fire? || step.Response?
    requires step.Promise? ==> step.id in used
    requires step.Response? ==> step.event.messageId in used && FromReply(s, replies, step.event)
    ensures TrackerOk(s, D.Apply(t, step), used, replies)
  {
    hide FromReply;
    S.StepInv(t, step);
    hide S.Inv;
    var u := D.Apply(t, step);
    if step.Response? && step.event.messageId in t.promises {
      EntryOwner(t, step.event.messageId);
    }
  }

  lemma EntryOwner(t: D.Tracker, id: string)
    requires S.Inv(t) && id in t.promises
    ensures t.promises[id].cell < |t.cells| && t.cells[t.promises[id].cell].owner == id
  {
    assert S.EntryOk(t, id);
  }

  /** Calls keep their cells, and a settled cell keeps its outcome. */
  lemma CallsOkKept(s: Settings, w: World, step: D.Step)
    requires CallsOk(s, w) && D.Enabled(w.tracker, step)
    ensures CallsOk(s, w.(tracker := D.Apply(w.tracker, step)))
  {
    forall id | id in w.calls ensures
      var u, c := D.Apply(w.tracker, step), w.calls[id].cell;
      c < |u.cells| && u.cells[c].owner == id
      && (!w.tracker.cells[c].outcome.Pending? ==> u.cells[c] == w.tracker.cells[c])
    {
      assert D.Run(w.tracker, []) == w.tracker;
      var t := S.Extended(w.tracker, [], step);
      S.SettledForever(w.tracker, [] + [step], w.calls[id].cell);
    }
  }

  // ---------- the steps ----------

  lemma DispatchInv(s: Settings, w: World, step: Step)
    requires Inv(s, w) && Enabled(s, w, step) && step.Dispatch?
    ensures Inv(s, Do(s, w, step))
  {
    var v := Do(s, w, step);
    TrackerOkGrows(s, w.tracker, w.used, v.used, w.replies, w.replies);
    TrackerStep(s, w.tracker, D.Promise(step.id), v.used, w.replies);
    assert step.id !in w.tracker.promises;
    CallsOkKept(s, w, D.Promise(step.id));
    hide TrackerOk, FromRequest, FromReply, ChunkOk, IsAnswer;
    RequestsOkGrows(s, w, v);
    RepliesOkGrows(s, w, v);
    PipeOkGrows(s, w, v);
  }

  /** One more request, from a call of this client or from a stranger. */
  lemma RequestsOkOneMore(s: Settings, w: World, gap: nat, record: Record)
    requires RequestsOk(s, w) && record.messageId in w.used
    requires record.messageId in w.calls ==> record == RequestRecord(s, record.messageId, w.calls[record.messageId])
    ensures RequestsOk(s, w.(requests := Append(w.requests, gap, record)))
  {
  }

  lemma SendInv(s: Settings, w: World, step: Step)
    requires Inv(s, w) && Enabled(s, w, step) && (step.Send? || step.ForeignRequest?)
    ensures Inv(s, Do(s, w, step))
  {
    hide FromRequest, FromReply, ChunkOk, IsAnswer, S.Inv;
    var v := Do(s, w, step);
    assert v.requests[..|w.requests|] == w.requests;
    if step.Send? {
      CallsOkStage(s, w, v, step.id, Sent);
    }
    hide CallsOk;
    RequestsOkGrows(s, w, v.(requests := w.requests));
    var record := if step.Send? then RequestRecord(s, step.id, w.calls[step.id]) else step.record;
    RequestsOkOneMore(s, v.(requests := w.requests), step.gap, record);
    hide RequestsOk;
    RepliesOkGrows(s, w, v);
    hide RepliesOk;
    PipeOkGrows(s, w, v);
    hide PipeOk;
    TrackerOkGrows(s, w.tracker, w.used, v.used, w.replies, w.replies);
    hide TrackerOk;
  }

  lemma FinishInv(s: Settings, w: World, step: Step)
    requires Inv(s, w) && Enabled(s, w, step) && (step.Acknowledge? || step.Finish?)
    ensures Inv(s, Do(s, w, step))
  {
    hide FromRequest, FromReply, ChunkOk, IsAnswer, S.Inv;
    var v := Do(s, w, step);
    TrackerStep(s, w.tracker, D.Delete(step.id), w.used, w.replies);
    CallsOkStage(s, w, v, step.id, v.calls[step.id].stage);
    hide CallsOk, TrackerOk;
    RequestsOkGrows(s, w, v);
    hide RequestsOk;
    RepliesOkGrows(s, w, v);
    hide RepliesOk;
    PipeOkGrows(s, w, v);
  }

  lemma ForeignReplyInv(s: Settings, w: World, step: Step)
    requires Inv(s, w) && Enabled(s, w, step) && step.ForeignReply?
    ensures Inv(s, Do(s, w, step))
  {
    hide FromRequest, FromReply, ChunkOk, IsAnswer, S.Inv;
    var v := Do(s, w, step);
    assert v.replies[..|w.replies|] == w.replies;
    RequestsOkGrows(s, w, v);
    RepliesOkGrows(s, w, v.(replies := w.replies));
    PipeOkGrows(s, w, v);
    TrackerOkGrows(s, w.tracker, w.used, v.used, w.replies, v.replies);
  }

  lemma PipeInv(s: Settings, w: World, step: Step)
    requires Inv(s, w) && Enabled(s, w, step) && (step.Consume? || step.Transform?)
    ensures Inv(s, Do(s, w, step))
  {
    hide FromReply, IsAnswer, S.Inv, C.Process;
    var v := Do(s, w, step);
    if step.Transform? && w.pipe.inbox != [] && C.Process(s.codec, s.handlers, w.pipe.inbox[0]).Some? {
      assert ChunkOk(s, w.requests, C.Process(s.codec, s.handlers, w.pipe.inbox[0]).value);
    }
  }

  /** What the writer writes answers a request with the same id. */
  lemma WrittenIsAnswer(s: Settings, requests: seq<Entry>, chunk: C.Chunk)
    requires ChunkOk(s, requests, chunk) && C.Written(s.codec, s.replyType, chunk).Some?
    ensures IsAnswer(s, requests, C.Written(s.codec, s.replyType, chunk).value)
  {
    var e :| FromRequest(s, requests, e) && C.Process(s.codec, s.handlers, e) == Some(chunk);
    hide FromRequest;
    assert C.AnswerTo(s.codec, s.handlers, s.replyType, e) == C.Written(s.codec, s.replyType, chunk);
  }

  lemma AnswerUsed(s: Settings, w: World, record: Record)
    requires RequestsOk(s, w) && IsAnswer(s, w.requests, record)
    ensures record.messageId in w.used
  {
    var e :| FromRequest(s, w.requests, e) && e.messageId == record.messageId
             && C.AnswerTo(s.codec, s.handlers, s.replyType, e) == Some(record);
    var j :| 0 <= j < |w.requests| && Decode(s.codec, s.requestStream, w.requests[j]) == Some(e);
    assert w.requests[j].record.messageId == e.messageId;
  }

  lemma AnswerInv(s: Settings, w: World, step: Step)
    requires Inv(s, w) && Enabled(s, w, step) && step.Answer?
    ensures Inv(s, Do(s, w, step))
  {
    hide FromRequest, FromReply, ChunkOk, IsAnswer, S.Inv, C.Written;
    var v := Do(s, w, step);
    if !w.pipe.writerStopped && w.pipe.buffer != [] && C.Written(s.codec, s.replyType, w.pipe.buffer[0]).Some? {
      var record := C.Written(s.codec, s.replyType, w.pipe.buffer[0]).value;
      WrittenIsAnswer(s, w.requests, w.pipe.buffer[0]);
      AnswerUsed(s, w, record);
      assert v.replies == Append(w.replies, step.gap, record);
      assert v.replies[..|w.replies|] == w.replies;
      TrackerOkGrows(s, w.tracker, w.used, w.used, w.replies, v.replies);
    }
  }

  lemma HearInv(s: Settings, w: World, step: Step)
    requires Inv(s, w) && Enabled(s, w, step) && (step.Hear? || step.Clock?)
    ensures Inv(s, Do(s, w, step))
  {
    var d := if step.Hear? then D.Response(Decode(s.codec, s.replyStream, w.replies[step.i]).value) else step.tick;
    if step.Hear? {
      assert d.event.messageId == w.replies[step.i].record.messageId;
      assert FromReply(s, w.replies, d.event);
    }
    hide FromRequest, FromReply, ChunkOk, IsAnswer, S.Inv;
    TrackerStep(s, w.tracker, d, w.used, w.replies);
    CallsOkKept(s, w, d);
    var v := Do(s, w, step);
    RequestsOkGrows(s, w, v);
    RepliesOkGrows(s, w, v);
    PipeOkGrows(s, w, v);
  }

  lemma StepInv(s: Settings, w: World, step: Step)
    requires Inv(s, w) && Enabled(s, w, step)
    ensures Inv(s, Do(s, w, step))
  {
    hide Do, Inv;
    match step
    case Dispatch(_, _, _, _) => DispatchInv(s, w, step);
    case Send(_, _) => SendInv(s, w, step);
    case ForeignRequest(_, _) => SendInv(s, w, step);
    case Acknowledge(_) => FinishInv(s, w, step);
    case Finish(_) => FinishInv(s, w, step);
    case ForeignReply(_, _) => ForeignReplyInv(s, w, step);
    case Consume(_) => PipeInv(s, w, step);
    case Transform => PipeInv(s, w, step);
    case Answer(_) => AnswerInv(s, w, step);
    case Hear(_) => HearInv(s, w, step);
    case Clock(_) => HearInv(s, w, step);
  }

  lemma {:induction false} RunInv(s: Settings, steps: seq<Step>)
    requires IsRun(s, steps)
    ensures Inv(s, Run(s, steps))
    decreases |steps|
  {
    if steps != [] {
      RunInv(s, steps[..|steps| - 1]);
      StepInv(s, Run(s, steps[..|steps| - 1]), steps[|steps| - 1]);
    }
  }

  // ---------- the guarantees ----------

  /**
   The event is the request of a dispatch with these arguments: under its id, stamped with the channel's
   response type if that is set, addressed back to the reply stream, and with what the message parses to.
   */
  predicate IsRequestEvent(s: Settings, id: string, message: string, messageType: string, source: string, e: Event) {
    && e.streamId == s.requestStream && e.messageId == id
    && e.messageType == (match s.requestType { case Some(t) => t case None => messageType })
    && e.messageDestination == s.replyStream && e.messageSourceId == source
    && s.codec.parse(message) == Some(e.payload) && e.headers == None && e.messageProtocol == "json"
  }

  /** The handler for the event's type gives this truthy result for what it sees of the event. */
  ghost predicate HandlerGives(s: Settings, e: Event, p: Json) {
    && e.messageType in s.handlers
    && exists seen :: C.Sees(s.codec, e.payload, seen) && C.IsTruthy(s.handlers[e.messageType](e.(payload := seen)), p)
  }

  /** `p` is what the handler for the stamped type returns on the request that was dispatched. */
  ghost predicate IsOwnResult(s: Settings, w: World, id: string, message: string, messageType: string, source: string,
                              p: Json) {
    exists j, e :: 0 <= j < |w.requests| && Decode(s.codec, s.requestStream, w.requests[j]) == Some(e)
                   && IsRequestEvent(s, id, message, messageType, source, e) && HandlerGives(s, e, p)
  }

  /** What a dispatch writes is read back as its request, nothing lost or swapped. */
  lemma SentRequestReadsBack(s: Settings, w: World, id: string, gap: nat, p: Json)
    requires Enabled(s, w, Send(id, gap)) && id != "" && Faithful(s.codec)
    requires w.calls[id].message == s.codec.stringify(p)
    ensures var v, call := Do(s, w, Send(id, gap)), w.calls[id]; var n := |w.requests|;
            && |v.requests| == n + 1 && v.requests[..n] == w.requests
            && Decode(s.codec, s.requestStream, v.requests[n]) ==
               Some(Event(s.requestStream, v.requests[n].id, id,
                          match s.requestType { case Some(t) => t case None => call.messageType },
                          s.replyStream, "json", call.source, None, p))
            && IsRequestEvent(s, id, call.message, call.messageType, call.source,
                              Decode(s.codec, s.requestStream, v.requests[n]).value)
  {
  }

  /** Whatever decodes of a call's record is its request. */
  lemma RecordIsRequest(s: Settings, id: string, call: Call, request: Entry, e: Event)
    requires request.record == RequestRecord(s, id, call) && Decode(s.codec, s.requestStream, request) == Some(e)
    ensures IsRequestEvent(s, id, call.message, call.messageType, call.source, e)
  {
  }

  /** A call has the arguments of the dispatch that started it. */
  lemma {:induction false} CallsAreDispatched(s: Settings, steps: seq<Step>, id: string) returns (i: nat)
    requires IsRun(s, steps) && id in Run(s, steps).calls
    ensures var call := Run(s, steps).calls[id];
            i < |steps| && steps[i] == Dispatch(id, call.message, call.messageType, call.source)
    decreases |steps|
  {
    var n := |steps| - 1;
    if steps[n].Dispatch? && steps[n].id == id {
      i := n;
    } else {
      ArgumentsKept(s, Run(s, steps[..n]), steps[n], id);
      i := CallsAreDispatched(s, steps[..n], id);
    }
  }

  lemma ArgumentsKept(s: Settings, w: World, step: Step, id: string)
    requires Enabled(s, w, step) && id in Do(s, w, step).calls && !(step.Dispatch? && step.id == id)
    ensures id in w.calls && Do(s, w, step).calls[id] == w.calls[id].(stage := Do(s, w, step).calls[id].stage)
  {
  }

  /** A returned call holds the payload of a reply on the stream that carries its id. */
  lemma ReturnedFromReply(s: Settings, w: World, id: string) returns (i: nat)
    requires Inv(s, w) && id in w.calls && w.calls[id].stage.Returned?
    ensures i < |w.replies| && w.replies[i].record.messageId == id
    ensures var reply := Decode(s.codec, s.replyStream, w.replies[i]);
            reply.Some? && reply.value.payload == w.calls[id].stage.payload
  {
    hide S.Inv, RequestsOk, RepliesOk, PipeOk;
    var reply := w.tracker.cells[w.calls[id].cell].outcome.event;
    assert FromReply(s, w.replies, reply);
    i :| 0 <= i < |w.replies| && Decode(s.codec, s.replyStream, w.replies[i]) == Some(reply);
  }

  /** A reply that carries a call's id is the answer to that call's own request. */
  lemma ReplyAnswersOwnRequest(s: Settings, w: World, id: string, i: nat) returns (j: nat, e: Event)
    requires Inv(s, w) && id in w.calls && i < |w.replies| && w.replies[i].record.messageId == id
    ensures j < |w.requests| && Decode(s.codec, s.requestStream, w.requests[j]) == Some(e)
    ensures IsRequestEvent(s, id, w.calls[id].message, w.calls[id].messageType, w.calls[id].source, e)
    ensures C.AnswerTo(s.codec, s.handlers, s.replyType, e) == Some(w.replies[i].record)
  {
    hide TrackerOk, PipeOk, CallsOk, C.AnswerTo, FromRequest, IsRequestEvent;
    var record := w.replies[i].record;
    assert IsAnswer(s, w.requests, record);
    e :| FromRequest(s, w.requests, e) && e.messageId == record.messageId
         && C.AnswerTo(s.codec, s.handlers, s.replyType, e) == Some(record);
    j := SourceRequest(s, w.requests, e);
    RecordIsRequest(s, id, w.calls[id], w.requests[j], e);
  }

  lemma SourceRequest(s: Settings, requests: seq<Entry>, e: Event) returns (j: nat)
    requires FromRequest(s, requests, e)
    ensures j < |requests| && Decode(s.codec, s.requestStream, requests[j]) == Some(e)
    ensures requests[j].record.messageId == e.messageId
  {
    j :| 0 <= j < |requests| && Decode(s.codec, s.requestStream, requests[j]) == Some(e);
  }

  /**
   A dispatch that returns normally returns the handler's result on its own request, in every
   interleaving of any number of dispatches, writes, reads, replies, timeouts and other traffic.
   */
  lemma DispatchReturnsItsOwnResult(s: Settings, steps: seq<Step>, id: string) returns (i: nat)
    requires IsRun(s, steps) && Faithful(s.codec)
    requires id in Run(s, steps).calls && Run(s, steps).calls[id].stage.Returned?
    ensures i < |steps| && steps[i].Dispatch? && steps[i].id == id
    ensures var w := Run(s, steps);
            IsOwnResult(s, w, id, steps[i].message, steps[i].messageType, steps[i].source, w.calls[id].stage.payload)
  {
    hide C.AnswerTo, Decode, HandlerGives, IsRun, Faithful, IsRequestEvent;
    RunInv(s, steps);
    i := CallsAreDispatched(s, steps, id);
    var w := Run(s, steps);
    hide Run, Inv;
    var n := ReturnedFromReply(s, w, id);
    var j, e := ReplyAnswersOwnRequest(s, w, id, n);
    AnswerDecodes(s, e, w.replies[n], Decode(s.codec, s.replyStream, w.replies[n]).value);
  }

  /** The answer to a request decodes to the handler's result on that request. */
  lemma AnswerDecodes(s: Settings, e: Event, answer: Entry, reply: Event)
    requires Faithful(s.codec)
    requires C.AnswerTo(s.codec, s.handlers, s.replyType, e) == Some(answer.record)
    requires Decode(s.codec, s.replyStream, answer) == Some(reply)
    ensures HandlerGives(s, e, reply.payload) && reply.messageId == e.messageId
  {
    hide C.AnswerTo;
    C.AnswerIsTheHandlers(s.codec, s.handlers, s.replyType, e);
    var seen, result :|
      && C.Sees(s.codec, e.payload, seen) && C.IsTruthy(s.handlers[e.messageType](e.(payload := seen)), result)
      && answer.record == Record(e.messageId, match s.replyType { case Some(t) => t case None => "resp" }, "", "nil",
                                 "json", e.messageSourceId, "UnoccupiedField", s.codec.stringify(result));
  }

  // ---------- and it can return ----------

  /** The world after the steps, if each of them is enabled in turn. */
  function After(s: Settings, w: World, steps: seq<Step>): Option<World>
    decreases |steps|
  {
    if steps == [] then Some(w)
    else if Enabled(s, w, steps[0]) then After(s, Do(s, w, steps[0]), steps[1..])
    else None
  }

  lemma AfterFirst(s: Settings, w: World, step: Step, v: World, rest: seq<Step>)
    requires Enabled(s, w, step) && Do(s, w, step) == v
    ensures After(s, w, [step] + rest) == After(s, v, rest)
  {
    assert ([step] + rest)[1..] == rest;
  }

  /** The call of `id` is waiting for its promise, and its request is the last of the requests. */
  predicate IsWaiting(s: Settings, w: World, id: string, e: Event) {
    && InStage(w, id, Awaiting) && id in w.tracker.promises && w.tracker.promises[id].live
    && w.tracker.promises[id].cell == w.calls[id].cell < |w.tracker.cells|
    && w.tracker.cells[w.calls[id].cell] == D.Cell(id, w.tracker.now, D.Pending)
    && w.requests != [] && Decode(s.codec, s.requestStream, w.requests[|w.requests| - 1]) == Some(e)
  }

  lemma CanSend(s: Settings, w: World, id: string, p: Json, messageType: string, source: string)
    returns (v: World, e: Event)
    requires id !in w.used && id != "" && id !in w.tracker.promises && Faithful(s.codec)
    ensures var message := s.codec.stringify(p);
            After(s, w, [Dispatch(id, message, messageType, source)] + ([Send(id, 0)] + ([Acknowledge(id)] + [])))
            == Some(v)
    ensures IsWaiting(s, v, id, e) && v.pipe == w.pipe && v.replies == w.replies
    ensures IsRequestEvent(s, id, s.codec.stringify(p), messageType, source, e) && e.payload == p
    ensures e.streamMessageId == if w.requests == [] then 1 else w.requests[|w.requests| - 1].id + 1
  {
    var message := s.codec.stringify(p);
    var w1 := Do(s, w, Dispatch(id, message, messageType, source));
    SentRequestReadsBack(s, w1, id, 0, p);
    var w2 := Do(s, w1, Send(id, 0));
    v := Do(s, w2, Acknowledge(id));
    e := Decode(s.codec, s.requestStream, w2.requests[|w.requests|]).value;
    hide Decode, IsRequestEvent;
    hide Do, IsWaiting;
    AfterFirst(s, w2, Acknowledge(id), v, []);
    AfterFirst(s, w1, Send(id, 0), w2, [Acknowledge(id)] + []);
    AfterFirst(s, w, Dispatch(id, message, messageType, source), w1, [Send(id, 0)] + ([Acknowledge(id)] + []));
  }

  /** The consumer has nothing else to do, and has not stopped. */
  predicate IsFree(p: C.Pipe) {
    p.inbox == [] && p.buffer == [] && !p.transformStopped && !p.writerStopped
  }

  lemma CanAnswer(s: Settings, w: World, id: string, e: Event, q: Json) returns (v: World, reply: Event)
    requires IsWaiting(s, w, id, e) && e.messageId == id != "" && IsFree(w.pipe)
    requires HandlerGives(s, e, q) && Faithful(s.codec)
    ensures After(s, w, [Consume(|w.requests| - 1)] + ([Transform] + ([Answer(0)] + []))) == Some(v)
    ensures v == w.(pipe := v.pipe, replies := v.replies) && |v.replies| == |w.replies| + 1
    ensures Decode(s.codec, s.replyStream, v.replies[|w.replies|]) == Some(reply)
    ensures reply.messageId == id && reply.payload == q && IsFree(v.pipe)
  {
    hide Decode, HandlerGives, IsTheAnswer;
    var chunk, record := ConsumerAnswers(s, e, q);
    var w1 := w.(pipe := w.pipe.(inbox := [e]));
    var w2 := w.(pipe := w.pipe.(buffer := [chunk]));
    v := w.(pipe := w.pipe.(written := w.pipe.written + [record]), replies := Append(w.replies, 0, record));
    reply := ReadBack(s, id, q, record, v.replies[|w.replies|]);
    PipeTurns(s, w, e, chunk, record);
    assert Do(s, w, Consume(|w.requests| - 1)) == w1 && Do(s, w1, Transform) == w2 && Do(s, w2, Answer(0)) == v;
    hide Do;
    AfterFirst(s, w2, Answer(0), v, []);
    AfterFirst(s, w1, Transform, w2, [Answer(0)] + []);
    AfterFirst(s, w, Consume(|w.requests| - 1), w1, [Transform] + ([Answer(0)] + []));
  }

  /** The record answers the request with this id by this result. */
  ghost predicate IsTheAnswer(s: Settings, id: string, q: Json, record: Record) {
    exists source :: record == WireRecord(s.replyType, None, "resp", id, s.codec.stringify(q), source)
  }

  lemma ConsumerAnswers(s: Settings, e: Event, q: Json) returns (chunk: C.Chunk, record: Record)
    requires HandlerGives(s, e, q) && e.messageId != ""
    ensures C.Process(s.codec, s.handlers, e) == Some(chunk) && C.Written(s.codec, s.replyType, chunk) == Some(record)
    ensures IsTheAnswer(s, e.messageId, q, record)
  {
    var seen :| C.Sees(s.codec, e.payload, seen) && C.IsTruthy(s.handlers[e.messageType](e.(payload := seen)), q);
    C.HandlerSeesPayload(s.codec, s.handlers, e);
    chunk := C.Reply(e.(payload := seen), Some(q));
    record := WireRecord(s.replyType, None, "resp", e.messageId, s.codec.stringify(q), e.messageSourceId);
  }

  lemma ReadBack(s: Settings, id: string, q: Json, record: Record, entry: Entry) returns (reply: Event)
    requires IsTheAnswer(s, id, q, record) && entry.record == record && id != "" && Faithful(s.codec)
    ensures Decode(s.codec, s.replyStream, entry) == Some(reply) && reply.messageId == id && reply.payload == q
  {
    var source :| record == WireRecord(s.replyType, None, "resp", id, s.codec.stringify(q), source);
    WireRoundTrip(s.codec, s.replyType, None, "resp", id, q, source, s.replyStream, entry.id);
    reply := Decode(s.codec, s.replyStream, entry).value;
  }

  lemma PipeTurns(s: Settings, w: World, e: Event, chunk: C.Chunk, record: Record)
    requires IsFree(w.pipe)
    requires C.Process(s.codec, s.handlers, e) == Some(chunk) && C.Written(s.codec, s.replyType, chunk) == Some(record)
    ensures var p := w.pipe;
            && C.Do(s.codec, s.handlers, s.replyType, p, C.Receive(e)) == p.(inbox := [e])
            && C.AfterTransform(s.codec, s.handlers, p.(inbox := [e])) == p.(buffer := [chunk])
            && C.AfterWrite(s.codec, s.replyType, p.(buffer := [chunk])) == p.(written := p.written + [record])
  {
    hide C.Process, C.Written;
    var p := w.pipe;
    assert p.inbox + [e] == [e] && [e][1..] == [] && p.buffer + [chunk] == [chunk] && [chunk][1..] == [];
  }

  lemma CanFinish(s: Settings, w: World, id: string, e: Event, reply: Event) returns (v: World)
    requires IsWaiting(s, w, id, e) && w.replies != []
    requires Decode(s.codec, s.replyStream, w.replies[|w.replies| - 1]) == Some(reply) && reply.messageId == id
    ensures After(s, w, [Hear(|w.replies| - 1)] + ([Finish(id)] + [])) == Some(v)
    ensures InStage(v, id, Returned(reply.payload)) && id !in v.tracker.promises
  {
    hide Decode;
    var w1 := Do(s, w, Hear(|w.replies| - 1));
    v := Do(s, w1, Finish(id));
    AfterFirst(s, w1, Finish(id), v, []);
    AfterFirst(s, w, Hear(|w.replies| - 1), w1, [Finish(id)] + []);
  }

  lemma {:induction false} AfterConcat(s: Settings, w: World, a: seq<Step>, v: World, b: seq<Step>)
    requires After(s, w, a) == Some(v)
    ensures After(s, w, a + b) == After(s, v, b)
    decreases |a|
  {
    hide Do, Enabled;
    if a == [] {
      assert a + b == b;
    } else {
      assert (a + b)[1..] == a[1..] + b;
      AfterConcat(s, Do(s, w, a[0]), a[1..], v, b);
    }
  }

  /**
   From every world with a free consumer a dispatch can run to its end: it returns the handler's
   result on what it sent, and leaves no entry behind.
   */
  lemma DispatchCanReturn(s: Settings, w: World, id: string, p: Json, messageType: string, source: string, e: Event,
                          q: Json)
    returns (steps: seq<Step>, v: World)
    requires Inv(s, w) && id !in w.used && id != "" && Faithful(s.codec) && IsFree(w.pipe)
    requires IsRequestEvent(s, id, s.codec.stringify(p), messageType, source, e)
    requires e.streamMessageId == (if w.requests == [] then 1 else w.requests[|w.requests| - 1].id + 1)
    requires HandlerGives(s, e, q)
    ensures |steps| > 0 && steps[0] == Dispatch(id, s.codec.stringify(p), messageType, source)
    ensures After(s, w, steps) == Some(v) && InStage(v, id, Returned(q)) && id !in v.tracker.promises
  {
    assert id !in w.tracker.promises;
    hide Inv, Decode, HandlerGives, IsWaiting, IsFree, After, Do, Enabled;
    var sent, request := CanSend(s, w, id, p, messageType, source);
    assert request == e;
    hide IsRequestEvent;
    var answered, reply := CanAnswer(s, sent, id, e, q);
    StillWaiting(s, sent, answered, id, e);
    v := CanFinish(s, answered, id, e, reply);
    var first := [Dispatch(id, s.codec.stringify(p), messageType, source)] + ([Send(id, 0)] + ([Acknowledge(id)] + []));
    var second := [Consume(|sent.requests| - 1)] + ([Transform] + ([Answer(0)] + []));
    var third := [Hear(|answered.replies| - 1)] + ([Finish(id)] + []);
    AfterConcat(s, w, first, sent, second + third);
    AfterConcat(s, sent, second, answered, third);
    steps := first + (second + third);
  }

  lemma StillWaiting(s: Settings, w: World, v: World, id: string, e: Event)
    requires IsWaiting(s, w, id, e) && v == w.(pipe := v.pipe, replies := v.replies)
    ensures IsWaiting(s, v, id, e)
  {
  }

  /** The call's promise is rejected before time moves on. */
  ghost predicate RejectionIsNext(s: Settings, w: World, id: string)
    requires id in w.calls
  {
    && !Enabled(s, w, Clock(D.Tick))
    && exists k :: Enabled(s, w, Clock(D.Fire(k))) && !CellOutcome(Do(s, w, Clock(D.Fire(k))), id).Pending?
  }

  /**
   No dispatch waits forever: while its promise is pending, no more than the timeout has passed
   since it was called, and at that moment its rejection comes before time moves on.
   */
  lemma EveryDispatchSettles(s: Settings, steps: seq<Step>, id: string)
    requires IsRun(s, steps) && id in Run(s, steps).calls
    requires CellOutcome(Run(s, steps), id).Pending?
    ensures var w := Run(s, steps);
            && w.calls[id].cell < |w.tracker.cells|
            && var due := w.tracker.cells[w.calls[id].cell].born + D.Delay(s.timeout);
            && w.tracker.now <= due
            && (w.tracker.now == due ==> RejectionIsNext(s, w, id))
  {
    RunInv(s, steps);
    var w := Run(s, steps);
    hide Run, IsRun, RejectionIsNext;
    var k := RejectionIsArmed(s, w, id);
    hide Inv, D.Delay;
    if w.tracker.now == w.tracker.timers[k].due {
      RejectionFires(s, w, id, k);
    }
  }

  lemma RejectionFires(s: Settings, w: World, id: string, k: nat)
    requires id in w.calls && w.calls[id].cell < |w.tracker.cells|
    requires k in w.tracker.timers && w.tracker.timers[k] == D.Timer(w.tracker.now, D.RejectCell(w.calls[id].cell))
    ensures RejectionIsNext(s, w, id)
  {
    assert Enabled(s, w, Clock(D.Fire(k))) && !CellOutcome(Do(s, w, Clock(D.Fire(k))), id).Pending?;
  }

  lemma RejectionIsArmed(s: Settings, w: World, id: string) returns (k: nat)
    requires Inv(s, w) && id in w.calls && CellOutcome(w, id).Pending?
    ensures var c := w.calls[id].cell;
            && c < |w.tracker.cells| && k in w.tracker.timers && w.tracker.now <= w.tracker.timers[k].due
            && w.tracker.timers[k] == D.Timer(w.tracker.cells[c].born + D.Delay(s.timeout), D.RejectCell(c))
  {
    hide RequestsOk, RepliesOk, PipeOk, FromReply;
    var t, c := w.tracker, w.calls[id].cell;
    assert S.HasOwnTimer(t, c);
    k :| k in t.timers && t.timers[k] == D.Timer(t.cells[c].born + D.Delay(t.timeout), D.RejectCell(c));
    assert S.TimerOk(t, k);
  }

  // ---------- what stays in the tracker ----------

  /**
   Every call that has not returned has its entry, and no expiry timer can take it: those are of
   ids in use, and of no call but a returned one.
   */
  predicate EntriesOk(t: D.Tracker, calls: map<string, Call>, used: set<string>) {
    && (forall id | id in calls && !calls[id].stage.Returned? :: id in t.promises)
    && forall k | k in t.timers && t.timers[k].action.DropEntry? ::
         && t.timers[k].action.id in used
         && (t.timers[k].action.id in calls ==> calls[t.timers[k].action.id].stage.Returned?)
  }

  lemma EntriesAfterEvent(t: D.Tracker, calls: map<string, Call>, used: set<string>, id: string, o: D.Outcome)
    requires EntriesOk(t, calls, used) && id in used
    ensures EntriesOk(D.AfterEvent(t, id, o), calls, used)
  {
  }

  lemma EntriesAfterFire(t: D.Tracker, calls: map<string, Call>, used: set<string>, k: nat)
    requires EntriesOk(t, calls, used) && k in t.timers
    ensures EntriesOk(D.AfterFire(t, k), calls, used)
  {
  }

  lemma EntriesAfterDispatch(t: D.Tracker, calls: map<string, Call>, used: set<string>, id: string, call: Call)
    requires EntriesOk(t, calls, used) && id !in used
    ensures EntriesOk(D.AfterPromise(t, id), calls[id := call], used + {id})
  {
  }

  /** A call moves on; only one that returns loses its entry. */
  lemma EntriesAfterStage(t: D.Tracker, calls: map<string, Call>, used: set<string>, id: string, stage: Stage)
    requires EntriesOk(t, calls, used) && id in calls && (calls[id].stage.Returned? ==> stage.Returned?)
    ensures var later := calls[id := calls[id].(stage := stage)];
            EntriesOk(t, later, used) && (stage.Returned? ==> EntriesOk(D.AfterDelete(t, id), later, used))
  {
  }

  lemma EntriesStep(s: Settings, w: World, step: Step)
    requires Inv(s, w) && EntriesOk(w.tracker, w.calls, w.used) && Enabled(s, w, step)
    ensures var v := Do(s, w, step); EntriesOk(v.tracker, v.calls, v.used)
  {
    match step
    case Dispatch(id, message, messageType, source) =>
      EntriesAfterDispatch(w.tracker, w.calls, w.used, id, Do(s, w, step).calls[id]);
    case Hear(i) =>
      var event := Decode(s.codec, s.replyStream, w.replies[i]).value;
      ReplyIdIsUsed(s, w, i);
      EntriesAfterEvent(w.tracker, w.calls, w.used, event.messageId, D.Fulfilled(event));
    case Clock(t) =>
      hide Inv, EntriesOk;
      if t.Fire? {
        EntriesAfterFire(w.tracker, w.calls, w.used, t.timer);
      }
      assert t.Tick? ==> EntriesOk(w.tracker.(now := w.tracker.now + 1), w.calls, w.used) by {
        EntriesAtAnyTime(w.tracker, w.calls, w.used);
      }
    case Send(id, _) => EntriesAfterStage(w.tracker, w.calls, w.used, id, Sent);
    case Acknowledge(id) => EntriesAfterStage(w.tracker, w.calls, w.used, id, Awaiting);
    case Finish(id) => EntriesAfterStage(w.tracker, w.calls, w.used, id, Do(s, w, step).calls[id].stage);
    case ForeignRequest(r, _) => EntriesUseMore(w.tracker, w.calls, w.used, r.messageId);
    case ForeignReply(r, _) => EntriesUseMore(w.tracker, w.calls, w.used, r.messageId);
    case Consume(_) => hide EntriesOk, Inv, C.Do;
    case Transform => hide EntriesOk, Inv, C.AfterTransform;
    case Answer(_) => hide EntriesOk, Inv, C.AfterWrite;
  }

  lemma EntriesAtAnyTime(t: D.Tracker, calls: map<string, Call>, used: set<string>)
    requires EntriesOk(t, calls, used)
    ensures EntriesOk(t.(now := t.now + 1), calls, used)
  {
  }

  lemma EntriesUseMore(t: D.Tracker, calls: map<string, Call>, used: set<string>, id: string)
    requires EntriesOk(t, calls, used)
    ensures EntriesOk(t, calls, used + {id})
  {
  }

  lemma ReplyIdIsUsed(s: Settings, w: World, i: nat)
    requires Inv(s, w) && i < |w.replies| && Decode(s.codec, s.replyStream, w.replies[i]).Some?
    ensures Decode(s.codec, s.replyStream, w.replies[i]).value.messageId in w.used
  {
    assert w.replies[i].record.messageId in w.used;
  }

  lemma {:induction false} EntriesRun(s: Settings, steps: seq<Step>)
    requires IsRun(s, steps)
    ensures var w := Run(s, steps); EntriesOk(w.tracker, w.calls, w.used)
    decreases |steps|
  {
    if steps != [] {
      var earlier := steps[..|steps| - 1];
      EntriesRun(s, earlier);
      RunInv(s, earlier);
      hide Inv, EntriesOk, Do;
      EntriesStep(s, Run(s, earlier), steps[|steps| - 1]);
    }
  }

  /** When a call comes to its end in any run, its entry stays in the tracker exactly if it throws. */
  lemma OnlyReturningCleansUp(s: Settings, steps: seq<Step>, id: string)
    requires IsRun(s, steps) && Enabled(s, Run(s, steps), Finish(id))
    ensures var v := Do(s, Run(s, steps), Finish(id));
            && v.calls[id].stage == (match CellOutcome(Run(s, steps), id)
                                     case Fulfilled(e) => Returned(e.payload)
                                     case Rejected(reason) => Threw(reason))
            && (id in v.tracker.promises <==> v.calls[id].stage.Threw?)
            && v.tracker.promises - {id} == Run(s, steps).tracker.promises - {id}
  {
    EntriesRun(s, steps);
    hide Run, IsRun;
  }

  /** A call that threw has thrown for good, and its entry is never removed. */
  lemma {:induction false} ThrownEntryStays(s: Settings, steps: seq<Step>, more: seq<Step>, id: string)
    requires IsRun(s, steps) && IsRun(s, steps + more)
    requires id in Run(s, steps).calls && Run(s, steps).calls[id].stage.Threw?
    ensures var w := Run(s, steps + more);
            id in w.calls && w.calls[id] == Run(s, steps).calls[id] && id in w.tracker.promises
    decreases |more|
  {
    EntriesRun(s, steps + more);
    if more == [] {
      assert steps + more == steps;
    } else {
      var n := |more| - 1;
      assert (steps + more)[..|steps + more| - 1] == steps + more[..n];
      ThrownEntryStays(s, steps, more[..n], id);
      RunInv(s, steps + more[..n]);
      ThrownStays(s, Run(s, steps + more[..n]), more[n], id);
    }
  }

  lemma ThrownStays(s: Settings, w: World, step: Step, id: string)
    requires Enabled(s, w, step) && id in w.calls && w.calls[id].stage.Threw?
    requires forall i | i in w.calls :: i in w.used
    ensures id in Do(s, w, step).calls && Do(s, w, step).calls[id] == w.calls[id]
  {
  }

  // ---------- the code ----------

  const NO_TARGET := "Either a configured or override stream target must be provided"

  /**
   The client: its tracker and the calls under way.  A call is the `dispatch` function between two
   of its awaits; each method runs from one await to the next.  The ghost world is the system the
   client is a part of.
   */
  class StreamAwaiter {
    const settings: Settings
    const outgoingStream: Option<string>
    const stateTracker: D.DeferralTracker
    var calls: map<string, Call>

    ghost predicate PartOf(w: World)
      reads this, stateTracker
    {
      w.tracker == stateTracker.State() && w.calls == calls
    }

    constructor (settings: Settings, outgoingStream: Option<string>)
      ensures this.settings == settings && this.outgoingStream == outgoingStream
      ensures fresh(stateTracker) && PartOf(Init(settings))
    {
      this.settings, this.outgoingStream := settings, outgoingStream;
      calls := map[];
      stateTracker := new D.DeferralTracker(Some(settings.timeout));
    }

    /** Up to the write: choose the target, and ask the tracker for the promise of a fresh id. */
    method Dispatch(ghost w: World, id: string, message: string, messageType: string, source: Option<string>,
                    outgoingOverride: Option<string>) returns (r: Result<string, string>)
      requires PartOf(w) && id !in w.used && id != ""
      modifies `calls, stateTracker
      ensures r == match (if outgoingStream.Some? then outgoingStream else outgoingOverride)
                   { case Some(t) => if t != "" then Ok(t) else Throws(NO_TARGET) case None => Throws(NO_TARGET) }
      ensures r.Throws? ==> r.error == "Either a configured or override stream target must be provided"
      ensures r.Throws? ==> PartOf(w)
      ensures r.Ok? ==>
                PartOf(Do(settings, w, Step.Dispatch(id, message, messageType,
                                                     match source { case Some(s) => s case None => "" })))
    {
      var target := if outgoingStream.Some? then outgoingStream else outgoingOverride;
      if target.None? || target.value == "" {
        return Throws(NO_TARGET);
      }
      var expectedResponse := stateTracker.PromiseFor(id);
      var sourceId := match source { case Some(s) => s case None => "" };
      calls := calls[id := Call(message, messageType, sourceId, expectedResponse, Writing)];
      r := Ok(target.value);
    }

    /** The write itself; its answer is awaited. */
    method WriteRequest(ghost w: World, id: string, gap: nat) returns (record: Record)
      requires PartOf(w) && InStage(w, id, Writing)
      modifies `calls
      ensures var v := Do(settings, w, Send(id, gap)); PartOf(v) && v.requests == Append(w.requests, gap, record)
    {
      var call := calls[id];
      record := WireRecord(settings.requestType, Some(settings.replyStream), call.messageType, id, call.message,
                           call.source);
      calls := calls[id := call.(stage := Sent)];
    }

    /** The write was acknowledged; now the promise is awaited. */
    method WriteAcknowledged(ghost w: World, id: string)
      requires PartOf(w) && InStage(w, id, Sent)
      modifies `calls
      ensures PartOf(Do(settings, w, Acknowledge(id)))
    {
      calls := calls[id := calls[id].(stage := Awaiting)];
    }

    /** The promise is settled: return the reply's payload, or throw. */
    method Resume(ghost w: World, id: string) returns (r: Result<Json, D.Reason>)
      requires PartOf(w) && Enabled(settings, w, Finish(id))
      modifies `calls, stateTracker
      ensures PartOf(Do(settings, w, Finish(id)))
      ensures r == match CellOutcome(w, id)
                   { case Fulfilled(e) => Ok(e.payload) case Rejected(reason) => Throws(reason) }
    {
      match stateTracker.cells[calls[id].cell].outcome
      case Fulfilled(event) =>
        stateTracker.Delete(id);
        calls := calls[id := calls[id].(stage := Returned(event.payload))];
        r := Ok(event.payload);
      case Rejected(reason) =>
        calls := calls[id := calls[id].(stage := Threw(reason))];
        r := Throws(reason);
    }

    /** `readResponseStream`: every event of the reply stream goes to the tracker. */
    method ReadResponse(ghost w: World, ghost i: nat, event: Event)
      requires PartOf(w) && i < |w.replies| && Decode(settings.codec, settings.replyStream, w.replies[i]) == Some(event)
      modifies stateTracker
      ensures PartOf(Do(settings, w, Hear(i)))
    {
      stateTracker.ResponseEvent(event);
    }
  }
}
