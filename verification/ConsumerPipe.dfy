/**
 The consumer (packages/consumer/src/stream-consumer.ts): a handler per message type, and the pipe
 that turns incoming events into answers on the outgoing stream, one after the other.
 */
module ConsumerPipe {
  import opened Wrappers
  import opened Messages

  /** What a handler does with an event: resolve to a value, undefined being None, or reject. */
  datatype HandlerResult = Returns(value: Option<Json>) | Rejects

  type Handler = Event -> HandlerResult

  type Handlers = map<string, Handler>

  /** What the transform stage hands on: the event with its new payload, or an error object. */
  datatype Chunk = Reply(event: Event, payload: Option<Json>) | ErrorObject(messageType: string)

  /** The payload a handler sees: text is parsed once more, and None is a parse error. */
  function HandlerPayload(c: Codec, payload: Json): Option<Json> {
    if IsObjectType(payload) then Some(payload)
    else if payload.JString? then c.parse(payload.s)
    else Some(payload)
  }

  /** `process`: None is a rejection. */
  function Process(c: Codec, handlers: Handlers, e: Event): Option<Chunk> {
    if e.messageType !in handlers then Some(ErrorObject(e.messageType))
    else
      match HandlerPayload(c, e.payload)
      case None => None
      case Some(payload) =>
        var seen := e.(payload := payload);
        match handlers[e.messageType](seen)
        case Rejects => None
        case Returns(value) => Some(Reply(seen, value))
  }

  /** The record written for a chunk; None for a chunk the writer drops. */
  function Written(c: Codec, responseType: Option<string>, chunk: Chunk): Option<Record> {
    match chunk
    case ErrorObject(_) => None
    case Reply(event, payload) =>
      if event.messageId == "" || payload.None? || !Truthy(payload.value) then None
      else Some(WireRecord(responseType, None, "resp", event.messageId, c.stringify(payload.value),
                           event.messageSourceId))
  }

  /**
   The pipe: events delivered and not transformed yet, chunks between the two stages, and what has
   been written.  A stage that never calls back is stopped for good.
   */
  datatype Pipe = Pipe(inbox: seq<Event>, buffer: seq<Chunk>, transformStopped: bool, writerStopped: bool,
                       written: seq<Record>)

  const EMPTY := Pipe([], [], false, false, [])

  datatype Step = Receive(event: Event) | Transform | Write

  function AfterTransform(c: Codec, handlers: Handlers, p: Pipe): Pipe {
    if p.transformStopped || p.inbox == [] then p
    else
      match Process(c, handlers, p.inbox[0])
      case None => p.(inbox := p.inbox[1..], transformStopped := true)
      case Some(chunk) => p.(inbox := p.inbox[1..], buffer := p.buffer + [chunk])
  }

  function AfterWrite(c: Codec, responseType: Option<string>, p: Pipe): Pipe {
    if p.writerStopped || p.buffer == [] then p
    else
      match Written(c, responseType, p.buffer[0])
      case None => p.(buffer := p.buffer[1..], writerStopped := true)
      case Some(record) => p.(buffer := p.buffer[1..], written := p.written + [record])
  }

  function Do(c: Codec, handlers: Handlers, responseType: Option<string>, p: Pipe, s: Step): Pipe {
    match s
    case Receive(e) => p.(inbox := p.inbox + [e])
    case Transform => AfterTransform(c, handlers, p)
    case Write => AfterWrite(c, responseType, p)
  }

  function Run(c: Codec, handlers: Handlers, responseType: Option<string>, steps: seq<Step>): Pipe
    decreases |steps|
  {
    if steps == [] then EMPTY
    else Do(c, handlers, responseType, Run(c, handlers, responseType, steps[..|steps| - 1]), steps[|steps| - 1])
  }

  // ---------- the order of answers ----------

  /** The events delivered so far, in order. */
  function Received(steps: seq<Step>): seq<Event>
    decreases |steps|
  {
    if steps == [] then []
    else
      var earlier := Received(steps[..|steps| - 1]);
      match steps[|steps| - 1]
      case Receive(e) => earlier + [e]
      case _ => earlier
  }

  /** The answer an event gets: it has an id, a handler, and a truthy result. */
  function AnswerTo(c: Codec, handlers: Handlers, responseType: Option<string>, e: Event): Option<Record> {
    match Process(c, handlers, e)
    case None => None
    case Some(chunk) => Written(c, responseType, chunk)
  }

  /** One answer per event, up to the first event that gets none. */
  function Answers(c: Codec, handlers: Handlers, responseType: Option<string>, es: seq<Event>): seq<Record> {
    if es == [] then []
    else
      match AnswerTo(c, handlers, responseType, es[0])
      case None => []
      case Some(record) => [record] + Answers(c, handlers, responseType, es[1..])
  }

  /** Nothing is left that either stage would do. */
  predicate Idle(p: Pipe) {
    (p.transformStopped || p.inbox == []) && (p.writerStopped || p.buffer == [])
  }

  /** How many received events the transform stage has taken on successfully. */
  function Transformed(p: Pipe, received: seq<Event>): int {
    |received| - |p.inbox| - if p.transformStopped then 1 else 0
  }

  /** How many chunks have come to the writer, dropped ones included. */
  function Handled(p: Pipe): nat {
    |p.written| + if p.writerStopped then 1 else 0
  }

  /**
   How far the two stages have come: the inbox is the rest of what was received, the buffer holds
   the chunks of the events before it, and what is written answers the events before those.
   */
  ghost predicate Inv(c: Codec, handlers: Handlers, responseType: Option<string>, p: Pipe, received: seq<Event>) {
    var t, m := Transformed(p, received), Handled(p);
    && |p.inbox| <= |received| && p.inbox == received[|received| - |p.inbox|..]
    && t >= 0 && m + |p.buffer| == t
    && (forall i | 0 <= i < |p.buffer| :: Process(c, handlers, received[m + i]) == Some(p.buffer[i]))
    && (p.transformStopped ==> Process(c, handlers, received[t]).None?)
    && (forall i | 0 <= i < |p.written| :: AnswerTo(c, handlers, responseType, received[i]) == Some(p.written[i]))
    && (p.writerStopped ==> AnswerTo(c, handlers, responseType, received[|p.written|]).None?)
  }

  lemma ReceiveInv(c: Codec, handlers: Handlers, responseType: Option<string>, p: Pipe, received: seq<Event>, e: Event)
    requires Inv(c, handlers, responseType, p, received)
    ensures Inv(c, handlers, responseType, p.(inbox := p.inbox + [e]), received + [e])
  {
    hide Process, Written, AnswerTo;
    assert forall i | 0 <= i < |received| :: (received + [e])[i] == received[i];
  }

  lemma TransformInv(c: Codec, handlers: Handlers, responseType: Option<string>, p: Pipe, received: seq<Event>)
    requires Inv(c, handlers, responseType, p, received)
    ensures Inv(c, handlers, responseType, AfterTransform(c, handlers, p), received)
  {
    hide Process, Written, AnswerTo;
    if !p.transformStopped && p.inbox != [] {
      assert p.inbox[0] == received[|received| - |p.inbox|];
    }
  }

  lemma AnswerOfChunk(c: Codec, handlers: Handlers, responseType: Option<string>, e: Event)
    ensures Process(c, handlers, e).None? ==> AnswerTo(c, handlers, responseType, e).None?
    ensures Process(c, handlers, e).Some? ==>
              AnswerTo(c, handlers, responseType, e) == Written(c, responseType, Process(c, handlers, e).value)
  {
  }

  lemma WriteInv(c: Codec, handlers: Handlers, responseType: Option<string>, p: Pipe, received: seq<Event>)
    requires Inv(c, handlers, responseType, p, received)
    ensures Inv(c, handlers, responseType, AfterWrite(c, responseType, p), received)
  {
    hide Process, Written, AnswerTo;
    if !p.writerStopped && p.buffer != [] {
      AnswerOfChunk(c, handlers, responseType, received[|p.written|]);
      assert Process(c, handlers, received[Handled(p) + 0]) == Some(p.buffer[0]);
      var q := AfterWrite(c, responseType, p);
      forall i | 0 <= i < |q.buffer| ensures Process(c, handlers, received[Handled(q) + i]) == Some(q.buffer[i]) {
        assert q.buffer[i] == p.buffer[i + 1];
      }
    }
  }

  lemma StepInv(c: Codec, handlers: Handlers, responseType: Option<string>, p: Pipe, received: seq<Event>, s: Step)
    requires Inv(c, handlers, responseType, p, received)
    ensures Inv(c, handlers, responseType, Do(c, handlers, responseType, p, s),
                match s { case Receive(e) => received + [e] case _ => received })
  {
    match s
    case Receive(e) => ReceiveInv(c, handlers, responseType, p, received, e);
    case Transform => TransformInv(c, handlers, responseType, p, received);
    case Write => WriteInv(c, handlers, responseType, p, received);
  }

  lemma {:induction false} RunInv(c: Codec, handlers: Handlers, responseType: Option<string>, steps: seq<Step>)
    ensures Inv(c, handlers, responseType, Run(c, handlers, responseType, steps), Received(steps))
    decreases |steps|
  {
    if steps != [] {
      var n := |steps| - 1;
      RunInv(c, handlers, responseType, steps[..n]);
      StepInv(c, handlers, responseType, Run(c, handlers, responseType, steps[..n]), Received(steps[..n]), steps[n]);
    }
  }

  lemma {:induction false} AnswersStart(c: Codec, handlers: Handlers, responseType: Option<string>, es: seq<Event>,
                                        records: seq<Record>)
    requires |records| <= |es|
    requires forall i | 0 <= i < |records| :: AnswerTo(c, handlers, responseType, es[i]) == Some(records[i])
    ensures records <= Answers(c, handlers, responseType, es)
    ensures |records| == |es| || AnswerTo(c, handlers, responseType, es[|records|]).None? ==>
              records == Answers(c, handlers, responseType, es)
    decreases |records|
  {
    hide AnswerTo;
    if records != [] {
      AnswersStart(c, handlers, responseType, es[1..], records[1..]);
    }
  }

  /**
   In every run, what is written is in order one answer per received event, up to the first event
   without an id, a handler or a truthy result; and all of those answers once the pipe is idle.
   */
  lemma PipeKeepsOrder(c: Codec, handlers: Handlers, responseType: Option<string>, steps: seq<Step>)
    ensures var p, all := Run(c, handlers, responseType, steps), Answers(c, handlers, responseType, Received(steps));
            p.written <= all && (Idle(p) ==> p.written == all)
  {
    hide AnswerTo, Process, Written, Run;
    RunInv(c, handlers, responseType, steps);
    var p, es := Run(c, handlers, responseType, steps), Received(steps);
    AnswersStart(c, handlers, responseType, es, p.written);
    if Idle(p) && !p.writerStopped && p.transformStopped {
      AnswerOfChunk(c, handlers, responseType, es[|p.written|]);
    }
  }

  /** The events before the first one that gets no answer. */
  function Answered(c: Codec, handlers: Handlers, responseType: Option<string>, es: seq<Event>): seq<Event> {
    if es == [] || AnswerTo(c, handlers, responseType, es[0]).None? then []
    else [es[0]] + Answered(c, handlers, responseType, es[1..])
  }

  /**
   What a handler is given for an incoming payload: objects, arrays and null as they are, numbers and
   booleans too, and what a text parses to; a text that does not parse reaches no handler.
   */
  predicate Sees(c: Codec, payload: Json, seen: Json) {
    match payload
    case JString(s) => c.parse(s) == Some(seen)
    case _ => seen == payload
  }

  /** What a handler's result must be to be written. */
  predicate IsTruthy(result: HandlerResult, j: Json) {
    && result == Returns(Some(j))
    && j != JNull && j != JBool(false) && j != JNumber(0) && j != JString("")
  }

  /** The event has an id and a handler, and the record is the answer with the handler's truthy result. */
  ghost predicate AnsweredByHandler(c: Codec, handlers: Handlers, responseType: Option<string>, e: Event,
                                    record: Record) {
    && e.messageId != "" && e.messageType in handlers
    && exists seen, result ::
         && Sees(c, e.payload, seen) && IsTruthy(handlers[e.messageType](e.(payload := seen)), result)
         && record == Record(e.messageId, match responseType { case Some(t) => t case None => "resp" }, "", "nil",
                             "json", e.messageSourceId, "UnoccupiedField", c.stringify(result))
  }

  /** Every kind of payload reaches a handler as it should, or makes processing reject. */
  lemma HandlerSeesPayload(c: Codec, handlers: Handlers, e: Event)
    requires e.messageType in handlers
    ensures forall seen | Sees(c, e.payload, seen) ::
              Process(c, handlers, e) ==
              (match handlers[e.messageType](e.(payload := seen))
               case Returns(value) => Some(Reply(e.(payload := seen), value))
               case Rejects => None)
    ensures !e.payload.JString? ==> Sees(c, e.payload, e.payload)
    ensures e.payload.JString? && c.parse(e.payload.s).None? ==> Process(c, handlers, e).None?
    ensures forall j | Faithful(c) && e.payload == JString(c.stringify(j)) :: Sees(c, e.payload, j)
  {
  }

  /** An event without a handler passes the transform as an error object, which stops the writer. */
  lemma MissingHandlerStopsTheWriter(c: Codec, handlers: Handlers, responseType: Option<string>, e: Event)
    requires e.messageType !in handlers
    ensures var p := AfterTransform(c, handlers, EMPTY.(inbox := [e]));
            && p == EMPTY.(buffer := [ErrorObject(e.messageType)])
            && AfterWrite(c, responseType, p) == EMPTY.(writerStopped := true)
  {
  }

  /** A rejection stops the transform, and leaves the event unanswered. */
  lemma RejectionStopsTheTransform(c: Codec, handlers: Handlers, e: Event, rest: seq<Event>)
    requires Process(c, handlers, e).None?
    ensures var p := AfterTransform(c, handlers, EMPTY.(inbox := [e] + rest));
            p == EMPTY.(inbox := rest, transformStopped := true) && AfterTransform(c, handlers, p) == p
  {
    hide Process;
    assert ([e] + rest)[1..] == rest;
  }

  lemma AnswerIsTheHandlers(c: Codec, handlers: Handlers, responseType: Option<string>, e: Event)
    ensures match AnswerTo(c, handlers, responseType, e)
            case Some(record) => AnsweredByHandler(c, handlers, responseType, e, record)
            case None => forall record :: !AnsweredByHandler(c, handlers, responseType, e, record)
  {
    if e.messageType in handlers {
      HandlerSeesPayload(c, handlers, e);
      var answer := AnswerTo(c, handlers, responseType, e);
      if answer.Some? {
        var seen := HandlerPayload(c, e.payload).value;
        var result := handlers[e.messageType](e.(payload := seen)).value.value;
        assert Sees(c, e.payload, seen) && IsTruthy(handlers[e.messageType](e.(payload := seen)), result);
      }
    }
  }

  /** Those events are the longest start of the input in which every event is so answered. */
  lemma {:induction false} AnswersAreTheHandlers(c: Codec, handlers: Handlers, responseType: Option<string>,
                                                 es: seq<Event>)
    ensures var good, records := Answered(c, handlers, responseType, es), Answers(c, handlers, responseType, es);
            && good <= es && |records| == |good|
            && (forall i | 0 <= i < |good| :: AnsweredByHandler(c, handlers, responseType, good[i], records[i]))
            && (|good| < |es| ==> forall record :: !AnsweredByHandler(c, handlers, responseType, es[|good|], record))
  {
    hide AnswerTo, AnsweredByHandler;
    if es != [] {
      AnswerIsTheHandlers(c, handlers, responseType, es[0]);
      if AnswerTo(c, handlers, responseType, es[0]).Some? {
        AnswersAreTheHandlers(c, handlers, responseType, es[1..]);
      }
    }
  }

  // ---------- the code ----------

  class StreamConsumer {
    const codec: Codec
    const responseType: Option<string>
    var streamEvents: Handlers
    var inbox: seq<Event>
    var buffer: seq<Chunk>
    var transformStopped: bool
    var writerStopped: bool
    var written: seq<Record>

    function State(): Pipe
      reads this
    {
      Pipe(inbox, buffer, transformStopped, writerStopped, written)
    }

    constructor (codec: Codec, responseType: Option<string>)
      ensures State() == EMPTY && streamEvents == map[]
      ensures this.codec == codec && this.responseType == responseType
    {
      this.codec, this.responseType := codec, responseType;
      streamEvents, inbox, buffer, transformStopped, writerStopped, written := map[], [], [], false, false, [];
    }

    method RegisterStreamEvent(typeKey: string, handle: Handler)
      modifies `streamEvents
      ensures streamEvents == old(streamEvents)[typeKey := handle]
    {
      streamEvents := streamEvents[typeKey := handle];
    }

    method DeregisterStreamEvent(typeKey: string)
      modifies `streamEvents
      ensures streamEvents == old(streamEvents) - {typeKey}
    {
      streamEvents := streamEvents - {typeKey};
    }

    method ProcessEvent(e: Event) returns (r: Option<Chunk>)
      ensures r == Process(codec, streamEvents, e)
    {
      if e.messageType !in streamEvents {
        return Some(ErrorObject(e.messageType));
      }
      var payload := if IsObjectType(e.payload) then Some(e.payload) else HandlerPayload(codec, e.payload);
      if payload.None? {
        return None;
      }
      var seen := e.(payload := payload.value);
      var result := streamEvents[e.messageType](seen);
      r := if result.Returns? then Some(Reply(seen, result.value)) else None;
    }

    method Deliver(e: Event)
      modifies `inbox
      ensures State() == Do(codec, streamEvents, responseType, old(State()), Receive(e))
    {
      inbox := inbox + [e];
    }

    /** The transform callback for the next event. */
    method TransformNext()
      modifies `inbox, `buffer, `transformStopped
      ensures State() == Do(codec, streamEvents, responseType, old(State()), Transform)
    {
      if transformStopped || inbox == [] {
        return;
      }
      var message := ProcessEvent(inbox[0]);
      inbox := inbox[1..];
      if message.Some? {
        buffer := buffer + [message.value];
      } else {
        transformStopped := true;
      }
    }

    /** The write callback for the next chunk. */
    method WriteNext()
      modifies `buffer, `writerStopped, `written
      ensures State() == Do(codec, streamEvents, responseType, old(State()), Write)
    {
      if writerStopped || buffer == [] {
        return;
      }
      var chunk := buffer[0];
      buffer := buffer[1..];
      if chunk.ErrorObject? || chunk.event.messageId == "" || chunk.payload.None? || !Truthy(chunk.payload.value) {
        writerStopped := true;
        return;
      }
      var text := codec.stringify(chunk.payload.value);
      written := written + [WireRecord(responseType, None, "resp", chunk.event.messageId, text,
                                       chunk.event.messageSourceId)];
    }
  }
}
