/**
 The consumer on its stream: what it writes, as a function of the log it reads
 (packages/consumer/src/stream-consumer.ts on packages/core/src/datasource/streamable.ts).

 `StreamConsumer` names no start, so that its reader starts from `$`; other readers of one stream
 may start from a concrete id.
 */
module ConsumedLog {
  import opened Wrappers
  import opened Messages
  import R = StreamRead
  import opened StreamDelivery
  import opened StreamGuarantees
  import C = ConsumerPipe

  lemma {:induction false} AnswersGrow(c: Codec, handlers: C.Handlers, responseType: Option<string>,
                                       a: seq<Event>, b: seq<Event>)
    requires a <= b
    ensures C.Answers(c, handlers, responseType, a) <= C.Answers(c, handlers, responseType, b)
    decreases |a|
  {
    hide C.AnswerTo;
    if a != [] {
      AnswersGrow(c, handlers, responseType, a[1..], b[1..]);
    }
  }

  /** The options of a reader of one stream, which starts from `$` unless told otherwise. */
  function ReaderOptions(stream: R.StreamId, start: Option<R.Cursor>, batchSize: Option<nat>): R.Options {
    R.Options(Some(stream), match start { case Some(cursor) => Some(R.One(cursor)) case None => None }, batchSize)
  }

  /** A consumer at one moment: its reader's run so far, and the run of its pipe. */
  datatype Consumer = Consumer(
    codec: Codec,
    handlers: C.Handlers,
    responseType: Option<string>,
    stream: R.StreamId,
    options: R.Options,
    start: R.System,
    rounds: seq<R.Step>,
    turns: seq<C.Step>)

  function ReaderOf(k: Consumer): R.System {
    R.Run(k.codec, k.start, k.rounds)
  }

  function PipeOf(k: Consumer): C.Pipe {
    C.Run(k.codec, k.handlers, k.responseType, k.turns)
  }

  function LogNow(k: Consumer): R.Log {
    R.LogOf(ReaderOf(k).logs, k.stream)
  }

  /** Where in the log the reader's delivery begins. */
  function From(k: Consumer): nat {
    Beginning(k.codec, k.options, k.start, k.rounds, k.stream)
  }

  /** The consumer of one stream in a run that has not changed to several streams. */
  ghost predicate IsConsumer(k: Consumer, start: Option<R.Cursor>, batchSize: Option<nat>) {
    && k.options == ReaderOptions(k.stream, start, batchSize)
    && k.start == R.System(k.start.logs, k.start.keys, R.Start(k.options), [])
    && SortedLogs(k.start.logs) && DistinctKeys(k.start.keys)
    && ReaderOf(k).it.last.One?
    && C.Received(k.turns) <= ReaderOf(k).yielded
  }

  /** The answers to the entries of the log from where delivery begins, up to position `to`. */
  function LogAnswers(k: Consumer, to: nat): Option<seq<Record>> {
    if From(k) <= to <= |LogNow(k)| then
      match DecodeAll(k.codec, k.stream, LogNow(k)[From(k)..to])
      case Some(es) => Some(C.Answers(k.codec, k.handlers, k.responseType, es))
      case None => None
    else None
  }

  /** What is written starts those answers, and is all of them once nothing is left to be done. */
  predicate WritesAnswers(k: Consumer, to: nat) {
    && LogAnswers(k, to).Some?
    && PipeOf(k).written <= LogAnswers(k, to).value
    && (C.Idle(PipeOf(k)) && C.Received(k.turns) == Delivered(ReaderOf(k)) ==>
          PipeOf(k).written == LogAnswers(k, to).value)
  }

  lemma DeliveredIsAnswered(k: Consumer, start: Option<R.Cursor>, batchSize: Option<nat>, to: nat)
    requires IsConsumer(k, start, batchSize)
    requires Delivers(k.codec, k.stream, LogNow(k), From(k), to, Delivered(ReaderOf(k)))
    ensures WritesAnswers(k, to)
  {
    hide R.Run, C.Run, C.Answers, C.Received, R.Position, Decode, DecodeAll, Beginning, SortedLogs;
    C.PipeKeepsOrder(k.codec, k.handlers, k.responseType, k.turns);
    AnswersGrow(k.codec, k.handlers, k.responseType, C.Received(k.turns), Delivered(ReaderOf(k)));
  }

  /** Everything delivered is of the consumer's own stream. */
  lemma OnlyOwnStream(k: Consumer, start: Option<R.Cursor>, batchSize: Option<nat>)
    requires IsConsumer(k, start, batchSize)
    ensures Proj(Delivered(ReaderOf(k)), k.stream) == Delivered(ReaderOf(k))
    ensures ReaderOf(k).it.origin == Some(k.stream)
  {
    hide R.Run, StreamOk, AskedOk;
    RunInv(k.codec, k.options, k.start.logs, k.start.keys, k.rounds);
    OnlyOriginRun(k.codec, k.options, k.start.logs, k.start.keys, k.rounds);
    ProjAll(Delivered(ReaderOf(k)), k.stream);
  }

  lemma NothingReceived(k: Consumer)
    requires C.Received(k.turns) == []
    ensures PipeOf(k).written == []
  {
    hide C.Run, C.AnswerTo, C.Received;
    C.PipeKeepsOrder(k.codec, k.handlers, k.responseType, k.turns);
  }

  /**
   What a consumer writes is, in order, one answer per entry of its stream's log from where its
   reader's delivery begins, up to the first entry that gets none, and all of those once everything
   was handed over and the pipe is idle; for every start, and every run of the reader and of the
   pipe.  Delivery begins after a concrete start id; from `$`, at the end the log had when the first
   read that returned anything was issued, and nothing at all is written before there is such a read.
   */
  lemma ConsumerAnswersTheLog(k: Consumer, start: Option<R.Cursor>, batchSize: Option<nat>)
    requires IsConsumer(k, start, batchSize)
    ensures Live(ReaderOf(k).it) ==>
              match ReaderOf(k).it.last.cursor
              case Tail => PipeOf(k).written == []
              case After(h) => WritesAnswers(k, R.Position(LogNow(k), h))
    ensures PipeOf(k).written == [] || exists to :: WritesAnswers(k, to)
  {
    hide R.Run, C.Run, C.Received, R.Position, Decode, DecodeAll, Beginning, SortedLogs, WritesAnswers;
    var w := ReaderOf(k);
    OnlyOwnStream(k, start, batchSize);
    StreamsDeliveredExactly(k.codec, k.options, k.start.logs, k.start.keys, k.rounds, k.stream);
    if Live(w.it) && w.it.last.cursor.After? {
      DeliveredIsAnswered(k, start, batchSize, R.Position(LogNow(k), w.it.last.cursor.id));
    }
    if Delivered(w) == [] {
      NothingReceived(k);
    } else {
      var to: nat :| Delivers(k.codec, k.stream, LogNow(k), From(k), to, Delivered(w));
      DeliveredIsAnswered(k, start, batchSize, to);
    }
  }
}
