/**
 Reading streams (packages/core/src/datasource/streamable.ts): the loop of `iterateStream` over
 `blockingStreamBatchMap`, as steps of a state machine against append-only logs.

 The iterator keeps one string cursor, or a record of cursors that it writes in place.  It blocks
 in a read, hands out a batch one event at a time, and may be told that the set of streams
 changed, or to stop, at any moment.
 */
module StreamRead {
  import opened Wrappers
  import opened Messages

  type StreamId = string

  type Log = seq<Entry>

  /** `$`, the end of the stream when the read is issued, or a concrete entry id. */
  datatype Cursor = Tail | After(id: nat)

  /** The `last` argument: a string cursor, or a record of cursors by stream. */
  datatype Last = One(cursor: Cursor) | Many(slots: map<StreamId, Cursor>)

  datatype Options = Options(stream: Option<StreamId>, last: Option<Last>, requestedBatchSize: Option<nat>)

  datatype Error = UnrecognizedControlFlow | NoStreams | BadEntry

  /** A read in flight: the streams asked for, with the id to read after. */
  type Reads = seq<(StreamId, nat)>

  datatype Phase =
    | Created
    | Blocked(asks: Reads)
    | Yielding(batch: seq<Event>)
    | Done(inFlight: Reads)
    | Failed(error: Error)

  datatype Iter = Iter(
    origin: Option<StreamId>,
    stream: Option<StreamId>,
    last: Last,
    batchSize: nat,
    hasNewStreams: bool,
    active: bool,
    phase: Phase)

  const DEFAULT_MAX_BATCH_SIZE: nat := 10

  // ---------- logs ----------

  function LogOf(logs: map<StreamId, Log>, s: StreamId): Log {
    if s in logs then logs[s] else []
  }

  function LastId(log: Log): nat {
    if log == [] then 0 else log[|log| - 1].id
  }

  predicate Sorted(log: Log) {
    && (forall i | 0 <= i < |log| :: log[i].id >= 1)
    && forall i, j | 0 <= i < j < |log| :: log[i].id < log[j].id
  }

  /** How many entries have an id of at most `id`. */
  function Position(log: Log, id: nat): (n: nat)
    ensures n <= |log|
  {
    if log == [] then 0
    else if log[|log| - 1].id <= id then |log|
    else Position(log[..|log| - 1], id)
  }

  // ---------- requests ----------

  /** A stream option that is present and not the empty string. */
  predicate Named(s: Option<StreamId>) {
    s.Some? && s.value != ""
  }

  function SlotOf(slots: map<StreamId, Cursor>, s: StreamId): Cursor {
    if s in slots then slots[s] else Tail
  }

  function Resolve(log: Log, c: Cursor): nat {
    match c
    case Tail => LastId(log)
    case After(id) => id
  }

  function Start(o: Options): Iter {
    Iter(o.stream, o.stream,
         match o.last {
           case Some(l) => l
           case None => if Named(o.stream) then One(Tail) else Many(map[])
         },
         match o.requestedBatchSize { case Some(n) => n case None => DEFAULT_MAX_BATCH_SIZE },
         false, true, Created)
  }

  /** The head of the loop: switch to all streams if their set changed, then issue a read. */
  function LoopTop(logs: map<StreamId, Log>, keys: seq<StreamId>, it: Iter): Iter {
    if !it.active then it.(phase := Done([]))
    else Issue(logs, keys, if it.hasNewStreams then SwitchStreams(it) else it)
  }

  function SwitchStreams(it: Iter): Iter {
    it.(stream := None, hasNewStreams := false,
        last := if it.last.One? && Named(it.origin) then Many(map[it.origin.value := it.last.cursor]) else it.last)
  }

  function Issue(logs: map<StreamId, Log>, keys: seq<StreamId>, it: Iter): Iter {
    if Named(it.stream) && it.last.One? then
      it.(phase := Blocked([(it.stream.value, Resolve(LogOf(logs, it.stream.value), it.last.cursor))]))
    else if !Named(it.stream) && it.last.Many? then
      if keys == [] then it.(phase := Failed(NoStreams))
      else it.(phase := Blocked(ReadsOf(logs, keys, it.last.slots)))
    else it.(phase := Failed(UnrecognizedControlFlow))
  }

  function ReadsOf(logs: map<StreamId, Log>, keys: seq<StreamId>, slots: map<StreamId, Cursor>): (r: Reads)
    ensures |r| == |keys|
    ensures forall i | 0 <= i < |keys| :: r[i] == (keys[i], Resolve(LogOf(logs, keys[i]), SlotOf(slots, keys[i])))
  {
    seq(|keys|, i requires 0 <= i < |keys| => (keys[i], Resolve(LogOf(logs, keys[i]), SlotOf(slots, keys[i]))))
  }

  // ---------- replies ----------

  /** The answer to a read: entries per stream, in the order of the request. */
  type Reply = seq<(StreamId, seq<Entry>)>

  datatype Absorbed = Absorbed(slots: map<StreamId, Cursor>, events: seq<Event>, ok: bool)

  /** Decode entry by entry, moving the stream's slot past each one; stop at a bad entry. */
  function AbsorbEntries(c: Codec, title: StreamId, entries: seq<Entry>, a: Absorbed): Absorbed
    decreases |entries|
  {
    if entries == [] || !a.ok then a
    else
      match Decode(c, title, entries[0])
      case None => a.(ok := false)
      case Some(e) =>
        AbsorbEntries(c, title, entries[1..], Absorbed(a.slots[title := After(entries[0].id)], a.events + [e], true))
  }

  function Absorb(c: Codec, reply: Reply, a: Absorbed): Absorbed
    decreases |reply|
  {
    if reply == [] then a else Absorb(c, reply[1..], AbsorbEntries(c, reply[0].0, reply[0].1, a))
  }

  function OnReply(c: Codec, it: Iter, reply: Reply): Iter {
    match it.phase
    case Blocked(_) =>
      match it.last {
        case One(cursor) =>
          var title := if it.stream.Some? then it.stream.value else "";
          var a := Absorb(c, reply, Absorbed(map[title := cursor], [], true));
          if a.ok then it.(last := One(SlotOf(a.slots, title)), phase := Yielding(a.events))
          else it.(phase := Failed(BadEntry))
        case Many(slots) =>
          var a := Absorb(c, reply, Absorbed(slots, [], true));
          if a.ok then it.(last := Many(a.slots), phase := Yielding(a.events))
          else it.(last := Many(a.slots), phase := Failed(BadEntry))
      }
    case Done(_) =>
      // the read lost the race against an update; its answer still moves the record's cursors
      it.(phase := Done([]),
          last := if it.last.Many? then Many(Absorb(c, reply, Absorbed(it.last.slots, [], true)).slots) else it.last)
    case _ => it
  }

  function OnTimeout(it: Iter): Iter {
    match it.phase
    case Blocked(_) => it.(phase := Yielding([]))
    case Done(_) => it.(phase := Done([]))
    case _ => it
  }

  /** The set of streams changed: noted between reads, fatal during one. */
  function OnUpdate(it: Iter): Iter {
    match it.phase
    case Created => it
    case Blocked(asks) => it.(hasNewStreams := true, active := false, phase := Done(asks))
    case _ => it.(hasNewStreams := true)
  }

  function OnCancel(it: Iter): Iter {
    if it.phase.Created? then it else it.(active := false)
  }

  /** The consumer asks for more: the next event of the batch, or another round of the loop. */
  function OnNext(logs: map<StreamId, Log>, keys: seq<StreamId>, it: Iter): (Iter, seq<Event>) {
    match it.phase
    case Created => (LoopTop(logs, keys, it), [])
    case Yielding(batch) =>
      if batch == [] then (LoopTop(logs, keys, it), []) else (it.(phase := Yielding(batch[1..])), [batch[0]])
    case _ => (it, [])
  }

  // ---------- the system ----------

  datatype System = System(logs: map<StreamId, Log>, keys: seq<StreamId>, it: Iter, yielded: seq<Event>)

  datatype Step =
    | Append(s: StreamId, gap: nat, record: Record)
    | Next
    | Answer(counts: seq<nat>)
    | Timeout
    | AddStream(s: StreamId)
    | RemoveStream(s: StreamId)
    | Cancel

  function Available(logs: map<StreamId, Log>, read: (StreamId, nat)): nat {
    |LogOf(logs, read.0)| - Position(LogOf(logs, read.0), read.1)
  }

  function PendingReads(it: Iter): Reads {
    match it.phase
    case Blocked(asks) => asks
    case Done(asks) => asks
    case _ => []
  }

  /**
   The server may answer with any non-empty initial part of what it has after the ids asked for,
   within the batch size of a single-stream read.
   */
  predicate CanAnswer(w: System, counts: seq<nat>) {
    var asks := PendingReads(w.it);
    && |counts| == |asks|
    && (forall i | 0 <= i < |asks| :: counts[i] <= Available(w.logs, asks[i]))
    && (exists i | 0 <= i < |asks| :: counts[i] > 0)
    && (w.it.last.One? && w.it.batchSize > 0 ==> forall i | 0 <= i < |asks| :: counts[i] <= w.it.batchSize)
  }

  function Served(logs: map<StreamId, Log>, asks: Reads, counts: seq<nat>): (r: Reply)
    requires |counts| == |asks|
    requires forall i | 0 <= i < |asks| :: counts[i] <= Available(logs, asks[i])
    ensures |r| == |asks|
    ensures forall i | 0 <= i < |asks| :: r[i] == (asks[i].0, Slice(logs, asks[i], counts[i]))
  {
    seq(|asks|, i requires 0 <= i < |asks| => (asks[i].0, Slice(logs, asks[i], counts[i])))
  }

  function Slice(logs: map<StreamId, Log>, read: (StreamId, nat), count: nat): seq<Entry>
    requires count <= Available(logs, read)
  {
    var from := Position(LogOf(logs, read.0), read.1);
    LogOf(logs, read.0)[from..from + count]
  }

  function Without(keys: seq<StreamId>, s: StreamId): seq<StreamId> {
    if keys == [] then [] else (if keys[0] == s then [] else [keys[0]]) + Without(keys[1..], s)
  }

  function Do(c: Codec, w: System, step: Step): System {
    match step
    case Append(s, gap, record) =>
      var log := LogOf(w.logs, s);
      w.(logs := w.logs[s := log + [Entry(LastId(log) + 1 + gap, record)]])
    case Next =>
      var (it, out) := OnNext(w.logs, w.keys, w.it);
      w.(it := it, yielded := w.yielded + out)
    case Answer(counts) =>
      if CanAnswer(w, counts) then w.(it := OnReply(c, w.it, Served(w.logs, PendingReads(w.it), counts))) else w
    case Timeout => w.(it := OnTimeout(w.it))
    case AddStream(s) => w.(keys := if s in w.keys then w.keys else w.keys + [s], it := OnUpdate(w.it))
    case RemoveStream(s) => w.(keys := Without(w.keys, s), it := OnUpdate(w.it))
    case Cancel => w.(it := OnCancel(w.it))
  }

  function Run(c: Codec, w: System, steps: seq<Step>): System
    decreases |steps|
  {
    if steps == [] then w else Do(c, Run(c, w, steps[..|steps| - 1]), steps[|steps| - 1])
  }

  // ---------- the code ----------

  /** A JavaScript object of cursors, shared between caller and iterator and written in place. */
  class CursorRecord {
    var slots: map<StreamId, Cursor>

    constructor (slots: map<StreamId, Cursor>)
      ensures this.slots == slots
    {
      this.slots := slots;
    }
  }

  datatype LastRef = StringCursor(cursor: Cursor) | RecordCursor(record: CursorRecord)

  function Footprint(last: LastRef): set<object> {
    if last.RecordCursor? then {last.record} else {}
  }

  function Contents(last: LastRef): Last
    reads Footprint(last)
  {
    match last
    case StringCursor(c) => One(c)
    case RecordCursor(r) => Many(r.slots)
  }

  /**
   The answer loop of a multi-stream read: push each decoded event, and write the stream's slot of
   the record in place.
   */
  method AbsorbIntoRecord(c: Codec, reply: Reply, record: CursorRecord) returns (events: seq<Event>, ok: bool)
    modifies record
    ensures Absorbed(record.slots, events, ok) == Absorb(c, reply, Absorbed(old(record.slots), [], true))
  {
    events, ok := [], true;
    ghost var all := Absorb(c, reply, Absorbed(record.slots, [], true));
    for i := 0 to |reply|
      invariant Absorb(c, reply[i..], Absorbed(record.slots, events, ok)) == all
      invariant ok
    {
      var (title, entries) := reply[i];
      assert reply[i..][1..] == reply[i + 1..];
      ghost var stream := AbsorbEntries(c, title, entries, Absorbed(record.slots, events, ok));
      for j := 0 to |entries|
        invariant ok && AbsorbEntries(c, title, entries[j..], Absorbed(record.slots, events, ok)) == stream
      {
        assert entries[j..][1..] == entries[j + 1..];
        var event := Decode(c, title, entries[j]);
        if event.None? {
          ok := false;
          BadStops(c, reply[i + 1..], Absorbed(record.slots, events, false));
          return;
        }
        events := events + [event.value];
        record.slots := record.slots[title := After(entries[j].id)];
      }
    }
  }

  lemma {:induction false} BadStops(c: Codec, reply: Reply, a: Absorbed)
    requires !a.ok
    ensures Absorb(c, reply, a) == a
    decreases |reply|
  {
    if reply != [] {
      BadStops(c, reply[1..], a);
    }
  }

  /** The generator's frame together with the stream set of its data source. */
  class StreamIteration {
    var streamIdMap: seq<StreamId>
    const origin: Option<StreamId>
    var stream: Option<StreamId>
    var last: LastRef
    const batchSize: nat
    var hasNewStreams: bool
    var active: bool
    var phase: Phase

    function Model(): Iter
      reads this, Footprint(last)
    {
      Iter(origin, stream, Contents(last), batchSize, hasNewStreams, active, phase)
    }

    constructor (streams: seq<StreamId>, stream: Option<StreamId>, last: Option<LastRef>,
                 requestedBatchSize: Option<nat>)
      ensures var given := if last.Some? then Some(Contents(last.value)) else None;
              Model() == Start(Options(stream, given, requestedBatchSize))
      ensures streamIdMap == streams
      ensures last.Some? ==> this.last == last.value
      ensures last.None? ==> fresh(Footprint(this.last))
    {
      origin := stream;
      this.stream := stream;
      batchSize := match requestedBatchSize { case Some(n) => n case None => DEFAULT_MAX_BATCH_SIZE };
      hasNewStreams, active, phase, streamIdMap := false, true, Created, streams;
      var initial := StringCursor(Tail);
      if last.Some? {
        initial := last.value;
      } else if !Named(stream) {
        var record := new CursorRecord(map[]);
        initial := RecordCursor(record);
      }
      this.last := initial;
    }

    method AddStreamId(s: StreamId)
      modifies this
      ensures streamIdMap == (if s in old(streamIdMap) then old(streamIdMap) else old(streamIdMap) + [s])
      ensures last == old(last) && Model() == OnUpdate(old(Model()))
    {
      NotifyUpdate();
      if s !in streamIdMap {
        streamIdMap := streamIdMap + [s];
      }
    }

    method RemoveStreamId(s: StreamId)
      modifies this
      ensures streamIdMap == Without(old(streamIdMap), s)
      ensures last == old(last) && Model() == OnUpdate(old(Model()))
    {
      NotifyUpdate();
      streamIdMap := Without(streamIdMap, s);
    }

    /** The listeners of the update event: the flag, and the race a blocked read then loses. */
    method NotifyUpdate()
      modifies `hasNewStreams, `active, `phase
      ensures Model() == OnUpdate(old(Model()))
    {
      if phase.Created? {
        return;
      }
      hasNewStreams := true;
      if phase.Blocked? {
        phase := Done(phase.asks);
        Abort();
      }
    }

    method Abort()
      modifies `active
      ensures Model() == OnCancel(old(Model()))
    {
      if !phase.Created? {
        active := false;
      }
    }

    /** The generator resumes. */
    method Resume(logs: map<StreamId, Log>) returns (out: seq<Event>)
      modifies this
      ensures (Model(), out) == OnNext(logs, streamIdMap, old(Model()))
      ensures streamIdMap == old(streamIdMap)
      ensures last == old(last) || fresh(Footprint(last))
    {
      out := [];
      if phase.Yielding? && phase.batch != [] {
        out := [phase.batch[0]];
        phase := Yielding(phase.batch[1..]);
      } else if phase.Created? || phase.Yielding? {
        if !active {
          phase := Done([]);
          return;
        }
        if hasNewStreams {
          stream := None;
          hasNewStreams := false;
          if last.StringCursor? && Named(origin) {
            var record := new CursorRecord(map[origin.value := last.cursor]);
            last := RecordCursor(record);
          }
        }
        IssueRead(logs);
      }
    }

    /** The request half of `blockingStreamBatchMap`. */
    method IssueRead(logs: map<StreamId, Log>)
      modifies `phase
      ensures Model() == Issue(logs, streamIdMap, old(Model()))
    {
      if Named(stream) && last.StringCursor? {
        phase := Blocked([(stream.value, Resolve(LogOf(logs, stream.value), last.cursor))]);
        return;
      }
      if !Named(stream) && last.RecordCursor? {
        if |streamIdMap| == 0 {
          phase := Failed(NoStreams);
          return;
        }
        phase := Blocked(ReadsOf(logs, streamIdMap, last.record.slots));
        return;
      }
      phase := Failed(UnrecognizedControlFlow);
    }

    /** The answer half of `blockingStreamBatchMap`, and what the loop makes of it. */
    method ReceiveReply(c: Codec, reply: Reply)
      requires phase.Blocked? || phase.Done?
      modifies this, Footprint(last)
      ensures Model() == OnReply(c, old(Model()), reply)
      ensures streamIdMap == old(streamIdMap)
      ensures last == old(last) || (last.StringCursor? && old(last).StringCursor?)
    {
      if last.StringCursor? {
        var title := if stream.Some? then stream.value else "";
        var local := new CursorRecord(map[title := last.cursor]);
        var events, ok := AbsorbIntoRecord(c, reply, local);
        if phase.Done? {
          phase := Done([]);
        } else if ok {
          last := StringCursor(SlotOf(local.slots, title));
          phase := Yielding(events);
        } else {
          phase := Failed(BadEntry);
        }
      } else {
        var events, ok := AbsorbIntoRecord(c, reply, last.record);
        phase := if phase.Done? then Done([]) else if ok then Yielding(events) else Failed(BadEntry);
      }
    }

    method ReceiveTimeout()
      modifies `phase
      ensures Model() == OnTimeout(old(Model()))
    {
      if phase.Blocked? {
        phase := Yielding([]);
      } else if phase.Done? {
        phase := Done([]);
      }
    }
  }
}
