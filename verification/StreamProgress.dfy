/**
 What a reader can reach: which entries reading and yielding alone hand out, and what an entry that
 does not decode puts out of reach.
 */
module StreamProgress {
  import opened Wrappers
  import opened Messages
  import opened StreamRead
  import opened StreamDelivery
  import opened StreamLosses

  /** The reader is resumed and the server answers; no timeout, no change of the stream set. */
  predicate OnlyReading(steps: seq<Step>) {
    forall i | 0 <= i < |steps| :: steps[i].Next? || steps[i].Answer?
  }

  /** Reading alone leads from `w` to `v`. */
  predicate Reads(c: Codec, w: System, steps: seq<Step>, v: System) {
    OnlyReading(steps) && v == Run(c, w, steps) && v.logs == w.logs && v.keys == w.keys
  }

  lemma {:induction false} RunConcat(c: Codec, w: System, a: seq<Step>, b: seq<Step>)
    ensures Run(c, w, a + b) == Run(c, Run(c, w, a), b)
    decreases |b|
  {
    hide Do;
    if b == [] {
      assert a + b == a;
    } else {
      RunConcat(c, w, a, b[..|b| - 1]);
      assert (a + b)[..|a + b| - 1] == a + b[..|b| - 1];
    }
  }

  lemma ReadsOn(c: Codec, w: System, first: seq<Step>, mid: System, rest: seq<Step>, v: System)
    requires Reads(c, w, first, mid) && Reads(c, mid, rest, v)
    ensures Reads(c, w, first + rest, v)
  {
    hide Run;
    RunConcat(c, w, first, rest);
  }

  lemma ReadsNothing(c: Codec, w: System)
    ensures Reads(c, w, [], w)
  {
  }

  lemma ReadsStep(c: Codec, w: System, step: Step)
    requires step.Next? || step.Answer?
    ensures Reads(c, w, [step], Do(c, w, step))
  {
    hide Decode, Position, Absorb, CanAnswer, LoopTop;
    assert [step][..0] == [] && Run(c, w, []) == w;
    assert Run(c, w, [step]) == Do(c, w, step);
  }

  // ---------- handing out a batch ----------

  /** The state once the batch has been handed out. */
  function Paused(w: System): System {
    w.(it := w.it.(phase := Yielding([])), yielded := Delivered(w))
  }

  lemma OneYield(c: Codec, w: System)
    requires w.it.phase.Yielding? && w.it.phase.batch != []
    ensures Do(c, w, Next).it.phase == Yielding(w.it.phase.batch[1..])
    ensures Paused(Do(c, w, Next)) == Paused(w)
  {
    var batch := w.it.phase.batch;
    assert w.yielded + [batch[0]] + batch[1..] == w.yielded + batch;
  }

  /** Resuming once per event hands out the whole batch and changes nothing else. */
  lemma {:induction false} YieldBatch(c: Codec, w: System) returns (steps: seq<Step>)
    requires w.it.phase.Yielding?
    ensures Reads(c, w, steps, Paused(w))
    ensures |steps| == |w.it.phase.batch| && forall i | 0 <= i < |steps| :: steps[i].Next?
    decreases |w.it.phase.batch|
  {
    if w.it.phase.batch == [] {
      assert w.yielded + [] == w.yielded;
      steps := [];
      ReadsNothing(c, w);
    } else {
      OneYield(c, w);
      hide Paused;
      ReadsStep(c, w, Next);
      var v := Do(c, w, Next);
      hide Do, Reads;
      var rest := YieldBatch(c, v);
      ReadsOn(c, w, [Next], v, rest, Paused(w));
      steps := [Next] + rest;
    }
  }

  // ---------- a reader of one stream ----------

  /** A live reader of one stream at a concrete cursor, at any moment, with no change of streams pending. */
  predicate SingleReader(w: System) {
    && Named(w.it.stream) && w.it.last.One? && w.it.last.cursor.After? && w.it.active && !w.it.hasNewStreams
    && Sorted(LogOf(w.logs, w.it.stream.value))
    && match w.it.phase
       case Created => true
       case Yielding(_) => true
       case Blocked(asks) => asks == [(w.it.stream.value, w.it.last.cursor.id)]
       case _ => false
  }

  /** The entries after the cursor. */
  function Behind(w: System): seq<Entry>
    requires SingleReader(w)
  {
    var log := LogOf(w.logs, w.it.stream.value);
    log[Position(log, w.it.last.cursor.id)..]
  }

  /** What these entries of the reader's stream decode to. */
  function Decoded(c: Codec, w: System, entries: seq<Entry>): Option<seq<Event>>
    requires SingleReader(w)
  {
    DecodeAll(c, w.it.stream.value, entries)
  }

  /** The state in which the next read is in flight. */
  function NextRead(w: System): System
    requires SingleReader(w)
  {
    Paused(w).(it := w.it.(phase := Blocked([(w.it.stream.value, w.it.last.cursor.id)])))
  }

  /** From every such moment the reader comes to its next read, the batch having been handed out. */
  lemma ComesToRead(c: Codec, w: System) returns (steps: seq<Step>)
    requires SingleReader(w)
    ensures Reads(c, w, steps, NextRead(w))
    ensures SingleReader(NextRead(w)) && Behind(NextRead(w)) == Behind(w)
  {
    hide Reads, Decode, Absorb, Position;
    assert w.yielded + [] == w.yielded;
    match w.it.phase
    case Blocked(_) =>
      steps := [];
      ReadsNothing(c, w);
    case Created =>
      steps := [Next];
      ReadsStep(c, w, Next);
    case Yielding(_) =>
      var first := YieldBatch(c, w);
      ReadsStep(c, Paused(w), Next);
      assert Paused(w).yielded + [] == Paused(w).yielded;
      ReadsOn(c, w, first, Paused(w), [Next], NextRead(w));
      steps := first + [Next];
  }

  /** A read in flight, answered with the next `n` entries: they become the batch, the cursor the last one. */
  lemma AnsweredWith(c: Codec, w: System, n: nat)
    requires SingleReader(w) && w.it.phase.Blocked?
    requires 0 < n <= |Behind(w)| && (w.it.batchSize > 0 ==> n <= w.it.batchSize)
    requires Decoded(c, w, Behind(w)[..n]).Some?
    ensures Do(c, w, Answer([n])) ==
            w.(it := w.it.(last := One(After(Behind(w)[n - 1].id)),
                           phase := Yielding(Decoded(c, w, Behind(w)[..n]).value)))
  {
    hide Decode, DecodeAll, AbsorbEntries, Position;
    var s, got := w.it.stream.value, Behind(w)[..n];
    assert [n][0] > 0;
    assert CanAnswer(w, [n]);
    var reply := Served(w.logs, w.it.phase.asks, [n]);
    assert got == Slice(w.logs, w.it.phase.asks[0], n);
    assert reply == [(s, got)];
    WholeStreamAbsorbed(c, s, got, w.it.last.cursor, reply);
  }

  lemma WholeStreamAbsorbed(c: Codec, s: StreamId, got: seq<Entry>, cursor: Cursor, reply: Reply)
    requires got != [] && DecodeAll(c, s, got).Some? && reply == [(s, got)]
    ensures Absorb(c, reply, Absorbed(map[s := cursor], [], true)) ==
            Absorbed(map[s := After(got[|got| - 1].id)], DecodeAll(c, s, got).value, true)
  {
    hide Decode, DecodeAll;
    var a := Absorbed(map[s := cursor], [], true);
    AbsorbEntriesOk(c, s, got, a);
    AbsorbEntriesEffect(c, s, got, a);
    assert [] + DecodeAll(c, s, got).value == DecodeAll(c, s, got).value;
    assert reply[1..] == [];
    assert Absorb(c, [], AbsorbEntries(c, s, got, a)) == AbsorbEntries(c, s, got, a);
  }

  lemma BehindMoves(w: System, v: System, n: nat)
    requires SingleReader(w) && SingleReader(v) && 0 < n <= |Behind(w)|
    requires v.logs == w.logs && v.it.stream == w.it.stream && v.it.last.cursor == After(Behind(w)[n - 1].id)
    ensures Behind(v) == Behind(w)[n..]
  {
    var log := LogOf(w.logs, w.it.stream.value);
    var p := Position(log, w.it.last.cursor.id);
    PositionOfEntry(log, p + n - 1);
    assert log[p..][n..] == log[p + n..];
  }

  /** Exactly the next `n` entries have been handed out between `w` and `v`. */
  predicate HandsOut(c: Codec, w: System, n: nat, v: System)
    requires SingleReader(w)
  {
    && SingleReader(v) && v.it.stream == w.it.stream && n <= |Behind(w)| && Behind(v) == Behind(w)[n..]
    && Decoded(c, w, Behind(w)[..n]).Some?
    && v.yielded == Delivered(v) == Delivered(w) + Decoded(c, w, Behind(w)[..n]).value
  }

  /** One read, answered with any number of entries the batch size allows, and its batch handed out. */
  lemma ReadOnce(c: Codec, w: System, n: nat) returns (steps: seq<Step>, v: System)
    requires SingleReader(w) && 0 < n <= |Behind(w)| && (w.it.batchSize > 0 ==> n <= w.it.batchSize)
    requires Decoded(c, w, Behind(w)[..n]).Some?
    ensures Reads(c, w, steps, v) && HandsOut(c, w, n, v)
  {
    hide Reads, Do, Decode, DecodeAll, Position, LogOf, Sorted;
    var first := ComesToRead(c, w);
    var blocked := NextRead(w);
    AnsweredWith(c, blocked, n);
    ReadsStep(c, blocked, Answer([n]));
    var answered := Do(c, blocked, Answer([n]));
    var rest := YieldBatch(c, answered);
    v := Paused(answered);
    ReadsOn(c, w, first, blocked, [Answer([n])], answered);
    ReadsOn(c, w, first + [Answer([n])], answered, rest, v);
    steps := first + [Answer([n])] + rest;
    BehindMoves(w, v, n);
    assert v.yielded + [] == v.yielded;
  }

  lemma HandsOutNothing(c: Codec, w: System) returns (steps: seq<Step>, v: System)
    requires SingleReader(w)
    ensures Reads(c, w, steps, v) && HandsOut(c, w, 0, v)
  {
    hide Reads, Decode, Position, Sorted;
    if w.it.phase.Yielding? {
      steps := YieldBatch(c, w);
      v := Paused(w);
    } else {
      steps, v := [], w;
      ReadsNothing(c, w);
    }
    PlusNothing(v.yielded, []);
    NothingHandedOut(c, w, v);
  }

  lemma NothingHandedOut(c: Codec, w: System, v: System)
    requires SingleReader(w) && SingleReader(v) && v.it.stream == w.it.stream && Behind(v) == Behind(w)
    requires v.yielded == Delivered(v) == Delivered(w)
    ensures HandsOut(c, w, 0, v)
  {
    hide Decode, DecodeAll, Position, Sorted, LogOf, Behind, Delivered;
    NothingDecodes(c, w.it.stream.value, Behind(w)[..0]);
    PlusNothing(Delivered(w), []);
  }

  lemma PlusNothing(es: seq<Event>, more: seq<Event>)
    requires more == []
    ensures es + more == es
  {
  }

  lemma HandsOutMore(c: Codec, w: System, n: nat, mid: System, m: nat, v: System)
    requires SingleReader(w) && HandsOut(c, w, n, mid) && HandsOut(c, mid, m, v)
    ensures HandsOut(c, w, n + m, v)
  {
    hide Decode, DecodeAll, Position, Sorted, LogOf, Behind, Delivered;
    var all := Behind(w);
    assert all[n..][..m] == all[n..n + m] && all[..n + m] == all[..n] + all[n..n + m];
    assert all[n..][m..] == all[n + m..];
    DecodeAllConcat(c, w.it.stream.value, all[..n], all[n..n + m]);
    var a, b := Decoded(c, w, all[..n]).value, Decoded(c, w, all[n..n + m]).value;
    assert Delivered(w) + a + b == Delivered(w) + (a + b);
  }

  lemma FirstDecodes(c: Codec, w: System, n: nat)
    requires SingleReader(w) && 0 < n <= |Behind(w)| && Decoded(c, w, Behind(w)[..n]).Some?
    ensures Decoded(c, w, Behind(w)[..1]).Some? && Decoded(c, w, Behind(w)[1..n]).Some?
  {
    hide Decode, DecodeAll, Behind;
    assert Behind(w)[..n] == Behind(w)[..1] + Behind(w)[1..n];
    DecodeAllConcat(c, w.it.stream.value, Behind(w)[..1], Behind(w)[1..n]);
  }

  /**
   Nothing that decodes is out of reach: from any moment of a live reader, reading and yielding alone
   can hand out exactly the next `n` entries after the cursor, in order, if these decode.
   */
  lemma {:induction false} CatchesUp(c: Codec, w: System, n: nat) returns (steps: seq<Step>, v: System)
    requires SingleReader(w) && n <= |Behind(w)| && Decoded(c, w, Behind(w)[..n]).Some?
    ensures Reads(c, w, steps, v) && HandsOut(c, w, n, v)
    decreases n
  {
    hide Decoded, Behind, Reads, Run, Do, Delivered;
    if n == 0 {
      steps, v := HandsOutNothing(c, w);
    } else {
      FirstDecodes(c, w, n);
      var first, mid := ReadOnce(c, w, 1);
      assert Behind(w)[1..][..n - 1] == Behind(w)[1..n];
      SameStream(c, w, mid, Behind(w)[1..n]);
      var rest;
      rest, v := CatchesUp(c, mid, n - 1);
      HandsOutMore(c, w, 1, mid, n - 1, v);
      ReadsOn(c, w, first, mid, rest, v);
      steps := first + rest;
    }
  }

  lemma SameStream(c: Codec, w: System, v: System, entries: seq<Entry>)
    requires SingleReader(w) && SingleReader(v) && v.it.stream == w.it.stream
    ensures Decoded(c, v, entries) == Decoded(c, w, entries)
  {
  }

  // ---------- a reader of several streams ----------

  /** A live reader whose next read is of all streams of the set, a change of the set included. */
  predicate RecordReader(w: System) {
    && w.it.active && w.keys != [] && DistinctKeys(w.keys)
    && (w.it.phase.Created? || w.it.phase.Yielding?)
    && if w.it.hasNewStreams then w.it.last.Many? || Named(w.it.origin) else w.it.last.Many? && !Named(w.it.stream)
  }

  /** The entries of a stream after its cursor; after `$` there are none. */
  function MissingOf(w: System, s: StreamId): seq<Entry> {
    var log := LogOf(w.logs, s);
    log[Position(log, Resolve(log, Slot(w.it, s)))..]
  }

  /** What a stream of the set misses is handed out between `w` and `v`, and then it misses nothing. */
  predicate BringsUpToDate(c: Codec, w: System, v: System, s: StreamId) {
    && DecodeAll(c, s, MissingOf(w, s)).Some?
    && Proj(v.yielded, s) == Proj(Delivered(w), s) + DecodeAll(c, s, MissingOf(w, s)).value
    && MissingOf(v, s) == []
  }

  lemma NextAsksAll(w: System)
    requires RecordReader(w)
    ensures var u := LoopTop(w.logs, w.keys, w.it);
            && u.phase.Blocked? && u.last.Many? && !Named(u.stream) && u.active && !u.hasNewStreams
            && |u.phase.asks| == |w.keys|
            && (forall i | 0 <= i < |w.keys| ::
                  u.phase.asks[i] == (w.keys[i], Resolve(LogOf(w.logs, w.keys[i]), Slot(w.it, w.keys[i]))))
            && forall s :: Slot(u, s) == Slot(w.it, s)
  {
    SwitchKeepsSlots(w.it);
  }

  function FullCounts(logs: map<StreamId, Log>, asks: Reads): (r: seq<nat>)
    ensures |r| == |asks| && forall i | 0 <= i < |asks| :: r[i] == Available(logs, asks[i])
  {
    seq(|asks|, i requires 0 <= i < |asks| => Available(logs, asks[i]))
  }

  lemma FullSlice(logs: map<StreamId, Log>, ask: (StreamId, nat))
    ensures Slice(logs, ask, Available(logs, ask)) == LogOf(logs, ask.0)[Position(LogOf(logs, ask.0), ask.1)..]
  {
  }

  /** One stream's share of the full answer. */
  lemma FullShare(c: Codec, w: System, i: nat)
    requires w.it.phase.Blocked? && i < |w.it.phase.asks| && DistinctAsks(w.it.phase.asks)
    ensures var asks := w.it.phase.asks; var log := LogOf(w.logs, asks[i].0);
            EntriesFor(Served(w.logs, asks, FullCounts(w.logs, asks)), asks[i].0) == log[Position(log, asks[i].1)..]
  {
    hide Position;
    var asks := w.it.phase.asks;
    EntriesServed(Served(w.logs, asks, FullCounts(w.logs, asks)), i, asks[i].0);
  }

  lemma NothingMissingAfter(log: Log, slot: Cursor, entries: seq<Entry>)
    requires Sorted(log) && entries == log[Position(log, Resolve(log, slot))..]
    ensures Position(log, Resolve(log, Advanced(slot, entries))) == |log|
  {
    PositionOfLast(log);
    if entries != [] {
      PositionOfEntry(log, |log| - 1);
      assert entries[|entries| - 1] == log[|log| - 1];
    }
  }

  /** A full answer that decodes brings one stream up to date. */
  lemma FullAnswer(c: Codec, w: System, counts: seq<nat>, i: nat)
    requires w.it.phase.Blocked? && w.it.last.Many? && DistinctAsks(w.it.phase.asks) && SortedLogs(w.logs)
    requires counts == FullCounts(w.logs, w.it.phase.asks) && CanAnswer(w, counts)
    requires Decodes(c, Served(w.logs, w.it.phase.asks, counts)) && i < |w.it.phase.asks|
    requires var ask := w.it.phase.asks[i]; ask.1 == Resolve(LogOf(w.logs, ask.0), Slot(w.it, ask.0))
    ensures BringsUpToDate(c, w, Paused(Do(c, w, Answer(counts))), w.it.phase.asks[i].0)
  {
    hide Decode, DecodeAll, Position, AbsorbEntries, EntriesFor, Proj, Decodes, Advanced, Resolve, Served, CanAnswer;
    var s, asks := w.it.phase.asks[i].0, w.it.phase.asks;
    var reply, a := Served(w.logs, asks, counts), Absorbed(w.it.last.slots, [], true);
    AbsorbOk(c, reply, a);
    ProjOfNothing(s);
    var more := AbsorbEffect(c, reply, a, s);
    FullShare(c, w, i);
    assert Sorted(LogOf(w.logs, s));
    NothingMissingAfter(LogOf(w.logs, s), Slot(w.it, s), EntriesFor(reply, s));
    ProjConcat(w.yielded, Absorb(c, reply, a).events, s);
    assert w.yielded + [] == w.yielded && [] + more == more;
  }

  /**
   Every stream of the set gets what it misses in one round, if that decodes; also when a reader of
   one stream changes over to all of them.
   */
  lemma RecordCatchesUp(c: Codec, w: System) returns (steps: seq<Step>, v: System)
    requires RecordReader(w) && SortedLogs(w.logs)
    requires forall s | s in w.keys :: DecodeAll(c, s, MissingOf(w, s)).Some?
    ensures Reads(c, w, steps, v) && v.yielded == Delivered(v) && RecordReader(v)
    ensures forall s | s in w.keys :: BringsUpToDate(c, w, v, s)
  {
    hide Reads, Do, DecodeAll, Decode, BringsUpToDate, SortedLogs, DistinctKeys, Slot, Position, LogOf, Resolve,
        Delivered;
    var first, mid := UpToPause(c, w);
    if forall s | s in w.keys :: MissingOf(w, s) == [] {
      steps, v := first, mid;
      forall s | s in w.keys ensures BringsUpToDate(c, w, v, s) {
        NothingMissing(c, w, v, s);
      }
    } else {
      var rest;
      rest, v := FullRound(c, mid);
      ReadsOn(c, w, first, mid, rest, v);
      steps := first + rest;
      forall s | s in w.keys ensures BringsUpToDate(c, w, v, s) {
        SameMissing(c, w, mid, v, s);
      }
    }
  }

  /** The current batch is handed out first. */
  lemma UpToPause(c: Codec, w: System) returns (steps: seq<Step>, v: System)
    requires RecordReader(w)
    ensures Reads(c, w, steps, v) && RecordReader(v) && v.yielded == Delivered(w) == Delivered(v)
    ensures (v.it.phase.Created? || v.it.phase == Yielding([])) && v.it == w.it.(phase := v.it.phase)
    ensures v.keys == w.keys && v.logs == w.logs && forall s :: Slot(v.it, s) == Slot(w.it, s)
    ensures forall s :: MissingOf(v, s) == MissingOf(w, s)
  {
    hide Reads, Position;
    if w.it.phase.Created? {
      steps, v := [], w;
      ReadsNothing(c, w);
    } else {
      steps := YieldBatch(c, w);
      v := Paused(w);
    }
    assert v.yielded + [] == v.yielded && w.yielded + [] == w.yielded;
  }

  lemma NothingMissing(c: Codec, w: System, v: System, s: StreamId)
    requires MissingOf(w, s) == [] && v.logs == w.logs && Slot(v.it, s) == Slot(w.it, s) && v.yielded == Delivered(w)
    ensures BringsUpToDate(c, w, v, s)
  {
    hide Position, Proj, Decode, DecodeAll, LogOf, Resolve, Slot, Delivered;
    NothingDecodes(c, s, MissingOf(w, s));
    PlusNothing(Proj(v.yielded, s), []);
  }

  lemma SameMissing(c: Codec, w: System, mid: System, v: System, s: StreamId)
    requires mid.logs == w.logs && Slot(mid.it, s) == Slot(w.it, s) && Delivered(mid) == Delivered(w)
    requires BringsUpToDate(c, mid, v, s)
    ensures BringsUpToDate(c, w, v, s)
  {
    hide Position, Proj, DecodeAll;
  }

  /** The state in which the read of all streams is in flight. */
  lemma AllAsked(c: Codec, w: System) returns (b: System)
    requires RecordReader(w) && SortedLogs(w.logs) && (w.it.phase.Created? || w.it.phase == Yielding([]))
    ensures Reads(c, w, [Next], b) && b.it.phase.Blocked? && Delivered(b) == Delivered(w)
    ensures b.it.last.Many? && !Named(b.it.stream) && b.it.active && !b.it.hasNewStreams
    ensures DistinctAsks(b.it.phase.asks) && |b.it.phase.asks| == |w.keys|
    ensures forall i | 0 <= i < |w.keys| ::
              b.it.phase.asks[i] == (w.keys[i], Resolve(LogOf(w.logs, w.keys[i]), Slot(w.it, w.keys[i])))
    ensures forall s :: Slot(b.it, s) == Slot(w.it, s)
  {
    NextAsksAll(w);
    hide LoopTop, Reads, SortedLogs;
    ReadsStep(c, w, Next);
    b := Do(c, w, Next);
    assert w.yielded + [] == w.yielded;
  }

  /** Something is missing, and all of it decodes: then the full answer can come, and decodes. */
  lemma FullAnswerComes(c: Codec, w: System, b: System, counts: seq<nat>)
    requires b.logs == w.logs && b.it.phase.Blocked? && b.it.last.Many? && |b.it.phase.asks| == |w.keys|
    requires forall i | 0 <= i < |w.keys| ::
               b.it.phase.asks[i] == (w.keys[i], Resolve(LogOf(w.logs, w.keys[i]), Slot(w.it, w.keys[i])))
    requires counts == FullCounts(w.logs, b.it.phase.asks)
    requires forall s | s in w.keys :: DecodeAll(c, s, MissingOf(w, s)).Some?
    requires exists s | s in w.keys :: MissingOf(w, s) != []
    ensures CanAnswer(b, counts) && Decodes(c, Served(b.logs, b.it.phase.asks, counts))
  {
    hide DecodeAll, Position, Resolve, Slot, LogOf;
    var asks := b.it.phase.asks;
    var s :| s in w.keys && MissingOf(w, s) != [];
    var i :| 0 <= i < |w.keys| && w.keys[i] == s;
    assert counts[i] > 0;
    var reply := Served(b.logs, asks, counts);
    forall j | 0 <= j < |reply| ensures DecodeAll(c, reply[j].0, reply[j].1).Some? {
      assert w.keys[j] in w.keys;
      FullSlice(w.logs, asks[j]);
      assert reply[j] == (w.keys[j], MissingOf(w, w.keys[j]));
    }
  }

  /** One read of all streams, answered in full, and its batch handed out. */
  lemma FullRound(c: Codec, w: System) returns (steps: seq<Step>, v: System)
    requires RecordReader(w) && SortedLogs(w.logs) && (w.it.phase.Created? || w.it.phase == Yielding([]))
    requires forall s | s in w.keys :: DecodeAll(c, s, MissingOf(w, s)).Some?
    requires exists s | s in w.keys :: MissingOf(w, s) != []
    ensures Reads(c, w, steps, v) && v.yielded == Delivered(v) && RecordReader(v)
    ensures forall s | s in w.keys :: BringsUpToDate(c, w, v, s)
  {
    hide Reads, Decode, DecodeAll, Position, SortedLogs, DistinctAsks, Resolve, Slot, LogOf, MissingOf, BringsUpToDate;
    var b := AllAsked(c, w);
    var counts := FullCounts(w.logs, b.it.phase.asks);
    KeysKept(c, w, [Next], b);
    FullAnswerComes(c, w, b, counts);
    var answered := FullyAnswered(c, b, counts);
    hide Do;
    ReadsStep(c, b, Answer(counts));
    ReadsOn(c, w, [Next], b, [Answer(counts)], answered);
    KeysKept(c, b, [Answer(counts)], answered);
    var rest := YieldBatch(c, answered);
    v := Paused(answered);
    ReadsOn(c, w, [Next] + [Answer(counts)], answered, rest, v);
    steps := [Next] + [Answer(counts)] + rest;
    assert v.yielded + [] == v.yielded;
    forall s | s in w.keys ensures BringsUpToDate(c, w, v, s) {
      var i :| 0 <= i < |w.keys| && w.keys[i] == s;
      FullAnswer(c, b, counts, i);
      SameMissing(c, w, b, v, s);
    }
  }

  lemma KeysKept(c: Codec, w: System, steps: seq<Step>, v: System)
    requires Reads(c, w, steps, v)
    ensures v.keys == w.keys && v.logs == w.logs
  {
  }

  lemma FullyAnswered(c: Codec, w: System, counts: seq<nat>) returns (v: System)
    requires w.it.phase.Blocked? && w.it.last.Many? && CanAnswer(w, counts)
    requires Decodes(c, Served(w.logs, w.it.phase.asks, counts))
    ensures v == Do(c, w, Answer(counts)) && v.it.phase.Yielding? && v.it.last.Many?
    ensures v.it == w.it.(last := v.it.last, phase := v.it.phase)
  {
    hide Decodes, Absorb, Position;
    AbsorbOk(c, Served(w.logs, w.it.phase.asks, counts), Absorbed(w.it.last.slots, [], true));
    v := Do(c, w, Answer(counts));
  }

  // ---------- an entry that does not decode ----------

  /** An iterator that failed stays so, and hands out nothing any more. */
  lemma {:induction false} FailedForGood(c: Codec, w: System, steps: seq<Step>)
    requires w.it.phase.Failed?
    ensures Run(c, w, steps).it.phase == w.it.phase && Run(c, w, steps).yielded == w.yielded
    decreases |steps|
  {
    hide Do;
    if steps != [] {
      FailedForGood(c, w, steps[..|steps| - 1]);
      FailedStays(c, Run(c, w, steps[..|steps| - 1]), steps[|steps| - 1]);
    }
  }

  lemma FailedStays(c: Codec, w: System, step: Step)
    requires w.it.phase.Failed?
    ensures Do(c, w, step).it.phase == w.it.phase && Do(c, w, step).yielded == w.yielded
  {
    hide Decode, DecodeAll, Position, Absorb, CanAnswer;
    PlusNothing(w.yielded, []);
  }

  /**
   An answer with an entry that does not decode ends the iteration: none of it is ever handed out, not
   even the entries before the bad one.
   */
  lemma BadAnswerEndsIt(c: Codec, w: System, counts: seq<nat>, steps: seq<Step>)
    requires w.it.phase.Blocked? && CanAnswer(w, counts) && !Decodes(c, Served(w.logs, w.it.phase.asks, counts))
    ensures var v := Run(c, Do(c, w, Answer(counts)), steps);
            v.it.phase == Failed(BadEntry) && Delivered(v) == w.yielded
  {
    hide Decode, DecodeAll, Position, Absorb, Decodes, Run;
    AbsorbOk(c, Served(w.logs, w.it.phase.asks, counts), Absorbed(InitialSlots(w.it), [], true));
    FailedForGood(c, Do(c, w, Answer(counts)), steps);
    assert w.yielded + [] == w.yielded;
  }
}
