/**
 The guarantees of the stream iterator over whole runs, as its callers see them.
 */
module StreamGuarantees {
  import opened Wrappers
  import opened Messages
  import opened StreamRead
  import opened StreamDelivery

  // ---------- delivery ----------

  /**
   Where in the log of `s` delivery begins: after a concrete start cursor; from `$`, at the end the
   log had when the read that first returned one of its entries was issued.
   */
  function Beginning(c: Codec, o: Options, w: System, steps: seq<Step>, s: StreamId): nat {
    match Slot(Start(o), s)
    case After(id) => Position(LogOf(Run(c, w, steps).logs, s), id)
    case Tail => NoteAfter(c, w, steps, s).first
  }

  /** The events are the log from position `a` on, up to some later position. */
  ghost predicate DeliversSome(c: Codec, s: StreamId, log: Log, a: nat, es: seq<Event>) {
    exists b: nat :: Delivers(c, s, log, a, b, es)
  }

  /**
   For every stream in every run: while the iterator lives, what it delivered of the stream is, in
   order and without gaps or repeats, exactly the entries from the beginning of delivery up to the
   stream's cursor; once it has stopped it still is the log from the beginning up to some position.
   Appends, timeouts, updates and cancellations may come at any time.
   */
  lemma StreamsDeliveredExactly(c: Codec, o: Options, logs: map<StreamId, Log>, keys: seq<StreamId>, steps: seq<Step>,
                                s: StreamId)
    requires SortedLogs(logs) && DistinctKeys(keys)
    ensures var w0 := System(logs, keys, Start(o), []);
            var w, a := Run(c, w0, steps), Beginning(c, o, w0, steps, s);
            var log, es := LogOf(w.logs, s), Proj(Delivered(w), s);
            && Sorted(log)
            && (Live(w.it) ==>
                  match Slot(w.it, s) {
                    case Tail => Slot(Start(o), s).Tail? && es == []
                    case After(h) =>
                      Delivers(c, s, log, a, Position(log, h), es) && (Slot(Start(o), s).Tail? ==> es != [])
                  })
            && (es == [] || DeliversSome(c, s, log, a, es))
  {
    hide Decode, DecodeAll, Proj, Position, Run;
    RunStreamOk(c, o, logs, keys, steps, s);
    var w0 := System(logs, keys, Start(o), []);
    var w := Run(c, w0, steps);
    var log, es, start := LogOf(w.logs, s), Proj(Delivered(w), s), Slot(Start(o), s);
    var first := NoteAfter(c, w0, steps, s).first;
    if Live(w.it) && Slot(w.it, s).After? && start.Tail? && es == [] {
      TracksFromAnywhere(c, s, log, start, first, first, Slot(w.it, s), es);
    }
    if es != [] {
      var slot :| Tracks(c, s, log, start, first, slot, es);
      assert Delivers(c, s, log, Beginning(c, o, w0, steps, s), Position(log, slot.id), es);
    }
  }

  predicate AllFrom(es: seq<Event>, s: StreamId) {
    forall e | e in es :: e.streamId == s
  }

  /** Before any switch of mode, everything delivered is of the one stream asked for. */
  predicate OnlyOrigin(w: System) {
    w.it.last.One? ==>
      && (w.it.stream.Some? ==> w.it.stream == w.it.origin)
      && (Delivered(w) != [] ==> w.it.origin.Some?)
      && (w.it.origin.Some? ==> AllFrom(Delivered(w), w.it.origin.value))
  }

  lemma {:induction false} AbsorbTitles(c: Codec, reply: Reply, a: Absorbed, title: StreamId)
    requires forall i | 0 <= i < |reply| :: reply[i].0 == title
    requires AllFrom(a.events, title)
    ensures AllFrom(Absorb(c, reply, a).events, title)
    decreases |reply|
  {
    if reply != [] {
      AbsorbEntryTitles(c, title, reply[0].1, a);
      AbsorbTitles(c, reply[1..], AbsorbEntries(c, title, reply[0].1, a), title);
    }
  }

  lemma {:induction false} AbsorbEntryTitles(c: Codec, title: StreamId, entries: seq<Entry>, a: Absorbed)
    requires AllFrom(a.events, title)
    ensures AllFrom(AbsorbEntries(c, title, entries, a).events, title)
    decreases |entries|
  {
    if entries != [] && a.ok && Decode(c, title, entries[0]).Some? {
      AbsorbEntryTitles(c, title, entries[1..],
        Absorbed(a.slots[title := After(entries[0].id)], a.events + [Decode(c, title, entries[0]).value], true));
    }
  }

  lemma OnlyOriginReply(c: Codec, it: Iter, reply: Reply)
    requires it.phase.Blocked? && it.last.One? && it.stream.Some?
    requires forall i | 0 <= i < |reply| :: reply[i].0 == it.stream.value
    ensures OnReply(c, it, reply).phase.Yielding? ==> AllFrom(OnReply(c, it, reply).phase.batch, it.stream.value)
  {
    AbsorbTitles(c, reply, Absorbed(InitialSlots(it), [], true), it.stream.value);
  }

  lemma OnlyOriginAnswer(c: Codec, w: System, counts: seq<nat>)
    requires OnlyOrigin(w) && AsksFollowSlots(w.it) && CanAnswer(w, counts)
    ensures OnlyOrigin(Do(c, w, Answer(counts)))
  {
    if w.it.phase.Blocked? && w.it.last.One? {
      OnlyOriginReply(c, w.it, Served(w.logs, w.it.phase.asks, counts));
    }
  }

  lemma OnlyOriginNext(c: Codec, w: System)
    requires OnlyOrigin(w)
    ensures OnlyOrigin(Do(c, w, Next))
  {
    NextDelivers(c, w);
  }

  lemma OnlyOriginStep(c: Codec, w: System, step: Step)
    requires OnlyOrigin(w) && AsksFollowSlots(w.it)
    ensures OnlyOrigin(Do(c, w, step))
  {
    match step
    case Answer(counts) =>
      if CanAnswer(w, counts) {
        OnlyOriginAnswer(c, w, counts);
      }
    case Next => OnlyOriginNext(c, w);
    case _ =>
  }

  lemma {:induction false} OnlyOriginRun(c: Codec, o: Options, logs: map<StreamId, Log>, keys: seq<StreamId>,
                                         steps: seq<Step>)
    requires SortedLogs(logs) && DistinctKeys(keys)
    ensures OnlyOrigin(Run(c, System(logs, keys, Start(o), []), steps))
    decreases |steps|
  {
    if steps != [] {
      OnlyOriginRun(c, o, logs, keys, steps[..|steps| - 1]);
      RunInv(c, o, logs, keys, steps[..|steps| - 1]);
      OnlyOriginStep(c, Run(c, System(logs, keys, Start(o), []), steps[..|steps| - 1]), steps[|steps| - 1]);
    }
  }

  lemma {:induction false} ProjAll(es: seq<Event>, s: StreamId)
    requires AllFrom(es, s)
    ensures Proj(es, s) == es
  {
    if es != [] {
      ProjAll(es[1..], s);
    }
  }

  /**
   Single-stream reading delivers each entry exactly once: the events yielded, with the rest of the
   batch, are the entries after the start cursor up to the current one.
   */
  lemma SingleStreamExactlyOnce(c: Codec, stream: StreamId, start: nat, batchSize: Option<nat>,
                                logs: map<StreamId, Log>, keys: seq<StreamId>, steps: seq<Step>)
    requires SortedLogs(logs) && DistinctKeys(keys)
    requires var o := Options(Some(stream), Some(One(After(start))), batchSize);
             var w := Run(c, System(logs, keys, Start(o), []), steps);
             Live(w.it) && w.it.last.One?
    ensures var o := Options(Some(stream), Some(One(After(start))), batchSize);
            var w := Run(c, System(logs, keys, Start(o), []), steps);
            && w.it.last.cursor.After?
            && var log := LogOf(w.logs, stream);
               Delivers(c, stream, log, Position(log, start), Position(log, w.it.last.cursor.id), Delivered(w))
  {
    var o := Options(Some(stream), Some(One(After(start))), batchSize);
    RunStreamOk(c, o, logs, keys, steps, stream);
    OnlyOriginRun(c, o, logs, keys, steps);
    var w := Run(c, System(logs, keys, Start(o), []), steps);
    ProjAll(Delivered(w), stream);
  }

  // ---------- control flow ----------

  /** The stream option and the kind of cursor fit together. */
  predicate Consistent(o: Options) {
    o.last.Some? ==> (Named(o.stream) <==> o.last.value.One?)
  }

  /** Exactly one of: a stream with a string cursor; no stream with a record of cursors. */
  predicate ModeOk(it: Iter) {
    Named(it.stream) <==> it.last.One?
  }

  predicate ModeInv(it: Iter) {
    ModeOk(it) && (it.last.One? ==> Named(it.origin)) && it.phase != Failed(UnrecognizedControlFlow)
  }

  lemma ModeStep(c: Codec, w: System, step: Step)
    requires ModeInv(w.it)
    ensures ModeInv(Do(c, w, step).it)
  {
    hide Decode, DecodeAll, Position, Absorb;
  }

  /** Exactly one mode holds in every state of every run from consistent options. */
  lemma {:induction false} ModeRun(c: Codec, o: Options, logs: map<StreamId, Log>, keys: seq<StreamId>,
                                   steps: seq<Step>)
    requires Consistent(o)
    ensures ModeInv(Run(c, System(logs, keys, Start(o), []), steps).it)
    decreases |steps|
  {
    if steps != [] {
      ModeRun(c, o, logs, keys, steps[..|steps| - 1]);
      ModeStep(c, Run(c, System(logs, keys, Start(o), []), steps[..|steps| - 1]), steps[|steps| - 1]);
    }
  }

  /** The run does not end in the "unrecognized control flow" error. */
  predicate Recognized(c: Codec, w: System, steps: seq<Step>) {
    Run(c, w, steps).it.phase != Failed(UnrecognizedControlFlow)
  }

  /** That error is reachable exactly from inconsistent options. */
  lemma UnrecognizedExactlyWhenInconsistent(c: Codec, o: Options, logs: map<StreamId, Log>, keys: seq<StreamId>)
    ensures Consistent(o) <==> forall steps: seq<Step> :: Recognized(c, System(logs, keys, Start(o), []), steps)
  {
    var w := System(logs, keys, Start(o), []);
    if Consistent(o) {
      forall steps: seq<Step> ensures Recognized(c, w, steps) {
        ModeRun(c, o, logs, keys, steps);
      }
    } else {
      var bad: seq<Step> := [Next];
      assert bad[..0] == [];
      assert Run(c, w, bad) == Do(c, w, Next);
      assert !Recognized(c, w, bad);
    }
  }

  /**
   A change of the stream set noticed between reads turns the string cursor into the record's slot
   for the same stream, and the next read of that stream starts at the same place.
   */
  lemma SwitchCarriesTheCursor(logs: map<StreamId, Log>, keys: seq<StreamId>, it: Iter)
    requires it.phase == Yielding([]) && it.active && it.last.One? && Named(it.origin) && ModeOk(it)
    requires it.origin.value in keys
    ensures var u := LoopTop(logs, keys, OnUpdate(it));
            && u.last == Many(map[it.origin.value := it.last.cursor]) && u.stream == None && ModeOk(u)
            && u.phase.Blocked?
            && (it.origin.value, Resolve(LogOf(logs, it.origin.value), it.last.cursor)) in u.phase.asks
  {
    var u := LoopTop(logs, keys, OnUpdate(it));
    var i :| 0 <= i < |keys| && keys[i] == it.origin.value;
    assert u.phase.asks[i] == (it.origin.value, Resolve(LogOf(logs, it.origin.value), it.last.cursor));
  }

  /** A change of the stream set during a read ends the iteration: nothing is yielded ever after. */
  lemma {:induction false} UpdateDuringReadEndsIt(c: Codec, w: System, change: Step, steps: seq<Step>)
    requires w.it.phase.Blocked? && (change.AddStream? || change.RemoveStream?)
    ensures Run(c, Do(c, w, change), steps).it.phase.Done?
    ensures Run(c, Do(c, w, change), steps).yielded == w.yielded
    decreases |steps|
  {
    hide Decode, DecodeAll, Position;
    if steps != [] {
      UpdateDuringReadEndsIt(c, w, change, steps[..|steps| - 1]);
    }
  }

  // ---------- stopping ----------

  /** An iterator that was told to stop issues no read, and only a read in flight can still bring events. */
  lemma InactiveStep(c: Codec, w: System, step: Step)
    requires !w.it.active && !w.it.phase.Created?
    ensures var v := Do(c, w, step);
            && !v.it.active && !v.it.phase.Created? && !Issues(w, v)
            && (w.it.phase.Blocked? && v.it.phase.Blocked? ==> v.it.phase == w.it.phase && Delivered(v) == Delivered(w))
            && (!w.it.phase.Blocked? ==> Delivered(v) == Delivered(w))
            && (w.it.phase == Yielding([]) && step.Next? ==> v.it.phase == Done([]))
  {
    hide Decode, DecodeAll, Position, Absorb;
    NextDelivers(c, w);
  }

  lemma {:induction false} InactiveRun(c: Codec, w: System, steps: seq<Step>)
    requires !w.it.active && !w.it.phase.Created?
    ensures var v := Run(c, w, steps);
            && !v.it.active && !v.it.phase.Created?
            && (v.it.phase.Blocked? ==> v.it.phase == w.it.phase && Delivered(v) == Delivered(w))
            && (!w.it.phase.Blocked? ==> !v.it.phase.Blocked? && Delivered(v) == Delivered(w))
    decreases |steps|
  {
    if steps != [] {
      hide Do, Delivered;
      InactiveRun(c, w, steps[..|steps| - 1]);
      InactiveStep(c, Run(c, w, steps[..|steps| - 1]), steps[|steps| - 1]);
    }
  }

  /**
   A cancelled iterator stops: no continuation issues a read.  Between reads, what it had delivered or
   has in its batch is all it ever delivers; in a read, the one answer can still come, and nothing after
   it.  With the batch handed out, resuming it ends it.
   */
  lemma CancelledStops(c: Codec, w: System, steps: seq<Step>, more: seq<Step>)
    requires !w.it.phase.Created?
    ensures var u := Do(c, w, Cancel); var v := Run(c, u, steps);
            && u == w.(it := w.it.(active := false))
            && (v.it.phase.Blocked? ==> v.it.phase == w.it.phase && Delivered(v) == Delivered(w))
            && (!w.it.phase.Blocked? ==> Delivered(v) == Delivered(w))
            && (!v.it.phase.Blocked? ==>
                  !Run(c, v, more).it.phase.Blocked? && Delivered(Run(c, v, more)) == Delivered(v))
            && (v.it.phase == Yielding([]) ==> Do(c, v, Next).it.phase == Done([]))
  {
    hide Run;
    var u := Do(c, w, Cancel);
    assert Delivered(u) == Delivered(w);
    hide Delivered;
    InactiveRun(c, u, steps);
    InactiveRun(c, Run(c, u, steps), more);
    hide Do;
    InactiveStep(c, Run(c, u, steps), Next);
  }

  // ---------- what a read asks for ----------

  /** A change of the streams before the iterator starts goes unnoticed: its first read is of its own stream. */
  lemma EarlierChangesGoUnnoticed(logs: map<StreamId, Log>, keys: seq<StreamId>, o: Options)
    requires Named(o.stream) && (o.last.Some? ==> o.last.value.One?)
    ensures var log := LogOf(logs, o.stream.value);
            var end := if log == [] then 0 else log[|log| - 1].id;
            OnNext(logs, keys, OnCancel(OnUpdate(Start(o)))).0.phase ==
            Blocked([(o.stream.value, match o.last { case Some(One(After(id))) => id case _ => end })])
  {
  }

  /** A stream without a name is no stream: the iterator starts as a reader of all streams. */
  lemma UnnamedIsNoStream(c: Codec, logs: map<StreamId, Log>, keys: seq<StreamId>, n: Option<nat>)
    requires keys != []
    ensures var named, none := Start(Options(Some(""), None, n)), Start(Options(None, None, n));
            && named.last == none.last == Many(map[])
            && OnNext(logs, keys, named).0.phase == OnNext(logs, keys, none).0.phase
            && OnNext(logs, keys, none).0.phase.Blocked?
  {
  }

  /** From a change between reads on, the next read is of exactly the streams that are then in the set. */
  lemma ChangesTakeEffect(c: Codec, w: System, change: Step)
    requires w.it.phase == Yielding([]) && w.it.active && (w.it.last.Many? || Named(w.it.origin))
    requires change.AddStream? || (change.RemoveStream? && exists k | k in w.keys :: k != change.s)
    ensures var v := Do(c, Do(c, w, change), Next);
            && v.it.phase.Blocked?
            && forall s :: AsksFor(v.it.phase.asks, s) <==> if s == change.s then change.AddStream? else s in w.keys
  {
    var u := Do(c, w, change);
    if change.RemoveStream? {
      InWithout(w.keys, change.s);
      var k :| k in w.keys && k != change.s;
      assert k in u.keys;
    }
    hide Position, Resolve, SlotOf, LogOf;
    forall s ensures AsksFor(Do(c, u, Next).it.phase.asks, s) <==> s in u.keys {
      var asks := Do(c, u, Next).it.phase.asks;
      assert |asks| == |u.keys| && forall i | 0 <= i < |asks| :: asks[i].0 == u.keys[i];
    }
  }

  lemma {:induction false} InWithout(keys: seq<StreamId>, s: StreamId)
    ensures forall k :: k in Without(keys, s) <==> k in keys && k != s
    decreases |keys|
  {
    if keys != [] {
      InWithout(keys[1..], s);
    }
  }

  /** Reading all streams of an empty set fails. */
  lemma NoStreamsFails(c: Codec, w: System)
    requires w.it.phase == Yielding([]) && w.it.active && w.it.last.Many? && !Named(w.it.stream) && w.keys == []
    ensures Do(c, w, Next).it.phase == Failed(NoStreams)
  {
  }

  /** No batch of a single-stream read is longer than was asked for, ten unless said otherwise. */
  predicate BatchBounded(w: System, n: nat) {
    && w.it.batchSize == n
    && (n > 0 && w.it.last.One? && w.it.phase.Yielding? ==> |w.it.phase.batch| <= n)
  }

  lemma {:induction false} AbsorbLength(c: Codec, title: StreamId, entries: seq<Entry>, a: Absorbed)
    ensures |AbsorbEntries(c, title, entries, a).events| <= |a.events| + |entries|
    decreases |entries|
  {
    if entries != [] && a.ok && Decode(c, title, entries[0]).Some? {
      AbsorbLength(c, title, entries[1..],
        Absorbed(a.slots[title := After(entries[0].id)], a.events + [Decode(c, title, entries[0]).value], true));
    }
  }

  lemma AnswerBounded(c: Codec, w: System, counts: seq<nat>, n: nat)
    requires BatchBounded(w, n) && AsksFollowSlots(w.it) && CanAnswer(w, counts)
    ensures BatchBounded(Do(c, w, Answer(counts)), n)
  {
    hide Decode, DecodeAll, Position, AbsorbEntries;
    if n > 0 && w.it.last.One? && w.it.phase.Blocked? {
      var reply := Served(w.logs, w.it.phase.asks, counts);
      assert |reply| == 1 && reply[1..] == [] && |reply[0].1| == counts[0] <= n;
      var a := Absorbed(InitialSlots(w.it), [], true);
      AbsorbLength(c, reply[0].0, reply[0].1, a);
      assert Absorb(c, reply, a) == Absorb(c, [], AbsorbEntries(c, reply[0].0, reply[0].1, a));
    }
  }

  lemma BoundedStep(c: Codec, w: System, step: Step, n: nat)
    requires BatchBounded(w, n) && AsksFollowSlots(w.it)
    ensures BatchBounded(Do(c, w, step), n)
  {
    hide Decode, DecodeAll, Position, Absorb;
    if step.Answer? && CanAnswer(w, step.counts) {
      AnswerBounded(c, w, step.counts, n);
    }
  }

  lemma {:induction false} BatchesAreBounded(c: Codec, o: Options, logs: map<StreamId, Log>, keys: seq<StreamId>,
                                             steps: seq<Step>)
    requires SortedLogs(logs) && DistinctKeys(keys)
    ensures BatchBounded(Run(c, System(logs, keys, Start(o), []), steps),
                         match o.requestedBatchSize { case Some(n) => n case None => 10 })
    decreases |steps|
  {
    if steps != [] {
      var w, earlier := System(logs, keys, Start(o), []), steps[..|steps| - 1];
      BatchesAreBounded(c, o, logs, keys, earlier);
      RunInv(c, o, logs, keys, earlier);
      hide Do, BatchBounded, StreamOk, AskedOk;
      BoundedStep(c, Run(c, w, earlier), steps[|steps| - 1],
                  match o.requestedBatchSize { case Some(n) => n case None => 10 });
    }
  }
}
