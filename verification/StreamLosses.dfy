/**
 What a reader can miss, and exactly when: entries skipped by re-reading from `$`, and cursors that
 run past what was delivered.
 */
module StreamLosses {
  import opened Wrappers
  import opened Messages
  import opened StreamRead
  import opened StreamDelivery

  // ---------- reading from `$` ----------

  /** How long the log of `s` was when the first read that asked for it was issued. */
  function FirstAsked(c: Codec, w: System, steps: seq<Step>, s: StreamId): Option<nat>
    decreases |steps|
  {
    if steps == [] then None
    else
      var earlier := steps[..|steps| - 1];
      FirstAskedNext(Run(c, w, earlier), Run(c, w, steps), s, FirstAsked(c, w, earlier, s))
  }

  function FirstAskedNext(w: System, v: System, s: StreamId, asked: Option<nat>): Option<nat> {
    if asked.None? && Issues(w, v) && AsksFor(v.it.phase.asks, s) then Some(|LogOf(w.logs, s)|) else asked
  }

  /**
   The step re-issues a read of `s` before any entry of `s` was delivered, and entries of `s` came
   after the read before it had been issued.
   */
  predicate Skips(w: System, v: System, s: StreamId, first: Option<nat>, asked: nat) {
    && Issues(w, v) && AsksFor(v.it.phase.asks, s) && Proj(Delivered(w), s) == []
    && first.Some? && asked < |LogOf(w.logs, s)|
  }

  /** Some step of the run does so. */
  predicate Skipped(c: Codec, w: System, steps: seq<Step>, s: StreamId)
    decreases |steps|
  {
    steps != [] &&
    var earlier := steps[..|steps| - 1];
    || Skipped(c, w, earlier, s)
    || Skips(Run(c, w, earlier), Run(c, w, steps), s, FirstAsked(c, w, earlier, s), NoteAfter(c, w, earlier, s).asked)
  }

  lemma DeliveredGrows(c: Codec, w: System, step: Step)
    ensures Delivered(w) <= Delivered(Do(c, w, step))
  {
    hide Decode, Position, Absorb;
    NextDelivers(c, w);
  }

  lemma ProjGrows(a: seq<Event>, b: seq<Event>, s: StreamId)
    requires a <= b && Proj(a, s) != []
    ensures Proj(b, s) != []
  {
    assert b == a + b[|a|..];
    ProjConcat(a, b[|a|..], s);
  }

  lemma LogsGrow(c: Codec, w: System, step: Step, s: StreamId)
    ensures |LogOf(w.logs, s)| <= |LogOf(Do(c, w, step).logs, s)|
  {
    hide Decode, Position, Absorb;
  }

  /** Events of a stream come only from a read that asked for it. */
  lemma DeliveredWasAsked(c: Codec, w: System, step: Step, s: StreamId)
    requires AsksFollowSlots(w.it) && Proj(Delivered(w), s) == [] && Proj(Delivered(Do(c, w, step)), s) != []
    ensures step.Answer? && w.it.phase.Blocked? && AsksFor(w.it.phase.asks, s)
  {
    hide Decode, Position, AbsorbEntries, EntriesFor, Proj, DecodeAll;
    NextDelivers(c, w);
    if step.Answer? && w.it.phase.Blocked? && CanAnswer(w, step.counts) {
      var reply, a := Served(w.logs, w.it.phase.asks, step.counts), Absorbed(InitialSlots(w.it), [], true);
      var b := Absorb(c, reply, a);
      if b.ok {
        ProjOfNothing(s);
        var more := AbsorbEffect(c, reply, a, s);
        ProjConcat(w.yielded, b.events, s);
        assert w.yielded + [] == w.yielded;
        var from, n := ServedFor(w.logs, w.it.phase.asks, step.counts, s);
        if n == 0 {
          assert Slice(w.logs, (s, from), 0) == [];
          NothingDecodes(c, s, EntriesFor(reply, s));
        } else {
          var i :| 0 <= i < |w.it.phase.asks| && w.it.phase.asks[i] == (s, from);
        }
      }
    }
  }

  lemma ProjOfNothing(s: StreamId)
    ensures Proj([], s) == []
  {
  }

  lemma NothingDecodes(c: Codec, s: StreamId, entries: seq<Entry>)
    requires entries == []
    ensures DecodeAll(c, s, entries) == Some([])
  {
  }

  /** What is known of a stream that is read from `$`. */
  predicate SkipInv(w: System, s: StreamId, n: Note, f: Option<nat>, skipped: bool) {
    var log, es := LogOf(w.logs, s), Proj(Delivered(w), s);
    && (w.it.phase.Blocked? && AsksFor(w.it.phase.asks, s) ==> f.Some?)
    && (es == [] && f.None? ==> !skipped)
    && (es == [] && f.Some? ==> f.value <= n.asked <= |log| && (f.value == n.asked <==> !skipped))
    && (es != [] ==> f.Some? && f.value <= n.first && (f.value == n.first <==> !skipped))
  }

  lemma SkipStep(c: Codec, w: System, step: Step, s: StreamId, n: Note, f: Option<nat>, skipped: bool)
    requires AsksFollowSlots(w.it) && SkipInv(w, s, n, f, skipped)
    ensures var v := Do(c, w, step);
            SkipInv(v, s, Noted(w, v, s, n), FirstAskedNext(w, v, s, f), skipped || Skips(w, v, s, f, n.asked))
  {
    var v := Do(c, w, step);
    LogsGrow(c, w, step, s);
    DeliveredGrows(c, w, step);
    if Proj(Delivered(w), s) != [] {
      ProjGrows(Delivered(w), Delivered(v), s);
    } else if Proj(Delivered(v), s) != [] {
      DeliveredWasAsked(c, w, step, s);
    }
    StillAsking(c, w, step);
    IssuesOnlyByNext(c, w, step);
    hide Do, Delivered, LogOf, Proj;
  }

  /** A read that stays in flight is the same read. */
  lemma StillAsking(c: Codec, w: System, step: Step)
    ensures var v := Do(c, w, step); w.it.phase.Blocked? && v.it.phase.Blocked? ==> v.it.phase == w.it.phase
  {
    hide Decode, Position, Absorb;
  }

  lemma IssuesOnlyByNext(c: Codec, w: System, step: Step)
    ensures Issues(w, Do(c, w, step)) ==> step.Next? && Do(c, w, step).logs == w.logs
    ensures Issues(w, Do(c, w, step)) ==> Delivered(Do(c, w, step)) == Delivered(w)
  {
    hide Decode, Position, Absorb;
    NextDelivers(c, w);
  }

  lemma {:induction false} SkipRun(c: Codec, o: Options, logs: map<StreamId, Log>, keys: seq<StreamId>,
                                   steps: seq<Step>, s: StreamId)
    requires SortedLogs(logs) && DistinctKeys(keys)
    ensures var w := System(logs, keys, Start(o), []);
            SkipInv(Run(c, w, steps), s, NoteAfter(c, w, steps, s), FirstAsked(c, w, steps, s), Skipped(c, w, steps, s))
    decreases |steps|
  {
    if steps != [] {
      var w, earlier := System(logs, keys, Start(o), []), steps[..|steps| - 1];
      SkipRun(c, o, logs, keys, earlier, s);
      RunStreamOk(c, o, logs, keys, earlier, s);
      hide SkipInv, Do, Noted;
      SkipStep(c, Run(c, w, earlier), steps[|steps| - 1], s, NoteAfter(c, w, earlier, s), FirstAsked(c, w, earlier, s),
               Skipped(c, w, earlier, s));
    }
  }

  /**
   Delivery from `$` begins where the log ended when the stream was first asked for, so that nothing
   that came since is lost, exactly when no read of the stream was re-issued after entries of it
   had come in the meantime.
   */
  lemma NothingSkippedExactly(c: Codec, o: Options, logs: map<StreamId, Log>, keys: seq<StreamId>, steps: seq<Step>,
                              s: StreamId)
    requires SortedLogs(logs) && DistinctKeys(keys)
    requires Proj(Delivered(Run(c, System(logs, keys, Start(o), []), steps)), s) != []
    ensures var w := System(logs, keys, Start(o), []);
            var first, f := NoteAfter(c, w, steps, s).first, FirstAsked(c, w, steps, s);
            && f.Some? && f.value <= first
            && (first == f.value <==> !Skipped(c, w, steps, s))
  {
    SkipRun(c, o, logs, keys, steps, s);
  }

  /** A read from `$` that times out can lose an entry: here the first of two. */
  lemma TimeoutSkipsAnEntry(c: Codec, s: StreamId, r1: Record, r2: Record, e: Event) returns (steps: seq<Step>)
    requires s != "" && Decode(c, s, Entry(2, r2)) == Some(e)
    ensures steps == [Next, Timeout, Append(s, 0, r1), Next, Append(s, 0, r2), Answer([1])]
    ensures var w := Run(c, System(map[], [], Start(Options(Some(s), None, None)), []), steps);
            && LogOf(w.logs, s) == [Entry(1, r1), Entry(2, r2)]
            && Delivered(w) == [e] && Slot(w.it, s) == After(2)
  {
    var w := System(map[], [], Start(Options(Some(s), None, None)), []);
    var w5 := UpToTheAnswer(c, w, s, r1, r2);
    hide Do, Run, Decode;
    steps := [Next, Timeout, Append(s, 0, r1), Next, Append(s, 0, r2)] + [Answer([1])];
    OneMore(c, w, [Next, Timeout, Append(s, 0, r1), Next, Append(s, 0, r2)], Answer([1]));
    var w6 := TakesSecond(c, w5, s, r1, r2, e);
  }

  lemma OneMore(c: Codec, w: System, steps: seq<Step>, step: Step)
    ensures Run(c, w, steps + [step]) == Do(c, Run(c, w, steps), step)
  {
    assert (steps + [step])[..|steps|] == steps;
  }

  lemma UpToTheAnswer(c: Codec, w: System, s: StreamId, r1: Record, r2: Record) returns (v: System)
    requires s != "" && w == System(map[], [], Start(Options(Some(s), None, None)), [])
    ensures v == Run(c, w, [Next, Timeout, Append(s, 0, r1), Next, Append(s, 0, r2)])
    ensures v.logs == map[s := [Entry(1, r1), Entry(2, r2)]]
    ensures v.yielded == [] && v.it == w.it.(phase := Blocked([(s, 1)]))
  {
    var w1 := FirstRead(c, w, s);
    var w2 := w1.(it := w1.it.(phase := Yielding([])));
    var w3 := w2.(logs := map[s := [Entry(1, r1)]]);
    var w4 := w3.(it := w3.it.(phase := Blocked([(s, 1)])));
    v := w4.(logs := map[s := [Entry(1, r1), Entry(2, r2)]]);
    ThenTimeoutAndAppend(c, w1, s, r1);
    ThenReadAndAppend(c, w3, s, r1, r2);
    hide Do, Run, LogOf;
    OneMore(c, w, [Next], Timeout);
    OneMore(c, w, [Next] + [Timeout], Append(s, 0, r1));
    OneMore(c, w, [Next] + [Timeout] + [Append(s, 0, r1)], Next);
    OneMore(c, w, [Next] + [Timeout] + [Append(s, 0, r1)] + [Next], Append(s, 0, r2));
    FiveSteps(Next, Timeout, Append(s, 0, r1), Next, Append(s, 0, r2));
  }

  lemma FiveSteps(a: Step, b: Step, c: Step, d: Step, e: Step)
    ensures [a] + [b] + [c] + [d] + [e] == [a, b, c, d, e]
  {
  }

  lemma FirstRead(c: Codec, w: System, s: StreamId) returns (v: System)
    requires s != "" && w == System(map[], [], Start(Options(Some(s), None, None)), [])
    ensures v == Run(c, w, [Next]) && v == w.(it := w.it.(phase := Blocked([(s, 0)])))
  {
    v := Do(c, w, Next);
    assert [Next][..0] == [] && Run(c, w, []) == w;
  }

  lemma ThenTimeoutAndAppend(c: Codec, w: System, s: StreamId, r1: Record)
    requires w.it.phase.Blocked? && w.logs == map[]
    ensures var v := w.(it := w.it.(phase := Yielding([])));
            Do(c, w, Timeout) == v && Do(c, v, Append(s, 0, r1)) == v.(logs := map[s := [Entry(1, r1)]])
  {
    assert [] + [Entry(1, r1)] == [Entry(1, r1)];
  }

  lemma ThenReadAndAppend(c: Codec, w: System, s: StreamId, r1: Record, r2: Record)
    requires w.it.phase == Yielding([]) && w.it.active && !w.it.hasNewStreams && s != ""
    requires w.it.stream == Some(s) && w.it.last == One(Tail) && w.logs == map[s := [Entry(1, r1)]]
    ensures var v := w.(it := w.it.(phase := Blocked([(s, 1)])));
            Do(c, w, Next) == v && Do(c, v, Append(s, 0, r2)) == v.(logs := map[s := [Entry(1, r1), Entry(2, r2)]])
  {
    assert w.yielded + [] == w.yielded;
    assert [Entry(1, r1)] + [Entry(2, r2)] == [Entry(1, r1), Entry(2, r2)];
  }

  lemma TakesSecond(c: Codec, w: System, s: StreamId, r1: Record, r2: Record, e: Event) returns (v: System)
    requires w.it.phase == Blocked([(s, 1)]) && LogOf(w.logs, s) == [Entry(1, r1), Entry(2, r2)]
    requires w.it.last.One? && w.it.stream == Some(s) && w.it.origin == Some(s) && w.it.batchSize > 1
    requires Decode(c, s, Entry(2, r2)) == Some(e) && w.yielded == []
    ensures v == Do(c, w, Answer([1])) && v.logs == w.logs
    ensures Delivered(v) == [e] && Slot(v.it, s) == After(2)
  {
    var log := LogOf(w.logs, s);
    assert log[..1] == [Entry(1, r1)];
    assert Position(log, 1) == 1;
    assert [1][0] > 0;
    assert CanAnswer(w, [1]);
    var reply := Served(w.logs, w.it.phase.asks, [1]);
    assert log[1..2] == [Entry(2, r2)] && Slice(w.logs, (s, 1), 1) == log[1..2];
    assert reply == [(s, [Entry(2, r2)])] && reply[1..] == [];
    v := Do(c, w, Answer([1]));
    var a := Absorbed(map[s := w.it.last.cursor], [], true);
    assert [Entry(2, r2)][1..] == [];
    assert AbsorbEntries(c, s, [Entry(2, r2)], a) == Absorbed(a.slots[s := After(2)], [e], true);
    assert Absorb(c, reply, a) == Absorb(c, reply[1..], AbsorbEntries(c, s, [Entry(2, r2)], a));
  }

  // ---------- cursors that run past what was delivered ----------

  /** The cursor that points at the end of what was delivered of a stream. */
  function EndOf(start: Cursor, es: seq<Event>): Cursor {
    if es == [] then start else After(es[|es| - 1].streamMessageId)
  }

  /** Some entry of `s` in the answer decodes before the first entry that does not. */
  predicate ReachesEntry(c: Codec, reply: Reply, s: StreamId)
    decreases |reply|
  {
    reply != [] &&
    var (title, entries) := reply[0];
    || (title == s && entries != [] && Decode(c, s, entries[0]).Some?)
    || (DecodeAll(c, title, entries).Some? && ReachesEntry(c, reply[1..], s))
  }

  predicate Decodes(c: Codec, reply: Reply) {
    forall i | 0 <= i < |reply| :: DecodeAll(c, reply[i].0, reply[i].1).Some?
  }

  /**
   The step hands the record's reader an answer whose events are dropped, because an entry does not
   decode or because the read has lost its race, though an entry of `s` was decoded first.
   */
  predicate RunsPast(c: Codec, w: System, step: Step, s: StreamId) {
    && step.Answer? && CanAnswer(w, step.counts) && w.it.last.Many?
    && var reply := Served(w.logs, PendingReads(w.it), step.counts);
       ReachesEntry(c, reply, s) && (w.it.phase.Done? || !Decodes(c, reply))
  }

  predicate RanPast(c: Codec, w: System, steps: seq<Step>, s: StreamId)
    decreases |steps|
  {
    steps != [] &&
    var earlier := steps[..|steps| - 1];
    RanPast(c, w, earlier, s) || RunsPast(c, Run(c, w, earlier), steps[|steps| - 1], s)
  }

  lemma {:induction false} AbsorbEntriesOk(c: Codec, title: StreamId, entries: seq<Entry>, a: Absorbed)
    ensures AbsorbEntries(c, title, entries, a).ok <==> a.ok && DecodeAll(c, title, entries).Some?
    decreases |entries|
  {
    if entries != [] && a.ok && Decode(c, title, entries[0]).Some? {
      AbsorbEntriesOk(c, title, entries[1..],
        Absorbed(a.slots[title := After(entries[0].id)], a.events + [Decode(c, title, entries[0]).value], true));
    }
  }

  lemma {:induction false} AbsorbOk(c: Codec, reply: Reply, a: Absorbed)
    ensures Absorb(c, reply, a).ok <==> a.ok && Decodes(c, reply)
    decreases |reply|
  {
    if reply != [] {
      var (title, entries) := reply[0];
      AbsorbEntriesOk(c, title, entries, a);
      AbsorbOk(c, reply[1..], AbsorbEntries(c, title, entries, a));
      hide DecodeAll, AbsorbEntries;
      assert Decodes(c, reply) <==> DecodeAll(c, title, entries).Some? && Decodes(c, reply[1..]) by {
        if DecodeAll(c, title, entries).Some? && Decodes(c, reply[1..]) {
          forall i | 0 <= i < |reply| ensures DecodeAll(c, reply[i].0, reply[i].1).Some? {
            assert i > 0 ==> reply[i] == reply[1..][i - 1];
          }
        }
      }
    }
  }

  /** Where a slot may be after some entries: where it was, or at one of them. */
  predicate MovedTo(slot: Cursor, entries: seq<Entry>) {
    slot.After? && exists i :: 0 <= i < |entries| && entries[i].id == slot.id
  }

  lemma {:induction false} EntriesMoveSlot(c: Codec, title: StreamId, entries: seq<Entry>, a: Absorbed)
    requires a.ok
    ensures var b := AbsorbEntries(c, title, entries, a);
            && (forall s | s != title :: SlotOf(b.slots, s) == SlotOf(a.slots, s))
            && if entries != [] && Decode(c, title, entries[0]).Some? then MovedTo(SlotOf(b.slots, title), entries)
               else SlotOf(b.slots, title) == SlotOf(a.slots, title)
    decreases |entries|
  {
    if entries != [] && Decode(c, title, entries[0]).Some? {
      var next := Absorbed(a.slots[title := After(entries[0].id)], a.events + [Decode(c, title, entries[0]).value],
                           true);
      EntriesMoveSlot(c, title, entries[1..], next);
      var slot := SlotOf(AbsorbEntries(c, title, entries[1..], next).slots, title);
      if MovedTo(slot, entries[1..]) {
        var i :| 0 <= i < |entries[1..]| && entries[1..][i].id == slot.id;
        assert entries[i + 1].id == slot.id;
      } else {
        assert slot == After(entries[0].id);
      }
    }
  }

  lemma MovedFurther(slot: Cursor, a: seq<Entry>, b: seq<Entry>)
    requires MovedTo(slot, a) || MovedTo(slot, b)
    ensures MovedTo(slot, a + b)
  {
    if MovedTo(slot, a) {
      var i :| 0 <= i < |a| && a[i].id == slot.id;
      assert (a + b)[i].id == slot.id;
    } else {
      var i :| 0 <= i < |b| && b[i].id == slot.id;
      assert (a + b)[|a| + i].id == slot.id;
    }
  }

  /** An answer, good or bad, moves a slot exactly if it reaches an entry of the stream. */
  lemma {:induction false} AnswerMovesSlot(c: Codec, reply: Reply, a: Absorbed, s: StreamId)
    requires a.ok
    ensures var slot := SlotOf(Absorb(c, reply, a).slots, s);
            if ReachesEntry(c, reply, s) then MovedTo(slot, EntriesFor(reply, s)) else slot == SlotOf(a.slots, s)
    decreases |reply|
  {
    if reply != [] {
      var (title, entries) := reply[0];
      var b := AbsorbEntries(c, title, entries, a);
      EntriesMoveSlot(c, title, entries, a);
      AbsorbEntriesOk(c, title, entries, a);
      var mine, rest := if title == s then entries else [], EntriesFor(reply[1..], s);
      assert EntriesFor(reply, s) == mine + rest;
      if b.ok {
        AnswerMovesSlot(c, reply[1..], b, s);
        if MovedTo(SlotOf(Absorb(c, reply, a).slots, s), mine) || MovedTo(SlotOf(Absorb(c, reply, a).slots, s), rest) {
          MovedFurther(SlotOf(Absorb(c, reply, a).slots, s), mine, rest);
        }
      } else {
        BadStops(c, reply[1..], b);
        if MovedTo(SlotOf(b.slots, s), mine) {
          MovedFurther(SlotOf(b.slots, s), mine, rest);
        }
      }
    }
  }

  /** A stopped iterator without a read in flight. */
  predicate Halted(w: System) {
    w.it.phase.Failed? || w.it.phase == Done([])
  }

  /** A read that lost its race still is the read that followed the cursors. */
  predicate LostFollowsSlots(it: Iter) {
    it.phase.Done? ==>
      && DistinctAsks(it.phase.inFlight)
      && forall i | 0 <= i < |it.phase.inFlight| ::
           Slot(it, it.phase.inFlight[i].0).After? ==> it.phase.inFlight[i].1 == Slot(it, it.phase.inFlight[i].0).id
  }

  ghost predicate SlotInv(o: Options, w: System, s: StreamId, ran: bool) {
    && LostFollowsSlots(w.it)
    && (Slot(w.it, s) == EndOf(Slot(Start(o), s), Proj(Delivered(w), s)) <==> !ran)
    && (ran ==> Halted(w))
  }

  lemma {:induction false} DecodedEnd(c: Codec, s: StreamId, entries: seq<Entry>, es: seq<Event>)
    requires DecodeAll(c, s, entries) == Some(es) && entries != []
    ensures es != [] && es[|es| - 1].streamMessageId == entries[|entries| - 1].id
    decreases |entries|
  {
    if |entries| == 1 {
      assert entries[1..] == [];
    } else {
      DecodedEnd(c, s, entries[1..], es[1..]);
    }
  }

  lemma EndMoves(c: Codec, s: StreamId, start: Cursor, es: seq<Event>, entries: seq<Entry>, more: seq<Event>)
    requires DecodeAll(c, s, entries) == Some(more)
    ensures EndOf(start, es + more) == Advanced(EndOf(start, es), entries)
  {
    hide DecodeAll;
    if entries == [] {
      NothingDecodes(c, s, entries);
      assert es + more == es;
    } else {
      DecodedEnd(c, s, entries, more);
    }
  }

  /** A good answer to a waiting reader: delivery and cursor move together. */
  lemma GoodAnswer(c: Codec, o: Options, w: System, counts: seq<nat>, s: StreamId)
    requires w.it.phase.Blocked? && CanAnswer(w, counts) && AsksFollowSlots(w.it)
    requires w.it.last.One? && w.it.stream.Some? ==> w.it.stream == w.it.origin
    requires Slot(w.it, s) == EndOf(Slot(Start(o), s), Proj(Delivered(w), s))
    requires Decodes(c, Served(w.logs, w.it.phase.asks, counts))
    ensures var v := Do(c, w, Answer(counts));
            v.it.phase.Yielding? && Slot(v.it, s) == EndOf(Slot(Start(o), s), Proj(Delivered(v), s))
  {
    hide Decode, DecodeAll, Position, AbsorbEntries, EntriesFor, Proj, Decodes, EndOf, Advanced;
    var reply, a := Served(w.logs, w.it.phase.asks, counts), Absorbed(InitialSlots(w.it), [], true);
    AbsorbOk(c, reply, a);
    ProjOfNothing(s);
    var more := AbsorbEffect(c, reply, a, s);
    ProjConcat(w.yielded, Absorb(c, reply, a).events, s);
    assert w.yielded + [] == w.yielded && [] + more == more;
    EndMoves(c, s, Slot(Start(o), s), Proj(w.yielded, s), EntriesFor(reply, s), more);
    if w.it.last.One? && s != w.it.stream.value {
      OtherStreamsUntouched(c, w, counts, s);
      OtherStreamsSilent(c, w, counts, s);
    }
  }

  lemma OtherStreamsSilent(c: Codec, w: System, counts: seq<nat>, s: StreamId)
    requires w.it.phase.Blocked? && AsksFollowSlots(w.it) && w.it.last.One? && CanAnswer(w, counts)
    requires s != w.it.stream.value
    ensures EntriesFor(Served(w.logs, w.it.phase.asks, counts), s) == []
    ensures forall slot :: Advanced(slot, []) == slot
  {
    EntriesServed(Served(w.logs, w.it.phase.asks, counts), 0, s);
  }

  /** Entries served for a stream lie beyond the id that was asked for. */
  lemma ServedLiesBeyond(logs: map<StreamId, Log>, asks: Reads, counts: seq<nat>, s: StreamId, was: Cursor,
                         slot: Cursor)
    requires |counts| == |asks| && DistinctAsks(asks) && Sorted(LogOf(logs, s))
    requires forall i | 0 <= i < |asks| :: counts[i] <= Available(logs, asks[i])
    requires forall i | 0 <= i < |asks| && asks[i].0 == s && was.After? :: asks[i].1 == was.id
    requires MovedTo(slot, EntriesFor(Served(logs, asks, counts), s))
    ensures slot != was
  {
    hide EntriesFor;
    var from, n := ServedFor(logs, asks, counts, s);
    PositionExact(LogOf(logs, s), from);
  }

  /** An answer whose events are dropped: what was delivered stays, the record's slots may not. */
  lemma DroppedAnswer(c: Codec, w: System, counts: seq<nat>, s: StreamId)
    requires CanAnswer(w, counts) && AsksFollowSlots(w.it) && LostFollowsSlots(w.it) && SortedLogs(w.logs)
    requires w.it.phase.Done? || !Decodes(c, Served(w.logs, PendingReads(w.it), counts))
    ensures var v := Do(c, w, Answer(counts));
            && Halted(v) && Delivered(v) == Delivered(w)
            && (Slot(v.it, s) == Slot(w.it, s) <==> !RunsPast(c, w, Answer(counts), s))
  {
    hide Decode, DecodeAll, Position, AbsorbEntries, EntriesFor, Decodes, ReachesEntry, DistinctAsks, Absorb, Slice;
    var asks := PendingReads(w.it);
    var reply, a := Served(w.logs, asks, counts), Absorbed(InitialSlots(w.it), [], true);
    AbsorbOk(c, reply, a);
    assert w.yielded + [] == w.yielded;
    if w.it.last.Many? {
      AnswerMovesSlot(c, reply, a, s);
      if ReachesEntry(c, reply, s) {
        assert Sorted(LogOf(w.logs, s));
        PendingFollow(w, s);
        ServedLiesBeyond(w.logs, asks, counts, s, Slot(w.it, s), SlotOf(Absorb(c, reply, a).slots, s));
      }
    }
  }

  lemma PendingFollow(w: System, s: StreamId)
    requires AsksFollowSlots(w.it) && LostFollowsSlots(w.it)
    ensures var asks := PendingReads(w.it);
            && DistinctAsks(asks)
            && forall i | 0 <= i < |asks| && asks[i].0 == s && Slot(w.it, s).After? :: asks[i].1 == Slot(w.it, s).id
  {
  }

  /** Any other step moves neither. */
  lemma OtherStep(c: Codec, w: System, step: Step, s: StreamId)
    requires step.Answer? ==> !CanAnswer(w, step.counts)
    ensures var v := Do(c, w, step);
            && Delivered(v) == Delivered(w) && Slot(v.it, s) == Slot(w.it, s) && !RunsPast(c, w, step, s)
            && (Halted(w) ==> Halted(v))
  {
    hide Decode, DecodeAll, Position, Absorb;
    NextDelivers(c, w);
    SwitchKeepsSlots(w.it);
  }

  lemma LostKeepsFollowing(c: Codec, w: System, step: Step)
    requires AsksFollowSlots(w.it) && LostFollowsSlots(w.it)
    ensures LostFollowsSlots(Do(c, w, step).it)
  {
    hide Decode, DecodeAll, Position, Absorb;
  }

  lemma SlotStep(c: Codec, o: Options, w: System, step: Step, s: StreamId, ran: bool)
    requires SortedLogs(w.logs) && AsksFollowSlots(w.it) && SlotInv(o, w, s, ran)
    requires w.it.last.One? && w.it.stream.Some? ==> w.it.stream == w.it.origin
    ensures SlotInv(o, Do(c, w, step), s, ran || RunsPast(c, w, step, s))
  {
    hide Do, LostFollowsSlots, Slot, EndOf, Proj, Delivered, SortedLogs, AsksFollowSlots, Decodes, ReachesEntry, Served;
    LostKeepsFollowing(c, w, step);
    if step.Answer? && CanAnswer(w, step.counts) {
      AnswersPending(w, step.counts);
      hide CanAnswer;
      if w.it.phase.Blocked? && Decodes(c, Served(w.logs, PendingReads(w.it), step.counts)) {
        GoodAnswer(c, o, w, step.counts, s);
      } else {
        DroppedAnswer(c, w, step.counts, s);
      }
    } else {
      OtherStep(c, w, step, s);
    }
  }

  lemma AnswersPending(w: System, counts: seq<nat>)
    requires CanAnswer(w, counts)
    ensures PendingReads(w.it) != []
  {
  }

  lemma {:induction false} SlotRun(c: Codec, o: Options, logs: map<StreamId, Log>, keys: seq<StreamId>,
                                   steps: seq<Step>, s: StreamId)
    requires SortedLogs(logs) && DistinctKeys(keys)
    ensures var w := System(logs, keys, Start(o), []); SlotInv(o, Run(c, w, steps), s, RanPast(c, w, steps, s))
    decreases |steps|
  {
    if steps != [] {
      var w, earlier := System(logs, keys, Start(o), []), steps[..|steps| - 1];
      SlotRun(c, o, logs, keys, earlier, s);
      RunInv(c, o, logs, keys, earlier);
      hide SlotInv, Do, StreamOk, AskedOk;
      SlotStep(c, o, Run(c, w, earlier), steps[|steps| - 1], s, RanPast(c, w, earlier, s));
    }
  }

  /**
   In every run and for every stream the cursor points at the end of what was delivered, unless an
   answer was dropped after an entry of the stream had been decoded: one with a later entry that
   does not decode, or one that came after its read had lost against an update.
   */
  lemma CursorIsEndExactly(c: Codec, o: Options, logs: map<StreamId, Log>, keys: seq<StreamId>, steps: seq<Step>,
                           s: StreamId)
    requires SortedLogs(logs) && DistinctKeys(keys)
    ensures var w0 := System(logs, keys, Start(o), []); var w := Run(c, w0, steps);
            Slot(w.it, s) == EndOf(Slot(Start(o), s), Proj(Delivered(w), s)) <==> !RanPast(c, w0, steps, s)
  {
    SlotRun(c, o, logs, keys, steps, s);
  }

  /**
   The answer to a read that loses against an update moves a stream's slot in the caller's record
   exactly if it reaches an entry of the stream, which nobody then receives.
   */
  lemma LostReadMovesTheRecord(c: Codec, w: System, change: Step, u: System, counts: seq<nat>, s: StreamId)
    requires w.it.phase.Blocked? && w.it.last.Many? && AsksFollowSlots(w.it) && SortedLogs(w.logs)
    requires (change.AddStream? || change.RemoveStream?) && u == Do(c, w, change) && CanAnswer(u, counts)
    ensures var v := Do(c, u, Answer(counts));
            && Halted(v) && Delivered(v) == Delivered(w)
            && (Slot(v.it, s) != Slot(w.it, s) <==> ReachesEntry(c, Served(u.logs, PendingReads(u.it), counts), s))
  {
    hide Do, Slot, Delivered, CanAnswer, ReachesEntry, SortedLogs, LostFollowsSlots, AsksFollowSlots, Served, Halted;
    ChangeLosesTheRead(c, w, change);
    LateAnswer(c, u, counts, s);
  }

  lemma LateAnswer(c: Codec, w: System, counts: seq<nat>, s: StreamId)
    requires w.it.phase.Done? && w.it.last.Many? && LostFollowsSlots(w.it) && SortedLogs(w.logs) && CanAnswer(w, counts)
    ensures var v := Do(c, w, Answer(counts));
            && Halted(v) && Delivered(v) == Delivered(w)
            && (Slot(v.it, s) != Slot(w.it, s) <==> ReachesEntry(c, Served(w.logs, PendingReads(w.it), counts), s))
  {
    hide Do, Slot, Delivered, CanAnswer, ReachesEntry, SortedLogs, LostFollowsSlots, Decodes, Served;
    DroppedAnswer(c, w, counts, s);
  }

  lemma ChangeLosesTheRead(c: Codec, w: System, change: Step)
    requires w.it.phase.Blocked? && AsksFollowSlots(w.it) && (change.AddStream? || change.RemoveStream?)
    ensures var v := Do(c, w, change);
            && LostFollowsSlots(v.it)
            && v.it.phase == Done(w.it.phase.asks) && v.logs == w.logs && v.it.last == w.it.last
            && Delivered(v) == Delivered(w) && forall s :: Slot(v.it, s) == Slot(w.it, s)
  {
  }
}
