/**
 What every run of the stream iterator delivers: for each stream a contiguous part of its log, in
 order and without repeats, with the cursor at its end; and when the control flow is recognised.
 */
module StreamDelivery {
  import opened Wrappers
  import opened Messages
  import opened StreamRead

  // ---------- positions in a sorted log ----------

  lemma {:induction false} PositionExact(log: Log, id: nat)
    requires Sorted(log)
    ensures forall i | 0 <= i < |log| :: log[i].id <= id <==> i < Position(log, id)
    decreases |log|
  {
    if log != [] && log[|log| - 1].id > id {
      var shorter := log[..|log| - 1];
      PositionExact(shorter, id);
      forall i | 0 <= i < |log| ensures log[i].id <= id <==> i < Position(log, id) {
        if i < |log| - 1 {
          assert shorter[i] == log[i];
        }
      }
    }
  }

  lemma PositionOfEntry(log: Log, k: nat)
    requires Sorted(log) && k < |log|
    ensures Position(log, log[k].id) == k + 1
  {
    PositionExact(log, log[k].id);
    if k + 1 < |log| {
      assert log[k].id < log[k + 1].id;
    }
  }

  lemma PositionAppend(log: Log, e: Entry, id: nat)
    ensures Position(log + [e], id) == if e.id <= id then |log| + 1 else Position(log, id)
  {
    assert (log + [e])[..|log|] == log && (log + [e])[|log|] == e;
  }

  lemma SortedAppend(log: Log, e: Entry)
    requires Sorted(log) && e.id > LastId(log)
    ensures Sorted(log + [e])
  {
    var longer := log + [e];
    forall i, j | 0 <= i < j < |longer| ensures longer[i].id < longer[j].id {
      assert longer[i] == log[i];
      if j < |log| {
        assert longer[j] == log[j];
      } else {
        assert i < |log| - 1 ==> log[i].id < log[|log| - 1].id;
      }
    }
    forall i | 0 <= i < |longer| ensures longer[i].id >= 1 {
      assert i < |log| ==> longer[i] == log[i];
    }
  }

  lemma AppendKeepsSorted(log: Log, e: Entry)
    requires Sorted(log) && e.id > LastId(log)
    ensures Sorted(log + [e])
    ensures forall id: nat :: Position(log + [e], id) == if e.id <= id then |log| + 1 else Position(log, id)
  {
    SortedAppend(log, e);
    hide Position, Sorted;
    forall id: nat ensures Position(log + [e], id) == if e.id <= id then |log| + 1 else Position(log, id) {
      PositionAppend(log, e, id);
    }
  }

  // ---------- one stream ----------

  /** The events of one stream, in order. */
  function Proj(es: seq<Event>, s: StreamId): seq<Event> {
    if es == [] then [] else (if es[0].streamId == s then [es[0]] else []) + Proj(es[1..], s)
  }

  lemma {:induction false} ProjConcat(a: seq<Event>, b: seq<Event>, s: StreamId)
    ensures Proj(a + b, s) == Proj(a, s) + Proj(b, s)
  {
    if a == [] {
      assert a + b == b;
    } else {
      ProjConcat(a[1..], b, s);
      assert (a + b)[1..] == a[1..] + b && (a + b)[0] == a[0];
      var here := if a[0].streamId == s then [a[0]] else [];
      assert here + (Proj(a[1..], s) + Proj(b, s)) == (here + Proj(a[1..], s)) + Proj(b, s);
    }
  }

  lemma {:induction false} DecodedBelong(c: Codec, s: StreamId, entries: seq<Entry>, es: seq<Event>, r: StreamId)
    requires DecodeAll(c, s, entries) == Some(es)
    ensures Proj(es, r) == if r == s then es else []
    decreases |entries|
  {
    if entries != [] {
      DecodedBelong(c, s, entries[1..], es[1..], r);
    }
  }

  /** The entries of the log after position `a` up to `b` are exactly these events. */
  predicate Delivers(c: Codec, s: StreamId, log: Log, a: nat, b: nat, es: seq<Event>) {
    a <= b <= |log| && DecodeAll(c, s, log[a..b]) == Some(es)
  }

  /**
   `es` is what was read of a stream whose cursor began at `start` and now is `slot`: everything
   after a concrete start, or everything from position `first` of the log on.
   */
  predicate Tracks(c: Codec, s: StreamId, log: Log, start: Cursor, first: nat, slot: Cursor, es: seq<Event>) {
    match slot
    case Tail => start.Tail? && es == []
    case After(h) =>
      && (start.After? ==> start.id <= h && Delivers(c, s, log, Position(log, start.id), Position(log, h), es))
      && (start.Tail? ==> first < Position(log, h) && Delivers(c, s, log, first, Position(log, h), es))
      && (start == slot || (Position(log, h) > 0 && log[Position(log, h) - 1].id == h))
  }

  lemma TracksStart(c: Codec, s: StreamId, log: Log, start: Cursor, first: nat)
    ensures Tracks(c, s, log, start, first, start, [])
  {
    if start.After? {
      assert log[Position(log, start.id)..Position(log, start.id)] == [];
    }
  }

  lemma TracksAppend(c: Codec, s: StreamId, log: Log, e: Entry, start: Cursor, first: nat, slot: Cursor, es: seq<Event>)
    requires Sorted(log) && e.id > LastId(log) && Tracks(c, s, log, start, first, slot, es)
    ensures Tracks(c, s, log + [e], start, first, slot, es)
  {
    hide Decode, DecodeAll;
    if slot.After? {
      PositionAppend(log, e, slot.id);
      if start == slot {
        hide Position;
        EmptySlice(log, Position(log, slot.id));
        EmptySlice(log + [e], Position(log + [e], slot.id));
      } else {
        var b := Position(log, slot.id);
        assert log[b - 1].id <= LastId(log) && (log + [e])[b - 1] == log[b - 1];
        if start.After? {
          PositionAppend(log, e, start.id);
        }
        hide Position;
        SliceAppend(c, s, log, e, if start.After? then Position(log, start.id) else first, b, es);
      }
    }
  }

  lemma EmptySlice(log: Log, n: nat)
    requires n <= |log|
    ensures log[n..n] == []
  {
  }

  lemma SliceAppend(c: Codec, s: StreamId, log: Log, e: Entry, a: nat, b: nat, es: seq<Event>)
    requires Delivers(c, s, log, a, b, es)
    ensures Delivers(c, s, log + [e], a, b, es)
  {
    hide Decode, DecodeAll;
    assert (log + [e])[a..b] == log[a..b];
  }

  lemma {:induction false} DecodedLength(c: Codec, s: StreamId, entries: seq<Entry>, es: seq<Event>)
    requires DecodeAll(c, s, entries) == Some(es)
    ensures |es| == |entries|
    decreases |entries|
  {
    if entries != [] {
      DecodedLength(c, s, entries[1..], es[1..]);
    }
  }

  /** As long as nothing was read, or with a concrete start, the position of the first read is open. */
  lemma TracksFromAnywhere(c: Codec, s: StreamId, log: Log, start: Cursor, first: nat, first': nat, slot: Cursor,
                           es: seq<Event>)
    requires Tracks(c, s, log, start, first, slot, es) && (start.After? || es == [])
    ensures Tracks(c, s, log, start, first', slot, es)
    ensures start.Tail? ==> slot.Tail?
  {
    if start.Tail? && slot.After? {
      DecodedLength(c, s, log[first..Position(log, slot.id)], es);
    }
  }

  lemma DeliversMore(c: Codec, s: StreamId, log: Log, a: nat, p: nat, n: nat, es: seq<Event>, more: seq<Event>)
    requires Delivers(c, s, log, a, p, es) && Delivers(c, s, log, p, p + n, more)
    ensures Delivers(c, s, log, a, p + n, es + more)
  {
    assert log[a..p + n] == log[a..p] + log[p..p + n];
    DecodeAllConcat(c, s, log[a..p], log[p..p + n]);
  }

  lemma TracksReadFromTail(c: Codec, s: StreamId, log: Log, from: nat, n: nat, more: seq<Event>)
    requires Sorted(log) && 0 < n <= |log| - Position(log, from)
    requires Delivers(c, s, log, Position(log, from), Position(log, from) + n, more)
    ensures Tracks(c, s, log, Tail, Position(log, from), After(log[Position(log, from) + n - 1].id), more)
  {
    hide Decode, DecodeAll;
    PositionOfEntry(log, Position(log, from) + n - 1);
  }

  /** Reading on from a concrete cursor: the next `n` entries extend what was delivered. */
  lemma TracksReadOn(c: Codec, s: StreamId, log: Log, start: Cursor, first: nat, from: nat, es: seq<Event>,
                     n: nat, more: seq<Event>)
    requires Sorted(log) && Tracks(c, s, log, start, first, After(from), es)
    requires 0 < n <= |log| - Position(log, from)
    requires Delivers(c, s, log, Position(log, from), Position(log, from) + n, more)
    ensures Tracks(c, s, log, start, first, After(log[Position(log, from) + n - 1].id), es + more)
  {
    hide Decode, DecodeAll;
    var p := Position(log, from);
    var h := log[p + n - 1].id;
    PositionOfEntry(log, p + n - 1);
    assert h > from by {
      PositionExact(log, from);
    }
    DeliversMore(c, s, log, if start.After? then Position(log, start.id) else first, p, n, es, more);
  }

  // ---------- absorbing a reply ----------

  /** All entries of the reply that belong to one stream. */
  function EntriesFor(reply: Reply, s: StreamId): seq<Entry> {
    if reply == [] then [] else (if reply[0].0 == s then reply[0].1 else []) + EntriesFor(reply[1..], s)
  }

  lemma {:induction false} AbsorbEntriesEffect(c: Codec, title: StreamId, entries: seq<Entry>, a: Absorbed)
    requires AbsorbEntries(c, title, entries, a).ok
    ensures a.ok && DecodeAll(c, title, entries).Some?
    ensures AbsorbEntries(c, title, entries, a) ==
            Absorbed(if entries == [] then a.slots else a.slots[title := After(entries[|entries| - 1].id)],
                     a.events + DecodeAll(c, title, entries).value, true)
    decreases |entries|
  {
    if entries == [] {
      assert a.events + [] == a.events;
    } else {
      var e := Decode(c, title, entries[0]).value;
      var b := Absorbed(a.slots[title := After(entries[0].id)], a.events + [e], true);
      AbsorbEntriesEffect(c, title, entries[1..], b);
      var rest := DecodeAll(c, title, entries[1..]).value;
      assert a.events + [e] + rest == a.events + ([e] + rest);
    }
  }

  /** A cursor after reading some entries past it. */
  function Advanced(slot: Cursor, entries: seq<Entry>): Cursor {
    if entries == [] then slot else After(entries[|entries| - 1].id)
  }

  lemma AbsorbEntriesFor(c: Codec, title: StreamId, entries: seq<Entry>, a: Absorbed, s: StreamId)
    returns (es: seq<Event>)
    requires AbsorbEntries(c, title, entries, a).ok
    ensures var mine, b := (if title == s then entries else []), AbsorbEntries(c, title, entries, a);
            && DecodeAll(c, s, mine) == Some(es)
            && Proj(b.events, s) == Proj(a.events, s) + es
            && SlotOf(b.slots, s) == Advanced(SlotOf(a.slots, s), mine)
  {
    AbsorbEntriesEffect(c, title, entries, a);
    var all := DecodeAll(c, title, entries).value;
    DecodedBelong(c, title, entries, all, s);
    ProjConcat(a.events, all, s);
    es := Proj(all, s);
  }

  lemma AdvancedTwice(slot: Cursor, a: seq<Entry>, b: seq<Entry>)
    ensures Advanced(Advanced(slot, a), b) == Advanced(slot, a + b)
  {
  }

  /** Seen from one stream, a reply that decodes adds its entries and moves its slot to the last. */
  lemma {:induction false} AbsorbEffect(c: Codec, reply: Reply, a: Absorbed, s: StreamId) returns (more: seq<Event>)
    requires Absorb(c, reply, a).ok
    ensures DecodeAll(c, s, EntriesFor(reply, s)) == Some(more)
    ensures Proj(Absorb(c, reply, a).events, s) == Proj(a.events, s) + more
    ensures SlotOf(Absorb(c, reply, a).slots, s) == Advanced(SlotOf(a.slots, s), EntriesFor(reply, s))
    decreases |reply|
  {
    hide Decode, AbsorbEntries, Proj;
    if reply == [] {
      more := [];
    } else {
      var b := AbsorbEntries(c, reply[0].0, reply[0].1, a);
      if !b.ok {
        BadStops(c, reply[1..], b);
      }
      var mine := if reply[0].0 == s then reply[0].1 else [];
      var first := AbsorbEntriesFor(c, reply[0].0, reply[0].1, a, s);
      var rest := AbsorbEffect(c, reply[1..], b, s);
      more := first + rest;
      DecodeAllConcat(c, s, mine, EntriesFor(reply[1..], s));
      AdvancedTwice(SlotOf(a.slots, s), mine, EntriesFor(reply[1..], s));
      assert Proj(a.events, s) + first + rest == Proj(a.events, s) + more;
    }
  }

  predicate DistinctAsks(asks: Reads) {
    forall i, j | 0 <= i < j < |asks| :: asks[i].0 != asks[j].0
  }

  lemma {:induction false} EntriesServed(reply: Reply, i: nat, s: StreamId)
    requires forall j, k | 0 <= j < k < |reply| :: reply[j].0 != reply[k].0
    ensures i < |reply| && reply[i].0 == s ==> EntriesFor(reply, s) == reply[i].1
    ensures (forall j | 0 <= j < |reply| :: reply[j].0 != s) ==> EntriesFor(reply, s) == []
    decreases |reply|
  {
    if reply != [] {
      EntriesServed(reply[1..], if i == 0 then 0 else i - 1, s);
      if i == 0 && reply[0].0 == s {
        assert EntriesFor(reply[1..], s) == [];
      }
    }
  }

  // ---------- the invariant ----------

  /** What was yielded, and the part of the current batch still to be yielded. */
  function Delivered(w: System): seq<Event> {
    w.yielded + if w.it.phase.Yielding? then w.it.phase.batch else []
  }

  function Slot(it: Iter, s: StreamId): Cursor {
    match it.last
    case One(c) => if it.origin == Some(s) then c else Tail
    case Many(slots) => SlotOf(slots, s)
  }

  predicate Live(it: Iter) {
    it.phase.Created? || it.phase.Blocked? || it.phase.Yielding?
  }

  predicate DistinctKeys(keys: seq<StreamId>) {
    forall i, j | 0 <= i < j < |keys| :: keys[i] != keys[j]
  }

  ghost predicate SortedLogs(logs: map<StreamId, Log>) {
    forall s :: Sorted(LogOf(logs, s))
  }

  ghost predicate TracksSome(c: Codec, s: StreamId, log: Log, start: Cursor, first: nat, es: seq<Event>) {
    exists slot :: Tracks(c, s, log, start, first, slot, es)
  }

  /** One stream's part of the invariant: exact while the iterator lives, some cursor afterwards. */
  ghost predicate StreamOk(c: Codec, o: Options, w: System, s: StreamId, first: nat) {
    var log, es := LogOf(w.logs, s), Proj(Delivered(w), s);
    && (Live(w.it) ==> Tracks(c, s, log, Slot(Start(o), s), first, Slot(w.it, s), es))
    && TracksSome(c, s, log, Slot(Start(o), s), first, es)
  }

  // ---------- where reading from `$` begins ----------

  /** A read is issued. */
  predicate Issues(w: System, v: System) {
    !w.it.phase.Blocked? && v.it.phase.Blocked?
  }

  predicate AsksFor(asks: Reads, s: StreamId) {
    exists i | 0 <= i < |asks| :: asks[i].0 == s
  }

  /**
   Of one stream: how long its log was when the read that first returned one of its entries was
   issued, and when the latest read that asked for it was.
   */
  datatype Note = Note(first: nat, asked: nat)

  type Book = StreamId -> Note

  function Noted(w: System, v: System, s: StreamId, n: Note): Note {
    Note(if Proj(Delivered(w), s) == [] then n.asked else n.first,
         if Issues(w, v) && AsksFor(v.it.phase.asks, s) then |LogOf(w.logs, s)| else n.asked)
  }

  function NoteAfter(c: Codec, w: System, steps: seq<Step>, s: StreamId): Note
    decreases |steps|
  {
    if steps == [] then Note(0, 0)
    else
      var before := Run(c, w, steps[..|steps| - 1]);
      Noted(before, Do(c, before, steps[|steps| - 1]), s, NoteAfter(c, w, steps[..|steps| - 1], s))
  }

  /** A read in flight that asks for the end of the stream asks for the end that was noted. */
  predicate AskedOk(w: System, s: StreamId, asked: nat) {
    w.it.phase.Blocked? && Slot(w.it, s).Tail? ==>
      forall i | 0 <= i < |w.it.phase.asks| && w.it.phase.asks[i].0 == s ::
        w.it.phase.asks[i].1 <= LastId(LogOf(w.logs, s)) && Position(LogOf(w.logs, s), w.it.phase.asks[i].1) == asked
  }

  /** A read in flight continues from the cursors, whatever mode it was issued in. */
  predicate AsksFollowSlots(it: Iter) {
    it.phase.Blocked? ==>
      var asks := it.phase.asks;
      && DistinctAsks(asks)
      && (forall i | 0 <= i < |asks| :: Slot(it, asks[i].0).After? ==> asks[i].1 == Slot(it, asks[i].0).id)
      && (it.last.One? ==> it.stream.Some? && |asks| == 1 && asks[0].0 == it.stream.value)
  }

  ghost predicate Inv(c: Codec, o: Options, w: System, book: Book) {
    && SortedLogs(w.logs) && DistinctKeys(w.keys)
    && w.it.origin == o.stream
    && (w.it.last.One? && w.it.stream.Some? ==> w.it.stream == w.it.origin)
    && AsksFollowSlots(w.it)
    && (forall s :: StreamOk(c, o, w, s, book(s).first))
    && (forall s :: AskedOk(w, s, book(s).asked))
  }

  lemma InitInv(c: Codec, o: Options, logs: map<StreamId, Log>, keys: seq<StreamId>, book: Book)
    requires SortedLogs(logs) && DistinctKeys(keys)
    ensures Inv(c, o, System(logs, keys, Start(o), []), book)
  {
    hide Decode, DecodeAll, Position, Tracks, Sorted;
    var w := System(logs, keys, Start(o), []);
    forall s ensures StreamOk(c, o, w, s, book(s).first) {
      TracksStart(c, s, LogOf(logs, s), Slot(Start(o), s), book(s).first);
    }
  }

  /** The next note of a stream fits the state before the step as well. */
  lemma Renoted(c: Codec, o: Options, w: System, v: System, s: StreamId, n: Note)
    requires StreamOk(c, o, w, s, n.first)
    ensures StreamOk(c, o, w, s, Noted(w, v, s, n).first)
    ensures Live(w.it) && Slot(Start(o), s).Tail? && Slot(w.it, s).Tail? ==> Noted(w, v, s, n).first == n.asked
  {
    hide Decode, DecodeAll, Proj, Position;
    var log, es, start, first := LogOf(w.logs, s), Proj(Delivered(w), s), Slot(Start(o), s), Noted(w, v, s, n).first;
    if es == [] {
      if Live(w.it) {
        TracksFromAnywhere(c, s, log, start, n.first, first, Slot(w.it, s), es);
      }
      var slot :| Tracks(c, s, log, start, n.first, slot, es);
      TracksFromAnywhere(c, s, log, start, n.first, first, slot, es);
    }
  }

  /** Nothing delivered, no slot moved. */
  lemma SameDelivery(c: Codec, o: Options, w: System, v: System, book: Book, next: Book)
    requires Inv(c, o, w, book) && v.logs == w.logs && Delivered(v) == Delivered(w)
    requires DistinctKeys(v.keys) && v.it.origin == w.it.origin && AsksFollowSlots(v.it)
    requires v.it.last.One? && v.it.stream.Some? ==> v.it.stream == v.it.origin
    requires Live(v.it) ==> Live(w.it) && forall s :: Slot(v.it, s) == Slot(w.it, s)
    requires forall s :: next(s) == Noted(w, v, s, book(s)) && AskedOk(v, s, next(s).asked)
    ensures Inv(c, o, v, next)
  {
    hide Decode, DecodeAll, Proj, Position, Noted, AskedOk;
    forall s ensures StreamOk(c, o, v, s, next(s).first) {
      Renoted(c, o, w, v, s, book(s));
    }
  }

  lemma TracksSomeAppend(c: Codec, s: StreamId, log: Log, e: Entry, start: Cursor, first: nat, es: seq<Event>)
    requires Sorted(log) && e.id > LastId(log) && TracksSome(c, s, log, start, first, es)
    ensures TracksSome(c, s, log + [e], start, first, es)
  {
    var slot :| Tracks(c, s, log, start, first, slot, es);
    TracksAppend(c, s, log, e, start, first, slot, es);
  }

  /** An entry appended to the stream's log, or to another one. */
  lemma StreamOkAppend(c: Codec, o: Options, w: System, s: StreamId, gap: nat, record: Record, r: StreamId, first: nat)
    requires SortedLogs(w.logs) && StreamOk(c, o, w, r, first)
    ensures StreamOk(c, o, Do(c, w, Append(s, gap, record)), r, first)
  {
    hide Decode, DecodeAll, Proj, Position, Tracks;
    var v, log := Do(c, w, Append(s, gap, record)), LogOf(w.logs, s);
    var e := Entry(LastId(log) + 1 + gap, record);
    if r == s {
      TracksSomeAppend(c, s, log, e, Slot(Start(o), s), first, Proj(Delivered(w), s));
      if Live(w.it) {
        TracksAppend(c, s, log, e, Slot(Start(o), s), first, Slot(w.it, s), Proj(Delivered(w), s));
      }
    } else {
      assert LogOf(v.logs, r) == LogOf(w.logs, r);
    }
  }

  lemma AskedOkAppend(c: Codec, w: System, s: StreamId, gap: nat, record: Record, r: StreamId, asked: nat)
    requires SortedLogs(w.logs) && AskedOk(w, r, asked)
    ensures AskedOk(Do(c, w, Append(s, gap, record)), r, asked)
  {
    AppendKeepsSorted(LogOf(w.logs, s), Entry(LastId(LogOf(w.logs, s)) + 1 + gap, record));
    hide Position, Slot;
  }

  lemma AppendInv(c: Codec, o: Options, w: System, s: StreamId, gap: nat, record: Record, book: Book, next: Book)
    requires Inv(c, o, w, book)
    requires forall r :: next(r) == Noted(w, Do(c, w, Append(s, gap, record)), r, book(r))
    ensures Inv(c, o, Do(c, w, Append(s, gap, record)), next)
  {
    hide Decode, DecodeAll, Proj, Position, StreamOk, AskedOk, Sorted;
    var v, log := Do(c, w, Append(s, gap, record)), LogOf(w.logs, s);
    AppendKeepsSorted(log, Entry(LastId(log) + 1 + gap, record));
    forall r ensures Sorted(LogOf(v.logs, r)) {
      assert r != s ==> LogOf(v.logs, r) == LogOf(w.logs, r);
    }
    forall r ensures StreamOk(c, o, v, r, next(r).first) && AskedOk(v, r, next(r).asked) {
      Renoted(c, o, w, v, r, book(r));
      StreamOkAppend(c, o, w, s, gap, record, r, next(r).first);
      AskedOkAppend(c, w, s, gap, record, r, book(r).asked);
    }
  }

  lemma SwitchKeepsSlots(it: Iter)
    ensures forall s :: Slot(SwitchStreams(it), s) == Slot(it, s)
  {
  }

  lemma IssuedAsks(logs: map<StreamId, Log>, keys: seq<StreamId>, it: Iter, i: nat)
    requires LoopTop(logs, keys, it).phase.Blocked? && i < |LoopTop(logs, keys, it).phase.asks|
    requires it.last.One? && it.stream.Some? ==> it.stream == it.origin
    ensures var u := LoopTop(logs, keys, it); var ask := u.phase.asks[i];
            ask.1 == Resolve(LogOf(logs, ask.0), Slot(u, ask.0))
  {
  }

  lemma PositionOfLast(log: Log)
    ensures Position(log, LastId(log)) == |log|
  {
  }

  lemma LoopTopInv(c: Codec, o: Options, w: System, v: System, book: Book, next: Book)
    requires Inv(c, o, w, book) && Live(w.it) && !w.it.phase.Blocked? && Delivered(w) == w.yielded
    requires v == w.(it := LoopTop(w.logs, w.keys, w.it))
    requires forall s :: next(s) == Noted(w, v, s, book(s))
    ensures Inv(c, o, v, next)
  {
    hide Decode, DecodeAll, Proj, Position, StreamOk;
    SwitchKeepsSlots(w.it);
    if v.it.phase.Blocked? && v.it.last.Many? {
      assert v.it.phase.asks == ReadsOf(w.logs, w.keys, v.it.last.slots);
    }
    forall s ensures AskedOk(v, s, next(s).asked) {
      if v.it.phase.Blocked? && Slot(v.it, s).Tail? {
        PositionOfLast(LogOf(w.logs, s));
        forall i | 0 <= i < |v.it.phase.asks| && v.it.phase.asks[i].0 == s
          ensures v.it.phase.asks[i].1 == LastId(LogOf(w.logs, s))
        {
          IssuedAsks(w.logs, w.keys, w.it, i);
        }
      }
    }
    hide Noted, AskedOk;
    SameDelivery(c, o, w, v, book, next);
  }

  /** Handing out an event only moves it from the batch to the yielded ones. */
  lemma NextDelivers(c: Codec, w: System)
    ensures Delivered(Do(c, w, Next)) == Delivered(w)
  {
    if w.it.phase.Yielding? && w.it.phase.batch != [] {
      var batch := w.it.phase.batch;
      assert w.yielded + [batch[0]] + batch[1..] == w.yielded + batch;
    } else {
      assert w.yielded + [] == w.yielded;
    }
  }

  lemma NextInv(c: Codec, o: Options, w: System, book: Book, next: Book)
    requires Inv(c, o, w, book)
    requires forall s :: next(s) == Noted(w, Do(c, w, Next), s, book(s))
    ensures Inv(c, o, Do(c, w, Next), next)
  {
    hide Decode, DecodeAll, Proj, Position, StreamOk;
    NextDelivers(c, w);
    if w.it.phase.Created? || w.it.phase == Yielding([]) {
      assert w.yielded + [] == w.yielded;
      LoopTopInv(c, o, w, Do(c, w, Next), book, next);
    } else {
      SameDelivery(c, o, w, Do(c, w, Next), book, next);
    }
  }

  /** What the answer holds for one stream: the next entries after its cursor, or nothing. */
  lemma ServedFor(logs: map<StreamId, Log>, asks: Reads, counts: seq<nat>, s: StreamId) returns (from: nat, n: nat)
    requires |counts| == |asks| && DistinctAsks(asks)
    requires forall i | 0 <= i < |asks| :: counts[i] <= Available(logs, asks[i])
    ensures n <= Available(logs, (s, from))
    ensures EntriesFor(Served(logs, asks, counts), s) == Slice(logs, (s, from), n)
    ensures n > 0 ==> (s, from) in asks
  {
    if i :| 0 <= i < |asks| && asks[i].0 == s {
      EntriesServed(Served(logs, asks, counts), i, s);
      from, n := asks[i].1, counts[i];
      assert asks[i] == (s, from);
    } else {
      EntriesServed(Served(logs, asks, counts), 0, s);
      from, n := 0, 0;
      assert Slice(logs, (s, from), 0) == [];
    }
  }

  /** The part of an answer that belongs to one stream continues from its cursor. */
  lemma SliceReadsOn(c: Codec, s: StreamId, log: Log, start: Cursor, first: nat, slot: Cursor, es: seq<Event>,
                     from: nat, n: nat, got: seq<Entry>, more: seq<Event>)
    requires Sorted(log) && Tracks(c, s, log, start, first, slot, es)
    requires n <= |log| - Position(log, from)
    requires n > 0 ==> if slot.After? then from == slot.id else first == Position(log, from)
    requires got == log[Position(log, from)..Position(log, from) + n]
    requires DecodeAll(c, s, got) == Some(more)
    ensures Tracks(c, s, log, start, first, Advanced(slot, got), es + more)
  {
    hide Decode, Position;
    if n == 0 {
      assert got == [] && more == [];
      assert es + more == es;
    } else if slot.Tail? {
      assert es + more == more;
      TracksReadFromTail(c, s, log, from, n, more);
    } else {
      TracksReadOn(c, s, log, start, first, from, es, n, more);
    }
  }

  /** One stream's view of an answer that decodes. */
  lemma AnswerTracks(c: Codec, s: StreamId, logs: map<StreamId, Log>, asks: Reads, counts: seq<nat>,
                     a: Absorbed, start: Cursor, first: nat, before: seq<Event>)
    requires |counts| == |asks| && DistinctAsks(asks)
    requires forall i | 0 <= i < |asks| :: counts[i] <= Available(logs, asks[i])
    requires forall i | 0 <= i < |asks| && asks[i].0 == s ::
               match SlotOf(a.slots, s)
               case After(h) => asks[i].1 == h
               case Tail => first == Position(LogOf(logs, s), asks[i].1)
    requires Sorted(LogOf(logs, s)) && Tracks(c, s, LogOf(logs, s), start, first, SlotOf(a.slots, s), Proj(before, s))
    requires a.events == [] && Absorb(c, Served(logs, asks, counts), a).ok
    ensures var b := Absorb(c, Served(logs, asks, counts), a);
            Tracks(c, s, LogOf(logs, s), start, first, SlotOf(b.slots, s), Proj(before + b.events, s))
  {
    hide Decode, DecodeAll, AbsorbEntries, Position, Tracks, Sorted, EntriesFor;
    var reply := Served(logs, asks, counts);
    var more := AbsorbEffect(c, reply, a, s);
    ProjConcat(before, Absorb(c, reply, a).events, s);
    assert Proj(a.events, s) == [] && [] + more == more;
    var from, n := ServedFor(logs, asks, counts, s);
    SliceReadsOn(c, s, LogOf(logs, s), start, first, SlotOf(a.slots, s), Proj(before, s), from, n,
                 EntriesFor(reply, s), more);
  }

  /** The slots the answer loop starts from. */
  function InitialSlots(it: Iter): map<StreamId, Cursor> {
    match it.last
    case One(cursor) => map[if it.stream.Some? then it.stream.value else "" := cursor]
    case Many(slots) => slots
  }

  /** In a single-stream read, other streams get nothing. */
  lemma OtherStreamsUntouched(c: Codec, w: System, counts: seq<nat>, s: StreamId)
    requires w.it.phase.Blocked? && AsksFollowSlots(w.it) && w.it.last.One? && CanAnswer(w, counts)
    requires s != w.it.stream.value
    requires Absorb(c, Served(w.logs, w.it.phase.asks, counts), Absorbed(InitialSlots(w.it), [], true)).ok
    ensures var reply := Served(w.logs, w.it.phase.asks, counts);
            SlotOf(Absorb(c, reply, Absorbed(InitialSlots(w.it), [], true)).slots, s) == Tail
  {
    var reply := Served(w.logs, w.it.phase.asks, counts);
    EntriesServed(reply, 0, s);
    var more := AbsorbEffect(c, reply, Absorbed(InitialSlots(w.it), [], true), s);
  }

  lemma SortedLogAt(logs: map<StreamId, Log>, s: StreamId)
    requires SortedLogs(logs)
    ensures Sorted(LogOf(logs, s))
  {
  }

  lemma AnswerStreamOk(c: Codec, o: Options, w: System, counts: seq<nat>, s: StreamId, first: nat)
    requires SortedLogs(w.logs) && AsksFollowSlots(w.it) && StreamOk(c, o, w, s, first)
    requires w.it.last.One? && w.it.stream.Some? ==> w.it.stream == w.it.origin
    requires Slot(w.it, s).Tail? ==> AskedOk(w, s, first)
    requires w.it.phase.Blocked? && CanAnswer(w, counts)
    requires Absorb(c, Served(w.logs, w.it.phase.asks, counts), Absorbed(InitialSlots(w.it), [], true)).ok
    ensures StreamOk(c, o, Do(c, w, Answer(counts)), s, first)
  {
    hide Decode, DecodeAll, Proj, Position, Absorb, Tracks, Sorted, LogOf, SortedLogs;
    assert Sorted(LogOf(w.logs, s)) by {
      SortedLogAt(w.logs, s);
    }
    var a := Absorbed(InitialSlots(w.it), [], true);
    assert w.yielded + [] == w.yielded;
    AnswerTracks(c, s, w.logs, w.it.phase.asks, counts, a, Slot(Start(o), s), first, w.yielded);
    if w.it.last.One? && s != w.it.stream.value {
      OtherStreamsUntouched(c, w, counts, s);
    }
  }

  lemma TailStaysTail(c: Codec, o: Options, w: System, s: StreamId, first: nat)
    requires StreamOk(c, o, w, s, first) && Live(w.it) && Slot(w.it, s).Tail?
    ensures Slot(Start(o), s).Tail?
  {
  }

  lemma AnswerInv(c: Codec, o: Options, w: System, counts: seq<nat>, book: Book, next: Book)
    requires Inv(c, o, w, book) && CanAnswer(w, counts)
    requires forall s :: next(s) == Noted(w, Do(c, w, Answer(counts)), s, book(s))
    ensures Inv(c, o, Do(c, w, Answer(counts)), next)
  {
    hide Decode, DecodeAll, Proj, Position, Absorb, StreamOk;
    var v := Do(c, w, Answer(counts));
    if Live(v.it) && w.it.phase.Blocked? {
      forall s ensures StreamOk(c, o, v, s, next(s).first) {
        Renoted(c, o, w, v, s, book(s));
        if Slot(w.it, s).Tail? {
          TailStaysTail(c, o, w, s, next(s).first);
        }
        AnswerStreamOk(c, o, w, counts, s, next(s).first);
      }
    } else {
      SameDelivery(c, o, w, v, book, next);
    }
  }

  lemma WithoutDistinct(keys: seq<StreamId>, s: StreamId)
    requires DistinctKeys(keys)
    ensures DistinctKeys(Without(keys, s))
    ensures forall k :: k in Without(keys, s) <==> k in keys && k != s
  {
    if keys != [] {
      WithoutDistinct(keys[1..], s);
      var rest := Without(keys[1..], s);
      if keys[0] != s {
        assert keys[0] !in rest;
        forall i, j | 0 <= i < j < |[keys[0]] + rest| ensures ([keys[0]] + rest)[i] != ([keys[0]] + rest)[j] {
          assert ([keys[0]] + rest)[j] in rest;
        }
      } else {
        assert [] + rest == rest;
      }
    }
  }

  lemma QuietInv(c: Codec, o: Options, w: System, step: Step, book: Book, next: Book)
    requires Inv(c, o, w, book) && !step.Append? && !step.Next? && !step.Answer?
    requires forall s :: next(s) == Noted(w, Do(c, w, step), s, book(s))
    ensures Inv(c, o, Do(c, w, step), next)
  {
    hide Decode, DecodeAll, Proj, Position, StreamOk;
    if step.RemoveStream? {
      WithoutDistinct(w.keys, step.s);
    }
    SameDelivery(c, o, w, Do(c, w, step), book, next);
  }

  lemma StepInv(c: Codec, o: Options, w: System, step: Step, book: Book, next: Book)
    requires Inv(c, o, w, book)
    requires forall s :: next(s) == Noted(w, Do(c, w, step), s, book(s))
    ensures Inv(c, o, Do(c, w, step), next)
  {
    hide Decode, DecodeAll, Proj, Position, Absorb, StreamOk, AskedOk;
    match step
    case Append(s, gap, record) => AppendInv(c, o, w, s, gap, record, book, next);
    case Next => NextInv(c, o, w, book, next);
    case Answer(counts) =>
      if CanAnswer(w, counts) {
        AnswerInv(c, o, w, counts, book, next);
      } else {
        IdleInv(c, o, w, book, next);
      }
    case _ => QuietInv(c, o, w, step, book, next);
  }

  lemma IdleInv(c: Codec, o: Options, w: System, book: Book, next: Book)
    requires Inv(c, o, w, book)
    requires forall s :: next(s) == Noted(w, w, s, book(s))
    ensures Inv(c, o, w, next)
  {
    hide Decode, DecodeAll, Proj, Position, StreamOk;
    SameDelivery(c, o, w, w, book, next);
  }

  lemma {:induction false} RunInv(c: Codec, o: Options, logs: map<StreamId, Log>, keys: seq<StreamId>, steps: seq<Step>)
    requires SortedLogs(logs) && DistinctKeys(keys)
    ensures var w := System(logs, keys, Start(o), []);
            Inv(c, o, Run(c, w, steps), s => NoteAfter(c, w, steps, s))
    decreases |steps|
  {
    var w := System(logs, keys, Start(o), []);
    if steps == [] {
      InitInv(c, o, logs, keys, s => NoteAfter(c, w, steps, s));
    } else {
      var earlier := steps[..|steps| - 1];
      RunInv(c, o, logs, keys, earlier);
      hide Inv, Do, Noted;
      StepInv(c, o, Run(c, w, earlier), steps[|steps| - 1], s => NoteAfter(c, w, earlier, s),
              s => NoteAfter(c, w, steps, s));
    }
  }

  /** One stream's share of that. */
  lemma RunStreamOk(c: Codec, o: Options, logs: map<StreamId, Log>, keys: seq<StreamId>, steps: seq<Step>, s: StreamId)
    requires SortedLogs(logs) && DistinctKeys(keys)
    ensures var w := System(logs, keys, Start(o), []);
            && StreamOk(c, o, Run(c, w, steps), s, NoteAfter(c, w, steps, s).first)
            && AskedOk(Run(c, w, steps), s, NoteAfter(c, w, steps, s).asked)
            && AsksFollowSlots(Run(c, w, steps).it) && SortedLogs(Run(c, w, steps).logs)
  {
    hide StreamOk, AskedOk, Run, NoteAfter;
    RunInv(c, o, logs, keys, steps);
    var w := System(logs, keys, Start(o), []);
    var book: Book := r => NoteAfter(c, w, steps, r);
    assert Inv(c, o, Run(c, w, steps), book);
    assert StreamOk(c, o, Run(c, w, steps), s, book(s).first) && AskedOk(Run(c, w, steps), s, book(s).asked);
  }
}
