/**
 Owned, replicated keys of the write-behind cache against a plain map.  The remote always ends up as
 the map, whatever was evicted and however many writes are still on their way; the cache and the
 answers agree with it exactly as long as no evicted counter or hash is written to unread.
 */
module CacheAgreement {
  import opened Wrappers
  import opened Decimal
  import opened CacheStore

  datatype Step =
    | Get(k: string)
    | Set(k: string, value: Option<Scalar>)
    | Add(k: string, amount: int)
    | GetHash(k: string)
    | SetHash(k: string, fields: map<string, string>)
    | Evict(k: string)
    | Serve

  /** What a call returns, values as the text or hash they stand for. */
  datatype Answer = Found(value: Option<Stored>) | Failed | Count(sum: Option<int>) | Silent

  /** How a key is used: plain values, a counter, or a hash. */
  datatype Kind = Plain | Counter | Record

  // ---------- the cache, one call after the other ----------

  const OWNED := Config(true, true, false)

  function Report(r: Result<Option<Value>, string>): Answer {
    match r
    case Throws(_) => Failed
    case Ok(None) => Found(None)
    case Ok(Some(v)) => Found(Some(Show(v)))
  }

  /** One call; or an eviction, or the remote executing a command. */
  function DoWith(cfg: Config, st: Store, s: Step): (Store, Answer) {
    match s
    case Get(k) => var r := AfterGet(st, k, cfg); (r.0, Report(r.1))
    case Set(k, v) => (AfterSet(st, k, v, cfg).0, Silent)
    case Add(k, n) => var r := AfterAdd(st, k, n, cfg); (r.0, Count(r.1))
    case GetHash(k) => var r := AfterGetHash(st, k, cfg); (r.0, Report(r.1))
    case SetHash(k, fields) => var r := AfterSetHash(st, k, fields, cfg); (r.0, if r.1.Ok? then Silent else Failed)
    case Evict(k) => (st.(cache := st.cache - {k}), Silent)
    case Serve =>
      (if st.queue == [] then st
       else st.(queue := st.queue[1..], remote := Execute(st.remote, st.queue[0])), Silent)
  }

  /** One call on an owned, replicated key. */
  function Do(st: Store, s: Step): (Store, Answer) {
    DoWith(OWNED, st, s)
  }

  /** The key a step is about. */
  function KeyOf(s: Step): Option<string> {
    match s
    case Get(k) => Some(k)
    case Set(k, _) => Some(k)
    case Add(k, _) => Some(k)
    case GetHash(k) => Some(k)
    case SetHash(k, _) => Some(k)
    case Evict(k) => Some(k)
    case Serve => None
  }

  // ---------- the plain map ----------

  /** The same calls on a map that is written at once and never cached. */
  function OnMap(m: map<string, Stored>, s: Step): (map<string, Stored>, Answer) {
    match s
    case Get(k) => (m, if k in m then Found(Some(m[k])) else Found(None))
    case Set(k, None) => (m, Silent)
    case Set(k, Some(v)) => (m[k := Show(v)], Silent)
    case Add(k, n) =>
      var sum := (if k in m && m[k].StoredText? && IsInteger(m[k].s) then ParseInt(m[k].s).value else 0) + n;
      (m[k := StoredText(ToText(sum))], Count(Some(sum)))
    case GetHash(k) => (m, Found(Some(if k in m then m[k] else StoredHash(map[]))))
    case SetHash(k, fields) =>
      (if fields == map[] then m
       else m[k := StoredHash((if k in m && m[k].StoredHash? then m[k].fields else map[]) + fields)], Silent)
    case Evict(_) => (m, Silent)
    case Serve => (m, Silent)
  }

  // ---------- discipline ----------

  /** A key is used in one way; counters are set to numbers only.  Anything may be evicted. */
  predicate Disciplined(kind: string -> Kind, s: Step) {
    match s
    case Get(k) => !kind(k).Record?
    case Set(k, None) => true
    case Set(k, Some(v)) => kind(k).Plain? || (kind(k).Counter? && v.Number?)
    case Add(k, _) => kind(k).Counter?
    case GetHash(k) => kind(k).Record?
    case SetHash(k, _) => kind(k).Record?
    case Evict(_) => true
    case Serve => true
  }

  /** The remote's data are of the kinds of their keys. */
  predicate RemoteFits(kind: string -> Kind, m: map<string, Stored>) {
    forall k | k in m ::
      match kind(k)
      case Plain => m[k].StoredText?
      case Counter => m[k].StoredText? && IsInteger(m[k].s)
      case Record => m[k].StoredHash?
  }

  /** What the remote will hold once the queue is drained. */
  function Drained(st: Store): map<string, Stored> {
    Drain(st.remote, st.queue)
  }

  // ---------- agreement ----------

  /** A cached value is what the remote holds; an empty hash may stand for an absent one. */
  predicate Agrees(m: map<string, Stored>, k: string, v: Value) {
    if v.Hash? then (if k in m then m[k] == StoredHash(v.fields) else v.fields == map[])
    else k in m && m[k] == Show(v)
  }

  /** What is cached of a key, if anything, is what the remote will hold. */
  predicate CoherentAt(st: Store, k: string) {
    k in st.cache ==> Agrees(Drained(st), k, st.cache[k])
  }

  predicate Within(f: map<string, string>, g: map<string, string>) {
    forall x | x in f :: x in g && g[x] == f[x]
  }

  /**
   What holds of a cached value whatever was evicted: a plain value agrees with the remote, a counter
   is some integer, a hash is a part of the remote's.
   */
  predicate Usable(kind: Kind, m: map<string, Stored>, k: string, v: Value) {
    match kind
    case Plain => (v.Text? || v.Number?) && Agrees(m, k, v)
    case Counter => k in m && (v.Number? || (v.Text? && IsInteger(v.s)))
    case Record => v.Hash? && if k in m && m[k].StoredHash? then Within(v.fields, m[k].fields) else v.fields == map[]
  }

  predicate Sound(kind: string -> Kind, st: Store) {
    RemoteFits(kind, Drained(st)) && forall k | k in st.cache :: Usable(kind(k), Drained(st), k, st.cache[k])
  }

  /** The step does not write to a counter or hash that the remote has and the cache lacks. */
  predicate Guarded(st: Store, s: Step) {
    var m := Drained(st);
    match s
    case Add(k, _) => k in st.cache || k !in m || m[k] == StoredText("0")
    case SetHash(k, fields) => k in st.cache || k !in m || (m[k].StoredHash? && m[k].fields.Keys <= fields.Keys)
    case _ => true
  }

  lemma {:induction false} DrainOneMore(remote: map<string, Stored>, queue: seq<Command>, c: Command)
    ensures Drain(remote, queue + [c]) == Execute(Drain(remote, queue), c)
    decreases |queue|
  {
    if queue == [] {
      assert Drain(remote, [c]) == Drain(Execute(remote, c), [c][1..]);
    } else {
      assert (queue + [c])[1..] == queue[1..] + [c];
      DrainOneMore(Execute(remote, queue[0]), queue[1..], c);
    }
  }

  lemma GetAgrees(kind: string -> Kind, st: Store, k: string)
    requires Sound(kind, st) && !kind(k).Record?
    ensures var after := Do(st, Get(k)).0; Drained(after) == Drained(st) && Sound(kind, after)
    ensures CoherentAt(st, k) ==>
              CoherentAt(Do(st, Get(k)).0, k) && Do(st, Get(k)).1 == OnMap(Drained(st), Get(k)).1
  {
    hide IsInteger, ToText;
  }

  lemma GetHashAgrees(kind: string -> Kind, st: Store, k: string)
    requires Sound(kind, st) && kind(k).Record?
    ensures var after := Do(st, GetHash(k)).0; Drained(after) == Drained(st) && Sound(kind, after)
    ensures CoherentAt(st, k) ==>
              CoherentAt(Do(st, GetHash(k)).0, k) && Do(st, GetHash(k)).1 == OnMap(Drained(st), GetHash(k)).1
  {
    hide IsInteger, ToText;
  }

  /** Caching a value and queueing the command that goes with it. */
  lemma WriteIsSound(kind: string -> Kind, st: Store, k: string, v: Value, c: Command, stored: Stored)
    requires Sound(kind, st) && Execute(Drained(st), c) == Drained(st)[k := stored]
    requires RemoteFits(kind, Drained(st)[k := stored]) && Usable(kind(k), Drained(st)[k := stored], k, v)
    ensures var after := Store(st.cache[k := v], st.queue + [c], st.remote);
            Drained(after) == Drained(st)[k := stored] && Sound(kind, after)
  {
    DrainOneMore(st.remote, st.queue, c);
    var m, after := Drained(st), Store(st.cache[k := v], st.queue + [c], st.remote);
    hide Drain, Execute, IsInteger, ToText, Within, RemoteFits;
    forall j | j in after.cache ensures Usable(kind(j), m[k := stored], j, after.cache[j]) {
      assert j != k ==> Usable(kind(j), m, j, st.cache[j]);
    }
  }

  lemma SetAgrees(kind: string -> Kind, st: Store, k: string, v: Scalar)
    requires Sound(kind, st) && Disciplined(kind, Set(k, Some(v)))
    ensures var after := Do(st, Set(k, Some(v))).0;
            && Drained(after) == OnMap(Drained(st), Set(k, Some(v))).0 && Sound(kind, after)
            && CoherentAt(after, k)
  {
    if v.Number? {
      TextIsInteger(v.n);
    }
    hide Sound, Drain, IsInteger, ToText;
    assert RemoteFits(kind, Drained(st)) by {
      SoundFits(kind, st);
    }
    WriteIsSound(kind, st, k, v, SetCommand(k, Show(v).s), Show(v));
  }

  lemma SoundFits(kind: string -> Kind, st: Store)
    requires Sound(kind, st)
    ensures RemoteFits(kind, Drained(st))
  {
  }

  /** A cached counter reads as some number; in agreement, or absent from both sides, as the remote's. */
  lemma BaseIsNumber(kind: string -> Kind, st: Store, k: string)
    requires Sound(kind, st) && kind(k).Counter?
    ensures Base(st, k).Some?
    ensures var m := Drained(st);
            && (k in m ==> m[k].StoredText? && IsInteger(m[k].s))
            && (CoherentAt(st, k) && (k in st.cache || k !in m || m[k] == StoredText("0")) ==>
                  Base(st, k) == Some(if k in m then ParseInt(m[k].s).value else 0))
  {
    if k in st.cache && st.cache[k].Number? {
      ParseOfText(st.cache[k].n);
    }
    ParseOfText(0);
    assert ToText(0) == "0";
    hide Drain;
  }

  lemma AddOnMap(kind: string -> Kind, m: map<string, Stored>, k: string, n: int) returns (held: int)
    requires RemoteFits(kind, m) && kind(k).Counter?
    ensures OnMap(m, Add(k, n)) == (m[k := StoredText(ToText(held))], Count(Some(held)))
    ensures held == (if k in m then ParseInt(m[k].s).value else 0) + n
    ensures Execute(m, AddCommand(k, n)) == m[k := StoredText(ToText(held))]
    ensures RemoteFits(kind, m[k := StoredText(ToText(held))])
  {
    held := OnMap(m, Add(k, n)).1.sum.value;
    TextIsInteger(held);
    hide ToText, ParseInt, IsInteger;
  }

  lemma DoAdd(st: Store, k: string, n: int)
    requires Base(st, k).Some?
    ensures var sum := Base(st, k).value + n;
            Do(st, Add(k, n)) ==
            (Store(st.cache[k := Text(ToText(sum))], st.queue + [AddCommand(k, n)], st.remote), Count(Some(sum)))
  {
    hide ToText, Base;
  }

  lemma AddAgrees(kind: string -> Kind, st: Store, k: string, n: int)
    requires Sound(kind, st) && kind(k).Counter?
    ensures var after := Do(st, Add(k, n)).0;
            && Drained(after) == OnMap(Drained(st), Add(k, n)).0 && Sound(kind, after)
            && (CoherentAt(st, k) && Guarded(st, Add(k, n)) ==>
                  CoherentAt(after, k) && Do(st, Add(k, n)).1 == OnMap(Drained(st), Add(k, n)).1)
  {
    hide Do, Sound, Base, IsInteger, ToText, ParseInt, Drained, OnMap, Execute, RemoteFits;
    BaseIsNumber(kind, st, k);
    SoundFits(kind, st);
    var held := AddOnMap(kind, Drained(st), k, n);
    var cached := Base(st, k).value + n;
    TextIsInteger(cached);
    DoAdd(st, k, n);
    WriteIsSound(kind, st, k, Text(ToText(cached)), AddCommand(k, n), StoredText(ToText(held)));
  }

  /** Sending the whole cached hash has on the remote the effect of sending the new fields. */
  lemma HashWriteOnMap(m: map<string, Stored>, k: string, current: map<string, string>, fields: map<string, string>)
    requires if k in m && m[k].StoredHash? then Within(current, m[k].fields) else k !in m && current == map[]
    ensures Execute(m, HashSetCommand(k, current + fields)) == OnMap(m, SetHash(k, fields)).0
  {
    if k in m {
      assert m[k].fields + (current + fields) == m[k].fields + fields;
      assert current + fields == map[] ==> fields == map[] by {
        if fields != map[] {
          var f :| f in fields;
          assert f in current + fields;
        }
      }
      if fields == map[] {
        assert m[k].fields + fields == m[k].fields && m[k := m[k]] == m;
      }
    } else {
      assert map[] + fields == fields;
    }
  }

  lemma SetHashAgrees(kind: string -> Kind, st: Store, k: string, fields: map<string, string>)
    requires Sound(kind, st) && kind(k).Record?
    ensures var after := Do(st, SetHash(k, fields)).0;
            && Drained(after) == OnMap(Drained(st), SetHash(k, fields)).0 && Sound(kind, after)
            && Do(st, SetHash(k, fields)).1 == Silent
            && (CoherentAt(st, k) && Guarded(st, SetHash(k, fields)) ==> CoherentAt(after, k))
  {
    var m, current := Drained(st), if k in st.cache then st.cache[k].fields else map[];
    assert map[] + fields == fields;
    assert Do(st, SetHash(k, fields)).0 ==
           Store(st.cache[k := Hash(current + fields)], st.queue + [HashSetCommand(k, current + fields)], st.remote);
    SoundFits(kind, st);
    HashWriteOnMap(m, k, current, fields);
    hide Drain, Execute, IsInteger;
    if k !in m && fields == map[] {
      NothingWritten(kind, st, k, HashSetCommand(k, current + fields));
    } else {
      var held := if k in m then m[k].fields + fields else fields;
      HashFits(m, k, current, fields);
      WriteIsSound(kind, st, k, Hash(current + fields), HashSetCommand(k, current + fields), StoredHash(held));
    }
  }

  /** The cached hash after a write is part of the remote's, and all of it under the guard. */
  lemma HashFits(m: map<string, Stored>, k: string, current: map<string, string>, fields: map<string, string>)
    requires if k in m && m[k].StoredHash? then Within(current, m[k].fields) else k !in m && current == map[]
    ensures var held := if k in m then m[k].fields + fields else fields;
            && Within(current + fields, held)
            && (k in m && (current == m[k].fields || m[k].fields.Keys <= fields.Keys) ==> current + fields == held)
            && (k in m && fields == map[] ==> m[k := StoredHash(held)] == m)
  {
    if k in m {
      assert fields == map[] ==> m[k].fields + fields == m[k].fields;
    }
  }

  /** An empty hash is cached for a key the remote does not have. */
  lemma NothingWritten(kind: string -> Kind, st: Store, k: string, c: Command)
    requires Sound(kind, st) && kind(k).Record? && k !in Drained(st) && Execute(Drained(st), c) == Drained(st)
    ensures var after := Store(st.cache[k := Hash(map[])], st.queue + [c], st.remote);
            Drained(after) == Drained(st) && Sound(kind, after) && CoherentAt(after, k)
  {
    DrainOneMore(st.remote, st.queue, c);
    hide Drain, Execute, IsInteger;
  }

  /** Every disciplined step leaves a sound cache, and a drained remote that is the map's next state. */
  lemma StepIsSound(kind: string -> Kind, st: Store, s: Step)
    requires Sound(kind, st) && Disciplined(kind, s)
    ensures Drained(Do(st, s).0) == OnMap(Drained(st), s).0 && Sound(kind, Do(st, s).0)
  {
    match s
    case Get(k) => GetAgrees(kind, st, k);
    case Set(k, None) =>
    case Set(k, Some(v)) => SetAgrees(kind, st, k, v);
    case Add(k, n) => AddAgrees(kind, st, k, n);
    case GetHash(k) => GetHashAgrees(kind, st, k);
    case SetHash(k, fields) => SetHashAgrees(kind, st, k, fields);
    case Evict(k) =>
    case Serve =>
  }

  /** From agreement on its key, a guarded step answers like the map and leaves the key in agreement. */
  lemma StepAgrees(kind: string -> Kind, st: Store, s: Step, k: string)
    requires Sound(kind, st) && Disciplined(kind, s) && KeyOf(s) == Some(k) && CoherentAt(st, k) && Guarded(st, s)
    ensures CoherentAt(Do(st, s).0, k) && Do(st, s).1 == OnMap(Drained(st), s).1
  {
    match s
    case Get(_) => GetAgrees(kind, st, k);
    case Set(_, None) =>
    case Set(_, Some(v)) => SetAgrees(kind, st, k, v);
    case Add(_, n) => AddAgrees(kind, st, k, n);
    case GetHash(_) => GetHashAgrees(kind, st, k);
    case SetHash(_, fields) => SetHashAgrees(kind, st, k, fields);
    case Evict(_) =>
  }

  /** A step leaves all other keys alone, in the cache and in the drained remote. */
  lemma OtherKeysKept(kind: string -> Kind, st: Store, s: Step, k: string)
    requires Sound(kind, st) && Disciplined(kind, s) && KeyOf(s) != Some(k)
    ensures var after := Do(st, s).0;
            && (k in after.cache <==> k in st.cache) && (k in st.cache ==> after.cache[k] == st.cache[k])
            && (k in Drained(after) <==> k in Drained(st))
            && (k in Drained(st) ==> Drained(after)[k] == Drained(st)[k])
  {
    StepIsSound(kind, st, s);
    hide Drain, Execute, ToText, IsInteger, ParseInt, Sound, Assign, Entries, Base, Falsy;
    CacheOfOthers(st, s, k);
  }

  lemma CacheOfOthers(st: Store, s: Step, k: string)
    requires KeyOf(s) != Some(k)
    ensures var after := Do(st, s).0;
            (k in after.cache <==> k in st.cache) && (k in st.cache ==> after.cache[k] == st.cache[k])
  {
    hide Drain, Execute, ToText, ParseInt, Assign, Entries, Base, Falsy;
  }

  // ---------- exactly when counters and hashes stay in agreement ----------

  /**
   An increment leaves cache and drained remote in agreement exactly when the counter was cached,
   or the remote has none or zero: an evicted counter restarts from zero.
   */
  lemma AddAgreesExactly(st: Store, k: string, n: int)
    requires var m := Drained(st);
             && (k in m ==> m[k].StoredText? && IsInteger(m[k].s))
             && (k in st.cache ==> (st.cache[k].Text? || st.cache[k].Number?) && Agrees(m, k, st.cache[k]))
    ensures var after := Do(st, Add(k, n)).0;
            k in after.cache && (Agrees(Drained(after), k, after.cache[k]) <==> Guarded(st, Add(k, n)))
  {
    hide Do, Drained, IsInteger, ToText, ParseInt, Base;
    var m := Drained(st);
    BaseIsHeldExactly(st, k);
    AddBothSides(st, k, n);
    SameText(Base(st, k).value + n, (if k in m then ParseInt(m[k].s).value else 0) + n);
  }

  /** An increment starts from what the remote holds exactly if the guard holds. */
  lemma BaseIsHeldExactly(st: Store, k: string)
    requires var m := Drained(st);
             && (k in m ==> m[k].StoredText? && IsInteger(m[k].s))
             && (k in st.cache ==> (st.cache[k].Text? || st.cache[k].Number?) && Agrees(m, k, st.cache[k]))
    ensures var m := Drained(st);
            && Base(st, k).Some? && (k in m ==> ParseInt(m[k].s).Some?)
            && (Base(st, k).value == (if k in m then ParseInt(m[k].s).value else 0) <==>
                  k in st.cache || k !in m || m[k] == StoredText("0"))
  {
    hide Drained, ToText, ParseInt;
    var m := Drained(st);
    if k in st.cache && st.cache[k].Number? {
      ParseOfText(st.cache[k].n);
    }
    if k in m {
      ZeroText(ParseInt(m[k].s).value);
    }
  }

  /** What cache and drained remote hold after an increment. */
  lemma AddBothSides(st: Store, k: string, n: int)
    requires Base(st, k).Some?
    requires k in Drained(st) ==> Drained(st)[k].StoredText? && IsInteger(Drained(st)[k].s)
    ensures var m, after := Drained(st), Do(st, Add(k, n)).0;
            && after.cache == st.cache[k := Text(ToText(Base(st, k).value + n))]
            && Drained(after) == m[k := StoredText(ToText((if k in m then ParseInt(m[k].s).value else 0) + n))]
  {
    hide Do, Base, IsInteger, ToText, ParseInt, Drain;
    DoAdd(st, k, n);
    DrainOneMore(st.remote, st.queue, AddCommand(k, n));
  }

  lemma SameText(a: int, b: int)
    ensures ToText(a) == ToText(b) <==> a == b
  {
    ParseOfText(a);
    ParseOfText(b);
  }

  lemma ZeroText(held: int)
    ensures ToText(held) == "0" <==> held == 0
  {
    SameText(held, 0);
    assert ToText(0) == "0";
  }

  /**
   A hash write leaves cache and drained remote in agreement exactly when the hash was cached, or
   the remote has no field that the write does not give.
   */
  lemma SetHashAgreesExactly(st: Store, k: string, fields: map<string, string>)
    requires var m := Drained(st);
             && (k in m ==> m[k].StoredHash?)
             && (k in st.cache ==> st.cache[k].Hash? && Agrees(m, k, st.cache[k]))
    ensures var after := Do(st, SetHash(k, fields)).0;
            k in after.cache && (Agrees(Drained(after), k, after.cache[k]) <==> Guarded(st, SetHash(k, fields)))
  {
    var m, current := Drained(st), if k in st.cache then st.cache[k].fields else map[];
    assert map[] + fields == fields;
    assert Do(st, SetHash(k, fields)).0 ==
           Store(st.cache[k := Hash(current + fields)], st.queue + [HashSetCommand(k, current + fields)], st.remote);
    DrainOneMore(st.remote, st.queue, HashSetCommand(k, current + fields));
    hide Drain;
    if k in m {
      var merged := m[k].fields + (current + fields);
      assert merged.Keys == m[k].fields.Keys + current.Keys + fields.Keys;
      if current == m[k].fields || m[k].fields.Keys <= fields.Keys {
        assert merged == current + fields;
      }
    }
  }

  /** From agreement on its key, a step that is not guarded always ends it. */
  lemma UnguardedDisagrees(kind: string -> Kind, st: Store, s: Step, k: string)
    requires Sound(kind, st) && Disciplined(kind, s) && KeyOf(s) == Some(k) && CoherentAt(st, k) && !Guarded(st, s)
    ensures !CoherentAt(Do(st, s).0, k)
  {
    SoundFits(kind, st);
    hide Sound;
    match s
    case Add(_, n) => AddAgreesExactly(st, k, n);
    case SetHash(_, fields) => SetHashAgreesExactly(st, k, fields);
    case _ =>
  }

  // ---------- whole histories ----------

  predicate AllDisciplined(kind: string -> Kind, steps: seq<Step>) {
    forall i | 0 <= i < |steps| :: Disciplined(kind, steps[i])
  }

  /** The final state and all answers. */
  function Run(st: Store, steps: seq<Step>): (Store, seq<Answer>)
    decreases |steps|
  {
    if steps == [] then (st, [])
    else
      var (next, answer) := Do(st, steps[0]);
      var (last, answers) := Run(next, steps[1..]);
      (last, [answer] + answers)
  }

  function RunOnMap(m: map<string, Stored>, steps: seq<Step>): (map<string, Stored>, seq<Answer>)
    decreases |steps|
  {
    if steps == [] then (m, [])
    else
      var (next, answer) := OnMap(m, steps[0]);
      var (last, answers) := RunOnMap(next, steps[1..]);
      (last, [answer] + answers)
  }

  /** No step of the history writes to this key while the remote has it and the cache lacks it. */
  predicate GuardedAt(st: Store, steps: seq<Step>, k: string)
    decreases |steps|
  {
    steps != [] ==>
      (KeyOf(steps[0]) == Some(k) ==> Guarded(st, steps[0])) && GuardedAt(Do(st, steps[0]).0, steps[1..], k)
  }

  /** Cache and remote agree on this key at every moment of the history. */
  predicate AlwaysCoherentAt(st: Store, steps: seq<Step>, k: string)
    decreases |steps|
  {
    CoherentAt(st, k) && (steps != [] ==> AlwaysCoherentAt(Do(st, steps[0]).0, steps[1..], k))
  }

  /** The calls on this key answer alike. */
  predicate AnswerAlike(steps: seq<Step>, a: seq<Answer>, b: seq<Answer>, k: string) {
    |a| == |b| == |steps| && forall i | 0 <= i < |steps| && KeyOf(steps[i]) == Some(k) :: a[i] == b[i]
  }

  /** Each call may say `rent` or not: to the owner of a replicated key it makes no difference. */
  function RunWith(cfgs: seq<Config>, st: Store, steps: seq<Step>): (Store, seq<Answer>)
    requires |cfgs| == |steps|
    decreases |steps|
  {
    if steps == [] then (st, [])
    else
      var (next, answer) := DoWith(cfgs[0], st, steps[0]);
      var (last, answers) := RunWith(cfgs[1..], next, steps[1..]);
      (last, [answer] + answers)
  }

  lemma {:induction false} RentMakesNoDifference(cfgs: seq<Config>, st: Store, steps: seq<Step>)
    requires |cfgs| == |steps| && forall i | 0 <= i < |cfgs| :: cfgs[i].owner && cfgs[i].replicated
    ensures RunWith(cfgs, st, steps) == Run(st, steps)
    decreases |steps|
  {
    if steps != [] {
      RentedStep(cfgs[0], st, steps[0]);
      RentMakesNoDifference(cfgs[1..], Do(st, steps[0]).0, steps[1..]);
    }
  }

  lemma RentedStep(cfg: Config, st: Store, s: Step)
    requires cfg.owner && cfg.replicated
    ensures DoWith(cfg, st, s) == Do(st, s)
  {
    hide Drain, Execute, ToText, Numeric, Assign, Entries;
  }

  lemma {:induction false} RemoteIsMap(kind: string -> Kind, st: Store, steps: seq<Step>)
    requires Sound(kind, st) && AllDisciplined(kind, steps)
    ensures Drained(Run(st, steps).0) == RunOnMap(Drained(st), steps).0 && Sound(kind, Run(st, steps).0)
    decreases |steps|
  {
    if steps != [] {
      StepIsSound(kind, st, steps[0]);
      hide Do, OnMap, Sound, Drained;
      RemoteIsMap(kind, Do(st, steps[0]).0, steps[1..]);
    }
  }

  /** One step, seen from one key that is in agreement. */
  lemma StepExactly(kind: string -> Kind, st: Store, s: Step, k: string)
    requires Sound(kind, st) && CoherentAt(st, k) && Disciplined(kind, s)
    ensures Drained(Do(st, s).0) == OnMap(Drained(st), s).0 && Sound(kind, Do(st, s).0)
    ensures CoherentAt(Do(st, s).0, k) <==> (KeyOf(s) == Some(k) ==> Guarded(st, s))
    ensures KeyOf(s) == Some(k) && Guarded(st, s) ==> Do(st, s).1 == OnMap(Drained(st), s).1
  {
    StepIsSound(kind, st, s);
    hide Do, OnMap, Sound, Drained, Guarded, Agrees;
    if KeyOf(s) != Some(k) {
      OtherKeysAgree(kind, st, s, k);
    } else if Guarded(st, s) {
      StepAgrees(kind, st, s, k);
    } else {
      UnguardedDisagrees(kind, st, s, k);
    }
  }

  lemma OtherKeysAgree(kind: string -> Kind, st: Store, s: Step, k: string)
    requires Sound(kind, st) && Disciplined(kind, s) && KeyOf(s) != Some(k) && CoherentAt(st, k)
    ensures CoherentAt(Do(st, s).0, k)
  {
    hide Do, Drained, Sound;
    OtherKeysKept(kind, st, s, k);
  }

  lemma {:induction false} RunAgrees(kind: string -> Kind, st: Store, steps: seq<Step>, k: string)
    requires Sound(kind, st) && CoherentAt(st, k) && AllDisciplined(kind, steps)
    ensures AlwaysCoherentAt(st, steps, k) <==> GuardedAt(st, steps, k)
    ensures GuardedAt(st, steps, k) ==>
              AnswerAlike(steps, Run(st, steps).1, RunOnMap(Drained(st), steps).1, k) && CoherentAt(Run(st, steps).0, k)
    decreases |steps|
  {
    if steps != [] {
      hide Do, OnMap, Sound, Drained, CoherentAt, Guarded;
      StepExactly(kind, st, steps[0], k);
      if CoherentAt(Do(st, steps[0]).0, k) {
        RunAgrees(kind, Do(st, steps[0]).0, steps[1..], k);
      } else {
        NeverCoherent(Do(st, steps[0]).0, steps[1..], k);
      }
    }
  }

  lemma NeverCoherent(st: Store, steps: seq<Step>, k: string)
    requires !CoherentAt(st, k)
    ensures !AlwaysCoherentAt(st, steps, k)
  {
  }

  /**
   From an empty cache, in every history of non-overlapping calls with any evictions and a remote at
   any pace, the drained remote is the plain map.  And key by key, whatever becomes of the others:
   cache and remote agree on a key at every moment, and then all calls on it answer like the map,
   exactly when no call writes to it while it is a counter or hash that the remote has and the cache
   lacks.
   */
  lemma CacheRefinesMap(kind: string -> Kind, remote: map<string, Stored>, steps: seq<Step>)
    requires RemoteFits(kind, remote) && AllDisciplined(kind, steps)
    ensures var start, plain := Store(map[], [], remote), RunOnMap(remote, steps);
            && Drained(Run(start, steps).0) == plain.0
            && forall k: string ::
                 && (AlwaysCoherentAt(start, steps, k) <==> GuardedAt(start, steps, k))
                 && (GuardedAt(start, steps, k) ==> AnswerAlike(steps, Run(start, steps).1, plain.1, k))
  {
    var start := Store(map[], [], remote);
    RemoteIsMap(kind, start, steps);
    forall k: string
      ensures AlwaysCoherentAt(start, steps, k) <==> GuardedAt(start, steps, k)
      ensures GuardedAt(start, steps, k) ==> AnswerAlike(steps, Run(start, steps).1, RunOnMap(remote, steps).1, k)
    {
      RunAgrees(kind, start, steps, k);
    }
  }

  /** A plain key is always guarded, and so is one that is never evicted and that the remote did not have. */
  lemma {:induction false} UnevictedIsGuarded(kind: string -> Kind, st: Store, steps: seq<Step>, k: string)
    requires Sound(kind, st) && AllDisciplined(kind, steps)
    requires kind(k).Plain?
             || ((k in Drained(st) ==> k in st.cache) && forall i | 0 <= i < |steps| :: steps[i] != Evict(k))
    ensures GuardedAt(st, steps, k)
    decreases |steps|
  {
    if steps != [] {
      assert Disciplined(kind, steps[0]);
      StepIsSound(kind, st, steps[0]);
      if KeyOf(steps[0]) != Some(k) {
        OtherKeysKept(kind, st, steps[0], k);
      } else if !kind(k).Plain? {
        StaysCached(kind, st, steps[0], k);
      }
      hide Do, Drained, Sound;
      UnevictedIsGuarded(kind, Do(st, steps[0]).0, steps[1..], k);
    }
  }

  lemma StaysCached(kind: string -> Kind, st: Store, s: Step, k: string)
    requires Sound(kind, st) && Disciplined(kind, s) && KeyOf(s) == Some(k) && !s.Evict? && !kind(k).Plain?
    requires k in Drained(st) ==> k in st.cache
    ensures var after := Do(st, s).0; k in Drained(after) ==> k in after.cache
  {
    StepIsSound(kind, st, s);
    hide Drain, IsInteger, ParseInt, ToText;
  }

  /** No placeholder survives a call: text like it is cached only where the remote has that text. */
  lemma NoPlaceholderSurvives(kind: string -> Kind, remote: map<string, Stored>, steps: seq<Step>, k: string)
    requires RemoteFits(kind, remote) && AllDisciplined(kind, steps)
    ensures var st := Run(Store(map[], [], remote), steps).0;
            k in st.cache && st.cache[k] == PLACEHOLDER ==>
              k in RunOnMap(remote, steps).0 && RunOnMap(remote, steps).0[k] == StoredText(PLACEHOLDER.s)
  {
    RemoteIsMap(kind, Store(map[], [], remote), steps);
    PlaceholderIsNoNumber();
    hide IsInteger;
  }

  lemma PlaceholderIsNoNumber()
    ensures !IsInteger(PLACEHOLDER.s)
  {
    assert PLACEHOLDER.s[0] == 'c';
  }

  // ---------- what counters and hashes come to ----------

  function NextCount(count: Option<int>, s: Step, k: string): Option<int> {
    match s
    case Add(j, n) => if j != k then count else Some((match count { case Some(v) => v case None => 0 }) + n)
    case Set(j, Some(Number(n))) => if j == k then Some(n) else count
    case _ => count
  }

  /** The number that a history of increments and integer sets leaves; None before the first. */
  function NetCount(start: Option<int>, steps: seq<Step>, k: string): Option<int>
    decreases |steps|
  {
    if steps == [] then start else NetCount(NextCount(start, steps[0], k), steps[1..], k)
  }

  /** The fields that a history of hash writes leaves: the last value given to each. */
  function NetFields(start: map<string, string>, steps: seq<Step>, k: string): map<string, string>
    decreases |steps|
  {
    if steps == [] then start
    else NetFields(if steps[0].SetHash? && steps[0].k == k then start + steps[0].fields else start, steps[1..], k)
  }

  /** The map holds the count as text, or nothing. */
  predicate HoldsCount(m: map<string, Stored>, k: string, count: Option<int>) {
    match count
    case None => k !in m
    case Some(n) => k in m && m[k] == StoredText(ToText(n))
  }

  predicate HoldsFields(m: map<string, Stored>, k: string, fields: map<string, string>) {
    if fields == map[] then k !in m else k in m && m[k] == StoredHash(fields)
  }

  lemma {:induction false} CountOnMap(kind: string -> Kind, m: map<string, Stored>, steps: seq<Step>, k: string,
                                      count: Option<int>)
    requires AllDisciplined(kind, steps) && kind(k).Counter? && HoldsCount(m, k, count)
    ensures HoldsCount(RunOnMap(m, steps).0, k, NetCount(count, steps, k))
    decreases |steps|
  {
    if steps != [] {
      var s := steps[0];
      assert Disciplined(kind, s);
      if count.Some? {
        ParseOfText(count.value);
        TextIsInteger(count.value);
      }
      hide ToText, ParseInt, IsInteger;
      CountOnMap(kind, OnMap(m, s).0, steps[1..], k, NextCount(count, s, k));
    }
  }

  lemma {:induction false} FieldsOnMap(kind: string -> Kind, m: map<string, Stored>, steps: seq<Step>, k: string,
                                       fields: map<string, string>)
    requires AllDisciplined(kind, steps) && kind(k).Record? && HoldsFields(m, k, fields)
    ensures HoldsFields(RunOnMap(m, steps).0, k, NetFields(fields, steps, k))
    decreases |steps|
  {
    if steps != [] {
      var s := steps[0];
      assert Disciplined(kind, s);
      if s.SetHash? && s.k == k {
        assert fields + map[] == fields && map[] + s.fields == s.fields;
        assert s.fields != map[] ==> fields + s.fields != map[] by {
          if s.fields != map[] {
            var f :| f in s.fields;
            assert f in fields + s.fields;
          }
        }
        FieldsOnMap(kind, OnMap(m, s).0, steps[1..], k, fields + s.fields);
      } else {
        FieldsOnMap(kind, OnMap(m, s).0, steps[1..], k, fields);
      }
    }
  }

  /**
   After any history, from an empty cache and with any evictions, the drained remote holds a counter
   that it did not have before as its net count; if its writes are guarded so does the cache, if at all.
   */
  lemma CounterIsNetCount(kind: string -> Kind, remote: map<string, Stored>, steps: seq<Step>, k: string)
    requires RemoteFits(kind, remote) && AllDisciplined(kind, steps) && kind(k).Counter? && k !in remote
    ensures var start, net := Store(map[], [], remote), NetCount(None, steps, k);
            && HoldsCount(Drained(Run(start, steps).0), k, net)
            && (k in Run(start, steps).0.cache ==> net.Some?)
            && (k in Run(start, steps).0.cache && GuardedAt(start, steps, k) ==>
                  Show(Run(start, steps).0.cache[k]) == StoredText(ToText(net.value)))
  {
    var start := Store(map[], [], remote);
    RemoteIsMap(kind, start, steps);
    RunAgrees(kind, start, steps, k);
    CountOnMap(kind, remote, steps, k, None);
    hide Run, RunOnMap, ToText, NetCount, Drain, IsInteger, GuardedAt, AlwaysCoherentAt;
  }

  /** Likewise a hash: the last value given to each field. */
  lemma HashIsNetFields(kind: string -> Kind, remote: map<string, Stored>, steps: seq<Step>, k: string)
    requires RemoteFits(kind, remote) && AllDisciplined(kind, steps) && kind(k).Record? && k !in remote
    ensures var start, net := Store(map[], [], remote), NetFields(map[], steps, k);
            && HoldsFields(Drained(Run(start, steps).0), k, net)
            && (k in Run(start, steps).0.cache && GuardedAt(start, steps, k) ==>
                  Run(start, steps).0.cache[k] == Hash(net))
  {
    var start := Store(map[], [], remote);
    RemoteIsMap(kind, start, steps);
    RunAgrees(kind, start, steps, k);
    FieldsOnMap(kind, remote, steps, k, map[]);
    hide Run, RunOnMap, NetFields, Drain, IsInteger, GuardedAt, AlwaysCoherentAt;
  }
}
