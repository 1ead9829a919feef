/**
 The write-behind cache (packages/state-machine/src/datasources/cacheable.ts): a local cache in
 front of a remote store.  Writes to owned, replicated keys are queued on one connection without
 waiting; the remote executes that connection's commands first in, first out.
 */
module CacheStore {
  import opened Wrappers
  import opened Decimal

  /**
   A cached value: strings and numbers as they were set, a hash, or a string or number that became an
   object of its own when hash fields were assigned to it.
   */
  datatype Value =
    | Text(s: string)
    | Number(n: int)
    | Hash(fields: map<string, string>)
    | Boxed(text: string, isString: bool, own: map<string, string>)

  /** What `set` may be given. */
  type Scalar = v: Value | v.Text? || v.Number? witness Text("")

  /** A value of the remote store. */
  datatype Stored = StoredText(s: string) | StoredHash(fields: map<string, string>)

  datatype Command =
    | SetCommand(key: string, text: string)
    | AddCommand(key: string, amount: int)
    | HashSetCommand(key: string, fields: map<string, string>)

  datatype Config = Config(owner: bool, replicated: bool, rent: bool)

  datatype Store = Store(cache: map<string, Value>, queue: seq<Command>, remote: map<string, Stored>)

  const PLACEHOLDER := Text("caching in progress")
  const WRONG_TYPE := "WRONGTYPE"
  const READ_ONLY := "Cannot assign to read only property"

  /** The text of a cached value, as the remote would hold it. */
  function Show(v: Value): Stored {
    match v
    case Text(s) => StoredText(s)
    case Number(n) => StoredText(ToText(n))
    case Hash(fields) => StoredHash(fields)
    case Boxed(text, _, _) => StoredText(text)
  }

  predicate Falsy(v: Value) {
    v == Text("") || v == Number(0)
  }

  // ---------- the remote ----------

  /** INCR and DECR of an absent or integer value, HSET of an absent or hash value; else an error. */
  function Execute(remote: map<string, Stored>, c: Command): map<string, Stored> {
    match c
    case SetCommand(k, text) => remote[k := StoredText(text)]
    case AddCommand(k, amount) =>
      if k !in remote then remote[k := StoredText(ToText(amount))]
      else if remote[k].StoredText? && IsInteger(remote[k].s)
      then remote[k := StoredText(ToText(ParseInt(remote[k].s).value + amount))]
      else remote
    case HashSetCommand(k, fields) =>
      if fields == map[] then remote
      else if k !in remote then remote[k := StoredHash(fields)]
      else if remote[k].StoredHash? then remote[k := StoredHash(remote[k].fields + fields)]
      else remote
  }

  function Drain(remote: map<string, Stored>, queue: seq<Command>): map<string, Stored>
    decreases |queue|
  {
    if queue == [] then remote else Drain(Execute(remote, queue[0]), queue[1..])
  }

  // ---------- one call each ----------

  /** What `get` of the remote answers once the queue has been executed. */
  function RemoteText(remote: map<string, Stored>, k: string): Result<Option<string>, string> {
    if k !in remote then Ok(None)
    else if remote[k].StoredText? then Ok(Some(remote[k].s))
    else Throws(WRONG_TYPE)
  }

  /** `hgetall` answers an empty record for an absent key. */
  function RemoteHash(remote: map<string, Stored>, k: string): Result<map<string, string>, string> {
    if k !in remote then Ok(map[])
    else if remote[k].StoredHash? then Ok(remote[k].fields)
    else Throws(WRONG_TYPE)
  }

  /** A read through the cached channel waits for everything queued there before it. */
  function AfterGet(st: Store, k: string, cfg: Config): (Store, Result<Option<Value>, string>) {
    var cacheable := cfg.replicated || cfg.rent;
    if cacheable && k in st.cache && !Falsy(st.cache[k]) then (st, Ok(Some(st.cache[k])))
    else if cacheable then
      var drained := Drain(st.remote, st.queue);
      match RemoteText(drained, k)
      case Throws(e) => (Store(st.cache[k := PLACEHOLDER], [], drained), Throws(e))
      case Ok(None) => (Store(st.cache - {k}, [], drained), Ok(None))
      case Ok(Some(s)) =>
        (Store(if s != "" then st.cache[k := Text(s)] else st.cache - {k}, [], drained), Ok(Some(Text(s))))
    else
      match RemoteText(st.remote, k)
      case Throws(e) => (st, Throws(e))
      case Ok(None) => (st, Ok(None))
      case Ok(Some(s)) => (st, Ok(Some(Text(s))))
  }

  function AfterGetHash(st: Store, k: string, cfg: Config): (Store, Result<Option<Value>, string>) {
    var cacheable := cfg.replicated || cfg.rent;
    if cacheable && k in st.cache && !Falsy(st.cache[k]) then (st, Ok(Some(st.cache[k])))
    else if cacheable then
      var drained := Drain(st.remote, st.queue);
      match RemoteHash(drained, k)
      case Throws(e) => (Store(st.cache[k := PLACEHOLDER], [], drained), Throws(e))
      case Ok(fields) => (Store(st.cache[k := Hash(fields)], [], drained), Ok(Some(Hash(fields))))
    else
      match RemoteHash(st.remote, k)
      case Throws(e) => (st, Throws(e))
      case Ok(fields) => (st, Ok(Some(Hash(fields))))
  }

  function AfterSet(st: Store, k: string, value: Option<Scalar>, cfg: Config): (Store, bool) {
    match value
    case None => (st, false)
    case Some(v) =>
      if cfg.owner then
        var queue := if cfg.replicated then st.queue + [SetCommand(k, Show(v).s)] else st.queue;
        (Store(st.cache[k := v], queue, st.remote), true)
      else if cfg.rent then (st.(remote := Execute(st.remote, SetCommand(k, Show(v).s))), true)
      else (st, true)
  }

  /** `parseInt` of a cached value; a hash has no numeric reading. */
  function Numeric(v: Value): Option<int> {
    match v
    case Text(s) => ParseInt(s)
    case Number(n) => Some(n)
    case Hash(_) => None
    case Boxed(text, _, _) => ParseInt(text)
  }

  /** The number an increment starts from: the cached one, or zero when nothing is cached. */
  function Base(st: Store, k: string): Option<int> {
    if k in st.cache then Numeric(st.cache[k]) else Some(0)
  }

  /** Increment or decrement by one; NaN is cached as text and still sent. */
  function AfterAdd(st: Store, k: string, amount: int, cfg: Config): (Store, Option<int>) {
    if cfg.owner then
      var sum := match Base(st, k) { case Some(n) => Some(n + amount) case None => None };
      var text := match sum { case Some(n) => ToText(n) case None => "NaN" };
      (Store(st.cache[k := Text(text)],
             if cfg.replicated then st.queue + [AddCommand(k, amount)] else st.queue, st.remote), sum)
    else if cfg.rent then
      var remote := Execute(st.remote, AddCommand(k, amount));
      (st.(remote := remote),
       if k in remote && remote[k].StoredText? then ParseInt(remote[k].s) else None)
    else (st, Some(0))
  }

  /** The characters of a string under their indices, as an object lists them. */
  function IndexFields(s: string, n: nat): map<string, string>
    requires n <= |s|
  {
    if n == 0 then map[] else IndexFields(s, n - 1)[ToText(n - 1) := [s[n - 1]]]
  }

  /** A string object's indices and its length cannot be assigned to. */
  predicate ReadOnly(v: Value, field: string) {
    match v
    case Text(s) => field == "length" || field in IndexFields(s, |s|)
    case Boxed(text, true, _) => field == "length" || field in IndexFields(text, |text|)
    case _ => false
  }

  predicate AnyReadOnly(v: Value, fields: map<string, string>) {
    exists f :: f in fields && ReadOnly(v, f)
  }

  /** `Object.assign(current, fields)`, where nothing cached is an empty object; it can throw. */
  function Assign(current: Option<Value>, fields: map<string, string>): Result<Value, string> {
    if current.Some? && AnyReadOnly(current.value, fields) then Throws(READ_ONLY)
    else
      match current
      case None => Ok(Hash(fields))
      case Some(Hash(h)) => Ok(Hash(h + fields))
      case Some(Text(s)) => Ok(Boxed(s, true, fields))
      case Some(Number(n)) => Ok(Boxed(ToText(n), false, fields))
      case Some(Boxed(text, isString, own)) => Ok(Boxed(text, isString, own + fields))
  }

  /** `Object.entries` of the assigned object. */
  function Entries(v: Value): map<string, string> {
    match v
    case Hash(fields) => fields
    case Boxed(text, isString, own) => (if isString then IndexFields(text, |text|) else map[]) + own
    case _ => map[]
  }

  /** The cached value of a key, if there is one. */
  function Cached(st: Store, k: string): Option<Value> {
    if k in st.cache then Some(st.cache[k]) else None
  }

  /** An object that is cached is written in place, owner or not; a string or number is not. */
  function AfterSetHash(st: Store, k: string, fields: map<string, string>, cfg: Config): (Store, Result<bool, string>) {
    match Assign(Cached(st, k), fields)
    case Throws(e) => (st, Throws(e))
    case Ok(merged) =>
      var inPlace := k in st.cache && (st.cache[k].Hash? || st.cache[k].Boxed?);
      var cache := if inPlace || cfg.owner then st.cache[k := merged] else st.cache;
      var command := HashSetCommand(k, Entries(merged));
      if cfg.owner then (Store(cache, if cfg.replicated then st.queue + [command] else st.queue, st.remote), Ok(true))
      else if cfg.rent && cfg.replicated then (Store(cache, st.queue + [command], st.remote), Ok(true))
      else if cfg.rent then (Store(cache, st.queue, Execute(st.remote, command)), Ok(true))
      else (Store(cache, st.queue, st.remote), Ok(true))
  }

  // ---------- by mode ----------

  /** Who reads and writes where, when a value is set. */
  lemma SetByMode(st: Store, k: string, v: Scalar, cfg: Config)
    ensures AfterSet(st, k, None, cfg) == (st, false) && AfterSet(st, k, Some(v), cfg).1
    ensures var after := AfterSet(st, k, Some(v), cfg).0; var text := if v.Text? then v.s else ToText(v.n);
            && after.cache == (if cfg.owner then st.cache[k := v] else st.cache)
            && after.queue == (if cfg.owner && cfg.replicated then st.queue + [SetCommand(k, text)] else st.queue)
            && after.remote == (if !cfg.owner && cfg.rent then st.remote[k := StoredText(text)] else st.remote)
  {
  }

  /** Counting: the owner from its cache, where nothing is zero; a renter at the remote; nobody else. */
  lemma AddByMode(st: Store, k: string, n: int, held: int, cfg: Config)
    requires if k !in st.cache then held == 0
             else if st.cache[k].Boxed? then st.cache[k].text == ToText(held)
             else st.cache[k] in {Number(held), Text(ToText(held))}
    ensures cfg.owner ==>
              AfterAdd(st, k, n, cfg) ==
              (Store(st.cache[k := Text(ToText(held + n))],
                     if cfg.replicated then st.queue + [AddCommand(k, n)] else st.queue, st.remote), Some(held + n))
    ensures !cfg.owner && cfg.rent && k !in st.remote ==>
              AfterAdd(st, k, n, cfg) == (st.(remote := st.remote[k := StoredText(ToText(n))]), Some(n))
    ensures !cfg.owner && !cfg.rent ==> AfterAdd(st, k, n, cfg) == (st, Some(0))
  {
    ParseOfText(held);
    ParseOfText(n);
    hide ToText, ParseInt;
  }

  /** A hash, and a text that is no number, counts as NaN, and is still sent. */
  lemma NoNumberIsNaN(st: Store, k: string, n: int, cfg: Config)
    requires k in st.cache && cfg.owner && cfg.replicated
    requires match st.cache[k]
             case Text(s) => ParseInt(s) == None
             case Boxed(s, _, _) => ParseInt(s) == None
             case Hash(_) => true
             case Number(_) => false
    ensures AfterAdd(st, k, n, cfg) ==
            (Store(st.cache[k := Text("NaN")], st.queue + [AddCommand(k, n)], st.remote), None)
  {
  }

  /** What the remote makes of each command. */
  lemma RemoteExecutes(m: map<string, Stored>, k: string, text: string, n: int, held: int, f: map<string, string>,
                       g: map<string, string>)
    ensures Execute(m, SetCommand(k, text)) == m[k := StoredText(text)]
    ensures k !in m ==> Execute(m, AddCommand(k, n)) == m[k := StoredText(ToText(n))]
    ensures k in m && m[k] == StoredText(ToText(held)) ==>
              Execute(m, AddCommand(k, n)) == m[k := StoredText(ToText(held + n))]
    ensures k in m && m[k].StoredHash? ==> Execute(m, AddCommand(k, n)) == m
    ensures k in m && m[k].StoredText? ==> Execute(m, HashSetCommand(k, f)) == m
    ensures f != map[] && k !in m ==> Execute(m, HashSetCommand(k, f)) == m[k := StoredHash(f)]
    ensures f != map[] && k in m && m[k] == StoredHash(g) ==>
              Execute(m, HashSetCommand(k, f)) == m[k := StoredHash(g + f)]
    ensures Execute(m, HashSetCommand(k, map[])) == m
    ensures Drain(m, []) == m && Drain(m, [SetCommand(k, text), AddCommand(k, n)]) ==
                                 Execute(Execute(m, SetCommand(k, text)), AddCommand(k, n))
  {
    TextIsInteger(held);
    ParseOfText(held);
    hide ToText, ParseInt, IsInteger;
    var queue := [SetCommand(k, text), AddCommand(k, n)];
    assert queue[1..] == [AddCommand(k, n)] && queue[1..][1..] == [];
    var once := Execute(m, queue[0]);
    assert Drain(m, queue) == Drain(once, queue[1..]) == Drain(Execute(once, queue[1..][0]), queue[1..][1..]);
  }

  /** A text is read from the cache, or after the queue from the remote, or, uncached, from the remote at once. */
  lemma GetByMode(st: Store, k: string, cfg: Config)
    ensures var cacheable := cfg.replicated || cfg.rent; var m := Drain(st.remote, st.queue);
            var (after, r) := AfterGet(st, k, cfg);
            var hit := k in st.cache && st.cache[k] != Text("") && st.cache[k] != Number(0);
            && (cacheable && hit ==> after == st && r == Ok(Some(st.cache[k])))
            && (cacheable && !hit ==> after.queue == [] && after.remote == m)
            && (cacheable && !hit && k !in m ==> r == Ok(None) && after.cache == st.cache - {k})
            && (cacheable && !hit && k in m && m[k] == StoredText("") ==>
                  r == Ok(Some(Text(""))) && after.cache == st.cache - {k})
            && (cacheable && !hit && k in m && m[k].StoredText? && m[k].s != "" ==>
                  r == Ok(Some(Text(m[k].s))) && after.cache == st.cache[k := Text(m[k].s)])
            && (cacheable && !hit && k in m && m[k].StoredHash? ==>
                  r.Throws? && after.cache == st.cache[k := Text("caching in progress")])
            && (!cacheable ==> after == st)
            && (!cacheable && k !in st.remote ==> r == Ok(None))
            && (!cacheable && k in st.remote ==>
                  match st.remote[k] case StoredText(s) => r == Ok(Some(Text(s))) case StoredHash(_) => r.Throws?)
  {
    hide Drain;
  }

  /** Likewise a hash, an absent one being cached as an empty one. */
  lemma GetHashByMode(st: Store, k: string, cfg: Config)
    ensures var cacheable := cfg.replicated || cfg.rent; var m := Drain(st.remote, st.queue);
            var (after, r) := AfterGetHash(st, k, cfg);
            var hit := k in st.cache && st.cache[k] != Text("") && st.cache[k] != Number(0);
            && (cacheable && hit ==> after == st && r == Ok(Some(st.cache[k])))
            && (cacheable && !hit ==> after.queue == [] && after.remote == m)
            && (cacheable && !hit && k !in m ==>
                  r == Ok(Some(Hash(map[]))) && after.cache == st.cache[k := Hash(map[])])
            && (cacheable && !hit && k in m && m[k].StoredHash? ==>
                  r == Ok(Some(Hash(m[k].fields))) && after.cache == st.cache[k := Hash(m[k].fields)])
            && (cacheable && !hit && k in m && m[k].StoredText? ==>
                  r.Throws? && after.cache == st.cache[k := Text("caching in progress")])
            && (!cacheable ==> after == st)
            && (!cacheable && k !in st.remote ==> r == Ok(Some(Hash(map[]))))
            && (!cacheable && k in st.remote ==>
                  match st.remote[k] case StoredHash(f) => r == Ok(Some(Hash(f))) case StoredText(_) => r.Throws?)
  {
    hide Drain;
  }

  /** Hash fields, by what is cached and by who writes. */
  lemma SetHashByMode(st: Store, k: string, f: map<string, string>, cfg: Config)
    requires k in st.cache ==> st.cache[k].Hash?
    ensures var merged := (if k in st.cache then st.cache[k].fields else map[]) + f;
            var (after, r) := AfterSetHash(st, k, f, cfg);
            && r == Ok(true)
            && after.cache == (if k in st.cache || cfg.owner then st.cache[k := Hash(merged)] else st.cache)
            && after.queue == (if cfg.replicated && (cfg.owner || cfg.rent) then st.queue + [HashSetCommand(k, merged)]
                               else st.queue)
            && after.remote == (if !cfg.owner && cfg.rent && !cfg.replicated
                                then Execute(st.remote, HashSetCommand(k, merged)) else st.remote)
  {
    hide Execute, IndexFields;
    assert map[] + f == f;
  }

  /** Among the fields is one that a string object has of its own: its length, or one of its indices. */
  ghost predicate NamesOwn(s: string, f: map<string, string>) {
    "length" in f || exists i: nat :: i < |s| && ToText(i) in f
  }

  /** Fields assigned to a cached string make an object of it, unless they are its own indices or its length. */
  lemma SetHashOfString(st: Store, k: string, s: string, f: map<string, string>, cfg: Config)
    requires k in st.cache && st.cache[k] == Text(s) && cfg.owner && cfg.replicated
    ensures var bad := NamesOwn(s, f);
            var (after, r) := AfterSetHash(st, k, f, cfg);
            && (bad ==> after == st && r.Throws?)
            && (!bad ==> r == Ok(true) && after.cache == st.cache[k := Boxed(s, true, f)]
                         && after.queue == st.queue + [HashSetCommand(k, IndexFields(s, |s|) + f)])
  {
    AssignedToString(s, f);
    EntriesOfObject(s, true, f);
    hide NamesOwn, Assign, Entries, IndexFields, ToText, Execute;
  }

  lemma AssignedToString(s: string, f: map<string, string>)
    ensures Assign(Some(Text(s)), f) ==
            if NamesOwn(s, f) then Throws(READ_ONLY) else Ok(Boxed(s, true, f))
  {
    OwnFieldsAreReadOnly(Text(s), s, f);
  }

  lemma OwnFieldsAreReadOnly(v: Value, s: string, f: map<string, string>)
    requires v == Text(s) || (v.Boxed? && v.isString && v.text == s)
    ensures AnyReadOnly(v, f) <==> NamesOwn(s, f)
  {
    hide ToText, IndexFields;
    IndicesOf(s, |s|);
    if "length" in f {
      assert ReadOnly(v, "length");
    } else if i: nat :| i < |s| && ToText(i) in f {
      assert ReadOnly(v, ToText(i));
    }
  }

  /** Fields assigned to a cached number make an object of it; only those fields are sent. */
  lemma SetHashOfNumber(st: Store, k: string, n: int, f: map<string, string>, cfg: Config)
    requires k in st.cache && st.cache[k] == Number(n)
    ensures var (after, r) := AfterSetHash(st, k, f, cfg);
            && r == Ok(true)
            && after.cache == (if cfg.owner then st.cache[k := Boxed(ToText(n), false, f)] else st.cache)
            && (cfg.owner && cfg.replicated ==> after.queue == st.queue + [HashSetCommand(k, f)])
  {
    hide ToText, IndexFields;
    assert map[] + f == f;
  }

  /** Such an object is written in place by everyone, and a string's own indices stay as they are. */
  lemma SetHashOfObject(st: Store, k: string, text: string, isString: bool, own: map<string, string>,
                        f: map<string, string>, cfg: Config)
    requires k in st.cache && st.cache[k] == Boxed(text, isString, own)
    ensures var bad := isString && NamesOwn(text, f);
            var (after, r) := AfterSetHash(st, k, f, cfg); var merged := own + f;
            var sent := if isString then IndexFields(text, |text|) + merged else merged;
            && (bad ==> after == st && r.Throws?)
            && (!bad ==> r == Ok(true) && after.cache == st.cache[k := Boxed(text, isString, merged)])
            && (!bad && cfg.owner && cfg.replicated ==> after.queue == st.queue + [HashSetCommand(k, sent)])
  {
    AssignedToObject(text, isString, own, f);
    EntriesOfObject(text, isString, own + f);
    hide NamesOwn, Assign, Entries, IndexFields, ToText, Execute;
  }

  lemma AssignedToObject(text: string, isString: bool, own: map<string, string>, f: map<string, string>)
    ensures Assign(Some(Boxed(text, isString, own)), f) ==
            if isString && NamesOwn(text, f) then Throws(READ_ONLY) else Ok(Boxed(text, isString, own + f))
  {
    if isString {
      OwnFieldsAreReadOnly(Boxed(text, isString, own), text, f);
    }
  }

  lemma EntriesOfObject(text: string, isString: bool, own: map<string, string>)
    ensures Entries(Boxed(text, isString, own)) == if isString then IndexFields(text, |text|) + own else own
  {
    hide IndexFields;
    assert map[] + own == own;
  }

  /** What a cached value stands for at the remote: a made object for the text it was made of. */
  lemma ShownAsStored(s: string, n: int, f: map<string, string>, isString: bool)
    ensures Show(Text(s)) == StoredText(s) == Show(Boxed(s, isString, f))
    ensures Show(Number(n)) == StoredText(ToText(n)) && Show(Hash(f)) == StoredHash(f)
  {
  }

  lemma DifferentTexts(i: int, j: int)
    requires i != j
    ensures ToText(i) != ToText(j)
  {
    ParseOfText(i);
    ParseOfText(j);
  }

  /** The fields of a string object are its characters under their indices. */
  lemma {:induction false} IndicesOf(s: string, n: nat)
    requires n <= |s|
    ensures forall f | f in IndexFields(s, n) :: exists i: nat :: i < n && ToText(i) == f
    ensures forall i: nat | i < n :: ToText(i) in IndexFields(s, n) && IndexFields(s, n)[ToText(i)] == [s[i]]
    decreases n
  {
    hide ToText;
    if n > 0 {
      IndicesOf(s, n - 1);
      forall i: nat | i < n ensures ToText(i) in IndexFields(s, n) && IndexFields(s, n)[ToText(i)] == [s[i]] {
        if i < n - 1 {
          DifferentTexts(i, n - 1);
        }
      }
    }
  }

  // ---------- the code ----------

  class CacheableDataSource {
    var cache: map<string, Value>
    /** Commands sent on the cached channel and not executed yet. */
    var queue: seq<Command>
    /** The remote's data; the environment's, not the client's. */
    var remote: map<string, Stored>

    function State(): Store
      reads this
    {
      Store(cache, queue, remote)
    }

    constructor (remote: map<string, Stored>)
      ensures State() == Store(map[], [], remote)
    {
      cache, queue, this.remote := map[], [], remote;
    }

    /** The remote executes the oldest queued command. */
    method Serve()
      requires queue != []
      modifies `queue, `remote
      ensures State() == old(State()).(queue := old(queue)[1..], remote := Execute(old(remote), old(queue)[0]))
    {
      remote := Execute(remote, queue[0]);
      queue := queue[1..];
    }

    /** Awaiting an answer on the cached channel. */
    method AwaitQueue()
      modifies `queue, `remote
      ensures queue == [] && remote == Drain(old(remote), old(queue))
    {
      while queue != []
        invariant Drain(remote, queue) == Drain(old(remote), old(queue))
        decreases |queue|
      {
        Serve();
      }
    }

    method Evict(k: string)
      modifies `cache
      ensures cache == old(cache) - {k}
    {
      cache := cache - {k};
    }

    method GetValue(k: string, cfg: Config) returns (r: Result<Option<Value>, string>)
      modifies this
      ensures (State(), r) == AfterGet(old(State()), k, cfg)
    {
      var cacheable := cfg.replicated || cfg.rent;
      if cacheable {
        if k in cache {
          var cachedEntry := cache[k];
          if !Falsy(cachedEntry) {
            return Ok(Some(cachedEntry));
          }
        }
        cache := cache[k := PLACEHOLDER];
        AwaitQueue();
      }
      var result := RemoteText(remote, k);
      if result.Throws? {
        return Throws(result.error);
      }
      if cacheable {
        assert cache - {k} == old(cache) - {k};
        if result.value.Some? && result.value.value != "" {
          assert cache[k := Text(result.value.value)] == old(cache)[k := Text(result.value.value)];
          cache := cache[k := Text(result.value.value)];
        } else {
          cache := cache - {k};
        }
      }
      r := Ok(if result.value.Some? then Some(Text(result.value.value)) else None);
    }

    method GetHash(k: string, cfg: Config) returns (r: Result<Option<Value>, string>)
      modifies this
      ensures (State(), r) == AfterGetHash(old(State()), k, cfg)
    {
      var cacheable := cfg.replicated || cfg.rent;
      if cacheable {
        if k in cache {
          var cachedEntry := cache[k];
          if !Falsy(cachedEntry) {
            return Ok(Some(cachedEntry));
          }
        }
        cache := cache[k := PLACEHOLDER];
        AwaitQueue();
      }
      var result := RemoteHash(remote, k);
      if result.Throws? {
        return Throws(result.error);
      }
      if cacheable {
        assert cache[k := Hash(result.value)] == old(cache)[k := Hash(result.value)];
        cache := cache[k := Hash(result.value)];
      }
      r := Ok(Some(Hash(result.value)));
    }

    method SetValue(k: string, value: Option<Scalar>, cfg: Config) returns (r: bool)
      modifies this
      ensures (State(), r) == AfterSet(old(State()), k, value, cfg)
      ensures r == value.Some?
    {
      if value.None? {
        return false;
      }
      var dispatchRemote := false;
      if cfg.owner {
        cache := cache[k := value.value];
        dispatchRemote := cfg.replicated;
      } else if cfg.rent {
        dispatchRemote := true;
      }
      if dispatchRemote {
        var command := SetCommand(k, Show(value.value).s);
        if cfg.owner {
          queue := queue + [command];
        } else {
          remote := Execute(remote, command);
        }
      }
      r := true;
    }

    method IncrOrDecr(k: string, amount: int, cfg: Config) returns (r: Option<int>)
      modifies this
      ensures (State(), r) == AfterAdd(old(State()), k, amount, cfg)
    {
      var value := Some(0);
      var dispatchRemote := false;
      if cfg.owner {
        var val := if k in cache then Numeric(cache[k]) else Some(0);
        value := if val.Some? then Some(val.value + amount) else None;
        cache := cache[k := Text(if value.Some? then ToText(value.value) else "NaN")];
        dispatchRemote := cfg.replicated;
      } else if cfg.rent {
        dispatchRemote := true;
      }
      if dispatchRemote {
        if cfg.owner {
          queue := queue + [AddCommand(k, amount)];
        } else {
          remote := Execute(remote, AddCommand(k, amount));
          return if k in remote && remote[k].StoredText? then ParseInt(remote[k].s) else None;
        }
      }
      r := value;
    }

    method SetHash(k: string, fields: map<string, string>, cfg: Config) returns (r: Result<bool, string>)
      modifies this
      ensures (State(), r) == AfterSetHash(old(State()), k, fields, cfg)
    {
      hide Assign, Entries, Execute;
      var merged := Assign(if k in cache then Some(cache[k]) else None, fields);
      if merged.Throws? {
        return Throws(merged.error);
      }
      var assignedRecord := merged.value;
      if k in cache && (cache[k].Hash? || cache[k].Boxed?) {
        cache := cache[k := assignedRecord];
      }
      var dispatchRemote := false;
      if cfg.owner {
        assert cache[k := assignedRecord] == old(cache)[k := assignedRecord];
        cache := cache[k := assignedRecord];
        dispatchRemote := cfg.replicated;
      } else if cfg.rent {
        dispatchRemote := true;
      }
      if dispatchRemote {
        var command := HashSetCommand(k, Entries(assignedRecord));
        if cfg.owner || cfg.replicated {
          queue := queue + [command];
        } else {
          remote := Execute(remote, command);
        }
      }
      r := Ok(true);
    }
  }
}
