/**
 JavaScript object values as finite trees.  An object is a list of fields in insertion order;
 arrays are leaves that are compared by identity.
 */
module JsTrees {
  import opened Wrappers

  datatype Leaf =
    | Undefined
    | Null
    | Bool(b: bool)
    | Num(n: int)
    | NaN
    | Str(s: string)
    | Array(identity: nat)

  datatype Tree =
    | Value(leaf: Leaf)
    | Object(fields: Fields)

  datatype Fields =
    | Nil
    | Field(key: string, value: Tree, rest: Fields)

  type Path = seq<string>

  const UNDEFINED: Tree := Value(Undefined)

  predicate Falsy(t: Tree) {
    t.Value? && (t.leaf in {Undefined, Null, NaN, Bool(false), Num(0), Str("")})
  }

  // ---------- fields as a keyed record ----------

  predicate Has(fs: Fields, k: string) {
    fs.Field? && (fs.key == k || Has(fs.rest, k))
  }

  /** `obj[k]`, which is undefined for an absent key. */
  function Get(fs: Fields, k: string): Tree {
    match fs
    case Nil => UNDEFINED
    case Field(key, value, rest) => if key == k then value else Get(rest, k)
  }

  /** `obj[k] = v`: an existing field keeps its place, a new one goes last. */
  function Put(fs: Fields, k: string, v: Tree): Fields {
    match fs
    case Nil => Field(k, v, Nil)
    case Field(key, value, rest) =>
      if key == k then Field(key, v, rest) else Field(key, value, Put(rest, k, v))
  }

  /** No object in the tree has two fields of one name. */
  predicate WellFormed(t: Tree) {
    t.Object? ==> WellFormedFields(t.fields)
  }

  predicate WellFormedFields(fs: Fields) {
    fs.Field? ==> !Has(fs.rest, fs.key) && WellFormed(fs.value) && WellFormedFields(fs.rest)
  }

  lemma PutGet(fs: Fields, k: string, v: Tree, j: string)
    ensures Has(Put(fs, k, v), j) <==> Has(fs, j) || j == k
    ensures Get(Put(fs, k, v), j) == if j == k then v else Get(fs, j)
  {
  }

  lemma PutWellFormed(fs: Fields, k: string, v: Tree)
    requires WellFormedFields(fs) && WellFormed(v)
    ensures WellFormedFields(Put(fs, k, v))
  {
    if fs.Field? && fs.key != k {
      PutGet(fs.rest, k, v, fs.key);
    }
  }

  lemma GetWellFormed(fs: Fields, k: string)
    requires WellFormedFields(fs)
    ensures WellFormed(Get(fs, k))
  {
  }

  lemma GetAbsent(fs: Fields, k: string)
    requires !Has(fs, k)
    ensures Get(fs, k) == UNDEFINED
  {
  }

  /** The field names in their order. */
  function Keys(fs: Fields): seq<string> {
    match fs
    case Nil => []
    case Field(key, _, rest) => [key] + Keys(rest)
  }

  /** A field that is there keeps its place, a new one comes last. */
  lemma PutOrder(fs: Fields, k: string, v: Tree)
    ensures Keys(Put(fs, k, v)) == if Has(fs, k) then Keys(fs) else Keys(fs) + [k]
    ensures Has(fs, k) <==> k in Keys(fs)
  {
    if fs.Field? && fs.key != k {
      PutOrder(fs.rest, k, v);
    }
  }

  /** What is not there reads as undefined. */
  lemma MissingIsUndefined(k: string, leaf: Leaf)
    ensures Read(Object(Nil), [k]) == Value(Undefined) && Read(Value(leaf), [k]) == Value(Undefined)
  {
  }

  lemma GetSmaller(fs: Fields, k: string)
    requires Has(fs, k)
    ensures Get(fs, k) < fs
  {
  }

  // ---------- observations ----------

  /** The subtree at a key path, if every step of the path exists. */
  function Lookup(t: Tree, p: Path): Option<Tree>
    decreases |p|
  {
    if p == [] then Some(t)
    else if t.Object? && Has(t.fields, p[0]) then Lookup(Get(t.fields, p[0]), p[1..])
    else None
  }

  /** What reading a path returns: undefined once a step is missing. */
  function Read(t: Tree, p: Path): Tree {
    match Lookup(t, p)
    case Some(v) => v
    case None => UNDEFINED
  }

  datatype Shape = Missing | Plain(leaf: Leaf) | AnObject

  function ShapeOf(o: Option<Tree>): Shape {
    match o
    case None => Missing
    case Some(Value(l)) => Plain(l)
    case Some(Object(_)) => AnObject
  }

  /** The same fields with the same values, at every depth. */
  ghost predicate SameState(s: Tree, t: Tree) {
    forall p: Path :: ShapeOf(Lookup(s, p)) == ShapeOf(Lookup(t, p))
  }

  /** Indistinguishable by reading: a missing field reads like an undefined one. */
  predicate ReadsAlikeAt(s: Tree, t: Tree, p: Path) {
    ShapeOf(Some(Read(s, p))) == ShapeOf(Some(Read(t, p)))
  }

  ghost predicate ReadsAlike(s: Tree, t: Tree) {
    forall p: Path :: ReadsAlikeAt(s, t, p)
  }

  lemma LookupOne(t: Tree, p: Path)
    requires |p| == 1
    ensures Lookup(t, p) == if t.Object? && Has(t.fields, p[0]) then Some(Get(t.fields, p[0])) else None
  {
    assert p[1..] == [];
  }

  lemma {:induction false} LookupConcat(t: Tree, p: Path, q: Path)
    ensures Lookup(t, p + q) == (match Lookup(t, p) case Some(v) => Lookup(v, q) case None => None)
    decreases |p|
  {
    if p == [] {
      assert p + q == q;
    } else if t.Object? && Has(t.fields, p[0]) {
      assert (p + q)[1..] == p[1..] + q;
      LookupConcat(Get(t.fields, p[0]), p[1..], q);
    }
  }
}
