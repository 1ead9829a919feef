/**
 The deep merge of packages/emitter/emitter.ts as a function on trees, and its algebra.
 */
module Merge {
  import opened Wrappers
  import opened JsTrees

  /** `target && target[key]` of the source: a falsy target stands for itself. */
  function TargetChild(target: Tree, key: string): Tree {
    if Falsy(target) then target
    else if target.Object? then Get(target.fields, key)
    else UNDEFINED
  }

  /** The fields the output starts from: a copy of an object target, nothing otherwise. */
  function StartOf(target: Tree): Fields {
    if target.Object? then target.fields else Nil
  }

  function TreeMerge(target: Tree, source: Tree): Tree
    decreases source, 1
  {
    if source.Value? then source
    else Object(MergeFields(StartOf(target), target, source.fields))
  }

  function MergeFields(output: Fields, target: Tree, fs: Fields): Fields
    decreases fs, 0
  {
    match fs
    case Nil => output
    case Field(k, v, rest) =>
      MergeFields(Put(output, k, TreeMerge(TargetChild(target, k), v)), target, rest)
  }

  lemma {:induction false} MergeFieldsGet(output: Fields, target: Tree, fs: Fields, k: string)
    requires WellFormedFields(fs)
    ensures Has(MergeFields(output, target, fs), k) <==> Has(output, k) || Has(fs, k)
    ensures Get(MergeFields(output, target, fs), k)
         == if Has(fs, k) then TreeMerge(TargetChild(target, k), Get(fs, k)) else Get(output, k)
    decreases fs
  {
    if fs.Field? {
      var next := Put(output, fs.key, TreeMerge(TargetChild(target, fs.key), fs.value));
      PutGet(output, fs.key, TreeMerge(TargetChild(target, fs.key), fs.value), k);
      MergeFieldsGet(next, target, fs.rest, k);
    }
  }

  lemma {:induction false} MergeWellFormed(target: Tree, source: Tree)
    requires WellFormed(target) && WellFormed(source)
    ensures WellFormed(TreeMerge(target, source))
    decreases source, 1
  {
    if source.Object? {
      MergeFieldsWellFormed(StartOf(target), target, source.fields);
    }
  }

  lemma {:induction false} MergeFieldsWellFormed(output: Fields, target: Tree, fs: Fields)
    requires WellFormedFields(output) && WellFormed(target) && WellFormedFields(fs)
    ensures WellFormedFields(MergeFields(output, target, fs))
    decreases fs, 0
  {
    if fs.Field? {
      if target.Object? {
        GetWellFormed(target.fields, fs.key);
      }
      var merged := TreeMerge(TargetChild(target, fs.key), fs.value);
      MergeWellFormed(TargetChild(target, fs.key), fs.value);
      PutWellFormed(output, fs.key, merged);
      MergeFieldsWellFormed(Put(output, fs.key, merged), target, fs.rest);
    }
  }

  /**
   What a merge reads like at any path: the source decides wherever it has the first step,
   the target everywhere else.
   */
  lemma LookupMerge(target: Tree, source: Tree, p: Path)
    requires WellFormed(source)
    ensures p == [] ==> (TreeMerge(target, source).Object? <==> source.Object?)
    ensures p != [] && source.Value? ==> Lookup(TreeMerge(target, source), p) == None
    ensures p != [] && source.Object? ==>
              Lookup(TreeMerge(target, source), p) ==
              (if Has(source.fields, p[0])
               then Lookup(TreeMerge(TargetChild(target, p[0]), Get(source.fields, p[0])), p[1..])
               else if target.Object? then Lookup(target, p) else None)
  {
    if p != [] && source.Object? {
      MergeFieldsGet(StartOf(target), target, source.fields, p[0]);
    }
  }

  /** No step of the path, nor its end, is a leaf of the tree. */
  predicate NoLeafAlong(t: Tree, p: Path)
    decreases |p|
  {
    t.Object? && (p != [] && Has(t.fields, p[0]) ==> NoLeafAlong(Get(t.fields, p[0]), p[1..]))
  }

  /**
   What a merge holds at a path, by source and target alone: a leaf of the source as it is, an object
   where the source has one, nothing below a leaf of the source, and what the target holds elsewhere.
   */
  lemma {:induction false} MergeHolds(target: Tree, source: Tree, p: Path)
    requires WellFormed(source)
    ensures forall l | Lookup(source, p) == Some(Value(l)) :: Lookup(TreeMerge(target, source), p) == Some(Value(l))
    ensures ShapeOf(Lookup(source, p)) == AnObject ==> ShapeOf(Lookup(TreeMerge(target, source), p)) == AnObject
    ensures Lookup(source, p) == None && !NoLeafAlong(source, p) ==> Lookup(TreeMerge(target, source), p) == None
    ensures Lookup(source, p) == None && NoLeafAlong(source, p) ==>
              Lookup(TreeMerge(target, source), p) == Lookup(target, p)
    decreases |p|
  {
    LookupMerge(target, source, p);
    if p != [] && source.Object? && Has(source.fields, p[0]) {
      GetWellFormed(source.fields, p[0]);
      MergeHolds(TargetChild(target, p[0]), Get(source.fields, p[0]), p[1..]);
      if target.Object? && !Has(target.fields, p[0]) {
        GetAbsent(target.fields, p[0]);
      }
      LeafHasNothingBelow(TargetChild(target, p[0]), p[1..]);
    }
  }

  lemma LeafHasNothingBelow(t: Tree, p: Path)
    ensures t.Value? && p != [] ==> Lookup(t, p) == None
  {
  }

  lemma MergedChild(target: Tree, source: Tree, k: string)
    requires WellFormed(source) && source.Object?
    ensures TargetChild(TreeMerge(target, source), k)
         == if Has(source.fields, k) then TreeMerge(TargetChild(target, k), Get(source.fields, k))
            else Get(StartOf(target), k)
  {
    MergeFieldsGet(StartOf(target), target, source.fields, k);
  }

  /** Merging over anything that is not an object is merging over nothing. */
  lemma {:induction false} PlainTargets(x: Tree, y: Tree, source: Tree)
    requires x.Value? && y.Value?
    ensures TreeMerge(x, source) == TreeMerge(y, source)
    decreases source, 1
  {
    if source.Object? {
      PlainTargetFields(Nil, x, y, source.fields);
    }
  }

  lemma {:induction false} PlainTargetFields(output: Fields, x: Tree, y: Tree, fs: Fields)
    requires x.Value? && y.Value?
    ensures MergeFields(output, x, fs) == MergeFields(output, y, fs)
    decreases fs, 0
  {
    if fs.Field? {
      PlainTargets(TargetChild(x, fs.key), TargetChild(y, fs.key), fs.value);
      PlainTargetFields(Put(output, fs.key, TreeMerge(TargetChild(x, fs.key), fs.value)), x, y, fs.rest);
    }
  }

  /** Merging a fresh copy of a source is merging the source. */
  lemma {:induction false} MergeOfCopy(x: Tree, u: Tree, c: Tree, p: Path)
    requires u.Value? && WellFormed(c)
    ensures ShapeOf(Lookup(TreeMerge(x, TreeMerge(u, c)), p)) == ShapeOf(Lookup(TreeMerge(x, c), p))
    decreases |p|
  {
    MergeWellFormed(u, c);
    LookupMerge(x, TreeMerge(u, c), p);
    LookupMerge(x, c, p);
    if c.Object? && p != [] {
      var k := p[0];
      MergeFieldsGet(Nil, u, c.fields, k);
      if Has(c.fields, k) {
        GetWellFormed(c.fields, k);
        MergeOfCopy(TargetChild(x, k), TargetChild(u, k), Get(c.fields, k), p[1..]);
      }
    }
  }

  // ---------- two updates against one ----------

  /** `b` holds no non-object at a path where `c` holds an object. */
  predicate Compatible(b: Tree, c: Tree)
    decreases c, 1
  {
    c.Object? ==> b.Object? && CompatibleFields(b.fields, c.fields)
  }

  predicate CompatibleFields(bs: Fields, cs: Fields)
    decreases cs, 0
  {
    cs.Field? ==>
      && (Has(bs, cs.key) ==> Compatible(Get(bs, cs.key), cs.value))
      && CompatibleFields(bs, cs.rest)
  }

  lemma CompatibleAt(bs: Fields, cs: Fields, k: string)
    requires CompatibleFields(bs, cs) && Has(bs, k) && Has(cs, k)
    ensures Compatible(Get(bs, k), Get(cs, k))
    decreases cs
  {
    if cs.key != k {
      CompatibleAt(bs, cs.rest, k);
    }
  }

  lemma {:induction false} ComposeAt(a: Tree, b: Tree, c: Tree, p: Path)
    requires WellFormed(a) && WellFormed(b) && WellFormed(c)
    requires Compatible(b, c)
    ensures ShapeOf(Lookup(TreeMerge(TreeMerge(a, b), c), p)) == ShapeOf(Lookup(TreeMerge(a, TreeMerge(b, c)), p))
    decreases |p|
  {
    MergeWellFormed(a, b);
    MergeWellFormed(b, c);
    LookupMerge(TreeMerge(a, b), c, p);
    LookupMerge(a, TreeMerge(b, c), p);
    if c.Object? && p != [] {
      var k := p[0];
      LookupMerge(a, b, p);
      MergeFieldsGet(b.fields, b, c.fields, k);
      if Has(c.fields, k) {
        GetWellFormed(c.fields, k);
        MergedChild(a, b, k);
        if Has(b.fields, k) {
          GetWellFormed(b.fields, k);
          if a.Object? {
            GetWellFormed(a.fields, k);
          }
          CompatibleAt(b.fields, c.fields, k);
          ComposeAt(TargetChild(a, k), Get(b.fields, k), Get(c.fields, k), p[1..]);
        } else {
          GetAbsent(b.fields, k);
          MergeOfCopy(TargetChild(a, k), UNDEFINED, Get(c.fields, k), p[1..]);
          if !a.Object? {
            PlainTargets(TargetChild(TreeMerge(a, b), k), TargetChild(a, k), Get(c.fields, k));
          }
        }
      }
    }
  }

  /** A key longer than every key of the record, hence none of them. */
  function FreshKey(fs: Fields): (k: string)
    ensures !Has(fs, k)
    ensures forall j | Has(fs, j) :: |j| < |k|
  {
    match fs
    case Nil => "x"
    case Field(key, _, rest) =>
      var k := FreshKey(rest);
      if |key| < |k| then k else key + "x"
  }

  /** Where `b` does hold such a non-object, some state tells two updates from one. */
  lemma {:induction false} IncompatibleWitness(b: Tree, c: Tree) returns (a: Tree, p: Path)
    requires WellFormed(b) && WellFormed(c) && !Compatible(b, c)
    ensures WellFormed(a) && a.Object?
    ensures ShapeOf(Lookup(TreeMerge(TreeMerge(a, b), c), p)) != ShapeOf(Lookup(TreeMerge(a, TreeMerge(b, c)), p))
    decreases c
  {
    if b.Value? {
      var k := FreshKey(c.fields);
      a, p := Object(Field(k, Value(Null), Nil)), [k];
      MergeWellFormed(b, c);
      LookupMerge(b, c, p);
      LookupMerge(a, TreeMerge(b, c), p);
      MergeFieldsGet(Nil, b, c.fields, k);
    } else {
      var k := IncompatibleKey(b.fields, c.fields);
      GetWellFormed(b.fields, k);
      GetWellFormed(c.fields, k);
      GetSmaller(c.fields, k);
      var inner, rest := IncompatibleWitness(Get(b.fields, k), Get(c.fields, k));
      a, p := Object(Field(k, inner, Nil)), [k] + rest;
      MergeWellFormed(b, c);
      LookupMerge(TreeMerge(a, b), c, p);
      LookupMerge(a, TreeMerge(b, c), p);
      MergedChild(a, b, k);
      MergeFieldsGet(b.fields, b, c.fields, k);
      assert p[1..] == rest;
    }
  }

  lemma {:induction false} IncompatibleKey(bs: Fields, cs: Fields) returns (k: string)
    requires WellFormedFields(cs) && !CompatibleFields(bs, cs)
    ensures Has(bs, k) && Has(cs, k) && !Compatible(Get(bs, k), Get(cs, k))
    decreases cs
  {
    if Has(bs, cs.key) && !Compatible(Get(bs, cs.key), cs.value) {
      k := cs.key;
    } else {
      k := IncompatibleKey(bs, cs.rest);
    }
  }

  /**
   Updating with `b` and then with `c` reaches the state of one update with their merge, from
   every state, exactly when `b` holds no non-object at a path where `c` holds an object.
   */
  lemma MergeComposes(b: Tree, c: Tree)
    requires WellFormed(b) && b.Object? && WellFormed(c) && c.Object?
    ensures Compatible(b, c)
       <==> forall a: Tree | WellFormed(a) && a.Object? ::
              SameState(TreeMerge(TreeMerge(a, b), c), TreeMerge(a, TreeMerge(b, c)))
  {
    if Compatible(b, c) {
      forall a: Tree, p: Path | WellFormed(a) && a.Object?
        ensures ShapeOf(Lookup(TreeMerge(TreeMerge(a, b), c), p)) == ShapeOf(Lookup(TreeMerge(a, TreeMerge(b, c)), p))
      {
        ComposeAt(a, b, c, p);
      }
    } else {
      var a, p := IncompatibleWitness(b, c);
      assert !SameState(TreeMerge(TreeMerge(a, b), c), TreeMerge(a, TreeMerge(b, c)));
    }
  }

  /** Merging the same partial state twice changes nothing the second time. */
  lemma {:induction false} MergeIdempotentAt(a: Tree, b: Tree, p: Path)
    requires WellFormed(b)
    ensures ShapeOf(Lookup(TreeMerge(TreeMerge(a, b), b), p)) == ShapeOf(Lookup(TreeMerge(a, b), p))
    decreases |p|
  {
    LookupMerge(TreeMerge(a, b), b, p);
    LookupMerge(a, b, p);
    if b.Object? && p != [] && Has(b.fields, p[0]) {
      MergedChild(a, b, p[0]);
      GetWellFormed(b.fields, p[0]);
      MergeIdempotentAt(TargetChild(a, p[0]), Get(b.fields, p[0]), p[1..]);
    }
  }

  lemma MergeIdempotent(a: Tree, b: Tree)
    requires WellFormed(b)
    ensures SameState(TreeMerge(TreeMerge(a, b), b), TreeMerge(a, b))
  {
    forall p: Path
      ensures ShapeOf(Lookup(TreeMerge(TreeMerge(a, b), b), p)) == ShapeOf(Lookup(TreeMerge(a, b), p))
    {
      MergeIdempotentAt(a, b, p);
    }
  }
}
