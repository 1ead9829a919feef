/**
 The change computation of packages/emitter/emitter.ts as a function on trees: which key paths it
 reports, and what applying the reported values to the before state gives.
 */
module Diff {
  import opened Wrappers
  import opened JsTrees
  import opened Merge

  /** `!==` between two values of which at most one is an object; NaN differs from itself. */
  predicate StrictlyDiffer(x: Tree, y: Tree) {
    x != y || x == Value(NaN)
  }

  function Under(k: string, ps: seq<Path>): (r: seq<Path>)
    ensures |r| == |ps|
    ensures forall i | 0 <= i < |ps| :: r[i] == [k] + ps[i]
  {
    if ps == [] then [] else [[k] + ps[0]] + Under(k, ps[1..])
  }

  /** The key paths at which `news` is reported to differ from `olds`, in iteration order. */
  function ChangedPaths(olds: Fields, news: Fields): seq<Path>
    decreases news, 1
  {
    match news
    case Nil => []
    case Field(k, v, rest) => ChangedField(k, Get(olds, k), v) + ChangedPaths(olds, rest)
  }

  /** The paths reported for one field of the new state. */
  function ChangedField(k: string, oldValue: Tree, newValue: Tree): seq<Path>
    decreases newValue, 0
  {
    if newValue.Object? && oldValue.Object? then Under(k, ChangedPaths(oldValue.fields, newValue.fields))
    else if StrictlyDiffer(newValue, oldValue) then [[k]]
    else []
  }

  // ---------- prefixes of paths ----------

  predicate Prefix(p: Path, q: Path) {
    |p| <= |q| && p == q[..|p|]
  }

  predicate Incomparable(ps: seq<Path>) {
    forall i, j | 0 <= i < |ps| && 0 <= j < |ps| && i != j :: !Prefix(ps[i], ps[j])
  }

  lemma PrefixStep(p: Path, q: Path)
    requires p != [] && q != [] && p[0] == q[0]
    ensures Prefix(p, q) <==> Prefix(p[1..], q[1..])
  {
    if Prefix(p[1..], q[1..]) {
      assert q[..|p|] == [q[0]] + q[1..][..|p| - 1];
    }
    if Prefix(p, q) {
      assert q[1..][..|p| - 1] == q[..|p|][1..];
    }
  }

  lemma PrefixOfTake(p: Path, q: Path, i: nat)
    requires i <= |q|
    ensures Prefix(p, q[..i]) ==> Prefix(p, q)
  {
    if Prefix(p, q[..i]) {
      assert q[..i][..|p|] == q[..|p|];
    }
  }

  // ---------- the reported paths, characterised without the traversal ----------

  /** Every proper prefix of `p`, from the root, is an object of `t`. */
  predicate ObjectsAbove(t: Tree, p: Path)
    decreases |p|
  {
    p != [] ==>
      && t.Object?
      && (|p| > 1 ==> Has(t.fields, p[0]) && ObjectsAbove(Get(t.fields, p[0]), p[1..]))
  }

  /**
   `p` leads through objects of both states to a field of the new one whose value is not the old
   one, and the two are not both objects.
   */
  predicate IsChange(before: Tree, after: Tree, p: Path) {
    && p != []
    && ObjectsAbove(before, p) && ObjectsAbove(after, p)
    && Lookup(after, p).Some?
    && !(Read(before, p).Object? && Read(after, p).Object?)
    && StrictlyDiffer(Read(after, p), Read(before, p))
  }

  lemma InConcat<T>(x: T, a: seq<T>, b: seq<T>)
    ensures x in a + b <==> x in a || x in b
  {
  }

  lemma InUnder(k: string, ps: seq<Path>, p: Path)
    ensures p in Under(k, ps) <==> p != [] && p[0] == k && p[1..] in ps
  {
    if p in Under(k, ps) {
      var i :| 0 <= i < |ps| && Under(k, ps)[i] == p;
      assert p[1..] == ps[i];
    }
    if p != [] && p[0] == k && p[1..] in ps {
      var i :| 0 <= i < |ps| && ps[i] == p[1..];
      assert Under(k, ps)[i] == p;
    }
  }

  lemma {:induction false} ChangedExactlyFields(olds: Fields, news: Fields, p: Path)
    requires WellFormedFields(olds) && WellFormedFields(news)
    ensures p in ChangedPaths(olds, news) <==> IsChange(Object(olds), Object(news), p)
    decreases news, 1
  {
    if news.Field? {
      InConcat(p, ChangedField(news.key, Get(olds, news.key), news.value), ChangedPaths(olds, news.rest));
      ChangedExactlyFields(olds, news.rest, p);
      ChangedFieldExactly(olds, news, p);
      if p != [] && p[0] == news.key {
        GetAbsent(news.rest, news.key);
        assert !IsChange(Object(olds), Object(news.rest), p);
      }
    }
  }

  lemma {:induction false} ChangedFieldExactly(olds: Fields, news: Fields, p: Path)
    requires WellFormedFields(olds) && WellFormedFields(news) && news.Field?
    ensures p in ChangedField(news.key, Get(olds, news.key), news.value)
       <==> p != [] && p[0] == news.key && IsChange(Object(olds), Object(news), p)
    decreases news, 0
  {
    var k, oldValue, newValue := news.key, Get(olds, news.key), news.value;
    GetWellFormed(olds, k);
    if newValue.Object? && oldValue.Object? {
      InUnder(k, ChangedPaths(oldValue.fields, newValue.fields), p);
      if p != [] && p[0] == k {
        ChangedExactlyFields(oldValue.fields, newValue.fields, p[1..]);
        OneStep(olds, news, p);
      }
    } else if p != [] && p[0] == k {
      if |p| == 1 {
        ChangedAtKey(olds, news, p);
      } else {
        assert p != [k];
        assert ObjectsAbove(oldValue, p[1..]) ==> oldValue.Object?;
        assert ObjectsAbove(newValue, p[1..]) ==> newValue.Object?;
      }
    }
  }

  lemma ChangedAtKey(olds: Fields, news: Fields, p: Path)
    requires |p| == 1 && Has(news, p[0])
    ensures IsChange(Object(olds), Object(news), p)
       <==> !(Get(olds, p[0]).Object? && Get(news, p[0]).Object?)
            && StrictlyDiffer(Get(news, p[0]), Get(olds, p[0]))
    ensures p == [p[0]]
  {
    LookupOne(Object(olds), p);
    LookupOne(Object(news), p);
    if !Has(olds, p[0]) {
      GetAbsent(olds, p[0]);
    }
  }

  /** A change below a field that is an object on both sides is a change of the two fields. */
  lemma OneStep(olds: Fields, news: Fields, p: Path)
    requires p != [] && Has(news, p[0]) && Get(news, p[0]).Object? && Get(olds, p[0]).Object?
    ensures IsChange(Object(olds), Object(news), p) <==> IsChange(Get(olds, p[0]), Get(news, p[0]), p[1..])
  {
    if !Has(olds, p[0]) {
      GetAbsent(olds, p[0]);
    }
    if |p| == 1 {
      LookupOne(Object(olds), p);
      LookupOne(Object(news), p);
    }
  }

  /** The reported paths are exactly the changes. */
  lemma ChangedExactly(before: Tree, after: Tree, p: Path)
    requires before.Object? && after.Object? && WellFormed(before) && WellFormed(after)
    ensures p in ChangedPaths(before.fields, after.fields) <==> IsChange(before, after, p)
  {
    ChangedExactlyFields(before.fields, after.fields, p);
  }

  lemma {:induction false} ObjectsAboveLookup(t: Tree, p: Path, q: Path)
    requires ObjectsAbove(t, q) && Prefix(p, q) && p != q
    ensures Lookup(t, p).Some? && Lookup(t, p).value.Object?
    decreases |p|
  {
    if p != [] {
      assert p[0] == q[0] && p[1..] == q[1..][..|p| - 1];
      ObjectsAboveLookup(Get(t.fields, p[0]), p[1..], q[1..]);
    }
  }

  /** Of two changes of the same pair of states, neither lies above the other. */
  lemma ChangesAreIncomparable(before: Tree, after: Tree, p: Path, q: Path)
    requires IsChange(before, after, p) && IsChange(before, after, q) && p != q
    ensures !Prefix(p, q)
  {
    if Prefix(p, q) {
      ObjectsAboveLookup(before, p, q);
      ObjectsAboveLookup(after, p, q);
    }
  }

  predicate Distinct(ps: seq<Path>) {
    forall i, j | 0 <= i < j < |ps| :: ps[i] != ps[j]
  }

  lemma DistinctConcat(a: seq<Path>, b: seq<Path>)
    requires Distinct(a) && Distinct(b) && forall p | p in a :: p !in b
    ensures Distinct(a + b)
  {
    forall i, j | 0 <= i < j < |a + b| ensures (a + b)[i] != (a + b)[j] {
      if i < |a| <= j {
        assert (a + b)[i] in a && (a + b)[j] in b;
      }
    }
  }

  lemma DistinctUnder(k: string, ps: seq<Path>)
    requires Distinct(ps)
    ensures Distinct(Under(k, ps))
  {
    forall i, j | 0 <= i < j < |ps| ensures Under(k, ps)[i] != Under(k, ps)[j] {
      assert Under(k, ps)[i][1..] == ps[i] && Under(k, ps)[j][1..] == ps[j];
    }
  }

  lemma {:induction false} ChangedDistinct(olds: Fields, news: Fields)
    requires WellFormedFields(olds) && WellFormedFields(news)
    ensures Distinct(ChangedPaths(olds, news))
    decreases news
  {
    if news.Field? {
      var k, oldValue, newValue := news.key, Get(olds, news.key), news.value;
      GetWellFormed(olds, k);
      ChangedDistinct(olds, news.rest);
      if newValue.Object? && oldValue.Object? {
        ChangedDistinct(oldValue.fields, newValue.fields);
        DistinctUnder(k, ChangedPaths(oldValue.fields, newValue.fields));
      }
      forall p | p in ChangedField(k, oldValue, newValue) ensures p !in ChangedPaths(olds, news.rest) {
        ChangedFieldExactly(olds, news, p);
        ChangedExactlyFields(olds, news.rest, p);
      }
      DistinctConcat(ChangedField(k, oldValue, newValue), ChangedPaths(olds, news.rest));
    }
  }

  /** Reported paths are the changes, never repeat, and none is a prefix of another. */
  lemma ReportedPathsSoundAndMinimal(before: Tree, after: Tree)
    requires before.Object? && after.Object? && WellFormed(before) && WellFormed(after)
    ensures var ps := ChangedPaths(before.fields, after.fields);
            && (forall p :: p in ps <==> IsChange(before, after, p))
            && Incomparable(ps)
  {
    var ps := ChangedPaths(before.fields, after.fields);
    forall p: Path ensures p in ps <==> IsChange(before, after, p) {
      ChangedExactly(before, after, p);
    }
    ChangedDistinct(before.fields, after.fields);
    forall i, j | 0 <= i < |ps| && 0 <= j < |ps| && i != j ensures !Prefix(ps[i], ps[j]) {
      ChangesAreIncomparable(before, after, ps[i], ps[j]);
    }
  }

  // ---------- patching ----------

  /** Write `v` at a path, as an observer replaying the notifications does. */
  function PatchAt(t: Tree, p: Path, v: Tree): Tree
    decreases |p|
  {
    if p == [] then v
    else
      var fs := StartOf(t);
      Object(Put(fs, p[0], PatchAt(Get(fs, p[0]), p[1..], v)))
  }

  /** Write the new state's values at every path of the list, in order. */
  function PatchAll(t: Tree, ps: seq<Path>, after: Tree): Tree
    decreases |ps|
  {
    if ps == [] then t else PatchAll(PatchAt(t, ps[0], Read(after, ps[0])), ps[1..], after)
  }

  lemma {:induction false} PatchReadsBelow(t: Tree, p: Path, v: Tree, q: Path)
    requires Prefix(p, q)
    ensures Lookup(PatchAt(t, p, v), q) == Lookup(v, q[|p|..])
    decreases |p|
  {
    if p == [] {
      assert q[0..] == q;
    } else {
      var fs := StartOf(t);
      PutGet(fs, p[0], PatchAt(Get(fs, p[0]), p[1..], v), p[0]);
      assert p[1..] == q[1..][..|p| - 1];
      PatchReadsBelow(Get(fs, p[0]), p[1..], v, q[1..]);
      assert q[1..][|p| - 1..] == q[|p|..];
    }
  }

  lemma {:induction false} PatchKeepsElsewhere(t: Tree, p: Path, v: Tree, q: Path)
    requires ObjectsAbove(t, p) && !Prefix(p, q)
    ensures ShapeOf(Lookup(PatchAt(t, p, v), q)) == ShapeOf(Lookup(t, q))
    decreases |p|
  {
    if q != [] {
      PutGet(t.fields, p[0], PatchAt(Get(t.fields, p[0]), p[1..], v), q[0]);
      if p[0] == q[0] {
        PrefixStep(p, q);
        PatchKeepsElsewhere(Get(t.fields, p[0]), p[1..], v, q[1..]);
      }
    }
  }

  lemma {:induction false} ObjectsAboveIff(t: Tree, p: Path)
    ensures ObjectsAbove(t, p) <==> forall i | 0 <= i < |p| :: ShapeOf(Lookup(t, p[..i])) == AnObject
    decreases |p|
  {
    if p != [] {
      assert p[..0] == [];
      if t.Object? && Has(t.fields, p[0]) {
        var child := Get(t.fields, p[0]);
        ObjectsAboveIff(child, p[1..]);
        forall i | 0 <= i < |p| - 1
          ensures Lookup(t, p[..i + 1]) == Lookup(child, p[1..][..i])
        {
          assert p[..i + 1][1..] == p[1..][..i];
        }
        if forall i | 0 <= i < |p| :: ShapeOf(Lookup(t, p[..i])) == AnObject {
          forall i | 0 <= i < |p| - 1 ensures ShapeOf(Lookup(child, p[1..][..i])) == AnObject {
            assert ShapeOf(Lookup(t, p[..i + 1])) == AnObject;
          }
        }
        if ObjectsAbove(t, p) {
          forall i | 0 <= i < |p| ensures ShapeOf(Lookup(t, p[..i])) == AnObject {
            if i > 0 {
              assert Lookup(t, p[..i]) == Lookup(child, p[1..][..i - 1]);
            }
          }
        }
      } else if |p| > 1 {
        assert Lookup(t, p[..1]) == None;
      }
    }
  }

  lemma PatchKeepsObjectsAbove(t: Tree, p: Path, v: Tree, q: Path)
    requires ObjectsAbove(t, p) && ObjectsAbove(t, q) && !Prefix(p, q)
    ensures ObjectsAbove(PatchAt(t, p, v), q)
  {
    ObjectsAboveIff(t, q);
    ObjectsAboveIff(PatchAt(t, p, v), q);
    forall i | 0 <= i < |q| ensures ShapeOf(Lookup(PatchAt(t, p, v), q[..i])) == AnObject {
      PrefixOfTake(p, q, i);
      PatchKeepsElsewhere(t, p, v, q[..i]);
    }
  }

  /**
   After all patches a path below a patched one reads like the new state, every other path reads
   like the before one.
   */
  lemma {:induction false} PatchAllReads(t: Tree, ps: seq<Path>, after: Tree, q: Path)
    requires Incomparable(ps)
    requires forall p | p in ps :: ObjectsAbove(t, p) && Lookup(after, p).Some?
    ensures ShapeOf(Lookup(PatchAll(t, ps, after), q))
         == if exists p :: p in ps && Prefix(p, q) then ShapeOf(Lookup(after, q)) else ShapeOf(Lookup(t, q))
    decreases |ps|
  {
    if ps != [] {
      var p, v := ps[0], Read(after, ps[0]);
      var u := PatchAt(t, p, v);
      assert Incomparable(ps[1..]) by {
        forall i, j | 0 <= i < |ps[1..]| && 0 <= j < |ps[1..]| && i != j ensures !Prefix(ps[1..][i], ps[1..][j]) {
          assert ps[1..][i] == ps[i + 1] && ps[1..][j] == ps[j + 1];
        }
      }
      forall r | r in ps[1..] ensures r in ps && ObjectsAbove(u, r) {
        var i :| 0 <= i < |ps[1..]| && ps[1..][i] == r;
        assert r == ps[i + 1];
        PatchKeepsObjectsAbove(t, p, v, r);
      }
      PatchAllReads(u, ps[1..], after, q);
      if Prefix(p, q) {
        PatchReadsBelow(t, p, v, q);
        LookupConcat(after, p, q[|p|..]);
        assert p + q[|p|..] == q;
      } else {
        PatchKeepsElsewhere(t, p, v, q);
      }
      if exists r :: r in ps && Prefix(r, q) {
        var r :| r in ps && Prefix(r, q);
        assert r == p || r in ps[1..];
      }
    }
  }

  // ---------- where nothing is reported ----------

  lemma {:induction false} UnreportedReadsAlike(before: Tree, after: Tree, q: Path)
    requires before.Object? && after.Object? && WellFormed(before) && WellFormed(after)
    requires forall p | IsChange(before, after, p) :: !Prefix(p, q)
    requires Lookup(after, q).Some?
    ensures ReadsAlikeAt(before, after, q)
    decreases |q|
  {
    if q != [] {
      var k := q[0];
      var oldValue, newValue := Get(before.fields, k), Get(after.fields, k);
      GetWellFormed(before.fields, k);
      GetWellFormed(after.fields, k);
      if !Has(before.fields, k) {
        GetAbsent(before.fields, k);
      }
      if oldValue.Object? && newValue.Object? {
        forall p | IsChange(oldValue, newValue, p) ensures !Prefix(p, q[1..]) {
          assert ([k] + p)[1..] == p;
          OneStep(before.fields, after.fields, [k] + p);
          assert IsChange(before, after, [k] + p);
          PrefixStep([k] + p, q);
        }
        UnreportedReadsAlike(oldValue, newValue, q[1..]);
      } else if StrictlyDiffer(newValue, oldValue) {
        LookupOne(before, [k]);
        LookupOne(after, [k]);
        assert IsChange(before, after, [k]);
        assert Prefix([k], q);
      }
    }
  }

  /**
   Replaying the reported values on the old state gives a state that reads like the new one at
   every path that exists in the new one.
   */
  lemma PatchCompleteWhereNewExists(before: Tree, after: Tree, q: Path)
    requires before.Object? && after.Object? && WellFormed(before) && WellFormed(after)
    requires Lookup(after, q).Some?
    ensures ReadsAlikeAt(PatchAll(before, ChangedPaths(before.fields, after.fields), after), after, q)
  {
    var ps := ChangedPaths(before.fields, after.fields);
    ReportedPathsSoundAndMinimal(before, after);
    PatchAllReads(before, ps, after, q);
    if !exists p :: p in ps && Prefix(p, q) {
      forall p | IsChange(before, after, p) ensures !Prefix(p, q) {
        assert p in ps;
      }
      UnreportedReadsAlike(before, after, q);
    }
  }

  /**
   No field is removed silently: wherever both states have an object, every field of the before
   object is a field of the new one unless it held undefined.
   */
  predicate NothingRemoved(olds: Fields, news: Fields)
    decreases olds
  {
    olds.Field? ==>
      && (if Has(news, olds.key)
          then olds.value.Object? && Get(news, olds.key).Object?
               ==> NothingRemoved(olds.value.fields, Get(news, olds.key).fields)
          else olds.value == UNDEFINED)
      && NothingRemoved(olds.rest, news)
  }

  lemma NothingRemovedAt(olds: Fields, news: Fields, k: string)
    requires NothingRemoved(olds, news) && Has(olds, k)
    ensures !Has(news, k) ==> Get(olds, k) == UNDEFINED
    ensures Has(news, k) && Get(olds, k).Object? && Get(news, k).Object?
            ==> NothingRemoved(Get(olds, k).fields, Get(news, k).fields)
  {
  }

  lemma {:induction false} UnreportedAbsent(before: Tree, after: Tree, q: Path)
    requires before.Object? && after.Object? && WellFormed(before) && WellFormed(after)
    requires NothingRemoved(before.fields, after.fields)
    requires forall p | IsChange(before, after, p) :: !Prefix(p, q)
    ensures ReadsAlikeAt(before, after, q)
    decreases |q|
  {
    if Lookup(after, q).Some? {
      UnreportedReadsAlike(before, after, q);
    } else if Has(before.fields, q[0]) {
      var k := q[0];
      var oldValue, newValue := Get(before.fields, k), Get(after.fields, k);
      GetWellFormed(before.fields, k);
      GetWellFormed(after.fields, k);
      NothingRemovedAt(before.fields, after.fields, k);
      if |q| == 1 {
        LookupOne(before, q);
        LookupOne(after, q);
      } else if oldValue.Value? {
        assert Lookup(oldValue, q[1..]) == None;
        assert Lookup(before, q) == None;
      }
      if Has(after.fields, k) && oldValue.Object? {
        if newValue.Object? {
          forall p | IsChange(oldValue, newValue, p) ensures !Prefix(p, q[1..]) {
            assert ([k] + p)[1..] == p;
            OneStep(before.fields, after.fields, [k] + p);
            assert IsChange(before, after, [k] + p);
            PrefixStep([k] + p, q);
          }
          UnreportedAbsent(oldValue, newValue, q[1..]);
        } else {
          LookupOne(before, [k]);
          LookupOne(after, [k]);
          assert IsChange(before, after, [k]);
          assert Prefix([k], q);
        }
      }
    }
  }

  /** A removed field: the replayed state still has it. */
  lemma {:induction false} RemovalWitness(before: Tree, after: Tree) returns (q: Path)
    requires before.Object? && after.Object? && WellFormed(before) && WellFormed(after)
    requires !NothingRemoved(before.fields, after.fields)
    ensures forall p | IsChange(before, after, p) :: !Prefix(p, q)
    ensures !ReadsAlikeAt(before, after, q)
    decreases before
  {
    var k := RemovedKey(before.fields, after.fields);
    if !Has(after.fields, k) {
      q := [k];
      LookupOne(before, q);
      LookupOne(after, q);
      forall p | IsChange(before, after, p) ensures !Prefix(p, q) {
        assert |p| == 1 ==> p == [p[0]];
      }
      if Get(before.fields, k).Value? {
        assert Get(before.fields, k).leaf != Undefined;
      }
    } else {
      var oldValue, newValue := Get(before.fields, k), Get(after.fields, k);
      GetWellFormed(before.fields, k);
      GetWellFormed(after.fields, k);
      GetSmaller(before.fields, k);
      var rest := RemovalWitness(oldValue, newValue);
      q := [k] + rest;
      assert q[1..] == rest;
      forall p | IsChange(before, after, p) ensures !Prefix(p, q) {
        if p[0] == k {
          PrefixStep(p, q);
          OneStep(before.fields, after.fields, p);
        }
      }
    }
  }

  lemma {:induction false} RemovedKey(olds: Fields, news: Fields) returns (k: string)
    requires WellFormedFields(olds) && !NothingRemoved(olds, news)
    ensures Has(olds, k)
    ensures if Has(news, k) then Get(olds, k).Object? && Get(news, k).Object?
                                 && !NothingRemoved(Get(olds, k).fields, Get(news, k).fields)
            else Get(olds, k) != UNDEFINED
    decreases olds
  {
    if !NothingRemoved(olds.rest, news) {
      k := RemovedKey(olds.rest, news);
    } else {
      k := olds.key;
    }
  }

  /**
   Replaying the reported values on the old state gives a state that reads like the new one at
   every path exactly when the new state removes nothing silently.
   */
  lemma PatchCompleteExactly(before: Tree, after: Tree)
    requires before.Object? && after.Object? && WellFormed(before) && WellFormed(after)
    ensures NothingRemoved(before.fields, after.fields)
       <==> ReadsAlike(PatchAll(before, ChangedPaths(before.fields, after.fields), after), after)
  {
    var ps := ChangedPaths(before.fields, after.fields);
    ReportedPathsSoundAndMinimal(before, after);
    if NothingRemoved(before.fields, after.fields) {
      forall q: Path ensures ReadsAlikeAt(PatchAll(before, ps, after), after, q) {
        PatchAllReads(before, ps, after, q);
        if !exists p :: p in ps && Prefix(p, q) {
          forall p | IsChange(before, after, p) ensures !Prefix(p, q) {
            assert p in ps;
          }
          UnreportedAbsent(before, after, q);
        }
      }
    } else {
      var q := RemovalWitness(before, after);
      PatchAllReads(before, ps, after, q);
      assert !ReadsAlikeAt(PatchAll(before, ps, after), after, q);
    }
  }

  /** A merge never removes a field. */
  lemma {:induction false} MergeRemovesNothing(before: Tree, partial: Tree)
    requires WellFormed(before) && before.Object? && WellFormed(partial) && partial.Object?
    ensures NothingRemoved(before.fields, TreeMerge(before, partial).fields)
    decreases before, 1
  {
    MergeRemovesNoField(before.fields, before, partial);
  }

  lemma {:induction false} MergeRemovesNoField(olds: Fields, before: Tree, partial: Tree)
    requires WellFormed(before) && before.Object? && WellFormed(partial) && partial.Object?
    requires WellFormedFields(olds)
    requires olds == before.fields || olds < before.fields
    requires forall k | Has(olds, k) :: Has(before.fields, k) && Get(before.fields, k) == Get(olds, k)
    ensures NothingRemoved(olds, TreeMerge(before, partial).fields)
    decreases before, 0, olds
  {
    if olds.Field? {
      var k := olds.key;
      assert Has(olds, k) && Get(olds, k) == olds.value;
      MergeFieldsGet(before.fields, before, partial.fields, k);
      var merged := Get(TreeMerge(before, partial).fields, k);
      GetWellFormed(partial.fields, k);
      GetSmaller(before.fields, k);
      if olds.value.Object? && merged.Object? {
        if Has(partial.fields, k) {
          MergeRemovesNothing(olds.value, Get(partial.fields, k));
        } else {
          RemovesNothingFromItself(olds.value.fields, olds.value.fields);
        }
      }
      forall j | Has(olds.rest, j) ensures Has(before.fields, j) && Get(before.fields, j) == Get(olds.rest, j) {
        assert Has(olds, j);
      }
      MergeRemovesNoField(olds.rest, before, partial);
    }
  }

  lemma {:induction false} RemovesNothingFromItself(part: Fields, whole: Fields)
    requires WellFormedFields(part)
    requires forall k | Has(part, k) :: Has(whole, k) && Get(whole, k) == Get(part, k)
    ensures NothingRemoved(part, whole)
    decreases part
  {
    if part.Field? {
      assert Has(part, part.key) && Get(part, part.key) == part.value;
      if part.value.Object? {
        RemovesNothingFromItself(part.value.fields, part.value.fields);
      }
      forall j | Has(part.rest, j) ensures Has(whole, j) && Get(whole, j) == Get(part.rest, j) {
        assert Has(part, j);
      }
      RemovesNothingFromItself(part.rest, whole);
    }
  }

  // ---------- silence ----------

  /** NaN occurs in the tree at a place the iteration reaches. */
  predicate HasNaN(fs: Fields)
  {
    fs.Field? && (fs.value == Value(NaN) || (fs.value.Object? && HasNaN(fs.value.fields)) || HasNaN(fs.rest))
  }

  lemma {:induction false} NaNWitness(fs: Fields) returns (p: Path)
    requires WellFormedFields(fs) && HasNaN(fs)
    ensures p != [] && ObjectsAbove(Object(fs), p) && Lookup(Object(fs), p) == Some(Value(NaN))
    decreases fs
  {
    if fs.value == Value(NaN) {
      p := [fs.key];
      assert p[1..] == [];
    } else if fs.value.Object? && HasNaN(fs.value.fields) {
      var q := NaNWitness(fs.value.fields);
      p := [fs.key] + q;
      assert p[1..] == q;
    } else {
      p := NaNWitness(fs.rest);
      assert Has(fs.rest, p[0]);
      assert Get(fs, p[0]) == Get(fs.rest, p[0]);
    }
  }

  lemma {:induction false} NaNFound(fs: Fields, p: Path)
    requires p != [] && Lookup(Object(fs), p) == Some(Value(NaN))
    ensures HasNaN(fs)
    decreases fs
  {
    if fs.key == p[0] {
      if |p| > 1 {
        NaNFound(fs.value.fields, p[1..]);
      }
    } else {
      NaNFound(fs.rest, p);
    }
  }

  /** Between two equal states nothing is reported, unless the state holds NaN somewhere. */
  lemma SilentExactlyWithoutNaN(before: Tree, after: Tree)
    requires before.Object? && after.Object? && WellFormed(before) && WellFormed(after) && SameState(before, after)
    ensures ChangedPaths(before.fields, after.fields) == [] <==> !HasNaN(after.fields)
  {
    var ps := ChangedPaths(before.fields, after.fields);
    ReportedPathsSoundAndMinimal(before, after);
    if ps != [] {
      var p := ps[0];
      assert p in ps;
      assert ShapeOf(Lookup(before, p)) == ShapeOf(Lookup(after, p));
      NaNFound(after.fields, p);
    }
    if HasNaN(after.fields) {
      var p := NaNWitness(after.fields);
      ObjectsAboveIff(before, p);
      ObjectsAboveIff(after, p);
      assert ShapeOf(Lookup(before, p)) == ShapeOf(Lookup(after, p));
      assert IsChange(before, after, p);
      assert p in ps;
    }
  }

  /** The second of two identical updates reports nothing, unless the merged state holds NaN. */
  lemma SecondUpdateIsSilent(state: Tree, partial: Tree)
    requires WellFormed(state) && state.Object? && WellFormed(partial) && partial.Object?
    ensures var once := TreeMerge(state, partial);
            ChangedPaths(once.fields, TreeMerge(once, partial).fields) == [] <==> !HasNaN(once.fields)
  {
    var once := TreeMerge(state, partial);
    var twice := TreeMerge(once, partial);
    MergeWellFormed(state, partial);
    MergeWellFormed(once, partial);
    MergeIdempotent(state, partial);
    SilentExactlyWithoutNaN(once, twice);
    if HasNaN(twice.fields) {
      var p := NaNWitness(twice.fields);
      assert ShapeOf(Lookup(once, p)) == ShapeOf(Lookup(twice, p));
      NaNFound(once.fields, p);
    }
    if HasNaN(once.fields) {
      var p := NaNWitness(once.fields);
      assert ShapeOf(Lookup(once, p)) == ShapeOf(Lookup(twice, p));
      NaNFound(twice.fields, p);
    }
  }
}
