/**
 The observable state of packages/emitter/emitter.ts: a state object, whole and partial updates,
 and the notifications each of them emits.
 */
module Emitter {
  import opened Wrappers
  import opened JsTrees
  import opened Merge
  import opened Diff
  import opened PathText
  import opened ObjectGraph

  datatype Emission =
    | Change(path: string, newValue: Tree, oldValue: Tree)
    | StateChange(state: Tree, oldState: Tree)

  const CANNOT_UPDATE := "Cannot update with circular reference"
  const NOT_AN_OBJECT := "newState must be an object"

  /** What `get(path)` returns: `*` stands for the whole state. */
  function Pick(state: Tree, path: string): Tree {
    if path == "*" then state else Read(state, Split(path))
  }

  /** The dotted paths the traversal reports, below the path `current`. */
  function ChangedStrings(olds: Fields, news: Fields, current: string): seq<string>
    decreases news, 1
  {
    match news
    case Nil => []
    case Field(k, v, rest) => FieldStrings(Get(olds, k), v, Extend(current, k)) + ChangedStrings(olds, rest, current)
  }

  function FieldStrings(oldValue: Tree, newValue: Tree, path: string): seq<string>
    decreases newValue, 0
  {
    if newValue.Object? && oldValue.Object? then ChangedStrings(oldValue.fields, newValue.fields, path)
    else if StrictlyDiffer(newValue, oldValue) then [path]
    else []
  }

  function ChangesFor(paths: seq<string>, before: Tree, after: Tree): (r: seq<Emission>)
    ensures |r| == |paths|
    ensures forall i | 0 <= i < |r| :: r[i] == Change(paths[i], Pick(after, paths[i]), Read(before, Split(paths[i])))
  {
    if paths == [] then []
    else [Change(paths[0], Pick(after, paths[0]), Read(before, Split(paths[0])))]
         + ChangesFor(paths[1..], before, after)
  }

  /** Everything emitted when the state goes from `before` to `after`. */
  function Emissions(before: Tree, after: Tree): seq<Emission>
    requires before.Object? && after.Object?
  {
    ChangesFor(ChangedStrings(before.fields, after.fields, ""), before, after) + [StateChange(after, before)]
  }

  // ---------- what the emissions say ----------

  /** The strings are the paths, dotted from `current` on. */
  predicate AllDotted(current: string, ps: seq<Path>, ss: seq<string>) {
    |ss| == |ps| && forall i | 0 <= i < |ps| :: ps[i] != [] && ss[i] == Dotted(current, ps[i])
  }

  lemma DottedUnder(current: string, k: string, ps: seq<Path>, ss: seq<string>)
    requires AllDotted(Extend(current, k), ps, ss)
    ensures AllDotted(current, Under(k, ps), ss)
  {
    forall i | 0 <= i < |ps| ensures Dotted(current, Under(k, ps)[i]) == Dotted(Extend(current, k), ps[i]) {
      assert Under(k, ps)[i][1..] == ps[i];
    }
  }

  lemma {:induction false} ChangedStringsDotted(olds: Fields, news: Fields, current: string)
    ensures AllDotted(current, ChangedPaths(olds, news), ChangedStrings(olds, news, current))
    decreases news, 1
  {
    if news.Field? {
      FieldStringsDotted(olds, news, current);
      ChangedStringsDotted(olds, news.rest, current);
      hide Dotted, Extend, FieldStrings, ChangedField;
    }
  }

  lemma {:induction false} FieldStringsDotted(olds: Fields, news: Fields, current: string)
    requires news.Field?
    ensures AllDotted(current, ChangedField(news.key, Get(olds, news.key), news.value),
                      FieldStrings(Get(olds, news.key), news.value, Extend(current, news.key)))
    decreases news, 0
  {
    var k, oldValue, newValue := news.key, Get(olds, news.key), news.value;
    if newValue.Object? && oldValue.Object? {
      ChangedStringsDotted(oldValue.fields, newValue.fields, Extend(current, k));
      hide Dotted, Extend, AllDotted;
      DottedUnder(current, k, ChangedPaths(oldValue.fields, newValue.fields),
                  ChangedStrings(oldValue.fields, newValue.fields, Extend(current, k)));
    } else {
      assert [k][1..] == [] && Dotted(current, [k]) == Dotted(Extend(current, k), [k][1..]);
    }
  }

  /** The one top-level field whose dotted path means the whole state. */
  const STAR: Path := ["*"]

  /** What is announced for the change at `p`: the dotted path, and what is found under it. */
  function Announcement(before: Tree, after: Tree, p: Path): Emission {
    var path := Dotted("", p);
    Change(path, Pick(after, path), Read(before, Split(path)))
  }

  /**
   There is one announcement per reported path, in order, and the state change comes last.  The path
   announced leads back to the reported one exactly if that is addressable; then it comes with the
   two values that were compared, except that a changed top-level `*` comes with the whole new state.
   */
  lemma EmissionsAreTheChanges(before: Tree, after: Tree)
    requires before.Object? && after.Object?
    ensures var ps, es := ChangedPaths(before.fields, after.fields), Emissions(before, after);
            && |es| == |ps| + 1
            && es[|ps|] == StateChange(after, before)
            && forall i | 0 <= i < |ps| ::
                 && es[i] == Announcement(before, after, ps[i])
                 && (Split(es[i].path) == ps[i] <==> Addressable(ps[i]))
                 && (Addressable(ps[i]) ==>
                       && es[i].newValue == (if ps[i] == STAR then after else Read(after, ps[i]))
                       && es[i].oldValue == Read(before, ps[i]))
  {
    var ps, es := ChangedPaths(before.fields, after.fields), Emissions(before, after);
    ChangedStringsDotted(before.fields, after.fields, "");
    SplitWord("*");
    forall i | 0 <= i < |ps|
      ensures es[i] == Announcement(before, after, ps[i]) && (Split(es[i].path) == ps[i] <==> Addressable(ps[i]))
    {
      SplitDottedExactly(ps[i]);
    }
  }

  /** Addressable changes are announced under paths of their own. */
  lemma AnnouncedApart(before: Tree, after: Tree, i: nat, j: nat)
    requires before.Object? && after.Object? && WellFormed(before) && WellFormed(after)
    requires i < j < |ChangedPaths(before.fields, after.fields)|
    ensures var ps := ChangedPaths(before.fields, after.fields);
            Addressable(ps[i]) && Addressable(ps[j]) ==>
              Announcement(before, after, ps[i]).path != Announcement(before, after, ps[j]).path
  {
    var ps := ChangedPaths(before.fields, after.fields);
    ReportedPathsSoundAndMinimal(before, after);
    assert !Prefix(ps[i], ps[j]);
    if Addressable(ps[i]) && Addressable(ps[j]) {
      SplitDottedExactly(ps[i]);
      SplitDottedExactly(ps[j]);
    }
  }

  /** A new field with a dot in its name is announced as undefined. */
  lemma DottedKeyIsLost()
    ensures var after := Object(Field("a.b", Value(Num(1)), Nil));
            Emissions(Object(Nil), after) == [Change("a.b", UNDEFINED, UNDEFINED), StateChange(after, Object(Nil))]
  {
    var after := Object(Field("a.b", Value(Num(1)), Nil));
    SplitWord("b");
    SplitFirst("a", "b");
    assert "a" + "." + "b" == "a.b";
    var p: Path := ["a", "b"];
    assert Split("a.b") == [p[0]] + [p[1]] == p;
    assert ChangedStrings(Nil, after.fields, "") == ["a.b"] + ChangedStrings(Nil, Nil, "");
    assert !Has(after.fields, "a");
    var ss: seq<string> := ["a.b"];
    assert ss[1..] == [];
    assert ChangesFor(ss, Object(Nil), after) ==
           [Change("a.b", Pick(after, "a.b"), Read(Object(Nil), Split("a.b")))]
           + ChangesFor(ss[1..], Object(Nil), after);
  }

  /** Every change is reported under a path that leads back to it. */
  predicate AllAddressable(before: Tree, after: Tree)
    requires before.Object? && after.Object?
  {
    forall p | p in ChangedPaths(before.fields, after.fields) :: Addressable(p)
  }

  /** An observer that writes every announced value into its copy of the state. */
  function Replay(copy: Tree, es: seq<Emission>): Tree
    decreases |es|
  {
    if es == [] then copy
    else match es[0]
      case Change(path, newValue, _) => Replay(PatchAt(copy, Split(path), newValue), es[1..])
      case StateChange(_, _) => Replay(copy, es[1..])
  }

  lemma {:induction false} ReplayIsPatch(copy: Tree, ps: seq<Path>, es: seq<Emission>, after: Tree)
    requires |es| == |ps| + 1 && es[|ps|].StateChange?
    requires forall i | 0 <= i < |ps| ::
               es[i].Change? && Split(es[i].path) == ps[i] && es[i].newValue == Read(after, ps[i])
    ensures Replay(copy, es) == PatchAll(copy, ps, after)
    decreases |ps|
  {
    if ps != [] {
      ReplayIsPatch(PatchAt(copy, ps[0], Read(after, ps[0])), ps[1..], es[1..], after);
    } else {
      assert es[1..] == [];
    }
  }

  /** The state as its announcements tell it: a changed field `*` is given the whole state. */
  function Announced(before: Tree, after: Tree): Tree
    requires after.Object?
  {
    if IsChange(before, after, STAR) then Object(Put(after.fields, "*", after)) else after
  }

  /** At every reported path the announced state holds the value that is emitted. */
  lemma AnnouncedAt(before: Tree, after: Tree, p: Path)
    requires before.Object? && after.Object? && WellFormed(before) && WellFormed(after) && IsChange(before, after, p)
    ensures Lookup(Announced(before, after), p).Some?
    ensures Read(Announced(before, after), p) == if p == STAR then after else Read(after, p)
  {
    if IsChange(before, after, STAR) {
      PutGet(after.fields, "*", after, p[0]);
      LookupOne(Announced(before, after), STAR);
      if p != STAR {
        ChangesAreIncomparable(before, after, STAR, p);
        assert p[0] == "*" ==> Prefix(STAR, p);
      }
    }
  }

  lemma {:induction false} PatchesOnlyReported(copy: Tree, ps: seq<Path>, x: Tree, y: Tree)
    requires forall p | p in ps :: Read(x, p) == Read(y, p)
    ensures PatchAll(copy, ps, x) == PatchAll(copy, ps, y)
    decreases |ps|
  {
    if ps != [] {
      PatchesOnlyReported(PatchAt(copy, ps[0], Read(x, ps[0])), ps[1..], x, y);
    }
  }

  lemma ReplayOfEmissions(copy: Tree, before: Tree, after: Tree)
    requires before.Object? && after.Object? && WellFormed(before) && WellFormed(after)
    requires AllAddressable(before, after)
    ensures Replay(copy, Emissions(before, after))
         == PatchAll(copy, ChangedPaths(before.fields, after.fields), Announced(before, after))
  {
    var ps, es := ChangedPaths(before.fields, after.fields), Emissions(before, after);
    EmissionsAreTheChanges(before, after);
    ReportedPathsSoundAndMinimal(before, after);
    forall i | 0 <= i < |ps| ensures es[i].newValue == Read(Announced(before, after), ps[i]) {
      assert ps[i] in ps;
      AnnouncedAt(before, after, ps[i]);
    }
    ReplayIsPatch(copy, ps, es, Announced(before, after));
  }

  // ---------- what an observer can reconstruct ----------

  /** Reported changes lie below objects of any copy that reads like the old state. */
  lemma ObjectsAboveInCopy(copy: Tree, before: Tree, p: Path)
    requires ReadsAlike(copy, before) && ObjectsAbove(before, p)
    ensures ObjectsAbove(copy, p)
  {
    ObjectsAboveIff(before, p);
    ObjectsAboveIff(copy, p);
    forall i | 0 <= i < |p| ensures ShapeOf(Lookup(copy, p[..i])) == AnObject {
      assert ReadsAlikeAt(copy, before, p[..i]);
    }
  }

  /** What the copy reads like after the replay: announced below reported paths, as before elsewhere. */
  lemma ReplayReads(copy: Tree, before: Tree, after: Tree, q: Path)
    requires before.Object? && after.Object? && WellFormed(before) && WellFormed(after)
    requires AllAddressable(before, after) && ReadsAlike(copy, before)
    ensures ShapeOf(Lookup(Replay(copy, Emissions(before, after)), q))
         == if exists p :: p in ChangedPaths(before.fields, after.fields) && Prefix(p, q)
            then ShapeOf(Lookup(Announced(before, after), q)) else ShapeOf(Lookup(copy, q))
  {
    var ps := ChangedPaths(before.fields, after.fields);
    ReplayOfEmissions(copy, before, after);
    ReportedPathsSoundAndMinimal(before, after);
    forall p | p in ps ensures ObjectsAbove(copy, p) && Lookup(Announced(before, after), p).Some? {
      ObjectsAboveInCopy(copy, before, p);
      AnnouncedAt(before, after, p);
    }
    PatchAllReads(copy, ps, Announced(before, after), q);
  }

  /** Without a changed `*`, a path that exists in the new state, or that is reported, reads right. */
  lemma ReplayReadsRight(copy: Tree, before: Tree, after: Tree, q: Path)
    requires before.Object? && after.Object? && WellFormed(before) && WellFormed(after)
    requires AllAddressable(before, after) && ReadsAlike(copy, before) && !IsChange(before, after, STAR)
    requires Lookup(after, q).Some? || NothingRemoved(before.fields, after.fields)
    ensures ReadsAlikeAt(Replay(copy, Emissions(before, after)), after, q)
  {
    var ps := ChangedPaths(before.fields, after.fields);
    ReportedPathsSoundAndMinimal(before, after);
    ReplayReads(copy, before, after, q);
    if !exists p :: p in ps && Prefix(p, q) {
      forall p | IsChange(before, after, p) ensures !Prefix(p, q) {
        assert p in ps;
      }
      if Lookup(after, q).Some? {
        UnreportedReadsAlike(before, after, q);
      } else {
        UnreportedAbsent(before, after, q);
      }
      assert ReadsAlikeAt(copy, before, q);
    }
  }

  /** A state cannot read like its own field `*` at every path: the fields `*` end somewhere. */
  lemma {:induction false} StarTower(t: Tree) returns (q: Path)
    requires t.Object?
    ensures ShapeOf(Lookup(t, q)) == AnObject && ShapeOf(Lookup(t, q + STAR)) != AnObject
    ensures STAR + q == q + STAR
    decreases t
  {
    var inner := Get(t.fields, "*");
    LookupOne(t, STAR);
    if Has(t.fields, "*") && inner.Object? {
      GetSmaller(t.fields, "*");
      var rest := StarTower(inner);
      q := STAR + rest;
      assert q + STAR == STAR + (rest + STAR);
      LookupConcat(t, STAR, rest);
      LookupConcat(t, STAR, rest + STAR);
    } else {
      q := [];
      assert [] + STAR == STAR;
    }
  }

  /** A changed `*` leaves the observer with a state that reads wrong somewhere. */
  lemma StarMisleads(copy: Tree, before: Tree, after: Tree)
    requires before.Object? && after.Object? && WellFormed(before) && WellFormed(after)
    requires AllAddressable(before, after) && ReadsAlike(copy, before) && IsChange(before, after, STAR)
    ensures !ReadsAlike(Replay(copy, Emissions(before, after)), after)
  {
    var ps := ChangedPaths(before.fields, after.fields);
    var q := StarTower(after);
    var at := STAR + q;
    ReportedPathsSoundAndMinimal(before, after);
    assert STAR in ps && Prefix(STAR, at);
    ReplayReads(copy, before, after, at);
    PutGet(after.fields, "*", after, "*");
    LookupConcat(Announced(before, after), STAR, q);
    LookupOne(Announced(before, after), STAR);
    assert !ReadsAlikeAt(Replay(copy, Emissions(before, after)), after, at);
  }

  /**
   A copy that read like the old state reads like the new one after the replay exactly when the new
   state silently removes nothing and does not change a top-level field `*`.
   */
  lemma ObserverKeepsUpExactly(copy: Tree, before: Tree, after: Tree)
    requires before.Object? && after.Object? && WellFormed(before) && WellFormed(after)
    requires AllAddressable(before, after) && ReadsAlike(copy, before)
    ensures ReadsAlike(Replay(copy, Emissions(before, after)), after)
       <==> NothingRemoved(before.fields, after.fields) && !IsChange(before, after, STAR)
  {
    if IsChange(before, after, STAR) {
      StarMisleads(copy, before, after);
    } else if NothingRemoved(before.fields, after.fields) {
      forall q: Path ensures ReadsAlikeAt(Replay(copy, Emissions(before, after)), after, q) {
        ReplayReadsRight(copy, before, after, q);
      }
    } else {
      var q := RemovalWitness(before, after);
      ReplayReads(copy, before, after, q);
      ReportedPathsSoundAndMinimal(before, after);
      assert ReadsAlikeAt(copy, before, q);
      assert !ReadsAlikeAt(Replay(copy, Emissions(before, after)), after, q);
    }
  }

  /** No announcement ever reaches a top-level field with a dot in its name. */
  lemma {:induction false} DottedFieldUntouched(copy: Tree, es: seq<Emission>, k: string)
    requires '.' in k
    ensures Lookup(Replay(copy, es), [k]) == Lookup(copy, [k])
    decreases |es|
  {
    if es != [] {
      match es[0]
      case Change(path, newValue, _) =>
        var keys := Split(path);
        var patched := PatchAt(copy, keys, newValue);
        var fs := StartOf(copy);
        assert keys[0] in keys && keys[0] != k;
        PutGet(fs, keys[0], PatchAt(Get(fs, keys[0]), keys[1..], newValue), k);
        LookupOne(patched, [k]);
        LookupOne(copy, [k]);
        DottedFieldUntouched(patched, es[1..], k);
      case StateChange(_, _) => DottedFieldUntouched(copy, es[1..], k);
    }
  }

  /** So a changed field of that kind always leaves the observer with a state that reads wrong. */
  lemma DottedFieldMisleads(copy: Tree, before: Tree, after: Tree, k: string)
    requires before.Object? && after.Object? && ReadsAlike(copy, before)
    requires '.' in k && !ReadsAlikeAt(before, after, [k])
    ensures !ReadsAlike(Replay(copy, Emissions(before, after)), after)
  {
    DottedFieldUntouched(copy, Emissions(before, after), k);
    assert ReadsAlikeAt(copy, before, [k]);
    assert !ReadsAlikeAt(Replay(copy, Emissions(before, after)), after, [k]);
  }

  /**
   A change that no dotted path tells apart can be made good by accident: here other announcements
   happen to name the objects around it, and the observer ends up with the very state.
   */
  lemma MadeGoodByAccident() returns (before: Tree, after: Tree)
    ensures before.Object? && after.Object? && WellFormed(before) && WellFormed(after)
    ensures !AllAddressable(before, after) && Replay(before, Emissions(before, after)) == after
  {
    var inner, other := Field("x.y", Value(Num(1)), Nil), Field("", Value(Num(1)), Field("a", Value(Num(1)), Nil));
    before := Object(Field("a", Object(Nil), Field("", Object(Nil), Nil)));
    after := Object(Field("a", Object(inner), Field("", Object(other), Nil)));
    AccidentalShape(before, after, inner, other);
    hide *;
    AccidentalPaths(inner, other);
    AccidentalStrings(inner, other);
    AccidentalSplits();
    AccidentalEmissions(before, after, inner, other);
    AccidentalReplay(before, after, inner, other);
    NotAllAddressable(before, after);
  }

  lemma AccidentalShape(before: Tree, after: Tree, inner: Fields, other: Fields)
    requires inner == Field("x.y", Value(Num(1)), Nil)
    requires other == Field("", Value(Num(1)), Field("a", Value(Num(1)), Nil))
    requires before == Object(Field("a", Object(Nil), Field("", Object(Nil), Nil)))
    requires after == Object(Field("a", Object(inner), Field("", Object(other), Nil)))
    ensures WellFormed(before) && WellFormed(after)
  {
    assert "a" != "";
    assert !Has(Field("", Object(Nil), Nil), "a") && !Has(Field("", Object(other), Nil), "a");
    assert WellFormedFields(Field("a", Value(Num(1)), Nil)) && !Has(Field("a", Value(Num(1)), Nil), "");
  }

  lemma NotAllAddressable(before: Tree, after: Tree)
    requires before.Object? && after.Object?
    requires ChangedPaths(before.fields, after.fields) == [["a", "x.y"], ["", ""], ["", "a"]]
    ensures !AllAddressable(before, after)
  {
    hide ChangedPaths;
    var p: Path := ["a", "x.y"];
    assert "x.y"[1] == '.' && p[1] in p;
    assert ChangedPaths(before.fields, after.fields)[0] == p;
    assert p in ChangedPaths(before.fields, after.fields);
    assert !DotFree(p) && !Addressable(p);
  }

  lemma AccidentalPaths(inner: Fields, other: Fields)
    requires inner == Field("x.y", Value(Num(1)), Nil)
    requires other == Field("", Value(Num(1)), Field("a", Value(Num(1)), Nil))
    ensures var olds := Field("a", Object(Nil), Field("", Object(Nil), Nil));
            var news := Field("a", Object(inner), Field("", Object(other), Nil));
            ChangedPaths(olds, news) == [["a", "x.y"], ["", ""], ["", "a"]]
  {
    var olds := Field("a", Object(Nil), Field("", Object(Nil), Nil));
    assert ChangedPaths(Nil, inner) == [["x.y"]] + ChangedPaths(Nil, Nil);
    assert ChangedPaths(Nil, other) == [[""]] + ([["a"]] + ChangedPaths(Nil, Nil));
    UnderOne("a", ["x.y"], []);
    UnderOne("", [""], [["a"]]);
    UnderOne("", ["a"], []);
    assert [["x.y"]] + [] == [["x.y"]] && [[""]] + [["a"]] == [[""], ["a"]] && [["a"]] + [] == [["a"]];
    assert ["a"] + ["x.y"] == ["a", "x.y"] && [""] + [""] == ["", ""] && [""] + ["a"] == ["", "a"];
    assert ChangedPaths(olds, Field("", Object(other), Nil)) == [["", ""], ["", "a"]] + ChangedPaths(olds, Nil);
  }

  lemma AccidentalStrings(inner: Fields, other: Fields)
    requires inner == Field("x.y", Value(Num(1)), Nil)
    requires other == Field("", Value(Num(1)), Field("a", Value(Num(1)), Nil))
    ensures var olds := Field("a", Object(Nil), Field("", Object(Nil), Nil));
            var news := Field("a", Object(inner), Field("", Object(other), Nil));
            ChangedStrings(olds, news, "") == ["a.x.y", "", "a"]
  {
    var olds := Field("a", Object(Nil), Field("", Object(Nil), Nil));
    assert Extend("a", "x.y") == "a" + "." + "x.y" == "a.x.y";
    assert ChangedStrings(Nil, inner, "a") == ["a.x.y"] + ChangedStrings(Nil, Nil, "a");
    assert ChangedStrings(Nil, other, "") == [""] + (["a"] + ChangedStrings(Nil, Nil, ""));
    assert ChangedStrings(olds, Field("", Object(other), Nil), "") == ["", "a"] + ChangedStrings(olds, Nil, "");
  }

  lemma UnderOne(k: string, p: Path, ps: seq<Path>)
    ensures Under(k, [p] + ps) == [[k] + p] + Under(k, ps)
  {
    assert ([p] + ps)[1..] == ps;
  }

  lemma AccidentalSplits()
    ensures Split("a.x.y") == ["a", "x", "y"] && Split("") == [""] && Split("a") == ["a"]
  {
    SplitWord("a");
    SplitWord("y");
    SplitFirst("x", "y");
    SplitFirst("a", "x.y");
    assert "x" + "." + "y" == "x.y" && "a" + "." + "x.y" == "a.x.y";
  }

  lemma AccidentalEmissions(before: Tree, after: Tree, inner: Fields, other: Fields)
    requires inner == Field("x.y", Value(Num(1)), Nil)
    requires other == Field("", Value(Num(1)), Field("a", Value(Num(1)), Nil))
    requires before == Object(Field("a", Object(Nil), Field("", Object(Nil), Nil)))
    requires after == Object(Field("a", Object(inner), Field("", Object(other), Nil)))
    requires ChangedStrings(before.fields, after.fields, "") == ["a.x.y", "", "a"]
    requires Split("a.x.y") == ["a", "x", "y"] && Split("") == [""] && Split("a") == ["a"]
    ensures Emissions(before, after) ==
            [Change("a.x.y", UNDEFINED, UNDEFINED), Change("", Object(other), Object(Nil)),
             Change("a", Object(inner), Object(Nil)), StateChange(after, before)]
  {
    AccidentalReads(before, after, inner, other);
    hide Pick, Read, Split, ChangedStrings;
    var paths: seq<string> := ["a.x.y", "", "a"];
    assert paths[1..] == ["", "a"] && paths[1..][1..] == ["a"] && paths[1..][1..][1..] == [];
    assert ChangesFor(["a"], before, after)
        == [Change("a", Object(inner), Object(Nil))] + ChangesFor([], before, after);
    assert ChangesFor(["", "a"], before, after)
        == [Change("", Object(other), Object(Nil))] + ChangesFor(["a"], before, after);
  }

  lemma AccidentalReads(before: Tree, after: Tree, inner: Fields, other: Fields)
    requires inner == Field("x.y", Value(Num(1)), Nil)
    requires before == Object(Field("a", Object(Nil), Field("", Object(Nil), Nil)))
    requires after == Object(Field("a", Object(inner), Field("", Object(other), Nil)))
    requires Split("a.x.y") == ["a", "x", "y"] && Split("") == [""] && Split("a") == ["a"]
    ensures Pick(after, "a.x.y") == UNDEFINED && Read(before, Split("a.x.y")) == UNDEFINED
    ensures Pick(after, "") == Object(other) && Read(before, Split("")) == Object(Nil)
    ensures Pick(after, "a") == Object(inner) && Read(before, Split("a")) == Object(Nil)
  {
    hide Split;
    LookupOne(before, ["a"]);
    LookupOne(after, ["a"]);
    LookupOne(before, [""]);
    LookupOne(after, [""]);
    assert !Has(inner, "x") && ["a", "x", "y"][1..][0] == "x";
    assert Lookup(after, ["a", "x", "y"]) == None && Lookup(before, ["a", "x", "y"]) == None;
  }

  lemma AccidentalReplay(before: Tree, after: Tree, inner: Fields, other: Fields)
    requires before == Object(Field("a", Object(Nil), Field("", Object(Nil), Nil)))
    requires after == Object(Field("a", Object(inner), Field("", Object(other), Nil)))
    requires Split("a.x.y") == ["a", "x", "y"] && Split("") == [""] && Split("a") == ["a"]
    ensures Replay(before, [Change("a.x.y", UNDEFINED, UNDEFINED), Change("", Object(other), Object(Nil)),
                            Change("a", Object(inner), Object(Nil)), StateChange(after, before)]) == after
  {
    var tail: seq<Emission> := [StateChange(after, before)];
    var made := Object(Put(Nil, "x", PatchAt(UNDEFINED, ["y"], UNDEFINED)));
    assert ["a", "x", "y"][1..] == ["x", "y"] && ["x", "y"][1..] == ["y"];
    var first := Object(Field("a", made, Field("", Object(Nil), Nil)));
    assert PatchAt(before, ["a", "x", "y"], UNDEFINED) == first;
    var second := Object(Field("a", made, Field("", Object(other), Nil)));
    assert Put(Field("", Object(Nil), Nil), "", Object(other)) == Field("", Object(other), Nil) && "a" != "";
    assert [""][1..] == [] && PatchAt(first, [""], Object(other)) == second;
    assert ["a"][1..] == [] && PatchAt(second, ["a"], Object(inner)) == after;
    hide PatchAt;
    ReplayChange(second, "a", Object(inner), Object(Nil), tail);
    ReplayChange(first, "", Object(other), Object(Nil), [Change("a", Object(inner), Object(Nil))] + tail);
    ReplayChange(before, "a.x.y", UNDEFINED, UNDEFINED,
                 [Change("", Object(other), Object(Nil))] + ([Change("a", Object(inner), Object(Nil))] + tail));
    assert Replay(after, tail) == Replay(after, tail[1..]) == after;
    assert [Change("a.x.y", UNDEFINED, UNDEFINED), Change("", Object(other), Object(Nil)),
            Change("a", Object(inner), Object(Nil)), StateChange(after, before)]
        == [Change("a.x.y", UNDEFINED, UNDEFINED)]
           + ([Change("", Object(other), Object(Nil))] + ([Change("a", Object(inner), Object(Nil))] + tail));
  }

  lemma ReplayChange(copy: Tree, path: string, newValue: Tree, oldValue: Tree, rest: seq<Emission>)
    ensures Replay(copy, [Change(path, newValue, oldValue)] + rest)
         == Replay(PatchAt(copy, Split(path), newValue), rest)
  {
    var es := [Change(path, newValue, oldValue)] + rest;
    assert es[1..] == rest;
  }

  lemma ReadsLikeItself(t: Tree)
    ensures ReadsAlike(t, t)
  {
    forall p: Path ensures ReadsAlikeAt(t, t, p) {}
  }

  /**
   After an update, an observer that replays the changes reads the new state at every path exactly
   when the update does not change a top-level field `*`.
   */
  lemma UpdateIsObservable(before: Tree, partial: Tree)
    requires before.Object? && WellFormed(before) && partial.Object? && WellFormed(partial)
    requires AllAddressable(before, TreeMerge(before, partial))
    ensures var after := TreeMerge(before, partial);
            ReadsAlike(Replay(before, Emissions(before, after)), after) <==> !IsChange(before, after, STAR)
  {
    MergeWellFormed(before, partial);
    MergeRemovesNothing(before, partial);
    ReadsLikeItself(before);
    ObserverKeepsUpExactly(before, before, TreeMerge(before, partial));
  }

  /**
   After `set`, the observer reads the new state at every path that exists in it unless a field `*`
   changed, and at every path at all exactly when moreover no field with a value was removed.
   */
  lemma SetIsObservable(before: Tree, after: Tree)
    requires before.Object? && WellFormed(before) && after.Object? && WellFormed(after)
    requires AllAddressable(before, after)
    ensures !IsChange(before, after, STAR) ==>
              forall p | Lookup(after, p).Some? :: ReadsAlikeAt(Replay(before, Emissions(before, after)), after, p)
    ensures ReadsAlike(Replay(before, Emissions(before, after)), after)
       <==> NothingRemoved(before.fields, after.fields) && !IsChange(before, after, STAR)
  {
    ReadsLikeItself(before);
    ObserverKeepsUpExactly(before, before, after);
    if !IsChange(before, after, STAR) {
      forall p | Lookup(after, p).Some? ensures ReadsAlikeAt(Replay(before, Emissions(before, after)), after, p) {
        ReplayReadsRight(before, before, after, p);
      }
    }
  }

  // ---------- whole histories ----------

  datatype Operation = UpdateWith(partial: Tree) | SetTo(state: Tree)

  /** An operation that the emitter accepts, and whose changes a dotted path can tell apart. */
  predicate Acceptable(state: Tree, op: Operation)
    requires state.Object?
  {
    match op
    case UpdateWith(t) => t.Object? && WellFormed(t) && AllAddressable(state, TreeMerge(state, t))
    case SetTo(t) => t.Object? && WellFormed(t) && AllAddressable(state, t)
  }

  function StateAfter(state: Tree, op: Operation): Tree {
    match op
    case UpdateWith(t) => TreeMerge(state, t)
    case SetTo(t) => t
  }

  /** The condition, for one operation: it hides nothing from an observer. */
  predicate Transparent(state: Tree, op: Operation)
    requires state.Object? && StateAfter(state, op).Object?
  {
    !IsChange(state, StateAfter(state, op), STAR) && (op.SetTo? ==> NothingRemoved(state.fields, op.state.fields))
  }

  predicate AllAcceptable(state: Tree, ops: seq<Operation>)
    requires state.Object?
    decreases |ops|
  {
    ops != [] ==> Acceptable(state, ops[0]) && AllAcceptable(StateAfter(state, ops[0]), ops[1..])
  }

  predicate AllTransparent(state: Tree, ops: seq<Operation>)
    requires state.Object? && AllAcceptable(state, ops)
    decreases |ops|
  {
    ops != [] ==> Transparent(state, ops[0]) && AllTransparent(StateAfter(state, ops[0]), ops[1..])
  }

  /** The observer's copy reads like the state after every operation. */
  ghost predicate Follows(copy: Tree, state: Tree, ops: seq<Operation>)
    requires state.Object? && AllAcceptable(state, ops)
    decreases |ops|
  {
    && ReadsAlike(copy, state)
    && (ops != [] ==>
          var next := StateAfter(state, ops[0]);
          Follows(Replay(copy, Emissions(state, next)), next, ops[1..]))
  }

  /** Over a whole history an observer follows the state exactly when every operation is transparent. */
  lemma {:induction false} ObserverFollowsExactly(copy: Tree, state: Tree, ops: seq<Operation>)
    requires state.Object? && WellFormed(state) && ReadsAlike(copy, state) && AllAcceptable(state, ops)
    ensures Follows(copy, state, ops) <==> AllTransparent(state, ops)
    decreases |ops|
  {
    if ops != [] {
      var next := StateAfter(state, ops[0]);
      if ops[0].UpdateWith? {
        MergeWellFormed(state, ops[0].partial);
        MergeRemovesNothing(state, ops[0].partial);
      }
      ObserverKeepsUpExactly(copy, state, next);
      var copied := Replay(copy, Emissions(state, next));
      if ReadsAlike(copied, next) {
        ObserverFollowsExactly(copied, next, ops[1..]);
      }
    }
  }

  /** A changed top-level field named `*` announces the whole state instead of its value. */
  lemma StarIsAmbiguous(before: Tree, after: Tree)
    requires before.Object? && WellFormed(before) && after.Object? && WellFormed(after)
    requires IsChange(before, after, STAR)
    ensures exists i :: 0 <= i < |Emissions(before, after)|
                        && Emissions(before, after)[i] == Change("*", after, Read(before, STAR))
    ensures Read(after, STAR) != after
  {
    LookupOne(after, STAR);
    LookupOne(before, STAR);
    var olds, news := before.fields, after.fields;
    if !Has(olds, "*") {
      GetAbsent(olds, "*");
    }
    StarReported(olds, news);
    var ss := ChangedStrings(olds, news, "");
    var i :| 0 <= i < |ss| && ss[i] == "*";
    SplitWord("*");
    assert Emissions(before, after)[i] == Change("*", after, Read(before, STAR));
    GetSmaller(news, "*");
  }

  lemma {:induction false} StarReported(olds: Fields, news: Fields)
    requires Has(news, "*") && !(Get(olds, "*").Object? && Get(news, "*").Object?)
    requires StrictlyDiffer(Get(news, "*"), Get(olds, "*"))
    ensures "*" in ChangedStrings(olds, news, "")
    decreases news
  {
    if news.key != "*" {
      StarReported(olds, news.rest);
    }
  }

  // ---------- the code ----------

  method GetNestedValue(obj: Tree, path: string) returns (result: Tree)
    ensures result == Read(obj, Split(path))
  {
    var keys := Split(path);
    result := obj;
    for i := 0 to |keys|
      invariant Read(obj, keys) == Read(result, keys[i..])
    {
      assert keys[i..][1..] == keys[i + 1..];
      if result in {Value(Null), UNDEFINED} {
        return UNDEFINED;
      }
      if result.Object? && !Has(result.fields, keys[i]) {
        GetAbsent(result.fields, keys[i]);
      }
      result := if result.Object? then Get(result.fields, keys[i]) else UNDEFINED;
    }
  }

  method GetChangedPaths(oldObj: Fields, newObj: Fields, currentPath: string) returns (paths: seq<string>)
    ensures paths == ChangedStrings(oldObj, newObj, currentPath)
    decreases newObj, 1
  {
    hide FieldStrings, Extend, Get;
    paths := [];
    var rest := newObj;
    while rest.Field?
      invariant rest == newObj || rest < newObj
      invariant ChangedStrings(oldObj, newObj, currentPath) == paths + ChangedStrings(oldObj, rest, currentPath)
      decreases rest
    {
      var found := GetChangedField(Get(oldObj, rest.key), rest.value, Extend(currentPath, rest.key));
      assert paths + (found + ChangedStrings(oldObj, rest.rest, currentPath))
          == paths + found + ChangedStrings(oldObj, rest.rest, currentPath);
      paths := paths + found;
      rest := rest.rest;
    }
  }

  /** The body of that loop, for one key. */
  method GetChangedField(oldValue: Tree, newValue: Tree, path: string) returns (paths: seq<string>)
    ensures paths == FieldStrings(oldValue, newValue, path)
    decreases newValue, 0
  {
    paths := [];
    if newValue.Object? && oldValue.Object? {
      paths := GetChangedPaths(oldValue.fields, newValue.fields, path);
    } else if StrictlyDiffer(newValue, oldValue) {
      paths := [path];
    }
  }

  class StateEmitter {
    var state: Tree
    /** The notifications handed to the event emitter, in order. */
    var emitted: seq<Emission>

    predicate Valid()
      reads this
    {
      state.Object? && WellFormed(state)
    }

    constructor (initialState: Tree)
      requires initialState.Object? && WellFormed(initialState)
      ensures Valid() && state == initialState && emitted == []
    {
      state := initialState;
      emitted := [];
    }

    method Fetch(path: string) returns (v: Tree)
      ensures v == Pick(state, path)
    {
      if path == "*" {
        return state;
      }
      v := GetNestedValue(state, path);
    }

    method EmitChanges(oldState: Tree)
      requires Valid() && oldState.Object?
      modifies `emitted
      ensures emitted == old(emitted) + Emissions(oldState, state)
    {
      var changedPaths := GetChangedPaths(oldState.fields, state.fields, "");
      EmitEach(changedPaths, oldState);
      assert old(emitted) + ChangesFor(changedPaths, oldState, state) + [StateChange(state, oldState)]
          == old(emitted) + (ChangesFor(changedPaths, oldState, state) + [StateChange(state, oldState)]);
      emitted := emitted + [StateChange(state, oldState)];
    }

    /** The loop over the changed paths. */
    method EmitEach(changedPaths: seq<string>, oldState: Tree)
      modifies `emitted
      ensures emitted == old(emitted) + ChangesFor(changedPaths, oldState, state)
    {
      ghost var all := ChangesFor(changedPaths, oldState, state);
      for i := 0 to |changedPaths|
        invariant emitted == old(emitted) + all[..i]
      {
        var newValue := Fetch(changedPaths[i]);
        var oldValue := GetNestedValue(oldState, changedPaths[i]);
        assert all[..i + 1] == all[..i] + [all[i]];
        emitted := emitted + [Change(changedPaths[i], newValue, oldValue)];
      }
      assert all[..|changedPaths|] == all;
    }

    /**
     A partial update from an arbitrary object graph: refused exactly when the graph is cyclic, and
     then nothing happened; otherwise the state is merged with the unfolding and every change is
     announced.
     */
    method Update(g: Graph, partial: Val) returns (r: Result<(), string>)
      requires Valid() && Closed(g) && InGraph(g, partial) && partial.Ref?
      modifies this
      ensures Valid()
      ensures r.Throws? <==> CycleReachable(g, partial)
      ensures r.Throws? ==> r.error == "Cannot update with circular reference"
      ensures r.Throws? ==> state == old(state) && emitted == old(emitted)
      ensures forall t | IsUnfolding(g, partial, t) :: r.Ok? && state == TreeMerge(old(state), t)
      ensures r.Ok? ==> emitted == old(emitted) + Emissions(old(state), state)
    {
      var oldState := state;
      var seen := new WeakSet();
      var merged := DeepMerge(g, state, partial, seen);
      CycleDetectionExact(g, state, partial);
      if merged.Throws? {
        r := Throws(if merged.error == CIRCULAR then CANNOT_UPDATE else merged.error);
        ThrowsOnlyCircular(g, state, partial, {});
        return;
      }
      state := merged.value;
      assert Valid() by {
        var t :| IsUnfolding(g, partial, t);
        MergeWellFormed(oldState, t);
      }
      EmitChanges(oldState);
      r := Ok(());
    }

    /** Replaces the whole state. */
    method Set(newState: Tree) returns (r: Result<(), string>)
      requires Valid() && WellFormed(newState)
      modifies this
      ensures Valid()
      ensures r.Throws? <==> newState.Value?
      ensures r.Throws? ==> r.error == "newState must be an object" && state == old(state) && emitted == old(emitted)
      ensures r.Ok? ==> state == newState && emitted == old(emitted) + Emissions(old(state), newState)
    {
      if !newState.Object? {
        return Throws(NOT_AN_OBJECT);
      }
      var oldState := state;
      state := newState;
      EmitChanges(oldState);
      r := Ok(());
    }
  }

  lemma {:induction false} ThrowsOnlyCircular(g: Graph, target: Tree, source: Val, seen: set<nat>)
    requires Closed(g) && InGraph(g, source)
    ensures GraphMerge(g, target, source, seen).Throws? ==> GraphMerge(g, target, source, seen).error == CIRCULAR
    decreases g.Keys - seen, 0, 0
  {
    if source.Ref? && source.id !in seen {
      assert source.id in g.Keys - seen && source.id !in g.Keys - (seen + {source.id});
      FieldsThrowOnlyCircular(g, StartOf(target), target, g[source.id], seen + {source.id});
    }
  }

  lemma {:induction false} FieldsThrowOnlyCircular(
      g: Graph, output: Fields, target: Tree, fs: seq<(string, Val)>, seen: set<nat>)
    requires Closed(g) && FieldsInGraph(g, fs)
    ensures var r := GraphMergeFields(g, output, target, fs, seen); r.Throws? ==> r.error == CIRCULAR
    decreases g.Keys - seen, 1, |fs|
  {
    if fs != [] {
      var first := GraphMerge(g, TargetChild(target, fs[0].0), fs[0].1, seen);
      ThrowsOnlyCircular(g, TargetChild(target, fs[0].0), fs[0].1, seen);
      if first.Ok? {
        FieldsThrowOnlyCircular(g, Put(output, fs[0].0, first.value), target, fs[1..], seen);
      }
    }
  }
}
