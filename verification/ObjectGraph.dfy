/**
 The deep merge of packages/emitter/emitter.ts on its real input: an object graph that may share
 objects and may be cyclic, walked with a set of the objects on the current path.
 */
module ObjectGraph {
  import opened Wrappers
  import opened JsTrees
  import opened Merge

  /** A value in the graph: a leaf, or a reference to an object. */
  datatype Val = Plain(leaf: Leaf) | Ref(id: nat)

  type Graph = map<nat, seq<(string, Val)>>

  const CIRCULAR := "Circular reference detected"

  /** Every reference leads to an object, and no object has two fields of one name. */
  ghost predicate Closed(g: Graph) {
    forall r | r in g ::
      && (forall i | 0 <= i < |g[r]| :: InGraph(g, g[r][i].1))
      && (forall i, j | 0 <= i < j < |g[r]| :: g[r][i].0 != g[r][j].0)
  }

  predicate InGraph(g: Graph, v: Val) {
    v.Ref? ==> v.id in g
  }

  ghost predicate FieldsInGraph(g: Graph, fs: seq<(string, Val)>) {
    forall i | 0 <= i < |fs| :: InGraph(g, fs[i].1)
  }

  // ---------- specification of the walk ----------

  ghost function GraphMerge(g: Graph, target: Tree, source: Val, seen: set<nat>): Result<Tree, string>
    requires Closed(g) && InGraph(g, source)
    decreases g.Keys - seen, 0, 0
  {
    match source
    case Plain(leaf) => Ok(Value(leaf))
    case Ref(r) =>
      if r in seen then Throws(CIRCULAR)
      else
        assert r in g.Keys - seen && r !in g.Keys - (seen + {r});
        GraphMergeFields(g, StartOf(target), target, g[r], seen + {r})
  }

  ghost function GraphMergeFields(g: Graph, output: Fields, target: Tree, fs: seq<(string, Val)>, seen: set<nat>)
    : Result<Tree, string>
    requires Closed(g) && FieldsInGraph(g, fs)
    decreases g.Keys - seen, 1, |fs|
  {
    if fs == [] then Ok(Object(output))
    else
      match GraphMerge(g, TargetChild(target, fs[0].0), fs[0].1, seen)
      case Throws(e) => Throws(e)
      case Ok(v) => GraphMergeFields(g, Put(output, fs[0].0, v), target, fs[1..], seen)
  }

  // ---------- unfoldings and cycles, independent of the walk ----------

  /** `t` is the finite tree that following the references from `v` spells out. */
  predicate IsUnfolding(g: Graph, v: Val, t: Tree)
    decreases t, 1
  {
    match v
    case Plain(leaf) => t == Value(leaf)
    case Ref(r) => r in g && t.Object? && FieldsUnfold(g, g[r], t.fields)
  }

  predicate FieldsUnfold(g: Graph, fs: seq<(string, Val)>, tf: Fields)
    decreases tf, 0
  {
    if fs == [] then tf.Nil?
    else tf.Field? && tf.key == fs[0].0 && IsUnfolding(g, fs[0].1, tf.value) && FieldsUnfold(g, fs[1..], tf.rest)
  }

  ghost predicate Edge(g: Graph, a: nat, b: nat) {
    a in g && exists i :: 0 <= i < |g[a]| && g[a][i].1 == Ref(b)
  }

  ghost predicate Walk(g: Graph, v: Val, p: seq<nat>) {
    && p != [] && v == Ref(p[0])
    && forall i | 0 <= i < |p| - 1 :: Edge(g, p[i], p[i + 1])
  }

  /** A walk from `v` meets some object twice. */
  ghost predicate CycleReachable(g: Graph, v: Val) {
    exists p: seq<nat>, i: nat, j: nat :: Walk(g, v, p) && i < j < |p| && p[i] == p[j]
  }

  // ---------- a throw exhibits a cycle ----------

  lemma {:induction false} ThrowGivesWalk(g: Graph, target: Tree, source: Val, seen: set<nat>) returns (p: seq<nat>)
    requires Closed(g) && InGraph(g, source) && GraphMerge(g, target, source, seen).Throws?
    ensures Walk(g, source, p)
    ensures p[|p| - 1] in seen || p[|p| - 1] in p[..|p| - 1]
    decreases g.Keys - seen, 0, 0
  {
    var r := source.id;
    if r in seen {
      p := [r];
    } else {
      assert r in g.Keys - seen && r !in g.Keys - (seen + {r});
      var k, q := ThrowInFields(g, StartOf(target), target, g[r], seen + {r});
      p := [r] + q;
      assert Edge(g, r, q[0]);
      forall i | 0 <= i < |p| - 1 ensures Edge(g, p[i], p[i + 1]) {
        if i > 0 {
          assert Edge(g, q[i - 1], q[i - 1 + 1]);
        }
      }
      if q[|q| - 1] in q[..|q| - 1] {
        assert p[..|p| - 1] == [r] + q[..|q| - 1];
      } else if q[|q| - 1] == r {
        assert p[..|p| - 1][0] == r;
      }
    }
  }

  lemma {:induction false} ThrowInFields(g: Graph, output: Fields, target: Tree, fs: seq<(string, Val)>, seen: set<nat>)
    returns (k: nat, q: seq<nat>)
    requires Closed(g) && FieldsInGraph(g, fs) && GraphMergeFields(g, output, target, fs, seen).Throws?
    ensures k < |fs| && Walk(g, fs[k].1, q)
    ensures q[|q| - 1] in seen || q[|q| - 1] in q[..|q| - 1]
    decreases g.Keys - seen, 1, |fs|
  {
    var first := GraphMerge(g, TargetChild(target, fs[0].0), fs[0].1, seen);
    if first.Throws? {
      q := ThrowGivesWalk(g, TargetChild(target, fs[0].0), fs[0].1, seen);
      k := 0;
    } else {
      k, q := ThrowInFields(g, Put(output, fs[0].0, first.value), target, fs[1..], seen);
      k := k + 1;
    }
  }

  // ---------- a result exhibits the unfolding ----------

  lemma {:induction false} OkGivesUnfolding(g: Graph, target: Tree, source: Val, seen: set<nat>) returns (t: Tree)
    requires Closed(g) && InGraph(g, source) && GraphMerge(g, target, source, seen).Ok?
    ensures IsUnfolding(g, source, t)
    decreases g.Keys - seen, 0, 0
  {
    match source
    case Plain(leaf) => t := Value(leaf);
    case Ref(r) =>
      assert r in g.Keys - seen && r !in g.Keys - (seen + {r});
      var tf := OkFieldsUnfold(g, StartOf(target), target, g[r], seen + {r});
      t := Object(tf);
  }

  lemma {:induction false} OkFieldsUnfold(g: Graph, output: Fields, target: Tree, fs: seq<(string, Val)>,
                                          seen: set<nat>)
    returns (tf: Fields)
    requires Closed(g) && FieldsInGraph(g, fs) && GraphMergeFields(g, output, target, fs, seen).Ok?
    ensures FieldsUnfold(g, fs, tf)
    decreases g.Keys - seen, 1, |fs|
  {
    if fs == [] {
      tf := Nil;
    } else {
      var first := GraphMerge(g, TargetChild(target, fs[0].0), fs[0].1, seen).value;
      var t := OkGivesUnfolding(g, TargetChild(target, fs[0].0), fs[0].1, seen);
      var rest := OkFieldsUnfold(g, Put(output, fs[0].0, first), target, fs[1..], seen);
      tf := Field(fs[0].0, t, rest);
    }
  }

  // ---------- an unfolding excludes cycles, and is what gets merged ----------

  lemma {:induction false} UnfoldingUnique(g: Graph, v: Val, s: Tree, t: Tree)
    requires IsUnfolding(g, v, s) && IsUnfolding(g, v, t)
    ensures s == t
    decreases s, 1
  {
    if v.Ref? {
      FieldsUnfoldUnique(g, g[v.id], s.fields, t.fields);
    }
  }

  lemma {:induction false} FieldsUnfoldUnique(g: Graph, fs: seq<(string, Val)>, sf: Fields, tf: Fields)
    requires FieldsUnfold(g, fs, sf) && FieldsUnfold(g, fs, tf)
    ensures sf == tf
    decreases sf, 0
  {
    if fs != [] {
      UnfoldingUnique(g, fs[0].1, sf.value, tf.value);
      FieldsUnfoldUnique(g, fs[1..], sf.rest, tf.rest);
    }
  }

  function Size(t: Tree): nat {
    if t.Value? then 0 else 1 + SizeFields(t.fields)
  }

  function SizeFields(fs: Fields): nat {
    match fs
    case Nil => 0
    case Field(_, v, rest) => 1 + Size(v) + SizeFields(rest)
  }

  /** The unfolding along an edge is a smaller tree. */
  lemma {:induction false} UnfoldStep(g: Graph, fs: seq<(string, Val)>, tf: Fields, i: nat) returns (t: Tree)
    requires FieldsUnfold(g, fs, tf) && i < |fs|
    ensures IsUnfolding(g, fs[i].1, t) && Size(t) < 1 + SizeFields(tf)
    decreases i
  {
    if i == 0 {
      t := tf.value;
    } else {
      t := UnfoldStep(g, fs[1..], tf.rest, i - 1);
    }
  }

  lemma {:induction false} UnfoldAlongWalk(g: Graph, p: seq<nat>, t: Tree, j: nat) returns (u: Tree)
    requires p != [] && Walk(g, Ref(p[0]), p) && IsUnfolding(g, Ref(p[0]), t) && j < |p|
    ensures IsUnfolding(g, Ref(p[j]), u) && Size(u) <= Size(t) && (j > 0 ==> Size(u) < Size(t))
    decreases j
  {
    if j == 0 {
      u := t;
    } else {
      assert Edge(g, p[0], p[0 + 1]);
      var i :| 0 <= i < |g[p[0]]| && g[p[0]][i].1 == Ref(p[1]);
      var t1 := UnfoldStep(g, g[p[0]], t.fields, i);
      assert forall i | 0 <= i < |p[1..]| - 1 :: Edge(g, p[1..][i], p[1..][i + 1]) by {
        forall i | 0 <= i < |p[1..]| - 1 ensures Edge(g, p[1..][i], p[1..][i + 1]) {
          assert Edge(g, p[i + 1], p[i + 1 + 1]);
        }
      }
      u := UnfoldAlongWalk(g, p[1..], t1, j - 1);
    }
  }

  lemma UnfoldingExcludesCycle(g: Graph, v: Val, t: Tree)
    requires IsUnfolding(g, v, t)
    ensures !CycleReachable(g, v)
  {
    forall p: seq<nat>, i: nat, j: nat | Walk(g, v, p) && i < j < |p|
      ensures p[i] != p[j]
    {
      var ti := UnfoldAlongWalk(g, p, t, i);
      assert Walk(g, Ref(p[i]), p[i..]) by {
        forall k | 0 <= k < |p[i..]| - 1 ensures Edge(g, p[i..][k], p[i..][k + 1]) {
          assert Edge(g, p[i + k], p[i + k + 1]);
        }
      }
      var tj := UnfoldAlongWalk(g, p[i..], ti, j - i);
      if p[i] == p[j] {
        UnfoldingUnique(g, Ref(p[i]), ti, tj);
      }
    }
  }

  /** Every object on the current path unfolds to a tree larger than `bound`. */
  ghost predicate Above(g: Graph, seen: set<nat>, bound: nat) {
    forall r | r in seen :: exists t :: IsUnfolding(g, Ref(r), t) && Size(t) > bound
  }

  lemma {:induction false} MergesUnfolding(g: Graph, target: Tree, v: Val, t: Tree, seen: set<nat>)
    requires Closed(g) && InGraph(g, v) && IsUnfolding(g, v, t) && Above(g, seen, Size(t))
    ensures GraphMerge(g, target, v, seen) == Ok(TreeMerge(target, t))
    decreases t, 1
  {
    if v.Ref? {
      var r := v.id;
      if r in seen {
        var u :| IsUnfolding(g, Ref(r), u) && Size(u) > Size(t);
        UnfoldingUnique(g, v, t, u);
      }
      assert Size(t) > SizeFields(t.fields);
      forall s | s in seen + {r} ensures exists u :: IsUnfolding(g, Ref(s), u) && Size(u) > SizeFields(t.fields) {
        if s in seen {
          var u :| IsUnfolding(g, Ref(s), u) && Size(u) > Size(t);
        } else {
          assert IsUnfolding(g, Ref(s), t);
        }
      }
      MergesFieldUnfolding(g, StartOf(target), target, g[r], t.fields, seen + {r});
    }
  }

  lemma {:induction false} MergesFieldUnfolding(
      g: Graph, output: Fields, target: Tree, fs: seq<(string, Val)>, tf: Fields, seen: set<nat>)
    requires Closed(g) && FieldsInGraph(g, fs) && FieldsUnfold(g, fs, tf) && Above(g, seen, SizeFields(tf))
    ensures GraphMergeFields(g, output, target, fs, seen) == Ok(Object(MergeFields(output, target, tf)))
    decreases tf, 0
  {
    if fs != [] {
      assert Above(g, seen, Size(tf.value)) && Above(g, seen, SizeFields(tf.rest));
      MergesUnfolding(g, TargetChild(target, fs[0].0), fs[0].1, tf.value, seen);
      MergesFieldUnfolding(g, Put(output, fs[0].0, TreeMerge(TargetChild(target, fs[0].0), tf.value)), target,
                           fs[1..], tf.rest, seen);
    }
  }

  lemma {:induction false} UnfoldingWellFormed(g: Graph, v: Val, t: Tree)
    requires Closed(g) && IsUnfolding(g, v, t)
    ensures WellFormed(t)
    decreases t, 1
  {
    if v.Ref? {
      FieldsUnfoldWellFormed(g, v.id, 0, t.fields);
    }
  }

  lemma {:induction false} FieldsUnfoldWellFormed(g: Graph, r: nat, n: nat, tf: Fields)
    requires Closed(g) && r in g && n <= |g[r]| && FieldsUnfold(g, g[r][n..], tf)
    ensures WellFormedFields(tf)
    ensures forall k | Has(tf, k) :: exists i :: n <= i < |g[r]| && g[r][i].0 == k
    decreases tf, 0
  {
    if n < |g[r]| {
      assert g[r][n..][1..] == g[r][n + 1..];
      UnfoldingWellFormed(g, g[r][n].1, tf.value);
      FieldsUnfoldWellFormed(g, r, n + 1, tf.rest);
    }
  }

  /**
   The merge throws exactly when a cycle of objects is reachable from the source.  Otherwise the
   source has a unique finite unfolding, shared objects or not, and the result is the tree merge
   with it.
   */
  lemma CycleDetectionExact(g: Graph, target: Tree, source: Val)
    requires Closed(g) && InGraph(g, source)
    ensures GraphMerge(g, target, source, {}).Throws? <==> CycleReachable(g, source)
    ensures CycleReachable(g, source) <==> !(exists t :: IsUnfolding(g, source, t))
    ensures forall t | IsUnfolding(g, source, t) ::
              WellFormed(t) && GraphMerge(g, target, source, {}) == Ok(TreeMerge(target, t))
  {
    if GraphMerge(g, target, source, {}).Throws? {
      var p := ThrowGivesWalk(g, target, source, {});
      var i :| 0 <= i < |p| - 1 && p[..|p| - 1][i] == p[|p| - 1];
      assert p[i] == p[|p| - 1];
      assert CycleReachable(g, source);
    } else {
      var t := OkGivesUnfolding(g, target, source, {});
      assert exists u :: IsUnfolding(g, source, u);
    }
    forall t | IsUnfolding(g, source, t) ensures !CycleReachable(g, source) {
      UnfoldingExcludesCycle(g, source, t);
    }
    forall t | IsUnfolding(g, source, t)
      ensures WellFormed(t) && GraphMerge(g, target, source, {}) == Ok(TreeMerge(target, t))
    {
      UnfoldingWellFormed(g, source, t);
      MergesUnfolding(g, target, source, t, {});
    }
  }

  // ---------- the code ----------

  /** The set of objects on the current path, added to and deleted from in place. */
  class WeakSet {
    var members: set<nat>

    constructor ()
      ensures members == {}
    {
      members := {};
    }
  }

  method DeepMerge(g: Graph, target: Tree, source: Val, seen: WeakSet) returns (r: Result<Tree, string>)
    requires Closed(g) && InGraph(g, source)
    modifies seen
    ensures r == GraphMerge(g, target, source, old(seen.members))
    ensures r.Ok? ==> seen.members == old(seen.members)
    decreases g.Keys - seen.members
  {
    if source.Plain? {
      return Ok(Value(source.leaf));
    }
    if source.id in seen.members {
      return Throws(CIRCULAR);
    }
    ghost var before := seen.members;
    seen.members := seen.members + {source.id};
    assert source.id in g.Keys - before && source.id !in g.Keys - seen.members;

    var output := StartOf(target);
    var fields := g[source.id];
    for i := 0 to |fields|
      invariant seen.members == before + {source.id}
      invariant GraphMergeFields(g, StartOf(target), target, fields, seen.members)
             == GraphMergeFields(g, output, target, fields[i..], seen.members)
    {
      var key := fields[i].0;
      var merged := DeepMerge(g, TargetChild(target, key), fields[i].1, seen);
      assert fields[i..][1..] == fields[i + 1..];
      if merged.Throws? {
        return merged;
      }
      output := Put(output, key, merged.value);
    }

    seen.members := seen.members - {source.id};
    assert seen.members == before;
    r := Ok(Object(output));
  }
}
