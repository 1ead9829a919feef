/** Dotted paths: building them from keys, and splitting them again. */
module PathText {
  import opened JsTrees

  /** JavaScript's `split('.')`. */
  function Split(s: string): (r: seq<string>)
    ensures r != []
    ensures forall k | k in r :: '.' !in k
  {
    if s == "" then [""]
    else
      var r := Split(s[1..]);
      if s[0] == '.' then [""] + r else [[s[0]] + r[0]] + r[1..]
  }

  function Join(p: Path): string {
    if p == [] then ""
    else if |p| == 1 then p[0]
    else p[0] + "." + Join(p[1..])
  }

  /** One step of a path under construction; at the root there is no dot. */
  function Extend(current: string, key: string): string {
    if current != "" then current + "." + key else key
  }

  /** The path that the traversal builds key by key, below `current`. */
  function Dotted(current: string, p: Path): string
    decreases |p|
  {
    if p == [] then current else Dotted(Extend(current, p[0]), p[1..])
  }

  predicate DotFree(p: Path) {
    forall k | k in p :: '.' !in k
  }

  /** No key has a dot, and the path does not open with the empty key, unless that is all of it. */
  predicate Addressable(p: Path) {
    p != [] && DotFree(p) && (p[0] != "" || |p| == 1)
  }

  lemma {:induction false} SplitWord(k: string)
    requires '.' !in k
    ensures Split(k) == [k]
  {
    if k != "" {
      SplitWord(k[1..]);
      assert [k[0]] + k[1..] == k && Split(k[1..])[1..] == [];
    }
  }

  lemma {:induction false} SplitFirst(k: string, s: string)
    requires '.' !in k
    ensures Split(k + "." + s) == [k] + Split(s)
  {
    var whole := k + "." + s;
    if k == "" {
      assert whole[1..] == s;
    } else {
      SplitFirst(k[1..], s);
      assert whole[1..] == k[1..] + "." + s;
      assert [k[0]] + k[1..] == k;
    }
  }

  /** Splitting undoes joining. */
  lemma {:induction false} SplitJoin(p: Path)
    requires p != [] && forall k | k in p :: '.' !in k
    ensures Split(Join(p)) == p
  {
    assert p[0] in p;
    if |p| == 1 {
      SplitWord(p[0]);
    } else {
      forall k | k in p[1..] ensures '.' !in k {
        assert k in p;
      }
      SplitJoin(p[1..]);
      SplitFirst(p[0], Join(p[1..]));
    }
  }

  lemma JoinGrow(c: char, r: Path)
    requires r != []
    ensures Join([[c] + r[0]] + r[1..]) == [c] + Join(r)
  {
    var grown := [[c] + r[0]] + r[1..];
    assert grown[0] == [c] + r[0] && grown[1..] == r[1..];
    if |r| > 1 {
      assert [c] + r[0] + "." + Join(r[1..]) == [c] + (r[0] + "." + Join(r[1..]));
    }
  }

  /** Joining undoes splitting, on every string. */
  lemma {:induction false} JoinSplit(s: string)
    ensures Join(Split(s)) == s
  {
    if s != "" {
      JoinSplit(s[1..]);
      var r := Split(s[1..]);
      assert s == [s[0]] + s[1..];
      if s[0] == '.' {
        assert Split(s) == [""] + r && ([""] + r)[1..] == r;
        assert "" + "." + Join(r) == [s[0]] + Join(r);
      } else {
        JoinGrow(s[0], r);
      }
    }
  }

  /** Once something precedes it, a key is always set off by a dot. */
  lemma {:induction false} DottedBelow(current: string, p: Path)
    requires current != ""
    ensures Dotted(current, p) == if p == [] then current else current + "." + Join(p)
    decreases |p|
  {
    if |p| == 1 {
      assert Dotted(current + "." + p[0], p[1..]) == current + "." + p[0];
    } else if |p| > 1 {
      DottedBelow(current + "." + p[0], p[1..]);
      assert current + "." + p[0] + "." + Join(p[1..]) == current + "." + (p[0] + "." + Join(p[1..]));
    }
  }

  /** A path whose first key is not empty, or that is one key, is simply joined. */
  lemma DottedIsJoin(p: Path)
    requires p != [] && (p[0] != "" || |p| == 1)
    ensures Dotted("", p) == Join(p)
  {
    if |p| == 1 {
      assert Dotted(p[0], p[1..]) == p[0];
    } else {
      DottedBelow(p[0], p[1..]);
    }
  }

  /** Splitting gives back at most as many keys as there were, and fewer if the first was lost. */
  lemma {:induction false} SplitDottedLength(p: Path)
    requires p != [] && DotFree(p)
    ensures |Split(Dotted("", p))| <= |p|
    ensures p[0] == "" && |p| > 1 ==> |Split(Dotted("", p))| < |p|
    decreases |p|
  {
    if p[0] != "" || |p| == 1 {
      DottedIsJoin(p);
      SplitJoin(p);
    } else {
      forall k | k in p[1..] ensures '.' !in k {
        assert k in p;
      }
      SplitDottedLength(p[1..]);
    }
  }

  /** The dotted path splits back into its keys exactly if the path is addressable. */
  lemma SplitDottedExactly(p: Path)
    requires p != []
    ensures Split(Dotted("", p)) == p <==> Addressable(p)
  {
    if Addressable(p) {
      DottedIsJoin(p);
      SplitJoin(p);
    } else if DotFree(p) {
      SplitDottedLength(p);
    }
  }
}
