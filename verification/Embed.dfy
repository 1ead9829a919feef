/**
 The readme rewriter (tools/embed.ts): text between tag pairs is replaced by the files the tags
 name, by a loop that looks each tag up in the very string it is rewriting.
 */
module Embed {
  import opened Wrappers

  const BEGIN := "<!-- BEGIN-CODE:"
  const END := "<!-- END-CODE:"
  const CLOSE := "-->"

  /** What a file reference leads to: the file's extension, without the dot, and its text. */
  datatype SourceFile = SourceFile(extension: string, content: string)

  type Files = map<string, SourceFile>

  // ---------- strings ----------

  predicate Occurs(what: string, s: string, p: nat) {
    p + |what| <= |s| && s[p..p + |what|] == what
  }

  /** `s.indexOf(what)`. */
  function IndexOf(s: string, what: string): (r: int)
    ensures -1 <= r <= |s|
    ensures r == -1 ==> forall p: nat :: !Occurs(what, s, p)
    ensures r >= 0 ==> Occurs(what, s, r) && forall p: nat | p < r :: !Occurs(what, s, p)
  {
    IndexFrom(s, what, 0)
  }

  function IndexFrom(s: string, what: string, from: nat): (r: int)
    requires from <= |s| + 1
    requires forall p: nat | p < from :: !Occurs(what, s, p)
    ensures -1 <= r <= |s|
    ensures r == -1 ==> forall p: nat :: !Occurs(what, s, p)
    ensures r >= 0 ==> Occurs(what, s, r) && forall p: nat | p < r :: !Occurs(what, s, p)
    decreases |s| + 1 - from
  {
    if from > |s| then -1 else if Occurs(what, s, from) then from else IndexFrom(s, what, from + 1)
  }

  /** `s.substring(0, n)` and `s.substring(n)`, with the bounds clamped. */
  function Before(s: string, n: int): string {
    if n <= 0 then "" else if n >= |s| then s else s[..n]
  }

  function From(s: string, n: int): string {
    if n <= 0 then s else if n >= |s| then "" else s[n..]
  }

  /** `s.replace(what, '')`: the first occurrence only. */
  function WithoutFirst(s: string, what: string): string {
    var i := IndexOf(s, what);
    if i < 0 then s else Before(s, i) + From(s, i + |what|)
  }

  predicate IsSpace(c: char) {
    || '\t' <= c <= '\r' || c == ' ' || c == '\U{00A0}' || c == '\U{1680}' || '\U{2000}' <= c <= '\U{200A}'
    || c == '\U{2028}' || c == '\U{2029}' || c == '\U{202F}' || c == '\U{205F}' || c == '\U{3000}' || c == '\U{FEFF}'
  }

  predicate IsLineEnd(c: char) {
    c == '\n' || c == '\r' || c == '\U{2028}' || c == '\U{2029}'
  }

  function TrimStart(s: string): string {
    if s != "" && IsSpace(s[0]) then TrimStart(s[1..]) else s
  }

  function TrimEnd(s: string): string {
    if s != "" && IsSpace(s[|s| - 1]) then TrimEnd(s[..|s| - 1]) else s
  }

  function LastSegment(s: string): string {
    if '/' !in s then s else if s[|s| - 1] == '/' then "" else LastSegment(s[..|s| - 1]) + [s[|s| - 1]]
  }

  // ---------- tags ----------

  /** The text matches the tag pattern: marker, spaces, the rest of a line, spaces, close. */
  predicate IsTag(marker: string, t: string) {
    exists i: nat, j: nat | |marker| < i <= j < |t| - |CLOSE| :: TagParts(marker, t, i, j)
  }

  predicate TagParts(marker: string, t: string, i: nat, j: nat)
    requires |marker| < i <= j < |t| - |CLOSE|
  {
    && marker <= t && Occurs(CLOSE, t, |t| - |CLOSE|)
    && (forall k | |marker| <= k < i :: IsSpace(t[k]))
    && (forall k | i <= k < j :: !IsLineEnd(t[k]))
    && (forall k | j <= k < |t| - |CLOSE| :: IsSpace(t[k]))
  }

  /** The match at the start of `s`, at most `n` long; being greedy, it is the longest. */
  function LongestTag(marker: string, s: string, n: nat): (r: Option<string>)
    requires n <= |s|
    ensures r.Some? ==> IsTag(marker, r.value) && r.value <= s
    ensures forall k | 0 <= k <= n && IsTag(marker, s[..k]) :: r.Some? && k <= |r.value|
  {
    if IsTag(marker, s[..n]) then Some(s[..n]) else if n == 0 then None else LongestTag(marker, s, n - 1)
  }

  lemma TagIsLong(marker: string, t: string)
    requires IsTag(marker, t)
    ensures marker <= t && |t| > |marker| + |CLOSE| && t[|t| - 1] == '>'
  {
    var i: nat, j: nat :| |marker| < i <= j < |t| - |CLOSE| && TagParts(marker, t, i, j);
    assert t[|t| - 3..] == CLOSE;
    assert t[|t| - 1] == t[|t| - 3..][2];
  }

  /** `s.match(/.../g)`: all matches, from left to right. */
  function FindTags(marker: string, s: string): seq<string>
    decreases |s|
  {
    if s == "" then []
    else
      match LongestTag(marker, s, |s|)
      case None => FindTags(marker, s[1..])
      case Some(t) =>
        TagIsLong(marker, t);
        [t] + FindTags(marker, s[|t|..])
  }

  // ---------- the rewrite ----------

  function FileReference(beginTag: string): string {
    TrimEnd(TrimStart(WithoutFirst(WithoutFirst(beginTag, BEGIN), CLOSE)))
  }

  /** None is the unsupported type's error. */
  function TagWithType(file: SourceFile): Option<string> {
    if file.extension !in {"ts", "js", "md"} then None
    else if file.extension == "ts" then Some("```typescript\n" + file.content + "\n```")
    else Some("\n" + file.content + "\n")
  }

  /** What is put after a begin tag; None where reading or tagging the file throws. */
  function Embedded(files: Files, beginTag: string): Option<string> {
    var reference := FileReference(beginTag);
    if reference !in files then None
    else
      match TagWithType(files[reference])
      case None => None
      case Some(text) => Some("\n[**" + LastSegment(reference) + "**](" + reference + ")\n" + text + "\n")
  }

  function Replaced(readme: string, beginTag: string, endTag: string, text: string): string {
    Before(readme, IndexOf(readme, beginTag) + |beginTag|) + text + From(readme, IndexOf(readme, endTag))
  }

  /** The loop from pair `i` on; None where it throws, and nothing is written. */
  function RewriteFrom(files: Files, readme: string, begins: seq<string>, ends: seq<string>, i: nat): Option<string>
    requires i <= |begins|
    decreases |begins| - i
  {
    if i == |begins| then Some(readme)
    else if i >= |ends| then None
    else
      match Embedded(files, begins[i])
      case None => None
      case Some(text) => RewriteFrom(files, Replaced(readme, begins[i], ends[i], text), begins, ends, i + 1)
  }

  function Rewrite(files: Files, readme: string): Option<string> {
    var begins, ends := FindTags(BEGIN, readme), FindTags(END, readme);
    if begins == [] || ends == [] then Some(readme) else RewriteFrom(files, readme, begins, ends, 0)
  }

  method AddEmbeddings(files: Files, original: string) returns (written: Option<string>, embedded: nat)
    ensures written == Rewrite(files, original)
    ensures embedded <= |FindTags(BEGIN, original)|
    ensures written.Some? && FindTags(END, original) != [] ==> embedded == |FindTags(BEGIN, original)|
  {
    hide FindTags, Embedded, Before, From, IndexOf;
    var readme := original;
    embedded := 0;
    var beginTags, endTags := FindTags(BEGIN, readme), FindTags(END, readme);
    if beginTags != [] && endTags != [] {
      while embedded < |beginTags|
        invariant embedded <= |beginTags|
        invariant Rewrite(files, original) == RewriteFrom(files, readme, beginTags, endTags, embedded)
      {
        if embedded >= |endTags| {
          return None, embedded;
        }
        var beginTag, endTag := beginTags[embedded], endTags[embedded];
        var text := Embedded(files, beginTag);
        if text.None? {
          return None, embedded;
        }
        var firstHalf := Before(readme, IndexOf(readme, beginTag) + |beginTag|);
        var secondHalf := From(readme, IndexOf(readme, endTag));
        readme := firstHalf + text.value + secondHalf;
        embedded := embedded + 1;
      }
    }
    written := Some(readme);
  }

  // ---------- documents ----------

  datatype Segment = Text(s: string) | Begin(s: string) | End(s: string)

  function Marker(seg: Segment): string {
    match seg case Text(_) => "" case Begin(_) => BEGIN case End(_) => END
  }

  function Flat(segs: seq<Segment>): string {
    if segs == [] then "" else segs[0].s + Flat(segs[1..])
  }

  /** No tag marker in it. */
  predicate PlainText(s: string) {
    forall p: nat | p < |s| :: !Occurs(BEGIN, s, p) && !Occurs(END, s, p)
  }

  /** A tag with no second marker inside. */
  predicate ProperTag(marker: string, t: string) {
    IsTag(marker, t) && forall p: nat | 0 < p < |t| :: !Occurs(BEGIN, t, p) && !Occurs(END, t, p)
  }

  predicate SegmentOk(seg: Segment) {
    match seg
    case Text(s) => PlainText(s)
    case Begin(s) => ProperTag(BEGIN, s)
    case End(s) => ProperTag(END, s)
  }

  /** Text after a tag starts on a new line, and does not go on with spaces and a close. */
  predicate NewLineFirst(s: string) {
    s != "" && s[0] == '\n' && !(CLOSE <= TrimStart(s))
  }

  predicate Alternate(segs: seq<Segment>) {
    && |segs| % 4 == 1
    && forall i | 0 <= i < |segs| ::
         if i % 4 == 1 then segs[i].Begin? else if i % 4 == 3 then segs[i].End? else segs[i].Text?
  }

  /** Tags stand between texts, each at the end of its line. */
  predicate Laid(segs: seq<Segment>) {
    && (forall i | 0 <= i < |segs| :: SegmentOk(segs[i]))
    && (forall i | 0 <= i < |segs| - 1 :: segs[i].Text? <==> !segs[i + 1].Text?)
    && (forall i | 0 <= i < |segs| - 1 && !segs[i].Text? ::
          NewLineFirst(segs[i + 1].s) || (i + 2 == |segs| && segs[i + 1].s == ""))
  }

  function BeginTag(segs: seq<Segment>, n: nat): string
    requires 4 * n + 1 < |segs|
  {
    segs[4 * n + 1].s
  }

  function EndTag(segs: seq<Segment>, n: nat): string
    requires 4 * n + 3 < |segs|
  {
    segs[4 * n + 3].s
  }

  /** No tag goes on where another one ends, and two pairs agree in both tags or in none. */
  predicate Paired(segs: seq<Segment>) {
    && (forall i, j | 0 <= i < |segs| && 0 <= j < |segs| && Marker(segs[i]) == Marker(segs[j]) && !segs[j].Text? ::
          segs[i].s <= segs[j].s ==> segs[i].s == segs[j].s)
    && (forall m: nat, n: nat | m < |segs| / 4 && n < |segs| / 4 ::
          BeginTag(segs, m) == BeginTag(segs, n) <==> EndTag(segs, m) == EndTag(segs, n))
  }

  predicate WellTagged(segs: seq<Segment>) {
    Alternate(segs) && Laid(segs) && Paired(segs)
  }

  /** No earlier pair has the same tags. */
  predicate IsFirst(segs: seq<Segment>, n: nat)
    requires 4 * n + 1 < |segs|
  {
    forall m: nat | m < n :: BeginTag(segs, m) != BeginTag(segs, n)
  }

  // ---------- where markers and tags are ----------

  lemma FlatAppend(a: seq<Segment>, b: seq<Segment>)
    ensures Flat(a + b) == Flat(a) + Flat(b)
  {
    if a == [] {
      assert a + b == b;
    } else {
      assert (a + b)[1..] == a[1..] + b;
      FlatAppend(a[1..], b);
    }
  }

  predicate IsMarker(m: string) {
    m == BEGIN || m == END
  }

  lemma TagEnds(m: string, t: string)
    requires IsMarker(m) && IsTag(m, t)
    ensures t != "" && t[0] == '<' && t[|t| - 1] == '>' && Occurs(m, t, 0)
  {
    TagIsLong(m, t);
    assert t[0] == m[0];
  }

  /** A marker cannot begin in a plain text and go on into a tag. */
  lemma NoMarkerInText(m: string, a: string, rest: string, p: nat)
    requires IsMarker(m) && PlainText(a) && (rest != "" ==> rest[0] == '<') && p < |a|
    ensures !Occurs(m, a + rest, p)
  {
    var s := a + rest;
    if p + |m| <= |a| {
      assert !Occurs(BEGIN, a, p) && !Occurs(END, a, p);
      assert s[p..p + |m|] == a[p..p + |m|];
    } else if p + |m| <= |s| {
      assert s[p..p + |m|][|a| - p] == rest[0];
      assert m[|a| - p] != '<';
    }
  }

  /** A tag of the one kind does not start with the other marker. */
  lemma NoOtherMarker(m: string, own: string, t: string, rest: string)
    requires IsMarker(m) && IsMarker(own) && m != own && IsTag(own, t)
    ensures !Occurs(m, t + rest, 0)
  {
    var s := t + rest;
    TagIsLong(own, t);
    assert s[5] == t[5] == own[5] != m[5];
    assert |m| <= |s| ==> s[..|m|][5] == s[5];
  }

  /** Nor can a marker begin inside a tag. */
  lemma NoMarkerInTag(m: string, own: string, t: string, rest: string, p: nat)
    requires IsMarker(m) && IsMarker(own) && ProperTag(own, t) && p < |t| && (p == 0 ==> m != own)
    ensures !Occurs(m, t + rest, p)
  {
    var s := t + rest;
    TagEnds(own, t);
    hide IsTag;
    if p == 0 {
      NoOtherMarker(m, own, t, rest);
    } else if p + |m| <= |t| {
      assert !Occurs(BEGIN, t, p) && !Occurs(END, t, p);
      assert s[p..p + |m|] == t[p..p + |m|];
    } else if p + |m| <= |s| {
      assert s[p..p + |m|][|t| - 1 - p] == '>';
      assert m[|t| - 1 - p] != '>';
    }
  }

  /** In a laid out document markers occur only where tags of their kind start. */
  lemma NoMarkerInFirst(m: string, segs: seq<Segment>, p: nat)
    requires IsMarker(m) && Laid(segs) && segs != [] && p < |segs[0].s|
    requires p == 0 ==> (m == BEGIN ==> !segs[0].Begin?) && (m == END ==> !segs[0].End?)
    ensures !Occurs(m, Flat(segs), p)
  {
    match segs[0]
    case Text(s) =>
      if |segs| > 1 {
        assert SegmentOk(segs[1]) && !segs[1].Text?;
        TagEnds(if segs[1].Begin? then BEGIN else END, segs[1].s);
      }
      NoMarkerInText(m, s, Flat(segs[1..]), p);
    case Begin(s) => NoMarkerInTag(m, BEGIN, s, Flat(segs[1..]), p);
    case End(s) => NoMarkerInTag(m, END, s, Flat(segs[1..]), p);
  }

  // ---------- what the pattern finds ----------

  lemma NoTagWithoutMarker(marker: string, s: string)
    requires marker != "" && !Occurs(marker, s, 0)
    ensures LongestTag(marker, s, |s|).None?
  {
    var r := LongestTag(marker, s, |s|);
    if r.Some? {
      TagIsLong(marker, r.value);
    }
  }

  lemma {:induction false} SkipPlain(marker: string, a: string, s: string)
    requires marker != "" && forall p: nat | p < |a| :: !Occurs(marker, a + s, p)
    ensures FindTags(marker, a + s) == FindTags(marker, s)
    decreases |a|
  {
    if a == "" {
      assert a + s == s;
    } else {
      NoTagWithoutMarker(marker, a + s);
      assert (a + s)[1..] == a[1..] + s;
      forall p: nat | p < |a[1..]| ensures !Occurs(marker, a[1..] + s, p) {
        assert !Occurs(marker, a + s, p + 1);
      }
      SkipPlain(marker, a[1..], s);
    }
  }

  lemma {:induction false} TrimStartAt(s: string, n: nat)
    requires n <= |s| && forall k | 0 <= k < n :: IsSpace(s[k])
    ensures TrimStart(s) == TrimStart(s[n..])
    decreases n
  {
    if n > 0 {
      TrimStartAt(s[1..], n - 1);
      assert s[1..][n - 1..] == s[n..];
    }
  }

  /** A match that goes on after its line would need a close after nothing but spaces. */
  lemma LongerTagCloses(marker: string, t: string, s: string, k: nat, i: nat, j: nat)
    requires IsTag(marker, t) && s != "" && s[0] == '\n' && |t| < k <= |t + s|
    requires |marker| < i <= j < k - |CLOSE| && TagParts(marker, (t + s)[..k], i, j)
    ensures CLOSE <= TrimStart(s)
  {
    var u := (t + s)[..k];
    TagIsLong(marker, t);
    assert u[|t| - 1] == '>' && u[|t|] == '\n';
    assert i < |t| && j <= |t|;
    assert u[k - 3..] == CLOSE;
    assert u[k - 2] == CLOSE[1] && u[k - 1] == CLOSE[2];
    assert j == |t| <= k - 3;
    var n := k - 3 - |t|;
    forall x | 0 <= x < n ensures IsSpace(s[x]) {
      assert s[x] == u[|t| + x];
    }
    TrimStartAt(s, n);
    assert CLOSE == u[k - 3..] == s[n..][..3];
    assert !IsSpace(s[n..][0]);
  }

  /** A tag at the end of its line is the longest match where it starts. */
  lemma NoLongerTag(marker: string, t: string, s: string, k: nat)
    requires IsTag(marker, t) && NewLineFirst(s) && |t| < k <= |t + s|
    ensures !IsTag(marker, (t + s)[..k])
  {
    if IsTag(marker, (t + s)[..k]) {
      var i: nat, j: nat :| |marker| < i <= j < k - |CLOSE| && TagParts(marker, (t + s)[..k], i, j);
      LongerTagCloses(marker, t, s, k, i, j);
    }
  }

  lemma {:induction false} TrimStartAppend(a: string, rest: string)
    ensures TrimStart(a + rest) == if TrimStart(a) == "" then TrimStart(rest) else TrimStart(a) + rest
    decreases |a|
  {
    if a == "" {
      assert a + rest == rest;
    } else if IsSpace(a[0]) {
      assert (a + rest)[1..] == a[1..] + rest;
      TrimStartAppend(a[1..], rest);
    }
  }

  lemma NewLineKept(a: string, rest: string)
    requires NewLineFirst(a) && (rest != "" ==> rest[0] == '<')
    ensures NewLineFirst(a + rest)
  {
    TrimStartAppend(a, rest);
    var trimmed := TrimStart(a);
    if trimmed == "" {
      assert TrimStart(rest) == rest;
    } else if |trimmed| < 3 {
      assert rest != "" && |trimmed + rest| >= 3 ==> (trimmed + rest)[..3][|trimmed|] == rest[0];
    } else {
      assert (trimmed + rest)[..3] == trimmed[..3];
    }
  }

  /** What follows a tag is the end of the document, or a new line. */
  lemma AfterTag(segs: seq<Segment>)
    requires Laid(segs) && segs != [] && !segs[0].Text?
    ensures Flat(segs[1..]) == "" || NewLineFirst(Flat(segs[1..]))
  {
    if |segs| > 1 {
      assert segs[1].Text?;
      assert Flat(segs[1..]) == segs[1].s + Flat(segs[2..]);
      if |segs| > 2 {
        assert SegmentOk(segs[2]) && !segs[2].Text?;
        TagEnds(Marker(segs[2]), segs[2].s);
        NewLineKept(segs[1].s, Flat(segs[2..]));
      } else {
        assert Flat(segs[1..]) == segs[1].s;
      }
    }
  }

  lemma TagIsMatched(m: string, segs: seq<Segment>)
    requires IsMarker(m) && Laid(segs) && segs != [] && !segs[0].Text? && Marker(segs[0]) == m
    ensures LongestTag(m, Flat(segs), |Flat(segs)|) == Some(segs[0].s)
  {
    var t, s := segs[0].s, Flat(segs[1..]);
    var r := LongestTag(m, t + s, |t + s|);
    assert (t + s)[..|t|] == t;
    assert SegmentOk(segs[0]);
    AfterTag(segs);
    assert r.Some? && |t| <= |r.value|;
    var n := |r.value|;
    assert r.value == (t + s)[..n];
    if |t| < n {
      NoLongerTag(m, t, s, n);
    }
  }

  function TagsOf(m: string, segs: seq<Segment>): seq<string> {
    if segs == [] then []
    else if (m == BEGIN && segs[0].Begin?) || (m == END && segs[0].End?) then [segs[0].s] + TagsOf(m, segs[1..])
    else TagsOf(m, segs[1..])
  }

  /** In a laid out document the pattern finds the tags, all of them, in order. */
  lemma {:induction false} FoundTags(m: string, segs: seq<Segment>)
    requires IsMarker(m) && Laid(segs)
    ensures FindTags(m, Flat(segs)) == TagsOf(m, segs)
    decreases |segs|
  {
    if segs != [] {
      var t, s := segs[0].s, Flat(segs[1..]);
      FoundTags(m, segs[1..]);
      if Marker(segs[0]) == m {
        TagIsMatched(m, segs);
        TagEnds(m, t);
        assert (t + s)[|t|..] == s;
      } else {
        forall p: nat | p < |t| ensures !Occurs(m, t + s, p) {
          NoMarkerInFirst(m, segs, p);
        }
        SkipPlain(m, t, s);
      }
    }
  }

  // ---------- where a tag is found again ----------

  /** No tag before number `k` could be taken for it. */
  predicate FirstOfItsName(segs: seq<Segment>, k: nat)
    requires k < |segs|
  {
    forall j | 0 <= j < k && Marker(segs[j]) == Marker(segs[k]) ::
      !(segs[j].s <= segs[k].s) && !(segs[k].s <= segs[j].s)
  }

  /** Where a tag occurs, its marker occurs. */
  lemma OccursMarker(m: string, t: string, s: string, p: nat)
    requires m <= t && Occurs(t, s, p)
    ensures Occurs(m, s, p)
  {
    assert s[p..p + |t|][..|m|] == s[p..p + |m|];
  }

  /** Two texts at the same place: one starts with the other. */
  lemma OneStartsTheOther(t: string, u: string, rest: string)
    requires Occurs(t, u + rest, 0)
    ensures t <= u || u <= t
  {
    var s := u + rest;
    if |t| <= |u| {
      assert s[..|t|] == u[..|t|];
    } else {
      assert s[..|t|][..|u|] == u;
    }
  }

  lemma NotAtFirst(segs: seq<Segment>, k: nat, p: nat)
    requires Laid(segs) && 0 < k < |segs| && !segs[k].Text? && FirstOfItsName(segs, k) && p < |segs[0].s|
    ensures !Occurs(segs[k].s, Flat(segs), p)
  {
    var m, t := Marker(segs[k]), segs[k].s;
    assert SegmentOk(segs[k]);
    TagIsLong(m, t);
    hide IsTag, SegmentOk, Occurs, NewLineFirst;
    if p == 0 && Marker(segs[0]) == m {
      if Occurs(t, Flat(segs), 0) {
        OneStartsTheOther(t, segs[0].s, Flat(segs[1..]));
      }
    } else {
      NoMarkerInFirst(m, segs, p);
      if Occurs(t, Flat(segs), p) {
        OccursMarker(m, t, Flat(segs), p);
      }
    }
  }

  lemma {:induction false} NotEarlier(segs: seq<Segment>, k: nat, p: nat)
    requires Laid(segs) && k < |segs| && !segs[k].Text? && FirstOfItsName(segs, k) && p < |Flat(segs[..k])|
    ensures !Occurs(segs[k].s, Flat(segs), p)
    decreases k
  {
    hide SegmentOk, NewLineFirst, Occurs;
    var n := |segs[0].s|;
    if p < n {
      NotAtFirst(segs, k, p);
    } else {
      assert segs[..k][1..] == segs[1..][..k - 1];
      assert segs[1..][k - 1] == segs[k];
      NotEarlier(segs[1..], k - 1, p - n);
      OccursLater(segs[k].s, segs[0].s, Flat(segs[1..]), p - n);
    }
  }

  lemma OccursLater(what: string, a: string, s: string, p: nat)
    ensures Occurs(what, a + s, |a| + p) == Occurs(what, s, p)
  {
    if |a| + p + |what| <= |a + s| {
      assert (a + s)[|a| + p..|a| + p + |what|] == s[p..p + |what|];
    }
  }

  lemma FlatSplit(segs: seq<Segment>, k: nat)
    requires k < |segs|
    ensures Flat(segs) == Flat(segs[..k]) + Flat(segs[k..])
    ensures Flat(segs[..k + 1]) == Flat(segs[..k]) + segs[k].s
  {
    assert segs == segs[..k] + segs[k..];
    FlatAppend(segs[..k], segs[k..]);
    assert segs[..k + 1] == segs[..k] + [segs[k]];
    FlatAppend(segs[..k], [segs[k]]);
  }

  lemma FlatReplaced(segs: seq<Segment>, k: nat, text: string)
    requires k + 1 < |segs|
    ensures Flat(segs[k := Text(text)]) == Flat(segs[..k]) + text + Flat(segs[k + 1..])
  {
    var after := segs[k := Text(text)];
    FlatSplit(after, k);
    assert after[..k] == segs[..k];
    assert after[k..][1..] == segs[k + 1..];
  }

  lemma FirstOccurrence(s: string, what: string, at: nat)
    requires Occurs(what, s, at) && forall p: nat | p < at :: !Occurs(what, s, p)
    ensures IndexOf(s, what) == at
  {
  }

  lemma OccursAfter(a: string, t: string, rest: string)
    ensures Occurs(t, a + (t + rest), |a|)
  {
  }

  /** `indexOf` finds such a tag at its own place, also in the middle of the rewrite. */
  lemma IndexOfTag(segs: seq<Segment>, k: nat)
    requires Laid(segs) && k < |segs| && !segs[k].Text? && FirstOfItsName(segs, k)
    ensures IndexOf(Flat(segs), segs[k].s) == |Flat(segs[..k])|
  {
    hide Laid, FirstOfItsName, Occurs, IndexOf;
    FlatSplit(segs, k);
    OccursAfter(Flat(segs[..k]), segs[k].s, Flat(segs[k..][1..]));
    forall p: nat | p < |Flat(segs[..k])| ensures !Occurs(segs[k].s, Flat(segs), p) {
      NotEarlier(segs, k, p);
    }
    FirstOccurrence(Flat(segs), segs[k].s, |Flat(segs[..k])|);
  }

  lemma Halves(a: string, b: string)
    ensures Before(a + b, |a|) == a && From(a + b, |a|) == b
  {
  }

  /** One turn of the loop replaces the text between the two tags, and nothing else. */
  lemma ReplacedBetween(segs: seq<Segment>, k: nat, text: string)
    requires Laid(segs) && k + 2 < |segs| && segs[k].Begin? && segs[k + 2].End?
    requires FirstOfItsName(segs, k) && FirstOfItsName(segs, k + 2)
    ensures Replaced(Flat(segs), segs[k].s, segs[k + 2].s, text) == Flat(segs[k + 1 := Text(text)])
  {
    hide Laid, FirstOfItsName, IndexOf, Flat, Before, From;
    var s, b, e := Flat(segs), segs[k].s, segs[k + 2].s;
    var head, tail := Flat(segs[..k + 1]), Flat(segs[k + 2..]);
    assert Before(s, IndexOf(s, b) + |b|) == head by {
      IndexOfTag(segs, k);
      FlatSplit(segs, k);
      FlatSplit(segs, k + 1);
      Halves(head, Flat(segs[k + 1..]));
    }
    assert From(s, IndexOf(s, e)) == tail by {
      IndexOfTag(segs, k + 2);
      FlatSplit(segs, k + 2);
      Halves(Flat(segs[..k + 2]), tail);
    }
    FlatReplaced(segs, k + 1, text);
  }

  // ---------- the rewrite as a whole ----------

  /** What is embedded between tags, as far as the files are there, contains no marker itself. */
  predicate EmbedsPlainText(files: Files, segs: seq<Segment>) {
    forall i | 0 <= i < |segs| && segs[i].Begin? && Embedded(files, segs[i].s).Some? ::
      PlainText(Embedded(files, segs[i].s).value)
  }

  predicate AllFound(files: Files, segs: seq<Segment>) {
    forall i | 0 <= i < |segs| && segs[i].Begin? :: Embedded(files, segs[i].s).Some?
  }

  /** Pair `m` is among the first `n`, has no earlier double, and its file can be embedded. */
  predicate Due(files: Files, segs: seq<Segment>, n: nat, m: nat)
    requires 4 * m + 1 < |segs|
  {
    m < n && IsFirst(segs, m) && Embedded(files, BeginTag(segs, m)).Some?
  }

  /** The document with the text of all due pairs replaced by their files' text. */
  function Refreshed(files: Files, segs: seq<Segment>, n: nat): (r: seq<Segment>)
    ensures |r| == |segs|
    ensures forall i | 0 <= i < |segs| ::
              r[i] == if i % 4 == 2 && Due(files, segs, n, i / 4)
                      then Text(Embedded(files, BeginTag(segs, i / 4)).value)
                      else segs[i]
  {
    seq(|segs|, i requires 0 <= i < |segs| =>
      if i % 4 == 2 && Due(files, segs, n, i / 4) then Text(Embedded(files, BeginTag(segs, i / 4)).value) else segs[i])
  }

  lemma EmbeddedStartsNewLine(files: Files, beginTag: string)
    ensures Embedded(files, beginTag).Some? ==> NewLineFirst(Embedded(files, beginTag).value)
  {
    var e := Embedded(files, beginTag);
    if e.Some? {
      assert e.value[0] == '\n' && e.value[1] == '[';
      assert TrimStart(e.value) == TrimStart(e.value[1..]) == e.value[1..];
    }
  }

  lemma SameTagsPaired(segs: seq<Segment>, r: seq<Segment>)
    requires Paired(segs) && Alternate(segs) && Alternate(r) && |r| == |segs|
    requires forall i | 0 <= i < |r| && !r[i].Text? :: r[i] == segs[i]
    ensures Paired(r)
  {
    assert BEGIN != "" && END != "";
    forall i, j | 0 <= i < |r| && 0 <= j < |r| && Marker(r[i]) == Marker(r[j]) && !r[j].Text? && r[i].s <= r[j].s
      ensures r[i].s == r[j].s
    {
      assert r[j] == segs[j] && r[i] == segs[i];
    }
    forall m: nat | m < |r| / 4 ensures BeginTag(r, m) == BeginTag(segs, m) && EndTag(r, m) == EndTag(segs, m) {
      PairAt(r, m);
    }
  }

  lemma RefreshedSegment(files: Files, segs: seq<Segment>, n: nat, i: nat)
    requires Alternate(segs) && Laid(segs) && EmbedsPlainText(files, segs) && i < |segs|
    ensures var r := Refreshed(files, segs, n);
            && SegmentOk(r[i]) && r[i].Text? == segs[i].Text? && (!r[i].Text? ==> r[i] == segs[i])
            && (i > 0 && segs[i].Text? ==> NewLineFirst(r[i].s) || (i + 1 == |r| && r[i].s == ""))
  {
    hide PlainText, ProperTag, Embedded, NewLineFirst, IsFirst;
    assert SegmentOk(segs[i]);
    assert i > 0 && segs[i].Text? ==> !segs[i - 1].Text?;
    if i % 4 == 2 {
      var m := i / 4;
      assert segs[i - 1].Begin? && segs[i - 1].s == BeginTag(segs, m);
      EmbeddedStartsNewLine(files, BeginTag(segs, m));
    }
  }

  /** A partly rewritten document is as well tagged as it was. */
  lemma RefreshedWellTagged(files: Files, segs: seq<Segment>, n: nat)
    requires WellTagged(segs) && EmbedsPlainText(files, segs)
    ensures WellTagged(Refreshed(files, segs, n))
  {
    var r := Refreshed(files, segs, n);
    hide SegmentOk, NewLineFirst, Due, Paired, EmbedsPlainText;
    forall i | 0 <= i < |r|
      ensures SegmentOk(r[i]) && r[i].Text? == segs[i].Text? && (!r[i].Text? ==> r[i] == segs[i])
      ensures i > 0 && segs[i].Text? ==> NewLineFirst(r[i].s) || (i + 1 == |r| && r[i].s == "")
    {
      RefreshedSegment(files, segs, n, i);
    }
    hide Refreshed;
    assert Alternate(r);
    SameTagsPaired(segs, r);
  }

  lemma TagsOfFour(m: string, segs: seq<Segment>)
    requires Alternate(segs) && |segs| > 1 && IsMarker(m)
    ensures TagsOf(m, segs) == [if m == BEGIN then segs[1].s else segs[3].s] + TagsOf(m, segs[4..])
  {
    assert segs[0].Text? && segs[1].Begin? && segs[2].Text? && segs[3].End?;
    hide Alternate;
    assert BEGIN[5] != END[5];
    assert TagsOf(m, segs) == TagsOf(m, segs[1..]);
    TagsOfPair(m, segs[1..]);
    assert segs[1..][3..] == segs[4..];
  }

  lemma TagsOfPair(m: string, segs: seq<Segment>)
    requires |segs| > 3 && segs[0].Begin? && segs[1].Text? && segs[2].End? && IsMarker(m)
    ensures TagsOf(m, segs) == [if m == BEGIN then segs[0].s else segs[2].s] + TagsOf(m, segs[3..])
  {
    assert BEGIN[5] != END[5];
    assert segs[1..][1..] == segs[2..] && segs[2..][1..] == segs[3..];
    assert TagsOf(m, segs[1..]) == TagsOf(m, segs[2..]);
  }

  lemma {:induction false} TagsAt(segs: seq<Segment>, n: nat)
    requires Alternate(segs)
    ensures |TagsOf(BEGIN, segs)| == |TagsOf(END, segs)| == |segs| / 4
    ensures n < |segs| / 4 ==> TagsOf(BEGIN, segs)[n] == segs[4 * n + 1].s && TagsOf(END, segs)[n] == segs[4 * n + 3].s
    decreases |segs|
  {
    if |segs| > 1 {
      var rest := segs[4..];
      TagsOfFour(BEGIN, segs);
      TagsOfFour(END, segs);
      assert Alternate(rest);
      TagsAt(rest, if n == 0 then 0 else n - 1);
      if 0 < n < |segs| / 4 {
        assert rest[4 * (n - 1) + 1] == segs[4 * n + 1] && rest[4 * (n - 1) + 3] == segs[4 * n + 3];
      }
    } else {
      assert segs[1..] == [];
    }
  }

  lemma PairAt(segs: seq<Segment>, n: nat)
    requires Alternate(segs) && n < |segs| / 4
    ensures 4 * n + 4 < |segs| && segs[4 * n + 1].Begin? && segs[4 * n + 3].End?
  {
  }

  /** The first pair with the tags of pair `n`. */
  lemma {:induction false} FirstDouble(segs: seq<Segment>, n: nat, from: nat) returns (f: nat)
    requires Alternate(segs) && from <= n < |segs| / 4
    requires forall m: nat | m < from :: BeginTag(segs, m) != BeginTag(segs, n)
    ensures f <= n && BeginTag(segs, f) == BeginTag(segs, n) && IsFirst(segs, f)
    decreases n - from
  {
    if BeginTag(segs, from) == BeginTag(segs, n) {
      f := from;
    } else {
      f := FirstDouble(segs, n, from + 1);
    }
  }

  /** The tags of a first pair are not taken for earlier ones. */
  lemma FirstPairIsFirst(segs: seq<Segment>, f: nat)
    requires Alternate(segs) && Paired(segs) && f < |segs| / 4 && IsFirst(segs, f)
    ensures FirstOfItsName(segs, 4 * f + 1) && FirstOfItsName(segs, 4 * f + 3)
  {
    PairAt(segs, f);
    hide Paired, IsFirst;
    forall j | 0 <= j < 4 * f + 1 && Marker(segs[j]) == Marker(segs[4 * f + 1])
      ensures !(segs[j].s <= segs[4 * f + 1].s) && !(segs[4 * f + 1].s <= segs[j].s)
    {
      NotTheSameTag(segs, f, 4 * f + 1, j);
    }
    forall j | 0 <= j < 4 * f + 3 && Marker(segs[j]) == Marker(segs[4 * f + 3])
      ensures !(segs[j].s <= segs[4 * f + 3].s) && !(segs[4 * f + 3].s <= segs[j].s)
    {
      NotTheSameTag(segs, f, 4 * f + 3, j);
    }
  }

  lemma NotTheSameTag(segs: seq<Segment>, f: nat, k: nat, j: nat)
    requires Alternate(segs) && Paired(segs) && f < |segs| / 4 && IsFirst(segs, f)
    requires (k == 4 * f + 1 || k == 4 * f + 3) && j < k && Marker(segs[j]) == Marker(segs[k])
    ensures !(segs[j].s <= segs[k].s) && !(segs[k].s <= segs[j].s)
  {
    hide Paired, IsFirst;
    PairAt(segs, f);
    MarkersDiffer(segs[j], segs[k]);
    var m := PairOfTag(segs, j);
    hide Alternate;
    FirstPairDiffers(segs, m, f);
    PrefixIsSame(segs, j, k);
    PrefixIsSame(segs, k, j);
  }

  lemma PairOfTag(segs: seq<Segment>, j: nat) returns (m: nat)
    requires Alternate(segs) && j < |segs| && !segs[j].Text?
    ensures m < |segs| / 4 && j == if segs[j].Begin? then 4 * m + 1 else 4 * m + 3
  {
    m := j / 4;
  }

  lemma FirstPairDiffers(segs: seq<Segment>, m: nat, f: nat)
    requires Paired(segs) && m < f < |segs| / 4 && IsFirst(segs, f)
    ensures BeginTag(segs, m) != BeginTag(segs, f) && EndTag(segs, m) != EndTag(segs, f)
  {
  }

  lemma PrefixIsSame(segs: seq<Segment>, i: nat, j: nat)
    requires Paired(segs) && i < |segs| && j < |segs| && Marker(segs[i]) == Marker(segs[j]) && !segs[j].Text?
    ensures segs[i].s <= segs[j].s ==> segs[i].s == segs[j].s
  {
  }

  lemma MarkersDiffer(a: Segment, b: Segment)
    requires Marker(a) == Marker(b)
    ensures a.Text? == b.Text? && a.Begin? == b.Begin? && a.End? == b.End?
  {
    assert BEGIN[5] != END[5];
  }

  /** Turn `n` writes to the first pair with its tags. */
  lemma RefreshedOneMore(files: Files, segs: seq<Segment>, n: nat, f: nat, text: string)
    requires Alternate(segs) && n < |segs| / 4 && Embedded(files, BeginTag(segs, n)) == Some(text)
    requires f <= n && BeginTag(segs, f) == BeginTag(segs, n) && IsFirst(segs, f)
    ensures Refreshed(files, segs, n + 1) == Refreshed(files, segs, n)[4 * f + 2 := Text(text)]
  {
    var r, after := Refreshed(files, segs, n + 1), Refreshed(files, segs, n)[4 * f + 2 := Text(text)];
    forall i | 0 <= i < |segs| ensures r[i] == after[i] {
      RefreshedOneMoreAt(files, segs, n, f, text, i);
    }
  }

  lemma RefreshedOneMoreAt(files: Files, segs: seq<Segment>, n: nat, f: nat, text: string, i: nat)
    requires n < |segs| / 4 && Embedded(files, BeginTag(segs, n)) == Some(text) && i < |segs|
    requires f <= n && BeginTag(segs, f) == BeginTag(segs, n) && IsFirst(segs, f)
    ensures Refreshed(files, segs, n + 1)[i] == if i == 4 * f + 2 then Text(text) else Refreshed(files, segs, n)[i]
  {
    hide IsFirst, Embedded, BeginTag;
    if i % 4 == 2 {
      var m := i / 4;
      assert i == 4 * m + 2;
      if m == f {
        assert Due(files, segs, n + 1, m);
      } else if m == n {
        LaterDoubleIsNotFirst(segs, n, f);
        assert !Due(files, segs, n + 1, m);
      } else {
        assert Due(files, segs, n + 1, m) == Due(files, segs, n, m);
      }
    }
  }

  lemma LaterDoubleIsNotFirst(segs: seq<Segment>, n: nat, f: nat)
    requires f < n && 4 * n + 1 < |segs| && BeginTag(segs, f) == BeginTag(segs, n)
    ensures !IsFirst(segs, n)
  {
  }

  lemma TurnRefreshes(files: Files, segs: seq<Segment>, n: nat, text: string)
    requires WellTagged(segs) && EmbedsPlainText(files, segs) && n < |segs| / 4
    requires Embedded(files, BeginTag(segs, n)) == Some(text)
    ensures Replaced(Flat(Refreshed(files, segs, n)), BeginTag(segs, n), EndTag(segs, n), text)
            == Flat(Refreshed(files, segs, n + 1))
  {
    hide Embedded, Laid, Flat, Replaced, EmbedsPlainText, FirstOfItsName;
    var now := Refreshed(files, segs, n);
    RefreshedWellTagged(files, segs, n);
    var f := FirstDouble(segs, n, 0);
    RefreshedOneMore(files, segs, n, f, text);
    assert EndTag(segs, f) == EndTag(segs, n);
    TagsKept(segs, now, f);
    hide Refreshed, IsFirst, Alternate, Paired;
    TurnReplaces(now, f, text);
  }

  lemma TurnReplaces(segs: seq<Segment>, f: nat, text: string)
    requires WellTagged(segs) && f < |segs| / 4 && IsFirst(segs, f)
    ensures Replaced(Flat(segs), BeginTag(segs, f), EndTag(segs, f), text) == Flat(segs[4 * f + 2 := Text(text)])
  {
    hide Laid, Paired, IsFirst, FirstOfItsName, Flat, Replaced;
    PairAt(segs, f);
    FirstPairIsFirst(segs, f);
    hide Alternate;
    ReplacedBetween(segs, 4 * f + 1, text);
  }

  lemma TagsKept(segs: seq<Segment>, r: seq<Segment>, f: nat)
    requires |r| == |segs| && f < |segs| / 4 && Alternate(segs) && IsFirst(segs, f)
    requires forall i | 0 <= i < |segs| && i % 4 != 2 :: r[i] == segs[i]
    ensures BeginTag(r, f) == BeginTag(segs, f) && EndTag(r, f) == EndTag(segs, f) && IsFirst(r, f)
  {
    forall m: nat | m <= f ensures BeginTag(r, m) == BeginTag(segs, m) {}
  }

  /** From pair `n` on, the loop refreshes what is left, or stops at a file it cannot embed. */
  lemma {:induction false} LoopRefreshes(files: Files, segs: seq<Segment>, n: nat)
    requires WellTagged(segs) && EmbedsPlainText(files, segs) && n <= |segs| / 4
    requires forall i: nat | i < n :: Embedded(files, BeginTag(segs, i)).Some?
    ensures |TagsOf(BEGIN, segs)| == |segs| / 4
    ensures RewriteFrom(files, Flat(Refreshed(files, segs, n)), TagsOf(BEGIN, segs), TagsOf(END, segs), n) ==
            if AllFound(files, segs) then Some(Flat(Refreshed(files, segs, |segs| / 4))) else None
    decreases |segs| / 4 - n
  {
    hide Embedded, Laid, Paired, Flat, Replaced, Refreshed, EmbedsPlainText, TagsOf;
    TagsAt(segs, n);
    if n == |segs| / 4 {
      forall i | 0 <= i < |segs| && segs[i].Begin? ensures Embedded(files, segs[i].s).Some? {
        assert segs[i].s == BeginTag(segs, i / 4);
      }
    } else {
      PairAt(segs, n);
      if Embedded(files, BeginTag(segs, n)).Some? {
        TurnRefreshes(files, segs, n, Embedded(files, BeginTag(segs, n)).value);
        LoopRefreshes(files, segs, n + 1);
      }
    }
  }

  /**
   On a well tagged document the rewrite replaces the text between a tag pair by the file the pair
   names, exactly where no earlier pair has the same tags, and leaves everything else, the tags
   included, as it is; or it stops, and nothing is written, exactly when some file is missing or of
   an unsupported type.
   */
  lemma RewriteIsLocal(files: Files, segs: seq<Segment>)
    requires WellTagged(segs) && EmbedsPlainText(files, segs)
    ensures Rewrite(files, Flat(segs)) ==
            if AllFound(files, segs) then Some(Flat(Refreshed(files, segs, |segs| / 4))) else None
  {
    assert Refreshed(files, segs, 0) == segs;
    hide Embedded, Laid, Paired, Flat, RewriteFrom, FindTags, EmbedsPlainText, AllFound, Refreshed, TagsOf;
    FoundTags(BEGIN, segs);
    FoundTags(END, segs);
    LoopRefreshes(files, segs, 0);
    TagsAt(segs, 0);
    if |segs| / 4 == 0 {
      NothingToFind(files, segs);
    }
  }

  lemma NothingToFind(files: Files, segs: seq<Segment>)
    requires Alternate(segs) && |segs| / 4 == 0
    ensures AllFound(files, segs)
  {
    assert |segs| == 1;
  }

  /** Rewriting the rewritten document changes nothing. */
  lemma RewriteIsIdempotent(files: Files, segs: seq<Segment>)
    requires WellTagged(segs) && EmbedsPlainText(files, segs)
    ensures var once := Rewrite(files, Flat(segs));
            once.Some? ==> Rewrite(files, once.value) == once
  {
    RewriteIsLocal(files, segs);
    hide Rewrite, Flat, Embedded;
    var n := |segs| / 4;
    var out := Refreshed(files, segs, n);
    RefreshedWellTagged(files, segs, n);
    hide Laid, Paired;
    if AllFound(files, segs) {
      forall i | 0 <= i < |out| && out[i].Begin? ensures out[i] == segs[i] {}
      RewriteIsLocal(files, out);
      RefreshedTwice(files, segs, n);
    }
  }

  lemma FirstKept(segs: seq<Segment>, r: seq<Segment>, m: nat)
    requires |r| == |segs| && 4 * m + 1 < |segs|
    requires forall i | 0 <= i < |segs| && i % 4 != 2 :: r[i] == segs[i]
    ensures IsFirst(r, m) == IsFirst(segs, m)
  {
    forall l: nat | l <= m ensures BeginTag(r, l) == BeginTag(segs, l) {}
  }

  lemma RefreshedTwice(files: Files, segs: seq<Segment>, n: nat)
    ensures Refreshed(files, Refreshed(files, segs, n), n) == Refreshed(files, segs, n)
  {
    var once := Refreshed(files, segs, n);
    var twice := Refreshed(files, once, n);
    forall i | 0 <= i < |segs| ensures twice[i] == once[i] {
      RefreshedTwiceAt(files, segs, n, i);
    }
  }

  lemma RefreshedTwiceAt(files: Files, segs: seq<Segment>, n: nat, i: nat)
    requires i < |segs|
    ensures Refreshed(files, Refreshed(files, segs, n), n)[i] == Refreshed(files, segs, n)[i]
  {
    hide Embedded, IsFirst;
    if i % 4 == 2 {
      var once, m := Refreshed(files, segs, n), i / 4;
      assert i == 4 * m + 2 && once[i - 1] == segs[i - 1];
      FirstKept(segs, once, m);
      assert BeginTag(once, m) == BeginTag(segs, m);
      assert Due(files, once, n, m) == Due(files, segs, n, m);
    }
  }

  // ---------- from a tag to the text between the tags ----------

  lemma {:induction false} TrimmedStart(s: string)
    requires s != "" && !IsSpace(s[0])
    ensures TrimStart(s) == s && TrimStart(" " + s) == s
  {
    assert (" " + s)[1..] == s;
  }

  lemma TrimmedEnd(s: string)
    requires s != "" && !IsSpace(s[|s| - 1])
    ensures TrimEnd(s) == s && TrimEnd(s + " ") == s
  {
    assert (s + " ")[..|s|] == s;
  }

  lemma WithoutFirstIs(s: string, what: string, a: string, b: string)
    requires what != "" && s == a + what + b && forall p: nat | p < |a| :: !Occurs(what, s, p)
    ensures WithoutFirst(s, what) == a + b
  {
    assert Occurs(what, s, |a|);
    FirstOccurrence(s, what, |a|);
    assert s[..|a|] == a && s[|a| + |what|..] == b;
  }

  /** A tag of the documented form names its file, and is a tag; without the spaces it is none. */
  lemma TagNamesItsFile(name: string)
    requires name != "" && !IsSpace(name[0]) && !IsSpace(name[|name| - 1])
    requires forall p: nat :: !Occurs(CLOSE, name, p)
    ensures FileReference("<!-- BEGIN-CODE: " + name + " -->") == name
  {
    hide WithoutFirst, TrimStart, TrimEnd, Occurs;
    WithoutBegin(name);
    WithoutClose(name);
    assert " " + name + " " == " " + (name + " ") && (name + " ")[0] == name[0];
    TrimmedStart(name + " ");
    TrimmedEnd(name);
  }

  lemma WithoutBegin(name: string)
    ensures WithoutFirst("<!-- BEGIN-CODE: " + name + " -->", BEGIN) == " " + name + " -->"
  {
    var rest := " " + name + " -->";
    assert "<!-- BEGIN-CODE: " + name + " -->" == "" + BEGIN + rest;
    WithoutFirstIs("<!-- BEGIN-CODE: " + name + " -->", BEGIN, "", rest);
    assert "" + rest == rest;
  }

  lemma WithoutClose(name: string)
    requires name != "" && !IsSpace(name[0]) && !IsSpace(name[|name| - 1])
    requires forall p: nat :: !Occurs(CLOSE, name, p)
    ensures WithoutFirst(" " + name + " -->", CLOSE) == " " + name + " "
  {
    hide IsSpace, Occurs;
    var rest, kept := " " + name + " -->", " " + name + " ";
    assert rest == kept + CLOSE + "" && |kept| == |name| + 2;
    forall p: nat | p < |kept| ensures !Occurs(CLOSE, rest, p) {
      NoCloseBefore(name, p);
    }
    WithoutFirstIs(rest, CLOSE, kept, "");
    assert kept + "" == kept;
  }

  lemma NoCloseBefore(name: string, p: nat)
    requires name != "" && !IsSpace(name[0]) && !IsSpace(name[|name| - 1]) && p < |name| + 2
    requires forall q: nat :: !Occurs(CLOSE, name, q)
    ensures !Occurs(CLOSE, " " + name + " -->", p)
  {
    var rest := " " + name + " -->";
    var n := |name|;
    if 1 <= p <= n - 2 {
      assert rest[p..p + 3] == name[p - 1..p + 2];
      assert !Occurs(CLOSE, name, p - 1);
    } else if p == 0 {
      assert rest[p..p + 3][0] == ' ';
    } else {
      assert rest[n + 1] == ' ' && 0 <= n + 1 - p < 3;
      assert rest[p..p + 3][n + 1 - p] == ' ' != CLOSE[n + 1 - p];
    }
  }

  /** A tag of the documented form is found as one. */
  lemma DocumentedTags(name: string)
    requires name != "" && forall i | 0 <= i < |name| :: !IsLineEnd(name[i]) && !IsSpace(name[i])
    ensures IsTag(BEGIN, "<!-- BEGIN-CODE: " + name + " -->") && IsTag(END, "<!-- END-CODE: " + name + " -->")
  {
    hide IsTag;
    DocumentedTag(BEGIN, name);
    DocumentedTag(END, name);
    assert "<!-- BEGIN-CODE: " + name == BEGIN + " " + name;
    assert "<!-- END-CODE: " + name == END + " " + name;
  }

  /** Without the spaces around the name it is none. */
  lemma DocumentedTag(marker: string, name: string)
    requires IsMarker(marker) && name != "" && forall i | 0 <= i < |name| :: !IsLineEnd(name[i]) && !IsSpace(name[i])
    ensures IsTag(marker, marker + " " + name + " -->") && !IsTag(marker, marker + name + "-->")
  {
    var tag, n := marker + " " + name + " -->", |marker|;
    assert tag[|tag| - 3..] == CLOSE && tag[..n] == marker;
    assert TagParts(marker, tag, n + 1, n + 1 + |name|);
    var other := marker + name + "-->";
    forall i: nat, j: nat | n < i <= j < |other| - 3 ensures !TagParts(marker, other, i, j) {
      assert other[n] == name[0];
    }
  }

  /** White space and line ends are those of the language: a tab separates, and no tag runs over a line end. */
  lemma DocumentedSpaces(marker: string, name: string, c: char)
    requires IsMarker(marker) && name != "" && forall i | 0 <= i < |name| :: !IsLineEnd(name[i]) && !IsSpace(name[i])
    ensures c in "\t\n\r \U{00A0}\U{2028}\U{2029}\U{FEFF}" ==> IsTag(marker, marker + [c] + name + [c] + "-->")
    ensures c in "\n\r\U{2028}\U{2029}" ==> !IsTag(marker, marker + " " + name + [c] + name + " -->")
  {
    var n := |marker|;
    if c in "\t\n\r \U{00A0}\U{2028}\U{2029}\U{FEFF}" {
      var tag := marker + [c] + name + [c] + "-->";
      assert tag[|tag| - 3..] == CLOSE && tag[..n] == marker && IsSpace(c);
      assert TagParts(marker, tag, n + 1, n + 1 + |name|);
    }
    if c in "\n\r\U{2028}\U{2029}" {
      var tag := marker + " " + name + [c] + name + " -->";
      forall i: nat, j: nat | n < i <= j < |tag| - 3 ensures !TagParts(marker, tag, i, j) {
        var at := n + 1 + |name|;
        assert tag[n + 1] == name[0] && tag[at] == c && tag[at + 1] == name[0] && IsLineEnd(c);
      }
    }
  }

  /** The part of a reference after its last slash. */
  lemma {:induction false} LastSegmentIs(folder: string, name: string)
    requires '/' !in name
    ensures LastSegment(name) == name && LastSegment(folder + "/" + name) == name
    decreases |name|
  {
    var s := folder + "/" + name;
    if name == "" {
      assert s[|s| - 1] == '/' && '/' in s;
    } else {
      var shorter := name[..|name| - 1];
      LastSegmentIs(folder, shorter);
      assert s[..|s| - 1] == folder + "/" + shorter && s[|s| - 1] == name[|name| - 1];
      assert name[|name| - 1] in name && s[|folder|] == '/';
    }
  }

  /** What stands between the tags afterwards: a link, and the file as its type asks for. */
  lemma EmbeddedIs(files: Files, beginTag: string, folder: string, name: string)
    requires '/' !in name && FileReference(beginTag) == folder + "/" + name
    ensures var reference := folder + "/" + name; var link := "\n[**" + name + "**](" + reference + ")\n";
            && (reference !in files ==> Embedded(files, beginTag) == None)
            && (reference in files ==>
                  var content := files[reference].content;
                  match files[reference].extension
                  case "ts" => Embedded(files, beginTag) == Some(link + "```typescript\n" + content + "\n```" + "\n")
                  case "js" => Embedded(files, beginTag) == Some(link + "\n" + content + "\n" + "\n")
                  case "md" => Embedded(files, beginTag) == Some(link + "\n" + content + "\n" + "\n")
                  case _ => Embedded(files, beginTag) == None)
  {
    hide FileReference;
    LastSegmentIs(folder, name);
    var reference := folder + "/" + name;
    if reference in files {
      var text := TagWithType(files[reference]);
      if text.Some? {
        Regrouped("\n[**" + name + "**](" + reference + ")\n", "```typescript\n", files[reference].content, "\n```");
        Regrouped("\n[**" + name + "**](" + reference + ")\n", "\n", files[reference].content, "\n");
      }
    }
  }

  lemma Regrouped(link: string, a: string, b: string, c: string)
    ensures link + (a + b + c) + "\n" == link + a + b + c + "\n"
  {
  }

  // ---------- when nothing is done ----------

  /** A document without begin tags, or without end tags, is written back as it was. */
  lemma UntaggedIsKept(files: Files, readme: string)
    requires FindTags(BEGIN, readme) == [] || FindTags(END, readme) == []
    ensures Rewrite(files, readme) == Some(readme)
  {
  }

  /** With fewer end tags than begin tags nothing is written. */
  lemma {:induction false} MismatchFrom(files: Files, readme: string, begins: seq<string>, ends: seq<string>, i: nat)
    requires i <= |begins| && |ends| < |begins|
    ensures i < |begins| ==> RewriteFrom(files, readme, begins, ends, i) == None
    decreases |begins| - i
  {
    hide Embedded, Replaced;
    if i < |ends| {
      match Embedded(files, begins[i])
      case None =>
      case Some(text) => MismatchFrom(files, Replaced(readme, begins[i], ends[i], text), begins, ends, i + 1);
    }
  }

  lemma MismatchWritesNothing(files: Files, readme: string)
    requires 0 < |FindTags(END, readme)| < |FindTags(BEGIN, readme)|
    ensures Rewrite(files, readme) == None
  {
    MismatchFrom(files, readme, FindTags(BEGIN, readme), FindTags(END, readme), 0);
  }
}
