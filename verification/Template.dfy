// The notification renderer: repeated substitution and a final strip, against a one-pass render.
module Template {
  import opened Wrappers
  import opened Ordered

  /** A template part; a missing sort order counts as 0. */
  datatype Content = Content(sortOrder: Option<int>, text: string)

  // ---------- the string operations of the source ----------

  /** The characters `.` does not match. */
  predicate Terminator(c: char) {
    c == '\n' || c == '\r' || c == '\U{2028}' || c == '\U{2029}'
  }

  /** The characters `trim` removes. */
  predicate Space(c: char) {
    c == ' ' || '\t' <= c <= '\r' || c == '\U{00A0}' || c == '\U{1680}' || '\U{2000}' <= c <= '\U{200A}' ||
    c == '\U{2028}' || c == '\U{2029}' || c == '\U{202F}' || c == '\U{205F}' || c == '\U{3000}' || c == '\U{FEFF}'
  }

  predicate StartsWith(t: string, p: string) {
    |p| <= |t| && t[..|p|] == p
  }

  /** `t.split(p).join(v)`. */
  function ReplaceAll(t: string, p: string, v: string): string
    requires p != []
    decreases |t|
  {
    if t == [] then []
    else if StartsWith(t, p) then v + ReplaceAll(t[|p|..], p, v)
    else [t[0]] + ReplaceAll(t[1..], p, v)
  }

  const NAME_HOLE: string := "{{nama}}"

  /** The replacement patterns of `String.prototype.replace`. */
  function Expand(r: string, before: string, after: string): string {
    if r == [] then []
    else if r[0] == '$' && |r| > 1 && r[1] == '$' then "$" + Expand(r[2..], before, after)
    else if r[0] == '$' && |r| > 1 && r[1] == '&' then NAME_HOLE + Expand(r[2..], before, after)
    else if r[0] == '$' && |r| > 1 && r[1] == '`' then before + Expand(r[2..], before, after)
    else if r[0] == '$' && |r| > 1 && r[1] == '\'' then after + Expand(r[2..], before, after)
    else [r[0]] + Expand(r[1..], before, after)
  }

  /** `t.replace(/{{nama}}/g, name)`, after `before` has been passed. */
  function ReplaceName(before: string, t: string, name: string): string
    decreases |t|
  {
    if t == [] then []
    else if StartsWith(t, NAME_HOLE) then
      Expand(name, before, t[|NAME_HOLE|..]) + ReplaceName(before + NAME_HOLE, t[|NAME_HOLE|..], name)
    else [t[0]] + ReplaceName(before + [t[0]], t[1..], name)
  }

  /** Where the first `}}` of the line begins, or -1. */
  function CloseAt(t: string): (r: int)
    ensures -1 <= r && r + 2 <= if |t| < 1 then 1 else |t|
  {
    if |t| < 2 || Terminator(t[0]) then -1
    else if t[0] == '}' && t[1] == '}' then 0
    else
      var r := CloseAt(t[1..]);
      if r < 0 then -1 else r + 1
  }

  /** The length of the shortest match of `{{.*?}}` at the start of `t`, or -1. */
  function MatchLength(t: string): (r: int)
    ensures r == -1 || 4 <= r <= |t|
  {
    if |t| >= 2 && t[0] == '{' && t[1] == '{' && CloseAt(t[2..]) >= 0 then CloseAt(t[2..]) + 4 else -1
  }

  /** `t.replace(/{{.*?}}/g, '')`. */
  function Strip(t: string): string
    decreases |t|
  {
    if t == [] then []
    else if MatchLength(t) >= 0 then Strip(t[MatchLength(t)..])
    else [t[0]] + Strip(t[1..])
  }

  function TrimStart(t: string): string {
    if t != [] && Space(t[0]) then TrimStart(t[1..]) else t
  }

  function TrimEnd(t: string): string {
    if t != [] && Space(t[|t| - 1]) then TrimEnd(t[..|t| - 1]) else t
  }

  function Trim(t: string): string {
    TrimEnd(TrimStart(t))
  }

  // ---------- parse ----------

  function Ranks(contents: seq<Content>): map<Content, Rank> {
    map c | c in contents :: Rank(0, if c.sortOrder.Some? then c.sortOrder.value else 0)
  }

  function Join(contents: seq<Content>): string {
    if contents == [] then [] else Join(contents[..|contents| - 1]) + contents[|contents| - 1].text
  }

  function FullText(contents: seq<Content>): string {
    Join(StableSort(contents, Ranks(contents)))
  }

  type Data = map<string, Option<string>>

  /** Metadata, when given, wins over the context. */
  function AllData(context: Data, metadata: Option<Data>): Data {
    context + if metadata.Some? then metadata.value else map[]
  }

  function Text(v: Option<string>): string {
    if v.Some? then v.value else ""
  }

  function Placeholder(key: string): string {
    "{{" + key + "}}"
  }

  function Fill(t: string, data: Data, keys: seq<string>): string
    requires forall k :: k in keys ==> k in data
  {
    if keys == [] then t
    else
      var n := |keys| - 1;
      ReplaceAll(Fill(t, data, keys[..n]), Placeholder(keys[n]), Text(data[keys[n]]))
  }

  /** The whole of `parse`, with the keys in the order `Object.keys` lists them. */
  function Parsed(contents: seq<Content>, data: Data, name: string, keys: seq<string>): string
    requires forall k :: k in keys ==> k in data
  {
    if contents == [] then ""
    else Trim(Strip(Fill(ReplaceName("", FullText(contents), name), data, keys)))
  }

  /** The whole of `parse`, of its own inputs. */
  function Rendered(contents: seq<Content>, context: Data, studentName: string, metadata: Option<Data>, keys: seq<string>): string
    requires forall k :: k in keys ==> k in AllData(context, metadata)
  {
    Parsed(contents, AllData(context, metadata), studentName, keys)
  }

  /** No line of `t` has `{{` followed later by `}}`. */
  ghost predicate NoHole(t: string) {
    forall i, j :: 0 <= i && i + 2 <= j && j + 2 <= |t| && Opens(t, i) && Closes(t, j) ==>
      exists k :: i + 2 <= k < j && Terminator(t[k])
  }

  ghost predicate Opens(t: string, i: int)
    requires 0 <= i && i + 2 <= |t|
  {
    t[i] == '{' && t[i + 1] == '{'
  }

  ghost predicate Closes(t: string, j: int)
    requires 0 <= j && j + 2 <= |t|
  {
    t[j] == '}' && t[j + 1] == '}'
  }

  /** `parse`: never leaves a placeholder, whatever the template, the name and the data. */
  method Parse(contents: seq<Content>, context: Data, studentName: string, metadata: Option<Data>, keys: seq<string>)
      returns (text: string)
    requires Elems(keys) == AllData(context, metadata).Keys && NoDup(keys)
    ensures forall k :: k in keys ==> k in AllData(context, metadata)
    ensures text == Rendered(contents, context, studentName, metadata, keys)
    ensures NoHole(text)
  {
    hide ReplaceAll, ReplaceName, Strip, Trim, StableSort, NoHole, Join, Text;
    forall k | k in keys ensures k in AllData(context, metadata) {
      assert k in Elems(keys);
    }
    NoLeftover(contents, AllData(context, metadata), studentName, keys);
    if |contents| == 0 {
      return "";
    }
    var sortedContents := StableSort(contents, Ranks(contents));
    var fullText := Join(sortedContents);
    fullText := ReplaceName("", fullText, studentName);
    ghost var start := fullText;
    var allData := AllData(context, metadata);
    for i := 0 to |keys|
      invariant fullText == Fill(start, allData, keys[..i])
    {
      assert keys[..i + 1][..i] == keys[..i];
      fullText := ReplaceAll(fullText, Placeholder(keys[i]), Text(allData[keys[i]]));
    }
    assert keys[..|keys|] == keys;
    text := Trim(Strip(fullText));
  }

  // ---------- no leftover placeholder ----------

  /** No match of the pattern begins anywhere. */
  predicate Clean(t: string) {
    t == [] || (MatchLength(t) < 0 && Clean(t[1..]))
  }

  lemma NoCloseNoMatch(t: string)
    requires CloseAt(t) < 0
    ensures MatchLength(t) < 0
    ensures t != [] && !Terminator(t[0]) ==> CloseAt(t[1..]) < 0
  {
    if |t| >= 2 && !Terminator(t[0]) {
      assert CloseAt(t[1..]) < 0;
      if |t| >= 3 && t[0] == '{' && t[1] == '{' {
        assert t[1..][1..] == t[2..];
      }
    }
  }

  /** Stripping keeps the first character unless a match begins there. */
  lemma StripHead(t: string)
    requires t != [] && MatchLength(t) < 0
    ensures Strip(t) != [] && Strip(t)[0] == t[0] && Strip(t)[1..] == Strip(t[1..])
  {
  }

  /** Stripping does not make up a `}}` on a line that has none. */
  lemma {:induction false} StripNoClose(t: string)
    requires CloseAt(t) < 0
    ensures CloseAt(Strip(t)) < 0
    decreases |t|
  {
    NoCloseNoMatch(t);
    if t != [] {
      StripHead(t);
      if !Terminator(t[0]) {
        StripNoClose(t[1..]);
        NoCloseNoMatch(t[1..]);
        if t[1..] != [] {
          StripHead(t[1..]);
        }
      }
    }
  }

  /** Removing leftmost shortest matches never forms a new one. */
  lemma {:induction false} StripIsClean(t: string)
    ensures Clean(Strip(t))
    decreases |t|
  {
    if t != [] {
      if MatchLength(t) >= 0 {
        StripIsClean(t[MatchLength(t)..]);
      } else {
        StripIsClean(t[1..]);
        StripHead(t);
        KeptOpensNothing(t);
      }
    }
  }

  lemma KeptOpensNothing(t: string)
    requires t != [] && MatchLength(t) < 0
    ensures MatchLength(Strip(t)) < 0
  {
    StripHead(t);
    var r := Strip(t);
    if |r| >= 2 && r[0] == '{' && r[1] == '{' {
      assert t[1..] != [];
      if MatchLength(t[1..]) < 0 {
        StripHead(t[1..]);
      }
      assert t[1] == '{';
      var u := t[2..];
      assert CloseAt(u) < 0;
      NoCloseNoMatch(u);
      assert u != [] ==> t[1..][2..] == u[1..];
      assert MatchLength(t[1..]) < 0;
      StripHead(t[1..]);
      assert t[1..][1..] == u;
      StripNoClose(u);
      assert r[2..] == Strip(u);
    }
  }

  lemma {:induction false} CloseFound(t: string, j: int)
    requires 0 <= j && j + 2 <= |t| && Closes(t, j) && forall k :: 0 <= k < j ==> !Terminator(t[k])
    ensures CloseAt(t) >= 0
  {
    if j > 0 && !(t[0] == '}' && t[1] == '}') {
      assert Closes(t[1..], j - 1);
      CloseFound(t[1..], j - 1);
    }
  }

  lemma {:induction false} CleanNoMatchAt(t: string, i: int)
    requires Clean(t) && 0 <= i < |t|
    ensures MatchLength(t[i..]) < 0
  {
    if i > 0 {
      CleanNoMatchAt(t[1..], i - 1);
      assert t[1..][i - 1..] == t[i..];
    } else {
      assert t[0..] == t;
    }
  }

  lemma CleanHasNoHole(t: string)
    requires Clean(t)
    ensures NoHole(t)
  {
    forall i, j | 0 <= i && i + 2 <= j && j + 2 <= |t| && Opens(t, i) && Closes(t, j)
      ensures exists k :: i + 2 <= k < j && Terminator(t[k])
    {
      CleanNoMatchAt(t, i);
      assert t[i..][2..] == t[i + 2..];
      var u := t[i + 2..];
      assert Closes(u, j - i - 2);
      if forall k :: 0 <= k < j - i - 2 ==> !Terminator(u[k]) {
        CloseFound(u, j - i - 2);
      } else {
        var k :| 0 <= k < j - i - 2 && Terminator(u[k]);
        assert Terminator(t[k + i + 2]);
      }
    }
  }

  lemma PartHasNoHole(t: string, a: nat, b: nat)
    requires a <= b <= |t| && NoHole(t)
    ensures NoHole(t[a..b])
  {
    var u := t[a..b];
    forall i, j | 0 <= i && i + 2 <= j && j + 2 <= |u| && Opens(u, i) && Closes(u, j)
      ensures exists k :: i + 2 <= k < j && Terminator(u[k])
    {
      assert Opens(t, i + a) && Closes(t, j + a);
      var k :| i + a + 2 <= k < j + a && Terminator(t[k]);
      assert Terminator(u[k - a]);
    }
  }

  lemma {:induction false} TrimStartIsPart(t: string) returns (a: nat)
    ensures a <= |t| && TrimStart(t) == t[a..]
  {
    if t != [] && Space(t[0]) {
      var n := TrimStartIsPart(t[1..]);
      a := n + 1;
      assert t[1..][n..] == t[a..];
    } else {
      a := 0;
    }
  }

  lemma {:induction false} TrimEndIsPart(t: string) returns (b: nat)
    ensures b <= |t| && TrimEnd(t) == t[..b]
  {
    if t != [] && Space(t[|t| - 1]) {
      b := TrimEndIsPart(t[..|t| - 1]);
      assert t[..|t| - 1][..b] == t[..b];
    } else {
      b := |t|;
    }
  }

  lemma TrimKeepsNoHole(t: string)
    requires NoHole(t)
    ensures NoHole(Trim(t))
  {
    var a := TrimStartIsPart(t);
    assert t[a..] == t[a..|t|];
    PartHasNoHole(t, a, |t|);
    var b := TrimEndIsPart(TrimStart(t));
    assert TrimStart(t)[..b] == TrimStart(t)[0..b];
    PartHasNoHole(TrimStart(t), 0, b);
  }

  /** No leftover placeholder: for every template, name, data and key order. */
  lemma NoLeftover(contents: seq<Content>, data: Data, name: string, keys: seq<string>)
    requires forall k :: k in keys ==> k in data
    ensures NoHole(Parsed(contents, data, name, keys))
  {
    if contents != [] {
      var t := Fill(ReplaceName("", FullText(contents), name), data, keys);
      StripIsClean(t);
      CleanHasNoHole(Strip(t));
      TrimKeepsNoHole(Strip(t));
    }
  }

  // ---------- the one-pass render ----------

  datatype Segment = Literal(text: string) | Hole(name: string)

  function Shown(seg: Segment): string {
    match seg case Literal(text) => text case Hole(name) => Placeholder(name)
  }

  function Flat(segs: seq<Segment>): string {
    if segs == [] then [] else Shown(segs[0]) + Flat(segs[1..])
  }

  /** What a literal, a value and a name must be: without `{`, nothing in them starts a placeholder. */
  predicate Unopened(t: string) {
    '{' !in t
  }

  predicate Braceless(t: string) {
    '{' !in t && '}' !in t
  }

  predicate OneLine(t: string) {
    forall i | 0 <= i < |t| :: !Terminator(t[i])
  }

  ghost predicate Plain(segs: seq<Segment>) {
    forall i :: 0 <= i < |segs| ==>
      match segs[i] case Literal(text) => Unopened(text) case Hole(name) => Braceless(name) && OneLine(name)
  }

  /** What a hole shows: the student's name first, then the data, otherwise nothing. */
  function Value(hole: string, name: string, data: Data): string {
    if hole == "nama" then name else if hole in data then Text(data[hole]) else ""
  }

  function Render(segs: seq<Segment>, name: string, data: Data): string {
    if segs == [] then []
    else
      var text := match segs[0] case Literal(text) => text case Hole(hole) => Value(hole, name, data);
      text + Render(segs[1..], name, data)
  }

  function FillHole(seg: Segment, key: string, value: string): Segment {
    if seg == Hole(key) then Literal(value) else seg
  }

  function FillHoles(segs: seq<Segment>, key: string, value: string): seq<Segment> {
    if segs == [] then [] else [FillHole(segs[0], key, value)] + FillHoles(segs[1..], key, value)
  }

  lemma Mismatch(t: string, p: string, i: nat)
    requires i < |t| && i < |p| && t[i] != p[i]
    ensures !StartsWith(t, p)
  {
    assert |p| <= |t| ==> t[..|p|][i] != p[i];
  }

  lemma StepOver(t: string, p: string, v: string)
    requires p != [] && t != [] && !StartsWith(t, p)
    ensures ReplaceAll(t, p, v) == [t[0]] + ReplaceAll(t[1..], p, v)
  {
  }

  /** A stretch without an opening brace holds no placeholder. */
  lemma {:induction false} ReplacePassesOver(a: string, rest: string, p: string, v: string)
    requires p != [] && p[0] == '{' && '{' !in a
    ensures ReplaceAll(a + rest, p, v) == a + ReplaceAll(rest, p, v)
  {
    if a == [] {
      assert a + rest == rest;
    } else {
      ReplacePassesOver(a[1..], rest, p, v);
      assert (a + rest)[0] == a[0] && (a + rest)[1..] == a[1..] + rest;
      Mismatch(a + rest, p, 0);
      StepOver(a + rest, p, v);
    }
  }

  /** Two brace-free names whose placeholders begin the same text are the same. */
  lemma SameName(h: string, k: string, rest: string)
    requires Braceless(h) && Braceless(k) && StartsWith(Placeholder(h) + rest, Placeholder(k))
    ensures h == k
  {
    var t, p := Placeholder(h) + rest, Placeholder(k);
    assert forall i :: 0 <= i < |p| ==> t[i] == t[..|p|][i] == p[i];
    assert forall i :: 0 <= i < |h| ==> t[2 + i] == h[i] && h[i] in h;
    assert t[2 + |h|] == '}';
    assert forall i :: 0 <= i < |k| ==> p[2 + i] == k[i] && k[i] in k;
    assert p[2 + |k|] == '}';
    assert |h| == |k|;
    assert forall i :: 0 <= i < |h| ==> h[i] == t[2 + i] == p[2 + i] == k[i];
  }

  lemma OtherName(h: string, k: string, rest: string)
    requires Braceless(h) && Braceless(k) && h != k
    ensures !StartsWith(Placeholder(h) + rest, Placeholder(k))
  {
    if StartsWith(Placeholder(h) + rest, Placeholder(k)) {
      SameName(h, k, rest);
    }
  }

  lemma ReplaceAtHole(h: string, k: string, v: string, rest: string)
    requires Braceless(h) && Braceless(k)
    ensures ReplaceAll(Placeholder(h) + rest, Placeholder(k), v) ==
      (if h == k then v else Placeholder(h)) + ReplaceAll(rest, Placeholder(k), v)
  {
    var t, p := Placeholder(h) + rest, Placeholder(k);
    if h == k {
      assert t[..|p|] == p && t[|p|..] == rest;
    } else {
      OtherName(h, k, rest);
      StepOver(t, p, v);
      var tail := h + "}}";
      assert t[1..] == "{" + (tail + rest);
      var u := t[1..];
      assert u[1] == (tail + rest)[0];
      assert u[1] != '{' by {
        assert h != [] ==> h[0] in h;
      }
      Mismatch(u, p, 1);
      StepOver(u, p, v);
      assert u[1..] == tail + rest;
      assert '{' !in tail;
      ReplacePassesOver(tail, rest, p, v);
      assert [t[0]] + ([u[0]] + (tail + ReplaceAll(rest, p, v))) == Placeholder(h) + ReplaceAll(rest, p, v);
    }
  }

  /** Replacing a placeholder in the text is filling its holes. */
  lemma {:induction false} ReplaceFillsHoles(segs: seq<Segment>, k: string, v: string)
    requires Plain(segs) && Braceless(k)
    ensures ReplaceAll(Flat(segs), Placeholder(k), v) == Flat(FillHoles(segs, k, v))
  {
    if segs != [] {
      ReplaceFillsHoles(segs[1..], k, v);
      var rest := Flat(segs[1..]);
      match segs[0]
      case Literal(text) => ReplacePassesOver(text, rest, Placeholder(k), v);
      case Hole(h) => ReplaceAtHole(h, k, v, rest);
    }
  }

  lemma {:induction false} FillKeepsPlain(segs: seq<Segment>, k: string, v: string)
    requires Plain(segs) && Unopened(v)
    ensures Plain(FillHoles(segs, k, v)) && |FillHoles(segs, k, v)| == |segs|
    ensures forall i :: 0 <= i < |segs| ==> FillHoles(segs, k, v)[i] == FillHole(segs[i], k, v)
  {
    if segs != [] {
      FillKeepsPlain(segs[1..], k, v);
    }
  }

  /** A name without `$` replaces as it stands. */
  lemma {:induction false} ExpandPlain(r: string, before: string, after: string)
    requires '$' !in r
    ensures Expand(r, before, after) == r
  {
    if r != [] {
      assert r[0] in r;
      ExpandPlain(r[1..], before, after);
    }
  }

  lemma {:induction false} NameIsReplaced(before: string, t: string, name: string)
    requires '$' !in name
    ensures ReplaceName(before, t, name) == ReplaceAll(t, NAME_HOLE, name)
    decreases |t|
  {
    if t != [] {
      if StartsWith(t, NAME_HOLE) {
        ExpandPlain(name, before, t[|NAME_HOLE|..]);
        NameIsReplaced(before + NAME_HOLE, t[|NAME_HOLE|..], name);
      } else {
        NameIsReplaced(before + [t[0]], t[1..], name);
      }
    }
  }

  // ---------- stripping what is left ----------

  lemma {:induction false} StripPassesOver(a: string, rest: string)
    requires '{' !in a
    ensures Strip(a + rest) == a + Strip(rest)
  {
    hide Strip, CloseAt;
    if a == [] {
      assert a + rest == rest;
    } else {
      StripPassesOver(a[1..], rest);
      assert (a + rest)[0] == a[0] && (a + rest)[1..] == a[1..] + rest;
      assert MatchLength(a + rest) < 0;
      StripHead(a + rest);
    }
  }

  lemma {:induction false} CloseAfter(h: string, rest: string)
    requires '}' !in h && OneLine(h)
    ensures CloseAt(h + "}}" + rest) == |h|
  {
    var t := h + "}}" + rest;
    if h == [] {
      assert t[0] == '}' && t[1] == '}';
    } else {
      CloseAfter(h[1..], rest);
      assert t[0] == h[0] && t[1..] == h[1..] + "}}" + rest;
      assert h[0] in h;
    }
  }

  lemma StripAtHole(h: string, rest: string)
    requires Braceless(h) && OneLine(h)
    ensures Strip(Placeholder(h) + rest) == Strip(rest)
  {
    var t := Placeholder(h) + rest;
    CloseAfter(h, rest);
    assert t[0] == '{' && t[1] == '{' && t[2..] == h + "}}" + rest;
    assert MatchLength(t) == |h| + 4;
    assert t[|h| + 4..] == rest;
  }

  /** What the strip leaves of a template: its literals. */
  function Literals(segs: seq<Segment>): string {
    if segs == [] then []
    else (if segs[0].Literal? then segs[0].text else "") + Literals(segs[1..])
  }

  lemma {:induction false} StripLeavesLiterals(segs: seq<Segment>)
    requires Plain(segs)
    ensures Strip(Flat(segs)) == Literals(segs)
  {
    if segs != [] {
      StripLeavesLiterals(segs[1..]);
      var rest := Flat(segs[1..]);
      match segs[0]
      case Literal(text) => StripPassesOver(text, rest);
      case Hole(h) => StripAtHole(h, rest);
    }
  }

  // ---------- all keys ----------

  function FillKeys(segs: seq<Segment>, data: Data, keys: seq<string>): seq<Segment>
    requires forall k :: k in keys ==> k in data
  {
    if keys == [] then segs
    else
      var n := |keys| - 1;
      FillHoles(FillKeys(segs, data, keys[..n]), keys[n], Text(data[keys[n]]))
  }

  ghost predicate PlainData(data: Data) {
    forall k :: k in data ==> Braceless(k) && Unopened(Text(data[k]))
  }

  /** Filling key after key: each segment ends as its own key says, whatever the order. */
  lemma {:induction false} FillIsFillKeys(segs: seq<Segment>, data: Data, keys: seq<string>)
    requires Plain(segs) && PlainData(data) && forall k :: k in keys ==> k in data
    ensures Fill(Flat(segs), data, keys) == Flat(FillKeys(segs, data, keys))
    ensures Plain(FillKeys(segs, data, keys)) && |FillKeys(segs, data, keys)| == |segs|
    ensures forall i :: 0 <= i < |segs| ==>
      FillKeys(segs, data, keys)[i] == if segs[i].Hole? && segs[i].name in keys then Literal(Text(data[segs[i].name])) else segs[i]
  {
    if keys != [] {
      var n := |keys| - 1;
      FillIsFillKeys(segs, data, keys[..n]);
      var m := FillKeys(segs, data, keys[..n]);
      assert keys[n] in keys;
      ReplaceFillsHoles(m, keys[n], Text(data[keys[n]]));
      FillKeepsPlain(m, keys[n], Text(data[keys[n]]));
      assert forall k :: k in keys <==> k in keys[..n] || k == keys[n];
    }
  }

  /** What a segment has become once every key is filled. */
  function Settled(seg: Segment, name: string, data: Data): Segment {
    if seg.Literal? then seg
    else if seg.name == "nama" || seg.name in data then Literal(Value(seg.name, name, data))
    else seg
  }

  lemma {:induction false} LiteralsAreRender(segs: seq<Segment>, done: seq<Segment>, name: string, data: Data)
    requires |done| == |segs|
    requires forall i :: 0 <= i < |segs| ==> done[i] == Settled(segs[i], name, data)
    ensures Literals(done) == Render(segs, name, data)
  {
    if segs != [] {
      LiteralsAreRender(segs[1..], done[1..], name, data);
    }
  }

  /**
   * Rendering refinement: for a template of one-line, brace-free holes between literals
   * without `{`, with brace-free keys, no `{` in values and name and no `$` in the name, `parse` is the trimmed
   * one-pass render.
   */
  lemma ParseRenders(contents: seq<Content>, segs: seq<Segment>, data: Data, name: string, keys: seq<string>)
    requires contents != [] && FullText(contents) == Flat(segs) && Plain(segs)
    requires PlainData(data) && Unopened(name) && '$' !in name
    requires Elems(keys) == data.Keys && forall k :: k in keys ==> k in data
    ensures Parsed(contents, data, name, keys) == Trim(Render(segs, name, data))
  {
    NameIsReplaced("", Flat(segs), name);
    var done := Complete(segs, data, name, keys);
    StripLeavesLiterals(done);
    LiteralsAreRender(segs, done, name, data);
  }

  lemma Complete(segs: seq<Segment>, data: Data, name: string, keys: seq<string>) returns (done: seq<Segment>)
    requires Plain(segs) && PlainData(data) && Unopened(name)
    requires Elems(keys) == data.Keys && forall k :: k in keys ==> k in data
    ensures Plain(done) && |done| == |segs|
    ensures Fill(ReplaceAll(Flat(segs), NAME_HOLE, name), data, keys) == Flat(done)
    ensures forall i :: 0 <= i < |segs| ==> done[i] == Settled(segs[i], name, data)
  {
    hide ReplaceAll, Flat, StartsWith, Plain, Braceless, Unopened, FillKeys, FillHoles, Fill;
    assert NAME_HOLE == Placeholder("nama");
    NamaIsBraceless();
    ReplaceFillsHoles(segs, "nama", name);
    FillKeepsPlain(segs, "nama", name);
    var named := FillHoles(segs, "nama", name);
    FillIsFillKeys(named, data, keys);
    done := FillKeys(named, data, keys);
    assert forall k :: k in keys <==> k in Elems(keys);
  }

  lemma NamaIsBraceless()
    ensures Braceless("nama")
  {
  }

  // ---------- names with replacement patterns ----------

  function PatternLength(r: string): (n: nat)
    ensures n == 1 || n == 2
  {
    if |r| > 1 && r[0] == '$' && (r[1] == '$' || r[1] == '&' || r[1] == '`' || r[1] == '\'') then 2 else 1
  }

  /** What the first character or pattern of a name puts into the template. */
  function Piece(r: string, before: seq<Segment>, after: seq<Segment>): seq<Segment>
    requires r != []
  {
    if PatternLength(r) == 1 then [Literal([r[0]])]
    else if r[1] == '$' then [Literal("$")]
    else if r[1] == '&' then [Hole("nama")]
    else if r[1] == '`' then before
    else after
  }

  /** A name with its patterns expanded: pieces of the template around the hole. */
  function Pieces(r: string, before: seq<Segment>, after: seq<Segment>): seq<Segment> {
    if r == [] then [] else Piece(r, before, after) + Pieces(r[PatternLength(r)..], before, after)
  }

  function Named(done: seq<Segment>, segs: seq<Segment>, name: string): seq<Segment>
    decreases |segs|
  {
    if segs == [] then []
    else
      (if segs[0] == Hole("nama") then Pieces(name, done, segs[1..]) else [segs[0]]) + Named(done + [segs[0]], segs[1..], name)
  }

  lemma {:induction false} FlatAppend(a: seq<Segment>, b: seq<Segment>)
    ensures Flat(a + b) == Flat(a) + Flat(b)
  {
    hide Shown;
    if a == [] {
      assert a + b == b;
    } else {
      FlatAppend(a[1..], b);
      assert (a + b)[0] == a[0] && (a + b)[1..] == a[1..] + b;
      assert Flat(a + b) == Shown(a[0]) + (Flat(a[1..]) + Flat(b));
    }
  }

  lemma PlainAppend(a: seq<Segment>, b: seq<Segment>)
    requires Plain(a) && Plain(b)
    ensures Plain(a + b)
  {
    hide Braceless, Unopened, OneLine;
  }

  lemma FlatOne(seg: Segment)
    ensures Flat([seg]) == Shown(seg)
  {
    assert [seg][1..] == [];
  }

  lemma PieceIs(r: string, before: seq<Segment>, after: seq<Segment>)
    requires r != [] && Unopened(r) && Plain(before) && Plain(after)
    ensures Plain(Piece(r, before, after)) && PatternLength(r) <= |r|
    ensures Expand(r, Flat(before), Flat(after)) ==
      Flat(Piece(r, before, after)) + Expand(r[PatternLength(r)..], Flat(before), Flat(after))
  {
    hide Flat, Plain, OneLine;
    OnePlain(Literal([r[0]]));
    OnePlain(Literal("$"));
    OnePlain(Hole("nama"));
    FlatOne(Literal([r[0]]));
    FlatOne(Literal("$"));
    FlatOne(Hole("nama"));
    assert Shown(Hole("nama")) == NAME_HOLE;
  }

  lemma {:induction false} ExpandIsPieces(r: string, before: seq<Segment>, after: seq<Segment>)
    requires Unopened(r) && Plain(before) && Plain(after)
    ensures Expand(r, Flat(before), Flat(after)) == Flat(Pieces(r, before, after)) && Plain(Pieces(r, before, after))
    decreases |r|
  {
    hide Flat, Plain, Piece, Expand, PatternLength;
    NothingPlain();
    if r == [] {
      NothingExpands(Flat(before), Flat(after));
    } else {
      PieceIs(r, before, after);
      var rest := r[PatternLength(r)..];
      ExpandIsPieces(rest, before, after);
      FlatAppend(Piece(r, before, after), Pieces(rest, before, after));
      PlainAppend(Piece(r, before, after), Pieces(rest, before, after));
    }
  }

  lemma NothingExpands(before: string, after: string)
    ensures Expand([], before, after) == []
  {
  }

  lemma NothingPlain()
    ensures Plain([]) && Flat([]) == []
  {
  }

  lemma OnePlain(seg: Segment)
    requires seg == Hole("nama") || (seg.Literal? && Unopened(seg.text))
    ensures Plain([seg])
  {
  }

  lemma {:induction false} NamePassesOver(before: string, a: string, rest: string, name: string)
    requires '{' !in a
    ensures ReplaceName(before, a + rest, name) == a + ReplaceName(before + a, rest, name)
    decreases |a|
  {
    if a == [] {
      assert a + rest == rest && before + a == before;
    } else {
      assert (a + rest)[0] == a[0] && (a + rest)[1..] == a[1..] + rest;
      Mismatch(a + rest, NAME_HOLE, 0);
      NamePassesOver(before + [a[0]], a[1..], rest, name);
      assert before + [a[0]] + a[1..] == before + a;
    }
  }

  lemma NameStepOver(before: string, t: string, name: string)
    requires t != [] && !StartsWith(t, NAME_HOLE)
    ensures ReplaceName(before, t, name) == [t[0]] + ReplaceName(before + [t[0]], t[1..], name)
  {
  }

  lemma NameAtHole(before: string, h: string, rest: string, name: string)
    requires Braceless(h)
    ensures ReplaceName(before, Placeholder(h) + rest, name) ==
      (if h == "nama" then Expand(name, before, rest) else Placeholder(h)) + ReplaceName(before + Placeholder(h), rest, name)
  {
    if h == "nama" {
      var t := Placeholder(h) + rest;
      assert Placeholder("nama") == NAME_HOLE;
      assert t[..|NAME_HOLE|] == NAME_HOLE && t[|NAME_HOLE|..] == rest;
    } else {
      NameAtOther(before, h, rest, name);
    }
  }

  lemma NameAtOther(before: string, h: string, rest: string, name: string)
    requires Braceless(h) && h != "nama"
    ensures ReplaceName(before, Placeholder(h) + rest, name) == Placeholder(h) + ReplaceName(before + Placeholder(h), rest, name)
  {
    hide ReplaceName, StartsWith;
    var t := Placeholder(h) + rest;
    assert Placeholder("nama") == NAME_HOLE;
    NamaIsBraceless();
    OtherName(h, "nama", rest);
    NameStepOver(before, t, name);
    var tail := h + "}}";
    var u := t[1..];
    assert u == "{" + (tail + rest);
    assert u[1] == (tail + rest)[0];
    assert h != [] ==> h[0] in h;
    Mismatch(u, NAME_HOLE, 1);
    NameStepOver(before + ['{'], u, name);
    assert u[1..] == tail + rest && '{' !in tail;
    NamePassesOver(before + ['{'] + ['{'], tail, rest, name);
    assert before + ['{'] + ['{'] + tail == before + Placeholder(h);
    assert ['{'] + (['{'] + tail) == Placeholder(h);
  }

  /** With any name without `{` the text is again literals without `{` and one-line holes. */
  lemma {:induction false} NameStaysPlain(done: seq<Segment>, segs: seq<Segment>, name: string)
    requires Plain(done) && Plain(segs) && Unopened(name)
    ensures ReplaceName(Flat(done), Flat(segs), name) == Flat(Named(done, segs, name)) && Plain(Named(done, segs, name))
    decreases |segs|
  {
    if segs != [] {
      var head, rest := segs[0], segs[1..];
      HeadAndRest(done, segs);
      NameStaysPlain(done + [head], rest, name);
      NameAtHead(done, head, rest, name);
      ExpandIsPieces(name, done, rest);
      var first := if head == Hole("nama") then Pieces(name, done, rest) else [head];
      FlatOne(head);
      FlatAppend(first, Named(done + [head], rest, name));
      PlainAppend(first, Named(done + [head], rest, name));
    }
  }

  lemma HeadAndRest(done: seq<Segment>, segs: seq<Segment>)
    requires Plain(done) && Plain(segs) && segs != []
    ensures Plain([segs[0]]) && Plain(segs[1..]) && Plain(done + [segs[0]])
    ensures Flat(segs) == Shown(segs[0]) + Flat(segs[1..]) && Flat(done + [segs[0]]) == Flat(done) + Shown(segs[0])
  {
    FlatAppend(done, [segs[0]]);
    FlatOne(segs[0]);
  }

  lemma NameAtHead(done: seq<Segment>, head: Segment, rest: seq<Segment>, name: string)
    requires Plain([head])
    ensures ReplaceName(Flat(done), Shown(head) + Flat(rest), name) ==
      (if head == Hole("nama") then Expand(name, Flat(done), Flat(rest)) else Shown(head)) +
      ReplaceName(Flat(done) + Shown(head), Flat(rest), name)
  {
    assert [head][0] == head;
    match head {
      case Literal(text) => NamePassesOver(Flat(done), text, Flat(rest), name);
      case Hole(h) => NameAtHole(Flat(done), h, Flat(rest), name);
    }
  }

  /** A hole shows its data, or nothing. */
  function RenderData(segs: seq<Segment>, data: Data): string {
    if segs == [] then []
    else
      (if segs[0].Literal? then segs[0].text else if segs[0].name in data then Text(data[segs[0].name]) else "")
      + RenderData(segs[1..], data)
  }

  lemma {:induction false} LiteralsAreData(segs: seq<Segment>, done: seq<Segment>, data: Data)
    requires |done| == |segs|
    requires forall i :: 0 <= i < |segs| ==>
      done[i] == if segs[i].Hole? && segs[i].name in data then Literal(Text(data[segs[i].name])) else segs[i]
    ensures Literals(done) == RenderData(segs, data)
  {
    if segs != [] {
      LiteralsAreData(segs[1..], done[1..], data);
    }
  }

  /**
   * The same for any name without `{`: `parse` is the trimmed one-pass render of the template whose
   * name holes hold the name, its `$` patterns replaced by the parts of the template they stand for.
   */
  lemma ParseRendersAny(contents: seq<Content>, segs: seq<Segment>, data: Data, name: string, keys: seq<string>)
    requires contents != [] && FullText(contents) == Flat(segs) && Plain(segs)
    requires PlainData(data) && Unopened(name)
    requires Elems(keys) == data.Keys && forall k :: k in keys ==> k in data
    ensures Parsed(contents, data, name, keys) == Trim(RenderData(Named([], segs, name), data))
  {
    hide Flat, Plain, ReplaceName, Fill, FillKeys, Strip, Trim, FullText, PlainData, Named, Unopened;
    NothingPlain();
    var named := Named([], segs, name);
    NameStaysPlain([], segs, name);
    FillIsFillKeys(named, data, keys);
    var done := FillKeys(named, data, keys);
    assert forall k :: k in keys <==> k in Elems(keys);
    LiteralsAreData(named, done, data);
    StripLeavesLiterals(done);
  }

  /**
   * So the order in which the keys are listed does not matter, even when `$` patterns in the name
   * copy parts of the template.
   */
  lemma OrderDoesNotMatter(contents: seq<Content>, segs: seq<Segment>, data: Data, name: string, a: seq<string>, b: seq<string>)
    requires FullText(contents) == Flat(segs) && Plain(segs)
    requires PlainData(data) && Unopened(name)
    requires Elems(a) == Elems(b) == data.Keys
    requires forall k :: k in a || k in b ==> k in data
    ensures Parsed(contents, data, name, a) == Parsed(contents, data, name, b)
  {
    hide Flat, Plain, FullText, PlainData, Unopened, Fill, Strip, Trim, ReplaceName;
    if contents != [] {
      ParseRendersAny(contents, segs, data, name, a);
      ParseRendersAny(contents, segs, data, name, b);
    }
  }

  /** With a placeholder inside a value the order of the keys does show. */
  lemma OrderCanMatter()
    ensures
      var contents, data := [Content(None, "{{a}}")], map["a" := Some("{{b}}"), "b" := Some("x")];
      Parsed(contents, data, "", ["a", "b"]) == "x" && Parsed(contents, data, "", ["b", "a"]) == ""
  {
    hide ReplaceAll, ReplaceName, Strip, Fill, FullText;
    var c := Content(None, "{{a}}");
    var data: Data := map["a" := Some("{{b}}"), "b" := Some("x")];
    FullTextOfOne(c);
    NameIsReplaced("", "{{a}}", "");
    assert Placeholder("a") == "{{a}}" && Placeholder("b") == "{{b}}" && Placeholder("nama") == NAME_HOLE;
    ReplaceOne("a", "nama", "");
    ReplaceOne("a", "a", "{{b}}");
    ReplaceOne("b", "b", "x");
    ReplaceOne("a", "b", "x");
    FillTwo("{{a}}", data, "a", "b");
    FillTwo("{{a}}", data, "b", "a");
    StripPassesOver("x", "");
    StripAtHole("b", "");
    assert "x" + "" == "x" && Placeholder("b") + "" == "{{b}}";
    StripEmpty();
  }

  lemma FullTextOfOne(c: Content)
    ensures FullText([c]) == c.text
  {
    var e: seq<Content> := [];
    assert [c][..0] == e && Join(e) == "";
    assert StableSort([c], Ranks([c])) == [c];
    assert Join([c]) == c.text;
  }

  lemma StripEmpty()
    ensures Strip("") == ""
  {
  }

  lemma FillTwo(t: string, data: Data, j: string, k: string)
    requires j in data && k in data
    ensures Fill(t, data, [j, k]) == ReplaceAll(ReplaceAll(t, Placeholder(j), Text(data[j])), Placeholder(k), Text(data[k]))
  {
    var e: seq<string> := [];
    assert [j, k][..1] == [j] && [j][..0] == e && Fill(t, data, e) == t;
    assert Fill(t, data, [j]) == ReplaceAll(t, Placeholder(j), Text(data[j]));
  }

  lemma ReplaceOne(h: string, k: string, v: string)
    requires Braceless(h) && Braceless(k)
    ensures ReplaceAll(Placeholder(h), Placeholder(k), v) == if h == k then v else Placeholder(h)
  {
    ReplaceAtHole(h, k, v, "");
    assert Placeholder(h) + "" == Placeholder(h) && v + "" == v;
  }
}
