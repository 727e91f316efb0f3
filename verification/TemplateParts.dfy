// The notification renderer part by part: the order of the parts, and what each one shows.
module TemplateParts {
  import opened Wrappers
  import opened Ordered
  import opened Template

  // ---------- the order of the parts ----------

  /** A part's place; a missing sort order counts as 0. */
  function PlaceOf(c: Content): int {
    match c.sortOrder case Some(n) => n case None => 0
  }

  function OfPlace(contents: seq<Content>, n: int): seq<Content> {
    if contents == [] then []
    else
      var last := contents[|contents| - 1];
      OfPlace(contents[..|contents| - 1], n) + if PlaceOf(last) == n then [last] else []
  }

  function Texts(parts: seq<Content>): string {
    if parts == [] then "" else parts[0].text + Texts(parts[1..])
  }

  /** The same parts, by ascending sort order, and in the order given where that is equal. */
  ghost predicate InPlace(contents: seq<Content>, parts: seq<Content>) {
    && multiset(parts) == multiset(contents)
    && (forall i, j :: 0 <= i < j < |parts| ==> PlaceOf(parts[i]) <= PlaceOf(parts[j]))
    && (forall n :: OfPlace(parts, n) == OfPlace(contents, n))
  }

  lemma {:induction false} OfPlaceIsRestrict(contents: seq<Content>, n: int, same: set<Content>)
    requires forall c :: c in contents ==> (c in same <==> PlaceOf(c) == n)
    ensures OfPlace(contents, n) == Restrict(contents, same)
  {
    if contents != [] {
      OfPlaceIsRestrict(contents[..|contents| - 1], n, same);
    }
  }

  lemma {:induction false} JoinIsTexts(parts: seq<Content>)
    ensures Join(parts) == Texts(parts)
  {
    if parts != [] {
      var n := |parts| - 1;
      JoinIsTexts(parts[..n]);
      TextsSnoc(parts[..n], parts[n]);
      assert parts == parts[..n] + [parts[n]];
    }
  }

  lemma {:induction false} TextsSnoc(parts: seq<Content>, c: Content)
    ensures Texts(parts + [c]) == Texts(parts) + c.text
  {
    if parts == [] {
      var none: seq<Content> := [];
      assert parts + [c] == [c] && [c][1..] == none && Texts(none) == "";
    } else {
      TextsSnoc(parts[1..], c);
      assert (parts + [c])[1..] == parts[1..] + [c];
    }
  }

  /** The template's text is that of its parts in their places. */
  lemma FullTextInPlace(contents: seq<Content>) returns (parts: seq<Content>)
    ensures InPlace(contents, parts) && FullText(contents) == Texts(parts)
  {
    hide StableSort, Join, Texts, OfPlace;
    var ranks := Ranks(contents);
    parts := StableSort(contents, ranks);
    JoinIsTexts(parts);
    StableSortSorts(contents, ranks);
    SortMembers(contents, ranks);
    forall i, j | 0 <= i < j < |parts| ensures PlaceOf(parts[i]) <= PlaceOf(parts[j]) {
      assert parts[i] in parts && parts[j] in parts;
      assert AtMost(ranks[parts[i]], ranks[parts[j]]);
    }
    forall n ensures OfPlace(parts, n) == OfPlace(contents, n) {
      var same := set c | c in contents && ranks[c] == Rank(0, n);
      StableSortIsStable(contents, ranks, Rank(0, n));
      OfPlaceIsRestrict(contents, n, same);
      OfPlaceIsRestrict(parts, n, same);
    }
  }

  // ---------- the render, part by part ----------

  /** What a hole shows: the name first, then the metadata, then the context, otherwise nothing; a null value shows nothing. */
  function Show(hole: string, name: string, context: Data, metadata: Option<Data>): string {
    if hole == "nama" then name
    else if metadata.Some? && hole in metadata.value then
      match metadata.value[hole] case Some(v) => v case None => ""
    else if hole in context then
      match context[hole] case Some(v) => v case None => ""
    else ""
  }

  function ShowSegment(seg: Segment, name: string, context: Data, metadata: Option<Data>): string {
    match seg case Literal(text) => text case Hole(hole) => Show(hole, name, context, metadata)
  }

  function RenderPart(segs: seq<Segment>, name: string, context: Data, metadata: Option<Data>): string {
    if segs == [] then ""
    else ShowSegment(segs[0], name, context, metadata) + RenderPart(segs[1..], name, context, metadata)
  }

  type Lists = map<Content, seq<Segment>>

  function RenderParts(parts: seq<Content>, pieces: Lists, name: string, context: Data, metadata: Option<Data>): string
    requires forall c :: c in parts ==> c in pieces
  {
    if parts == [] then ""
    else RenderPart(pieces[parts[0]], name, context, metadata) + RenderParts(parts[1..], pieces, name, context, metadata)
  }

  function AllSegments(parts: seq<Content>, pieces: Lists): seq<Segment>
    requires forall c :: c in parts ==> c in pieces
  {
    if parts == [] then [] else pieces[parts[0]] + AllSegments(parts[1..], pieces)
  }

  lemma {:induction false} AllSegmentsFlat(parts: seq<Content>, pieces: Lists)
    requires forall c :: c in parts ==> c in pieces && c.text == Flat(pieces[c]) && Plain(pieces[c])
    ensures Flat(AllSegments(parts, pieces)) == Texts(parts) && Plain(AllSegments(parts, pieces))
  {
    hide Flat, Plain;
    NothingPlain();
    if parts != [] {
      AllSegmentsFlat(parts[1..], pieces);
      FlatAppend(pieces[parts[0]], AllSegments(parts[1..], pieces));
      PlainAppend(pieces[parts[0]], AllSegments(parts[1..], pieces));
    }
  }

  lemma {:induction false} RenderIsPart(segs: seq<Segment>, name: string, context: Data, metadata: Option<Data>)
    ensures Render(segs, name, AllData(context, metadata)) == RenderPart(segs, name, context, metadata)
  {
    if segs != [] {
      RenderIsPart(segs[1..], name, context, metadata);
    }
  }

  lemma {:induction false} RenderPartAppend(a: seq<Segment>, b: seq<Segment>, name: string, context: Data, metadata: Option<Data>)
    ensures RenderPart(a + b, name, context, metadata) == RenderPart(a, name, context, metadata) + RenderPart(b, name, context, metadata)
  {
    hide RenderPart, ShowSegment;
    if a == [] {
      NothingRendered(name, context, metadata);
      assert a + b == b;
    } else {
      var head, rest := a[0], a[1..];
      assert a == [head] + rest && a + b == [head] + (rest + b);
      RenderPartAppend(rest, b, name, context, metadata);
      RenderPartCons(head, rest, name, context, metadata);
      RenderPartCons(head, rest + b, name, context, metadata);
      Associate(ShowSegment(head, name, context, metadata), RenderPart(rest, name, context, metadata), RenderPart(b, name, context, metadata));
    }
  }

  lemma RenderPartCons(head: Segment, rest: seq<Segment>, name: string, context: Data, metadata: Option<Data>)
    ensures RenderPart([head] + rest, name, context, metadata) ==
      ShowSegment(head, name, context, metadata) + RenderPart(rest, name, context, metadata)
  {
    hide ShowSegment;
    assert ([head] + rest)[1..] == rest;
  }

  lemma Associate(a: string, b: string, c: string)
    ensures a + (b + c) == (a + b) + c
  {
  }

  lemma {:induction false} RenderPartsIs(parts: seq<Content>, pieces: Lists, name: string, context: Data, metadata: Option<Data>)
    requires forall c :: c in parts ==> c in pieces
    ensures RenderPart(AllSegments(parts, pieces), name, context, metadata) == RenderParts(parts, pieces, name, context, metadata)
  {
    hide RenderPart;
    if parts == [] {
      NothingRendered(name, context, metadata);
    } else {
      RenderPartsIs(parts[1..], pieces, name, context, metadata);
      RenderPartAppend(pieces[parts[0]], AllSegments(parts[1..], pieces), name, context, metadata);
    }
  }

  lemma NothingRendered(name: string, context: Data, metadata: Option<Data>)
    ensures RenderPart([], name, context, metadata) == ""
  {
  }

  lemma AllDataPlain(context: Data, metadata: Option<Data>)
    requires PlainData(context) && (metadata.Some? ==> PlainData(metadata.value))
    ensures PlainData(AllData(context, metadata))
  {
  }

  /**
   * Rendering refinement, said of the inputs of `parse`: when each part is literals without `{` and
   * one-line, brace-free holes, the result is the trimmed concatenation of the rendered parts, by
   * ascending sort order and in the order given where that is equal.
   */
  lemma PartsAreRendered(contents: seq<Content>, pieces: Lists, context: Data, name: string, metadata: Option<Data>,
      keys: seq<string>) returns (parts: seq<Content>)
    requires forall c :: c in contents ==> c in pieces && c.text == Flat(pieces[c]) && Plain(pieces[c])
    requires PlainData(context) && (metadata.Some? ==> PlainData(metadata.value))
    requires Unopened(name) && '$' !in name
    requires Elems(keys) == AllData(context, metadata).Keys && forall k :: k in keys ==> k in AllData(context, metadata)
    ensures InPlace(contents, parts) && forall c :: c in parts ==> c in pieces
    ensures Rendered(contents, context, name, metadata, keys) == Trim(RenderParts(parts, pieces, name, context, metadata))
  {
    hide Flat, Plain, PlainData, Unopened, Parsed, FullText, Texts, Trim, RenderPart, Render, Show, AllData, OfPlace;
    parts := FullTextInPlace(contents);
    forall c | c in parts ensures c in contents {
      assert c in multiset(parts);
    }
    AllDataPlain(context, metadata);
    RenderIsPart(AllSegments(parts, pieces), name, context, metadata);
    RenderPartsIs(parts, pieces, name, context, metadata);
    AllSegmentsFlat(parts, pieces);
    if contents == [] {
      NothingIn(parts);
      NothingParsed(AllData(context, metadata), name, keys);
    } else {
      ParseRenders(contents, AllSegments(parts, pieces), AllData(context, metadata), name, keys);
    }
  }

  lemma NothingIn(parts: seq<Content>)
    requires |multiset(parts)| == 0
    ensures parts == []
  {
    assert |multiset(parts)| == |parts|;
  }

  lemma NothingParsed(data: Data, name: string, keys: seq<string>)
    requires forall k :: k in keys ==> k in data
    ensures Parsed([], data, name, keys) == "" && Trim("") == ""
  {
  }

  // ---------- trimming ----------

  ghost predicate AllSpace(t: string) {
    forall i :: 0 <= i < |t| ==> Space(t[i])
  }

  lemma {:induction false} TrimStartTakes(t: string) returns (a: string)
    ensures t == a + TrimStart(t) && AllSpace(a)
    ensures TrimStart(t) == "" || !Space(TrimStart(t)[0])
  {
    if t != [] && Space(t[0]) {
      var b := TrimStartTakes(t[1..]);
      a := [t[0]] + b;
    } else {
      a := [];
    }
  }

  lemma TrimEndStep(t: string)
    ensures TrimEnd(t) == if t != [] && Space(t[|t| - 1]) then TrimEnd(t[..|t| - 1]) else t
  {
  }

  lemma {:induction false} TrimEndTakes(t: string) returns (b: string)
    ensures t == TrimEnd(t) + b && AllSpace(b)
    ensures TrimEnd(t) == "" || !Space(TrimEnd(t)[|TrimEnd(t)| - 1])
  {
    hide TrimEnd, Space;
    TrimEndStep(t);
    if t != [] && Space(t[|t| - 1]) {
      var front, last := t[..|t| - 1], t[|t| - 1];
      var a := TrimEndTakes(front);
      b := a + [last];
      assert t == front + [last];
      assert TrimEnd(t) + (a + [last]) == (TrimEnd(t) + a) + [last];
    } else {
      b := [];
    }
  }

  lemma TrimEndStarts(t: string)
    ensures TrimEnd(t) <= t
  {
    var b := TrimEndTakes(t);
  }

  /** Trimming takes the white space off both ends, all of it and nothing else. */
  lemma TrimTakesSpace(t: string) returns (a: string, b: string)
    ensures t == a + Trim(t) + b && AllSpace(a) && AllSpace(b)
    ensures Trim(t) == "" || (!Space(Trim(t)[0]) && !Space(Trim(t)[|Trim(t)| - 1]))
  {
    a := TrimStartTakes(t);
    b := TrimEndTakes(TrimStart(t));
    TrimEndStarts(TrimStart(t));
    assert Trim(t) != "" ==> Trim(t)[0] == TrimStart(t)[0];
    assert t == a + (Trim(t) + b);
  }
}
