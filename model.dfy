/**
 * The catalog's data records and the logic defined on them: the search
 * query builders, the parent-label filter, the Discogs id lookup and the
 * display form of a release group. Only the fields those functions read
 * are kept; everything else in the JSON shapes is payload.
 */
module Model {
  import opened Wrappers
  import opened Text

  // ---------------------------------------------------------------------
  // Records
  // ---------------------------------------------------------------------

  datatype RelationDetail = RelationDetail(id: string, name: string, typeName: string, resource: string)

  datatype Relation = Relation(
    labelDetail: RelationDetail,
    url: RelationDetail,
    targetType: string,
    relType: string,
    direction: string)

  datatype Label = Label(id: string, name: string, relations: seq<Relation>)

  datatype Artist = Artist(id: string, name: string)

  datatype ArtistCredit = ArtistCredit(name: string, joinPhrase: string, artist: Artist)

  datatype ReleaseGroup = ReleaseGroup(
    id: string,
    title: string,
    firstReleaseDate: string,
    artistCredit: seq<ArtistCredit>)

  datatype Release = Release(id: string, title: string, releaseGroup: ReleaseGroup, relations: seq<Relation>)

  /** The three entity kinds a client can fetch by id. */
  datatype Kind = ArtistKind | ReleaseKind | ReleaseGroupKind

  /** The payload of a record: one entity of one of the three kinds. */
  datatype Payload = ArtistData(artist: Artist) | ReleaseData(release: Release) | ReleaseGroupData(group: ReleaseGroup)
  {
    function KindOf(): Kind {
      match this
      case ArtistData(_) => ArtistKind
      case ReleaseData(_) => ReleaseKind
      case ReleaseGroupData(_) => ReleaseGroupKind
    }
  }

  /** The zero value of the Go type that holds an entity of `kind`. */
  function Zero(kind: Kind): (p: Payload)
    ensures p.KindOf() == kind
  {
    match kind
    case ArtistKind => ArtistData(Artist("", ""))
    case ReleaseKind => ReleaseData(Release("", "", ReleaseGroup("", "", "", []), []))
    case ReleaseGroupKind => ReleaseGroupData(ReleaseGroup("", "", "", []))
  }

  /** An instant; the clock is never read inside the model, it is passed in. */
  type Time = int

  const ZeroTime: Time := 0

  /** Record[T]: a payload with the instant it was fetched. */
  datatype Record = Record(date: Time, data: Payload)

  function ZeroRecord(kind: Kind): (r: Record)
    ensures r.data.KindOf() == kind
  {
    Record(ZeroTime, Zero(kind))
  }

  // ---------------------------------------------------------------------
  // One query term: field:"value", with quotes in the value escaped
  // ---------------------------------------------------------------------

  /** strings.ReplaceAll(v, `"`, `\"`): every quote gets a backslash; nothing else changes. */
  function Escape(v: string): string
    decreases |v|
  {
    if v == [] then []
    else (if v[0] == '"' then ['\\', '"'] else [v[0]]) + Escape(v[1..])
  }

  /** The value is unchanged exactly when it holds no quote; otherwise it grows. */
  lemma {:induction false} EscapeChangesOnlyQuotes(v: string)
    ensures |Escape(v)| >= |v|
    ensures '"' !in v <==> Escape(v) == v
    decreases |v|
  {
    if v != [] {
      EscapeChangesOnlyQuotes(v[1..]);
      assert v == [v[0]] + v[1..];
      if v[0] != '"' {
        assert '"' in v <==> '"' in v[1..];
      }
    }
  }

  /** Reads an escaped value back: each `\"` becomes `"`, everything else is kept. */
  function Unescape(s: string): string
    decreases |s|
  {
    if |s| >= 2 && s[0] == '\\' && s[1] == '"' then ['"'] + Unescape(s[2..])
    else if s == [] then []
    else [s[0]] + Unescape(s[1..])
  }

  /** An escaped value never starts with a bare quote. */
  lemma EscapeHead(w: string)
    ensures Escape(w) == [] || Escape(w)[0] != '"'
  {
    if w != [] {
      assert Escape(w) == (if w[0] == '"' then ['\\', '"'] else [w[0]]) + Escape(w[1..]);
    }
  }

  /** Escaping loses nothing: the value can always be read back. */
  lemma {:induction false} UnescapeEscape(v: string)
    ensures Unescape(Escape(v)) == v
    decreases |v|
  {
    if v != [] {
      var rest := Escape(v[1..]);
      UnescapeEscape(v[1..]);
      if v[0] == '"' {
        assert Escape(v) == ['\\', '"'] + rest;
        assert Escape(v)[2..] == rest;
      } else {
        assert Escape(v) == [v[0]] + rest;
        assert Escape(v)[1..] == rest;
        EscapeHead(v[1..]);
      }
      assert v == [v[0]] + v[1..];
    }
  }

  /**
   * Every quote in an escaped value is preceded by a backslash. Backslashes
   * themselves are not escaped, so this alone does not keep the phrase
   * closed: see TrailingBackslash and EscapedBackslashThenQuote.
   */
  lemma {:induction false} EscapedQuotes(v: string)
    ensures forall i :: 0 <= i < |Escape(v)| && Escape(v)[i] == '"' ==> 0 < i && Escape(v)[i - 1] == '\\'
    decreases |v|
  {
    if v != [] {
      EscapedQuotes(v[1..]);
      EscapeHead(v[1..]);
      var head := if v[0] == '"' then ['\\', '"'] else [v[0]];
      var rest := Escape(v[1..]);
      assert Escape(v) == head + rest;
      forall i | 0 <= i < |Escape(v)| && Escape(v)[i] == '"'
        ensures 0 < i && Escape(v)[i - 1] == '\\'
      {
        if i >= |head| {
          assert rest[i - |head|] == '"';
        }
      }
    }
  }

  /** A backslash in the value is copied as it is; only quotes are escaped. */
  lemma EscapeKeepsBackslash()
    ensures Escape("a\\b") == "a\\b"
    ensures Escape("\\\"") == "\\\\\""
  {
    assert '"' !in "a\\b";
    assert Escape("\"") == "\\\"";
    assert "\\\""[1..] == "\"";
  }

  /** queryPart: `field:"value"` with the quotes of the value escaped. */
  function QueryPart(field: string, value: string): string {
    field + ":\"" + Escape(value) + "\""
  }

  /**
   * A value ending in a backslash leaves the closing quote of the term
   * preceded by a backslash, which a Lucene parser reads as an escaped
   * quote: the phrase does not close where the term ends.
   */
  lemma TrailingBackslash()
    ensures QueryPart("release", "a\\") == "release:\"a\\\""
    ensures var r := QueryPart("release", "a\\"); r[|r| - 2] == '\\' && r[|r| - 1] == '"'
  {
    assert Escape("\\") == "\\";
    assert Escape("a\\") == "a\\";
  }

  /**
   * A backslash before a quote in the value is kept, the quote gets its
   * own backslash, and the result holds `\\` followed by a quote: a Lucene
   * parser reads an escaped backslash and then a bare quote that ends the
   * phrase early.
   */
  lemma EscapedBackslashThenQuote()
    ensures QueryPart("release", "\\\"x") == "release:\"\\\\\"x\""
    ensures var r := QueryPart("release", "\\\"x"); r[9..12] == ['\\', '\\', '"']
  {
    assert Escape("x") == "x";
    assert Escape("\"x") == "\\\"x";
    assert Escape("\\\"x") == "\\\\\"x";
  }

  /**
   * A term is the field, a colon, an opening quote, the escaped value and
   * a closing quote; the text between the quotes reads back as the value,
   * and a value without quotes is copied verbatim.
   */
  lemma QueryPartReadBack(field: string, value: string)
    ensures var r := QueryPart(field, value);
      && |r| >= |field| + 3
      && r[..|field| + 2] == field + ":\""
      && r[|r| - 1] == '"'
      && Unescape(r[|field| + 2..|r| - 1]) == value
    ensures '"' !in value ==> QueryPart(field, value) == field + ":\"" + value + "\""
  {
    UnescapeEscape(value);
    EscapeChangesOnlyQuotes(value);
    var r := QueryPart(field, value);
    assert r[|field| + 2..|r| - 1] == Escape(value);
  }

  // ---------------------------------------------------------------------
  // Search queries
  // ---------------------------------------------------------------------

  datatype SearchReleaseGroupRequest = SearchReleaseGroupRequest(
    raw: string,
    artistName: string,
    releaseName: string,
    firstReleaseDate: string,
    reid: string,
    rgid: string)

  datatype SearchReleaseRequest = SearchReleaseRequest(
    raw: string,
    artistName: string,
    releaseName: string,
    releaseDate: string,
    format: string,
    catalogNumber: string,
    tracks: int,
    reid: string,
    rgid: string)

  /** The search fields the builders use. */
  const ArtistNameField: string := "artistname"
  const ReleaseField: string := "release"
  const DateField: string := "date"
  const FormatField: string := "format"
  const CatalogNumberField: string := "catno"
  const TracksField: string := "tracks"
  const FirstReleaseDateField: string := "firstreleasedate"
  const ReidField: string := "reid"
  const RgidField: string := "rgid"

  /** A term of the OR group: a field, its value, and whether it is fuzzy (`~`). */
  datatype Term = Term(field: string, value: string, fuzzy: bool)

  function Render(t: Term): string {
    if t.fuzzy then QueryPart(t.field, t.value) + "~" else QueryPart(t.field, t.value)
  }

  function RenderAll(ts: seq<Term>): seq<string>
    decreases |ts|
  {
    if ts == [] then [] else RenderAll(ts[..|ts| - 1]) + [Render(ts[|ts| - 1])]
  }

  lemma RenderAllSnoc(ts: seq<Term>, present: bool, t: Term)
    ensures RenderAll(Snoc(ts, present, t)) == Snoc(RenderAll(ts), present, Render(t))
  {
    assert (ts + [t])[..|ts|] == ts;
  }

  /** Go's `if present { xs = append(xs, x) }`. */
  function Snoc<T>(xs: seq<T>, present: bool, x: T): seq<T> {
    if present then xs + [x] else xs
  }

  /** The OR group appended as one clause, or nothing when there are no terms. */
  function OrGroup(clauses: seq<string>, parts: seq<string>): seq<string> {
    Snoc(clauses, parts != [], "(" + Join(parts, " OR ") + ")")
  }

  function TracksText(tracks: int): string {
    if tracks > 0 then DecimalString(tracks) else ""
  }

  /** The two fuzzy terms both builders start their OR group with. */
  function FuzzyTerms(artistName: string, releaseName: string): seq<Term> {
    var t1 := Snoc([], artistName != "", Term(ArtistNameField, artistName, true));
    Snoc(t1, releaseName != "", Term(ReleaseField, releaseName, true))
  }

  /** The exact-match terms a release search adds after the fuzzy ones. */
  function ReleaseDetailTerms(r: SearchReleaseRequest, fuzzy: seq<Term>): seq<Term> {
    var t3 := Snoc(fuzzy, r.releaseDate != "", Term(DateField, r.releaseDate, false));
    var t4 := Snoc(t3, r.format != "", Term(FormatField, r.format, false));
    var t5 := Snoc(t4, r.catalogNumber != "", Term(CatalogNumberField, r.catalogNumber, false));
    Snoc(t5, r.tracks > 0, Term(TracksField, TracksText(r.tracks), false))
  }

  /** The OR terms of a release search, in the order the builder appends them. */
  function ReleaseOrTerms(r: SearchReleaseRequest): seq<Term> {
    ReleaseDetailTerms(r, FuzzyTerms(r.artistName, r.releaseName))
  }

  /** The OR terms of a release-group search. */
  function ReleaseGroupOrTerms(r: SearchReleaseGroupRequest): seq<Term> {
    var fuzzy := FuzzyTerms(r.artistName, r.releaseName);
    Snoc(fuzzy, r.firstReleaseDate != "", Term(FirstReleaseDateField, r.firstReleaseDate, false))
  }

  /** The two fuzzy parts both builders start their OR group with, as appended. */
  function FuzzyParts(artistName: string, releaseName: string): seq<string> {
    var p1 := Snoc([], artistName != "", QueryPart(ArtistNameField, artistName) + "~");
    Snoc(p1, releaseName != "", QueryPart(ReleaseField, releaseName) + "~")
  }

  /** The exact-match parts a release search appends after the fuzzy ones. */
  function ReleaseDetailParts(r: SearchReleaseRequest, fuzzy: seq<string>): seq<string> {
    var p3 := Snoc(fuzzy, r.releaseDate != "", QueryPart(DateField, r.releaseDate));
    var p4 := Snoc(p3, r.format != "", QueryPart(FormatField, r.format));
    var p5 := Snoc(p4, r.catalogNumber != "", QueryPart(CatalogNumberField, r.catalogNumber));
    Snoc(p5, r.tracks > 0, QueryPart(TracksField, TracksText(r.tracks)))
  }

  /** The OR parts of a release search as the builder appends them. */
  function ReleaseOrParts(r: SearchReleaseRequest): seq<string> {
    ReleaseDetailParts(r, FuzzyParts(r.artistName, r.releaseName))
  }

  function ReleaseGroupOrParts(r: SearchReleaseGroupRequest): seq<string> {
    var fuzzy := FuzzyParts(r.artistName, r.releaseName);
    Snoc(fuzzy, r.firstReleaseDate != "", QueryPart(FirstReleaseDateField, r.firstReleaseDate))
  }

  /** The AND clauses of a release search: OR group, raw fragment, reid, rgid. */
  function ReleaseClauses(r: SearchReleaseRequest): seq<string> {
    ReleaseAndClauses(r, ReleaseOrParts(r))
  }

  /** The AND stage of a release search, given its OR parts. */
  function ReleaseAndClauses(r: SearchReleaseRequest, orParts: seq<string>): seq<string> {
    var c1 := OrGroup([], orParts);
    var c2 := Snoc(c1, r.raw != "", r.raw);
    var c3 := Snoc(c2, r.reid != "", QueryPart(ReidField, r.reid));
    Snoc(c3, r.rgid != "", QueryPart(RgidField, r.rgid))
  }

  /** The AND clauses of a release-group search: raw fragment, OR group, rgid. */
  function ReleaseGroupClauses(r: SearchReleaseGroupRequest): seq<string> {
    ReleaseGroupAndClauses(r, ReleaseGroupOrParts(r))
  }

  /** The AND stage of a release-group search, given its OR parts. */
  function ReleaseGroupAndClauses(r: SearchReleaseGroupRequest, orParts: seq<string>): seq<string> {
    var c1 := Snoc([], r.raw != "", r.raw);
    var c2 := OrGroup(c1, orParts);
    Snoc(c2, r.rgid != "", QueryPart(RgidField, r.rgid))
  }

  /** The fuzzy parts are the rendering of the fuzzy terms. */
  lemma FuzzyPartsRender(artistName: string, releaseName: string)
    ensures FuzzyParts(artistName, releaseName) == RenderAll(FuzzyTerms(artistName, releaseName))
  {
    var a := Term(ArtistNameField, artistName, true);
    var t1 := Snoc([], artistName != "", a);
    RenderAllSnoc([], artistName != "", a);
    assert RenderAll(t1) == Snoc([], artistName != "", Render(a));
    RenderAllSnoc(t1, releaseName != "", Term(ReleaseField, releaseName, true));
  }

  /** Rendering commutes with the detail stage of a release search. */
  lemma ReleaseDetailRender(r: SearchReleaseRequest, fuzzy: seq<Term>)
    ensures ReleaseDetailParts(r, RenderAll(fuzzy)) == RenderAll(ReleaseDetailTerms(r, fuzzy))
  {
    var d := Term(DateField, r.releaseDate, false);
    var f := Term(FormatField, r.format, false);
    var c := Term(CatalogNumberField, r.catalogNumber, false);
    var t3 := Snoc(fuzzy, r.releaseDate != "", d);
    var t4 := Snoc(t3, r.format != "", f);
    RenderAllSnoc(fuzzy, r.releaseDate != "", d);
    RenderAllSnoc(t3, r.format != "", f);
    RenderAllSnoc(t4, r.catalogNumber != "", c);
    RenderAllSnoc(Snoc(t4, r.catalogNumber != "", c), r.tracks > 0, Term(TracksField, TracksText(r.tracks), false));
  }

  /** The parts the release builder appends are the rendering of its terms. */
  lemma ReleaseOrPartsRender(r: SearchReleaseRequest)
    ensures ReleaseOrParts(r) == RenderAll(ReleaseOrTerms(r))
  {
    FuzzyPartsRender(r.artistName, r.releaseName);
    ReleaseDetailRender(r, FuzzyTerms(r.artistName, r.releaseName));
  }

  /** The same for the release-group builder. */
  lemma ReleaseGroupOrPartsRender(r: SearchReleaseGroupRequest)
    ensures ReleaseGroupOrParts(r) == RenderAll(ReleaseGroupOrTerms(r))
  {
    var fuzzy := FuzzyTerms(r.artistName, r.releaseName);
    FuzzyPartsRender(r.artistName, r.releaseName);
    RenderAllSnoc(fuzzy, r.firstReleaseDate != "", Term(FirstReleaseDateField, r.firstReleaseDate, false));
  }

  /** The first half of SearchReleaseRequest.Query: the OR parts, appended field by field. */
  method ReleaseQueryOrParts(r: SearchReleaseRequest) returns (orParts: seq<string>)
    ensures orParts == ReleaseOrParts(r)
  {
    orParts := [];
    if r.artistName != "" {
      orParts := orParts + [QueryPart(ArtistNameField, r.artistName) + "~"];
    }
    if r.releaseName != "" {
      orParts := orParts + [QueryPart(ReleaseField, r.releaseName) + "~"];
    }
    ghost var fuzzy := orParts;
    assert fuzzy == FuzzyParts(r.artistName, r.releaseName);
    if r.releaseDate != "" {
      orParts := orParts + [QueryPart(DateField, r.releaseDate)];
    }
    if r.format != "" {
      orParts := orParts + [QueryPart(FormatField, r.format)];
    }
    if r.catalogNumber != "" {
      orParts := orParts + [QueryPart(CatalogNumberField, r.catalogNumber)];
    }
    if r.tracks > 0 {
      orParts := orParts + [QueryPart(TracksField, DecimalString(r.tracks))];
    }
    assert orParts == ReleaseDetailParts(r, fuzzy);
  }

  /** SearchReleaseRequest.Query: the OR group, then the raw fragment, reid and rgid. */
  method ReleaseQuery(r: SearchReleaseRequest) returns (q: string)
    ensures q == Join(ReleaseClauses(r), " AND ")
  {
    var orParts := ReleaseQueryOrParts(r);
    var andParts: seq<string> := [];
    if |orParts| > 0 {
      andParts := andParts + ["(" + Join(orParts, " OR ") + ")"];
    }
    if r.raw != "" {
      andParts := andParts + [r.raw];
    }
    if r.reid != "" {
      andParts := andParts + [QueryPart(ReidField, r.reid)];
    }
    if r.rgid != "" {
      andParts := andParts + [QueryPart(RgidField, r.rgid)];
    }
    assert andParts == ReleaseAndClauses(r, orParts);
    q := Join(andParts, " AND ");
  }

  /** SearchReleaseGroupRequest.Query; here the raw fragment comes first. */
  method ReleaseGroupQuery(r: SearchReleaseGroupRequest) returns (q: string)
    ensures q == Join(ReleaseGroupClauses(r), " AND ")
  {
    var orParts: seq<string> := [];
    var andParts: seq<string> := [];
    if r.artistName != "" {
      orParts := orParts + [QueryPart(ArtistNameField, r.artistName) + "~"];
    }
    if r.releaseName != "" {
      orParts := orParts + [QueryPart(ReleaseField, r.releaseName) + "~"];
    }
    assert orParts == FuzzyParts(r.artistName, r.releaseName);
    if r.firstReleaseDate != "" {
      orParts := orParts + [QueryPart(FirstReleaseDateField, r.firstReleaseDate)];
    }
    assert orParts == ReleaseGroupOrParts(r);
    ghost var spec := ReleaseGroupAndClauses(r, orParts);
    if r.raw != "" {
      andParts := andParts + [r.raw];
    }
    if |orParts| > 0 {
      andParts := andParts + ["(" + Join(orParts, " OR ") + ")"];
    }
    if r.rgid != "" {
      andParts := andParts + [QueryPart(RgidField, r.rgid)];
    }
    assert andParts == spec;
    q := Join(andParts, " AND ");
  }

  // ---------------------------------------------------------------------
  // Parent labels
  // ---------------------------------------------------------------------

  const ParentLabelRelationTypes: set<string> := {"label ownership"}

  const ParentLabelTypes: set<string> := {"Imprint", "Original Production"}

  /** Relation.IsParentLabel: the guard checks in the order the source makes them. */
  function IsParentLabel(r: Relation): (b: bool)
    ensures b <==> r.labelDetail.id != "" && r.direction == "backward" && r.relType == "label ownership"
                   && (r.labelDetail.typeName == "Imprint" || r.labelDetail.typeName == "Original Production")
  {
    if r.labelDetail.id == "" then false
    else if r.direction != "backward" then false
    else if r.relType !in ParentLabelRelationTypes then false
    else if r.labelDetail.typeName !in ParentLabelTypes then false
    else true
  }

  /** The relations that are parent labels, in their original order. */
  function ParentLabelsOf(rels: seq<Relation>): seq<Relation>
    decreases |rels|
  {
    if rels == [] then []
    else ParentLabelsOf(rels[..|rels| - 1]) + (if IsParentLabel(rels[|rels| - 1]) then [rels[|rels| - 1]] else [])
  }

  /** Label.ParentLabels: the loop that keeps the relations passing IsParentLabel. */
  method ParentLabels(owner: Label) returns (result: seq<Relation>)
    ensures result == ParentLabelsOf(owner.relations)
    ensures forall x :: x in result <==> x in owner.relations && IsParentLabel(x)
  {
    result := [];
    var i := 0;
    while i < |owner.relations|
      invariant 0 <= i <= |owner.relations|
      invariant result == ParentLabelsOf(owner.relations[..i])
    {
      var rel := owner.relations[i];
      assert owner.relations[..i + 1][..i] == owner.relations[..i];
      if IsParentLabel(rel) {
        result := result + [rel];
      }
      i := i + 1;
    }
    assert owner.relations[..i] == owner.relations;
    ParentLabelsMembers(owner.relations);
  }

  /** The filter keeps exactly the parent-label relations. */
  lemma {:induction false} ParentLabelsMembers(rels: seq<Relation>)
    ensures forall x :: x in ParentLabelsOf(rels) <==> x in rels && IsParentLabel(x)
    decreases |rels|
  {
    if rels != [] {
      var init := rels[..|rels| - 1];
      ParentLabelsMembers(init);
      assert rels == init + [rels[|rels| - 1]];
    }
  }

  /** The filter preserves order: filtering a concatenation filters each half. */
  lemma {:induction false} ParentLabelsAppend(a: seq<Relation>, b: seq<Relation>)
    ensures ParentLabelsOf(a + b) == ParentLabelsOf(a) + ParentLabelsOf(b)
    decreases |b|
  {
    if b == [] {
      assert a + b == a;
    } else {
      var init := b[..|b| - 1];
      ParentLabelsAppend(a, init);
      assert (a + b)[..|a + b| - 1] == a + init;
    }
  }

  /** Filtering twice is filtering once. */
  lemma {:induction false} ParentLabelsIdempotent(rels: seq<Relation>)
    ensures ParentLabelsOf(ParentLabelsOf(rels)) == ParentLabelsOf(rels)
    decreases |rels|
  {
    if rels != [] {
      var init := rels[..|rels| - 1];
      var last := rels[|rels| - 1];
      ParentLabelsIdempotent(init);
      var tail := if IsParentLabel(last) then [last] else [];
      ParentLabelsAppend(ParentLabelsOf(init), tail);
      if IsParentLabel(last) {
        assert ParentLabelsOf(tail) == ParentLabelsOf([]) + [last] by {
          assert tail[..0] == [];
        }
      }
    }
  }

  // ---------------------------------------------------------------------
  // Discogs release ids: the leftmost match of discogs\.com/release/(\d+)
  // ---------------------------------------------------------------------

  const DiscogsPrefix: string := "discogs.com/release/"

  /** At `i` the literal prefix starts and is followed by at least one digit. */
  predicate MatchAt(s: string, i: int) {
    0 <= i && i + |DiscogsPrefix| < |s|
    && s[i..i + |DiscogsPrefix|] == DiscogsPrefix
    && IsDigit(s[i + |DiscogsPrefix|])
  }

  /** The leftmost match position at or after `from`, found by scanning left to right. */
  function FindMatch(s: string, from: nat): (r: Option<nat>)
    requires from <= |s|
    ensures r.Some? ==> from <= r.value && MatchAt(s, r.value)
                        && forall j :: from <= j < r.value ==> !MatchAt(s, j)
    ensures r.None? ==> forall j :: from <= j ==> !MatchAt(s, j)
    decreases |s| - from
  {
    if from + |DiscogsPrefix| >= |s| then None
    else if MatchAt(s, from) then Some(from)
    else FindMatch(s, from + 1)
  }

  /** The end of the run of digits that starts at `start` (greedy `\d+`). */
  function DigitRunEnd(s: string, start: nat): (e: nat)
    requires start <= |s|
    ensures start <= e <= |s|
    ensures forall k :: start <= k < e ==> IsDigit(s[k])
    ensures e == |s| || !IsDigit(s[e])
    decreases |s| - start
  {
    if start < |s| && IsDigit(s[start]) then DigitRunEnd(s, start + 1) else start
  }

  /** The digits the capture group takes at a match position. */
  function Submatch(s: string, i: nat): (d: string)
    requires MatchAt(s, i)
    ensures d != [] && AllDigits(d)
  {
    var start := i + |DiscogsPrefix|;
    var e := DigitRunEnd(s, start);
    s[start..e]
  }

  /** FindStringSubmatch + Atoi on a URL: the number after the leftmost match, if any. */
  function DiscogsID(url: string): Option<nat> {
    match FindMatch(url, 0)
    case None => None
    case Some(i) => Some(DecimalValue(Submatch(url, i)))
  }

  /** An id is found exactly when the URL matches, and it is the number at the leftmost match. */
  lemma DiscogsIDMeaning(url: string)
    ensures DiscogsID(url).Some? <==> exists i :: MatchAt(url, i)
    ensures DiscogsID(url).Some? ==>
              exists i :: MatchAt(url, i) && (forall j :: 0 <= j < i ==> !MatchAt(url, j))
                          && DiscogsID(url).value == DecimalValue(Submatch(url, i))
  {
    var m := FindMatch(url, 0);
    if m.Some? {
      assert MatchAt(url, m.value);
    }
  }

  /** The id a relation contributes: only url relations of type discogs are looked at. */
  function RelationDiscogsID(rel: Relation): Option<nat> {
    if rel.targetType == "url" && rel.relType == "discogs" then DiscogsID(rel.url.resource) else None
  }

  /** Go's "append when found" over a slice: the found values, in order. */
  function Collect<T, U>(xs: seq<T>, f: T -> Option<U>): seq<U>
    decreases |xs|
  {
    if xs == [] then []
    else
      var last := f(xs[|xs| - 1]);
      Collect(xs[..|xs| - 1], f) + (if last.Some? then [last.value] else [])
  }

  lemma {:induction false} CollectAppend<T, U>(a: seq<T>, b: seq<T>, f: T -> Option<U>)
    ensures Collect(a + b, f) == Collect(a, f) + Collect(b, f)
    decreases |b|
  {
    if b == [] {
      assert a + b == a;
    } else {
      CollectAppend(a, b[..|b| - 1], f);
      assert (a + b)[..|a + b| - 1] == a + b[..|b| - 1];
    }
  }

  lemma {:induction false} CollectSound<T, U>(xs: seq<T>, f: T -> Option<U>, v: U)
    requires v in Collect(xs, f)
    ensures exists k :: 0 <= k < |xs| && f(xs[k]) == Some(v)
    decreases |xs|
  {
    var init := xs[..|xs| - 1];
    if v in Collect(init, f) {
      CollectSound(init, f, v);
      var k :| 0 <= k < |init| && f(init[k]) == Some(v);
      assert xs[k] == init[k];
    } else {
      assert f(xs[|xs| - 1]) == Some(v);
    }
  }

  lemma {:induction false} CollectComplete<T, U>(xs: seq<T>, f: T -> Option<U>, k: nat)
    requires k < |xs| && f(xs[k]).Some?
    ensures f(xs[k]).value in Collect(xs, f)
    decreases |xs|
  {
    var init := xs[..|xs| - 1];
    if k < |init| {
      CollectComplete(init, f, k);
      assert init[k] == xs[k];
    }
  }

  lemma {:induction false} CollectLength<T, U>(xs: seq<T>, f: T -> Option<U>)
    ensures |Collect(xs, f)| <= |xs|
    decreases |xs|
  {
    if xs != [] {
      CollectLength(xs[..|xs| - 1], f);
    }
  }

  /** The ids of all relations, in relation order. */
  function DiscogsIDsOf(rels: seq<Relation>): seq<nat> {
    Collect(rels, RelationDiscogsID)
  }

  /** Release.DiscogsReleaseIDs: the loop over relations appending each id found. */
  method DiscogsReleaseIDs(release: Release) returns (result: seq<int>)
    ensures result == DiscogsIDsOf(release.relations)
    ensures |result| <= |release.relations|
  {
    result := [];
    var i := 0;
    while i < |release.relations|
      invariant 0 <= i <= |release.relations|
      invariant result == Collect(release.relations[..i], RelationDiscogsID)
      invariant |result| <= i
    {
      var rel := release.relations[i];
      assert release.relations[..i + 1][..i] == release.relations[..i];
      if rel.targetType == "url" && rel.relType == "discogs" {
        var m := FindMatch(rel.url.resource, 0);
        if m.Some? {
          var id := DecimalValue(Submatch(rel.url.resource, m.value));
          result := result + [id];
        }
      }
      i := i + 1;
    }
    assert release.relations[..i] == release.relations;
  }

  /** Ids are collected relation by relation: a concatenation gives the concatenated ids. */
  lemma DiscogsIDsAppend(a: seq<Relation>, b: seq<Relation>)
    ensures DiscogsIDsOf(a + b) == DiscogsIDsOf(a) + DiscogsIDsOf(b)
  {
    CollectAppend(a, b, RelationDiscogsID);
  }

  /** An id is collected exactly when some Discogs url relation yields it. */
  lemma DiscogsIDsMembers(rels: seq<Relation>, v: nat)
    ensures v in DiscogsIDsOf(rels) <==> exists k :: 0 <= k < |rels| && RelationDiscogsID(rels[k]) == Some(v)
  {
    if v in DiscogsIDsOf(rels) {
      CollectSound(rels, RelationDiscogsID, v);
    }
    if exists k :: 0 <= k < |rels| && RelationDiscogsID(rels[k]) == Some(v) {
      var k :| 0 <= k < |rels| && RelationDiscogsID(rels[k]) == Some(v);
      CollectComplete(rels, RelationDiscogsID, k);
    }
  }

  const DiscogsExampleScheme: string := "https://www."

  /** A typical release URL: `https://www.discogs.com/release/42-x`. */
  const DiscogsExampleUrl: string := DiscogsExampleScheme + DiscogsPrefix + "42-x"

  /** A match starts with 'd', so none can start before the first 'd'. */
  lemma NoMatchBefore(s: string, n: nat)
    requires n <= |s| && 'd' !in s[..n]
    ensures forall j :: 0 <= j < n ==> !MatchAt(s, j)
  {
    forall j | 0 <= j < n ensures !MatchAt(s, j) {
      assert s[j] == s[..n][j];
    }
  }

  lemma DiscogsExampleLeftmost()
    ensures FindMatch(DiscogsExampleUrl, 0) == Some(12)
  {
    var s := DiscogsExampleUrl;
    assert s[12..32] == DiscogsPrefix;
    assert s[..12] == DiscogsExampleScheme;
    NoMatchBefore(s, 12);
    assert MatchAt(s, 12);
  }

  lemma DiscogsExampleDigits()
    requires MatchAt(DiscogsExampleUrl, 12)
    ensures Submatch(DiscogsExampleUrl, 12) == "42"
    ensures DecimalValue("42") == 42
  {
    var s := DiscogsExampleUrl;
    assert !IsDigit(s[34]) && IsDigit(s[33]) && IsDigit(s[32]);
    assert DigitRunEnd(s, 32) == 34;
    assert "42"[..1] == "4";
  }

  /** A typical Discogs URL yields its release number. */
  lemma DiscogsExample()
    ensures DiscogsID(DiscogsExampleUrl) == Some(42)
  {
    DiscogsExampleLeftmost();
    DiscogsExampleDigits();
  }

  // ---------------------------------------------------------------------
  // Display form of a release group
  // ---------------------------------------------------------------------

  function CreditNames(credits: seq<ArtistCredit>): (names: seq<string>)
    ensures |names| == |credits|
    ensures forall k :: 0 <= k < |credits| ==> names[k] == credits[k].name
  {
    seq(|credits|, k requires 0 <= k < |credits| => credits[k].name)
  }

  /** `[ID] credit; credit - Title (FirstReleaseDate)`. */
  function DisplayForm(g: ReleaseGroup): string {
    "[" + g.id + "] " + Join(CreditNames(g.artistCredit), "; ") + " - " + g.title + " (" + g.firstReleaseDate + ")"
  }

  /** ReleaseGroup.String: collects the credit names in a loop, then formats. */
  method ReleaseGroupString(g: ReleaseGroup) returns (s: string)
    ensures s == DisplayForm(g)
    ensures |s| == |g.id| + |Join(CreditNames(g.artistCredit), "; ")| + |g.title| + |g.firstReleaseDate| + 9
  {
    var artists: seq<string> := [];
    var i := 0;
    while i < |g.artistCredit|
      invariant 0 <= i <= |g.artistCredit|
      invariant artists == CreditNames(g.artistCredit[..i])
    {
      artists := artists + [g.artistCredit[i].name];
      i := i + 1;
    }
    assert g.artistCredit[..i] == g.artistCredit;
    s := "[" + g.id + "] " + Join(artists, "; ") + " - " + g.title + " (" + g.firstReleaseDate + ")";
  }
}
