/**
 * What the two search-query builders promise: no empty clause and no empty
 * `()` group, an empty query exactly for an empty request, the fuzzy marker
 * only on the artist and release terms, the tracks term only for a positive
 * count, and each builder's own clause order.
 */
module QueryProperties {
  import opened Text
  import opened Model

  predicate NonEmptyParts(xs: seq<string>) {
    forall i :: 0 <= i < |xs| ==> xs[i] != ""
  }

  lemma QueryPartNonEmpty(field: string, value: string)
    ensures QueryPart(field, value) != ""
  {
    QueryPartReadBack(field, value);
  }

  lemma SnocNonEmpty(xs: seq<string>, present: bool, x: string)
    requires NonEmptyParts(xs) && (present ==> x != "")
    ensures NonEmptyParts(Snoc(xs, present, x))
    ensures Snoc(xs, present, x) == [] <==> xs == [] && !present
  {
  }

  /** The OR group is added only for a non-empty list, and then it never reads `()`. */
  lemma OrGroupShape(clauses: seq<string>, parts: seq<string>)
    requires NonEmptyParts(clauses) && NonEmptyParts(parts)
    ensures NonEmptyParts(OrGroup(clauses, parts))
    ensures OrGroup(clauses, parts) == [] <==> clauses == [] && parts == []
    ensures parts == [] ==> OrGroup(clauses, parts) == clauses
    ensures parts != [] ==> OrGroup(clauses, parts) == clauses + ["(" + Join(parts, " OR ") + ")"]
                            && Join(parts, " OR ") != ""
  {
    JoinEmptyIff(parts, " OR ");
  }

  lemma FuzzyPartsShape(artistName: string, releaseName: string)
    ensures NonEmptyParts(FuzzyParts(artistName, releaseName))
    ensures FuzzyParts(artistName, releaseName) == [] <==> artistName == "" && releaseName == ""
  {
    var a := QueryPart(ArtistNameField, artistName) + "~";
    QueryPartNonEmpty(ArtistNameField, artistName);
    SnocNonEmpty([], artistName != "", a);
    SnocNonEmpty(Snoc([], artistName != "", a), releaseName != "", QueryPart(ReleaseField, releaseName) + "~");
  }

  /** True when a release search names nothing to search for. */
  predicate ReleaseOrEmpty(r: SearchReleaseRequest) {
    r.artistName == "" && r.releaseName == "" && r.releaseDate == "" && r.format == ""
    && r.catalogNumber == "" && r.tracks <= 0
  }

  lemma ReleaseOrPartsShape(r: SearchReleaseRequest)
    ensures NonEmptyParts(ReleaseOrParts(r))
    ensures ReleaseOrParts(r) == [] <==> ReleaseOrEmpty(r)
  {
    var p2 := FuzzyParts(r.artistName, r.releaseName);
    FuzzyPartsShape(r.artistName, r.releaseName);
    var x3 := QueryPart(DateField, r.releaseDate);
    var x4 := QueryPart(FormatField, r.format);
    var x5 := QueryPart(CatalogNumberField, r.catalogNumber);
    var x6 := QueryPart(TracksField, TracksText(r.tracks));
    QueryPartNonEmpty(DateField, r.releaseDate);
    QueryPartNonEmpty(FormatField, r.format);
    QueryPartNonEmpty(CatalogNumberField, r.catalogNumber);
    QueryPartNonEmpty(TracksField, TracksText(r.tracks));
    var p3 := Snoc(p2, r.releaseDate != "", x3);
    var p4 := Snoc(p3, r.format != "", x4);
    var p5 := Snoc(p4, r.catalogNumber != "", x5);
    SnocNonEmpty(p2, r.releaseDate != "", x3);
    SnocNonEmpty(p3, r.format != "", x4);
    SnocNonEmpty(p4, r.catalogNumber != "", x5);
    SnocNonEmpty(p5, r.tracks > 0, x6);
  }

  /** True when a release search has no field set at all. */
  predicate ReleaseRequestEmpty(r: SearchReleaseRequest) {
    ReleaseOrEmpty(r) && r.raw == "" && r.reid == "" && r.rgid == ""
  }

  /** Every release clause is non-empty, and there are none exactly for an empty request. */
  lemma ReleaseClausesShape(r: SearchReleaseRequest)
    ensures NonEmptyParts(ReleaseClauses(r))
    ensures ReleaseClauses(r) == [] <==> ReleaseRequestEmpty(r)
  {
    var orParts := ReleaseOrParts(r);
    ReleaseOrPartsShape(r);
    OrGroupShape([], orParts);
    var c1 := OrGroup([], orParts);
    var c2 := Snoc(c1, r.raw != "", r.raw);
    var x3 := QueryPart(ReidField, r.reid);
    var x4 := QueryPart(RgidField, r.rgid);
    QueryPartNonEmpty(ReidField, r.reid);
    QueryPartNonEmpty(RgidField, r.rgid);
    SnocNonEmpty(c1, r.raw != "", r.raw);
    SnocNonEmpty(c2, r.reid != "", x3);
    SnocNonEmpty(Snoc(c2, r.reid != "", x3), r.rgid != "", x4);
  }

  /** The release query is empty exactly when the request sets no field. */
  lemma ReleaseQueryEmptyIff(r: SearchReleaseRequest)
    ensures Join(ReleaseClauses(r), " AND ") == "" <==> ReleaseRequestEmpty(r)
  {
    ReleaseClausesShape(r);
    JoinEmptyIff(ReleaseClauses(r), " AND ");
  }

  /** With every kind of clause present, the release order is group, raw, reid, rgid. */
  lemma ReleaseClauseOrder(r: SearchReleaseRequest)
    requires !ReleaseOrEmpty(r) && r.raw != "" && r.reid != "" && r.rgid != ""
    ensures ReleaseClauses(r) == ["(" + Join(ReleaseOrParts(r), " OR ") + ")", r.raw,
                                  QueryPart(ReidField, r.reid), QueryPart(RgidField, r.rgid)]
  {
    ReleaseOrPartsShape(r);
  }

  /** True when a release-group search names nothing to search for. */
  predicate ReleaseGroupOrEmpty(r: SearchReleaseGroupRequest) {
    r.artistName == "" && r.releaseName == "" && r.firstReleaseDate == ""
  }

  lemma ReleaseGroupOrPartsShape(r: SearchReleaseGroupRequest)
    ensures NonEmptyParts(ReleaseGroupOrParts(r))
    ensures ReleaseGroupOrParts(r) == [] <==> ReleaseGroupOrEmpty(r)
  {
    FuzzyPartsShape(r.artistName, r.releaseName);
    QueryPartNonEmpty(FirstReleaseDateField, r.firstReleaseDate);
    SnocNonEmpty(FuzzyParts(r.artistName, r.releaseName), r.firstReleaseDate != "",
                 QueryPart(FirstReleaseDateField, r.firstReleaseDate));
  }

  /**
   * Every release-group clause is non-empty, and there are none exactly when
   * no field other than `reid` is set.
   */
  lemma ReleaseGroupClausesShape(r: SearchReleaseGroupRequest)
    ensures NonEmptyParts(ReleaseGroupClauses(r))
    ensures ReleaseGroupClauses(r) == [] <==> ReleaseGroupOrEmpty(r) && r.raw == "" && r.rgid == ""
  {
    var orParts := ReleaseGroupOrParts(r);
    ReleaseGroupOrPartsShape(r);
    var c1 := Snoc([], r.raw != "", r.raw);
    SnocNonEmpty([], r.raw != "", r.raw);
    OrGroupShape(c1, orParts);
    QueryPartNonEmpty(RgidField, r.rgid);
    SnocNonEmpty(OrGroup(c1, orParts), r.rgid != "", QueryPart(RgidField, r.rgid));
  }

  /** The release-group query is empty exactly when raw, the OR fields and rgid are all empty. */
  lemma ReleaseGroupQueryEmptyIff(r: SearchReleaseGroupRequest)
    ensures Join(ReleaseGroupClauses(r), " AND ") == "" <==>
              ReleaseGroupOrEmpty(r) && r.raw == "" && r.rgid == ""
  {
    ReleaseGroupClausesShape(r);
    JoinEmptyIff(ReleaseGroupClauses(r), " AND ");
  }

  /** The release-group builder puts the raw fragment first, then the group, then rgid. */
  lemma ReleaseGroupClauseOrder(r: SearchReleaseGroupRequest)
    requires !ReleaseGroupOrEmpty(r) && r.raw != "" && r.rgid != ""
    ensures ReleaseGroupClauses(r) == [r.raw, "(" + Join(ReleaseGroupOrParts(r), " OR ") + ")",
                                       QueryPart(RgidField, r.rgid)]
  {
    ReleaseGroupOrPartsShape(r);
  }

  /** The `reid` field of a release-group search never reaches the query. */
  lemma ReleaseGroupIgnoresReid(r: SearchReleaseGroupRequest, reid: string)
    ensures ReleaseGroupClauses(r.(reid := reid)) == ReleaseGroupClauses(r)
  {
    var s := r.(reid := reid);
    assert ReleaseGroupOrParts(s) == ReleaseGroupOrParts(r);
  }

  /** A term the builders emit: a non-empty value, fuzzy exactly for the artist and release fields. */
  predicate EmittedTerm(t: Term) {
    t.value != "" && (t.fuzzy <==> t.field == ArtistNameField || t.field == ReleaseField)
  }

  lemma SnocMember<T>(xs: seq<T>, present: bool, x: T, y: T)
    requires y in Snoc(xs, present, x)
    ensures y in xs || (present && y == x)
  {
  }

  lemma FuzzyTermsEmitted(artistName: string, releaseName: string, t: Term)
    requires t in FuzzyTerms(artistName, releaseName)
    ensures EmittedTerm(t) && t.fuzzy
  {
    var a := Term(ArtistNameField, artistName, true);
    SnocMember(Snoc([], artistName != "", a), releaseName != "", Term(ReleaseField, releaseName, true), t);
    if t in Snoc([], artistName != "", a) {
      SnocMember([], artistName != "", a, t);
    }
  }

  /** Only the artist and release terms of a release search are fuzzy, and no term is empty. */
  lemma ReleaseTermsEmitted(r: SearchReleaseRequest, t: Term)
    requires t in ReleaseOrTerms(r)
    ensures EmittedTerm(t)
  {
    var t2 := FuzzyTerms(r.artistName, r.releaseName);
    var d := Term(DateField, r.releaseDate, false);
    var f := Term(FormatField, r.format, false);
    var c := Term(CatalogNumberField, r.catalogNumber, false);
    var k := Term(TracksField, TracksText(r.tracks), false);
    var t3 := Snoc(t2, r.releaseDate != "", d);
    var t4 := Snoc(t3, r.format != "", f);
    var t5 := Snoc(t4, r.catalogNumber != "", c);
    SnocMember(t5, r.tracks > 0, k, t);
    if t in t5 {
      SnocMember(t4, r.catalogNumber != "", c, t);
      if t in t4 {
        SnocMember(t3, r.format != "", f, t);
        if t in t3 {
          SnocMember(t2, r.releaseDate != "", d, t);
          if t in t2 {
            FuzzyTermsEmitted(r.artistName, r.releaseName, t);
          }
        }
      }
    }
  }

  /** The same for a release-group search. */
  lemma ReleaseGroupTermsEmitted(r: SearchReleaseGroupRequest, t: Term)
    requires t in ReleaseGroupOrTerms(r)
    ensures EmittedTerm(t)
  {
    var t2 := FuzzyTerms(r.artistName, r.releaseName);
    SnocMember(t2, r.firstReleaseDate != "", Term(FirstReleaseDateField, r.firstReleaseDate, false), t);
    if t in t2 {
      FuzzyTermsEmitted(r.artistName, r.releaseName, t);
    }
  }

  /**
   * A release search has a tracks term exactly when the count is positive;
   * it is then the last term, written in decimal, and reads back as the count.
   */
  lemma ReleaseTracksTerm(r: SearchReleaseRequest)
    ensures (exists t :: t in ReleaseOrTerms(r) && t.field == TracksField) <==> r.tracks > 0
    ensures r.tracks > 0 ==>
              var ts := ReleaseOrTerms(r);
              ts[|ts| - 1] == Term(TracksField, DecimalString(r.tracks), false)
              && DecimalValue(ts[|ts| - 1].value) == r.tracks
  {
    var ts := ReleaseOrTerms(r);
    var t2 := FuzzyTerms(r.artistName, r.releaseName);
    var d := Term(DateField, r.releaseDate, false);
    var f := Term(FormatField, r.format, false);
    var c := Term(CatalogNumberField, r.catalogNumber, false);
    var k := Term(TracksField, TracksText(r.tracks), false);
    var t3 := Snoc(t2, r.releaseDate != "", d);
    var t4 := Snoc(t3, r.format != "", f);
    var t5 := Snoc(t4, r.catalogNumber != "", c);
    assert ts == Snoc(t5, r.tracks > 0, k);
    if r.tracks > 0 {
      assert k in ts;
      DecimalRoundTrip(r.tracks);
    } else {
      forall t | t in ts ensures t.field != TracksField {
        SnocMember(t4, r.catalogNumber != "", c, t);
        if t in t4 {
          SnocMember(t3, r.format != "", f, t);
          if t in t3 {
            SnocMember(t2, r.releaseDate != "", d, t);
            if t in t2 {
              FuzzyTermsEmitted(r.artistName, r.releaseName, t);
            }
          }
        }
      }
    }
  }

  /** The example request: only the artist "Air" and the release "Moon Safari". */
  const AirMoonSafari: SearchReleaseRequest :=
    SearchReleaseRequest("", "Air", "Moon Safari", "", "", "", 0, "", "")

  /** The values of the example hold no quote; its rendered fuzzy terms, spelled out. */
  lemma AirMoonSafariSpelled()
    ensures '"' !in "Air" && '"' !in "Moon Safari"
    ensures ArtistNameField + ":\"" + "Air" + "\"" + "~" == "artistname:\"Air\"~"
    ensures ReleaseField + ":\"" + "Moon Safari" + "\"" + "~" == "release:\"Moon Safari\"~"
  {
  }

  /** A value without quotes is put between the quotes as it is. */
  lemma PlainQueryPart(field: string, value: string)
    requires '"' !in value
    ensures QueryPart(field, value) + "~" == field + ":\"" + value + "\"" + "~"
  {
    EscapeChangesOnlyQuotes(value);
  }

  /** A release search naming only an artist and a release is one OR group of the two fuzzy terms. */
  lemma ArtistAndReleaseQuery(r: SearchReleaseRequest)
    requires r.artistName != "" && r.releaseName != ""
    requires r.releaseDate == "" && r.format == "" && r.catalogNumber == "" && r.tracks <= 0
    requires r.raw == "" && r.reid == "" && r.rgid == ""
    ensures Join(ReleaseClauses(r), " AND ")
            == "(" + (QueryPart(ArtistNameField, r.artistName) + "~") + " OR "
                   + (QueryPart(ReleaseField, r.releaseName) + "~") + ")"
  {
    var a := QueryPart(ArtistNameField, r.artistName) + "~";
    var n := QueryPart(ReleaseField, r.releaseName) + "~";
    assert FuzzyParts(r.artistName, r.releaseName) == [a] + [n];
    assert ReleaseOrParts(r) == [a] + [n];
    JoinSnoc([a], n, " OR ");
    assert OrGroup([], [a] + [n]) == ["(" + (a + " OR " + n) + ")"];
    assert ReleaseClauses(r) == ["(" + (a + " OR " + n) + ")"];
    assert "(" + (a + " OR " + n) + ")" == "(" + a + " OR " + n + ")";
  }

  /** Its query is one fuzzy OR group, `(artistname:"Air"~ OR release:"Moon Safari"~)`. */
  lemma AirMoonSafariQuery()
    ensures Join(ReleaseClauses(AirMoonSafari), " AND ")
            == "(" + "artistname:\"Air\"~" + " OR " + "release:\"Moon Safari\"~" + ")"
  {
    AirMoonSafariSpelled();
    PlainQueryPart(ArtistNameField, "Air");
    PlainQueryPart(ReleaseField, "Moon Safari");
    ArtistAndReleaseQuery(AirMoonSafari);
  }
}
