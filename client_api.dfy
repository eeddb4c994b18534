/**
 * The bottom layer of every client: one requester call per lookup, on the
 * path `/<entity>/<id>` with the entity's include list, and a record
 * stamped with the current time around whatever the requester decoded.
 */
module ClientApi {
  import opened Wrappers
  import opened Text
  import opened Model
  import opened Types

  /** The entity segment of the lookup path; note the hyphen in "release-group". */
  function Segment(kind: Kind): (s: string)
    ensures s != "" && '/' !in s
  {
    match kind
    case ArtistKind => "artist"
    case ReleaseKind => "release"
    case ReleaseGroupKind => "release-group"
  }

  /** The sub-resources each lookup asks the web service to include. */
  function Includes(kind: Kind): (inc: seq<string>)
    ensures inc != [] && inc[|inc| - 1] == "url-rels"
    ensures forall k :: 0 <= k < |inc| ==> inc[k] != "" && '+' !in inc[k]
  {
    match kind
    case ArtistKind => ["tags", "url-rels"]
    case ReleaseKind => ["artists", "labels", "recordings", "release-groups", "url-rels"]
    case ReleaseGroupKind => ["artists", "genres", "url-rels"]
  }

  /** The `inc` parameter: the include list joined with "+". */
  function Inc(kind: Kind): string {
    Join(Includes(kind), "+")
  }

  /** The request clientAPIByID hands to the requester. */
  function LookupRequest(kind: Kind, id: string): Request {
    Request("/" + Segment(kind) + "/" + id, map["inc" := Inc(kind), "fmt" := "json"])
  }

  /** The body the requester decoded, read as the Go type of `kind`; anything else leaves that type's zero value. */
  function Typed(kind: Kind, body: Option<Payload>): (p: Payload)
    ensures p.KindOf() == kind
    ensures body.Some? && body.value.KindOf() == kind ==> p == body.value
    ensures (body.None? || body.value.KindOf() != kind) ==> p == Zero(kind)
  {
    if body.Some? && body.value.KindOf() == kind then body.value else Zero(kind)
  }

  /** What clientAPIByID returns for the requester's response: the record is built even when the call failed. */
  function LookupOutcome(kind: Kind, now: Time, resp: Response): (o: Outcome)
    ensures o.record.date == now && o.record.data.KindOf() == kind
    ensures o.err == resp.err
  {
    Outcome(Record(now, Typed(kind, resp.body)), resp.err)
  }

  /** Reads a lookup path back into the entity kind and the id; this inverts the path LookupRequest builds. */
  function ParsePath(p: string): Option<(Kind, string)> {
    match CutPrefix(p, "/artist/")
    case Some(id) => Some((ArtistKind, id))
    case None =>
      match CutPrefix(p, "/release/")
      case Some(id) => Some((ReleaseKind, id))
      case None =>
        match CutPrefix(p, "/release-group/")
        case Some(id) => Some((ReleaseGroupKind, id))
        case None => None
  }

  /** Joining two, three and five parts puts one separator between each pair. */
  lemma JoinPair(a: string, b: string, sep: string)
    ensures Join([a, b], sep) == a + sep + b
  {
    JoinSnoc([a], b, sep);
  }

  lemma JoinThree(a: string, b: string, c: string, sep: string)
    ensures Join([a, b, c], sep) == a + sep + b + sep + c
  {
    JoinPair(a, b, sep);
    JoinSnoc([a, b], c, sep);
    assert [a, b] + [c] == [a, b, c];
  }

  lemma JoinFive(a: string, b: string, c: string, d: string, e: string, sep: string)
    ensures Join([a, b, c, d, e], sep) == a + sep + b + sep + c + sep + d + sep + e
  {
    JoinThree(a, b, c, sep);
    JoinSnoc([a, b, c], d, sep);
    assert [a, b, c] + [d] == [a, b, c, d];
    JoinSnoc([a, b, c, d], e, sep);
    assert [a, b, c, d] + [e] == [a, b, c, d, e];
  }

  /** The artist include list as the web service receives it. */
  lemma IncArtist()
    ensures Inc(ArtistKind) == "tags+url-rels"
  {
    JoinPair("tags", "url-rels", "+");
  }

  /** The release include list as the web service receives it: the five includes with a "+" between each pair. */
  lemma IncRelease()
    ensures Inc(ReleaseKind) == "artists" + "+" + "labels" + "+" + "recordings" + "+" + "release-groups" + "+" + "url-rels"
  {
    JoinFive("artists", "labels", "recordings", "release-groups", "url-rels", "+");
  }

  /** The release-group include list as the web service receives it. */
  lemma IncReleaseGroup()
    ensures Inc(ReleaseGroupKind) == "artists+genres+url-rels"
  {
    JoinThree("artists", "genres", "url-rels", "+");
  }

  /** The request carries exactly the parameters inc and fmt, with fmt "json" and inc the joined include list. */
  lemma LookupRequestParams(kind: Kind, id: string)
    ensures LookupRequest(kind, id).params.Keys == {"inc", "fmt"}
    ensures LookupRequest(kind, id).params["fmt"] == "json"
    ensures LookupRequest(kind, id).params["inc"] == Inc(kind)
  {
  }

  /** The request path is /<segment>/<id>, and it reads back to the kind and the id. */
  lemma LookupPathRoundTrip(kind: Kind, id: string)
    ensures ParsePath("/" + Segment(kind) + "/" + id) == Some((kind, id))
  {
    var p := "/" + Segment(kind) + "/" + id;
    match kind
    case ArtistKind =>
      assert p == "/artist/" + id;
      CutPrefixOf("/artist/", id);
    case ReleaseKind =>
      assert p == "/release/" + id;
      NotPrefixAt(p, "/artist/", 1);
      CutPrefixOf("/release/", id);
    case ReleaseGroupKind =>
      assert p == "/release-group/" + id;
      NotPrefixAt(p, "/artist/", 1);
      NotPrefixAt(p, "/release/", 8);
      CutPrefixOf("/release-group/", id);
  }

  /** Distinct lookups go to distinct paths. */
  lemma LookupPathInjective(k1: Kind, id1: string, k2: Kind, id2: string)
    ensures LookupRequest(k1, id1).path == LookupRequest(k2, id2).path <==> k1 == k2 && id1 == id2
  {
    LookupPathRoundTrip(k1, id1);
    LookupPathRoundTrip(k2, id2);
  }
}
