/**
 * The on-disk layout of the filesystem read-through cache and the JSON
 * codec it stores records with. A file holds either the encoding of one
 * record or text that does not decode.
 */
module ClientCacheFs {
  import opened Wrappers
  import opened Text
  import opened Model
  import opened Types

  /** The directory name each per-entity wrapper passes. */
  function EntryName(kind: Kind): string {
    match kind
    case ArtistKind => "artist"
    case ReleaseKind => "release"
    case ReleaseGroupKind => "releasegroup"
  }

  /** path.Join(baseDir, name, id + ".json"). */
  function EntryPath(baseDir: string, kind: Kind, id: string): string {
    PathJoin(PathJoin(baseDir, EntryName(kind)), id + ".json")
  }

  /** path.Dir: everything before the last slash; "." when there is none. */
  function Dir(p: string): string
    decreases |p|
  {
    if p == [] then "."
    else if p[|p| - 1] == '/' then (if |p| == 1 then "/" else p[..|p| - 1])
    else Dir(p[..|p| - 1])
  }

  /** The content of a cache file: a record's JSON, or text that is not one. */
  datatype Content = Json(record: Record) | Malformed(text: string)

  /** json.MarshalIndent of a record. */
  function Encode(r: Record): Content {
    Json(r)
  }

  /** json.Unmarshal into Record[T] for the T of `kind`: a document holding another kind does not decode. */
  function Decode(kind: Kind, c: Content): (r: Result<Record, Error>)
    ensures r.Ok? ==> r.value.data.KindOf() == kind
    ensures r.Err? ==> r.error == MalformedJson
  {
    match c
    case Json(rec) => if rec.data.KindOf() == kind then Ok(rec) else Err(MalformedJson)
    case Malformed(_) => Err(MalformedJson)
  }

  /** Decoding what was encoded gives the record back. */
  lemma DecodeEncode(r: Record)
    ensures Decode(r.data.KindOf(), Encode(r)) == Ok(r)
  {
  }

  /** Reads a file name back into the kind and the id. */
  function ParseEntry(name: string): Option<(Kind, string)> {
    match CutPrefix(name, "artist/")
    case Some(f) => IdOf(ArtistKind, f)
    case None =>
      match CutPrefix(name, "release/")
      case Some(f) => IdOf(ReleaseKind, f)
      case None =>
        match CutPrefix(name, "releasegroup/")
        case Some(f) => IdOf(ReleaseGroupKind, f)
        case None => None
  }

  function IdOf(kind: Kind, file: string): Option<(Kind, string)> {
    match CutSuffix(file, ".json")
    case Some(id) => Some((kind, id))
    case None => None
  }

  /** Reads a cache path under `baseDir` back into the kind and the id. */
  function ParseEntryPath(baseDir: string, p: string): Option<(Kind, string)> {
    if baseDir == "" then ParseEntry(p)
    else match CutPrefix(p, baseDir + "/")
      case Some(rest) => ParseEntry(rest)
      case None => None
  }

  /** The entry path is baseDir/name/id.json (name/id.json when baseDir is empty). */
  lemma EntryPathShape(baseDir: string, kind: Kind, id: string)
    ensures baseDir != "" ==> EntryPath(baseDir, kind, id) == baseDir + "/" + (EntryName(kind) + "/" + id + ".json")
    ensures baseDir == "" ==> EntryPath(baseDir, kind, id) == EntryName(kind) + "/" + id + ".json"
  {
  }

  /** ParseEntry inverts the name/id.json part of an entry path. */
  lemma ParseEntryOf(kind: Kind, id: string)
    ensures ParseEntry(EntryName(kind) + "/" + id + ".json") == Some((kind, id))
  {
    var file := id + ".json";
    CutSuffixOf(id, ".json");
    assert IdOf(kind, file) == Some((kind, id));
    var rest := EntryName(kind) + "/" + file;
    assert rest == EntryName(kind) + "/" + id + ".json";
    match kind
    case ArtistKind =>
      assert rest == "artist/" + file;
      CutPrefixOf("artist/", file);
    case ReleaseKind =>
      assert rest == "release/" + file;
      NotPrefixAt(rest, "artist/", 0);
      CutPrefixOf("release/", file);
    case ReleaseGroupKind =>
      assert rest == "releasegroup/" + file;
      NotPrefixAt(rest, "artist/", 0);
      NotPrefixAt(rest, "release/", 7);
      CutPrefixOf("releasegroup/", file);
  }

  /** ParseEntryPath inverts EntryPath. */
  lemma ParseEntryPathOf(baseDir: string, kind: Kind, id: string)
    ensures ParseEntryPath(baseDir, EntryPath(baseDir, kind, id)) == Some((kind, id))
  {
    var rest := EntryName(kind) + "/" + id + ".json";
    EntryPathShape(baseDir, kind, id);
    ParseEntryOf(kind, id);
    if baseDir != "" {
      CutPrefixOf(baseDir + "/", rest);
    }
  }

  /** Under one base directory, distinct (entity, id) pairs are cached in distinct files. */
  lemma EntryPathInjective(baseDir: string, k1: Kind, id1: string, k2: Kind, id2: string)
    ensures EntryPath(baseDir, k1, id1) == EntryPath(baseDir, k2, id2) <==> k1 == k2 && id1 == id2
  {
    ParseEntryPathOf(baseDir, k1, id1);
    ParseEntryPathOf(baseDir, k2, id2);
  }

  /** The directory of `d/f`, for a file name without slashes, is `d`. */
  lemma {:induction false} DirOfJoin(d: string, f: string)
    requires d != "" && '/' !in f
    ensures Dir(d + "/" + f) == d
    decreases |f|
  {
    var p := d + "/" + f;
    if f == [] {
      assert p[..|p| - 1] == d;
    } else {
      assert p[..|p| - 1] == d + "/" + f[..|f| - 1];
      DirOfJoin(d, f[..|f| - 1]);
    }
  }

  /** The directory MkdirAll creates holds the entry: baseDir/name, for an id without slashes. */
  lemma EntryDir(baseDir: string, kind: Kind, id: string)
    requires '/' !in id
    ensures Dir(EntryPath(baseDir, kind, id)) == PathJoin(baseDir, EntryName(kind))
  {
    assert '/' !in id + ".json";
    DirOfJoin(PathJoin(baseDir, EntryName(kind)), id + ".json");
  }
}
