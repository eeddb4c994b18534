/**
 * The keys of the in-memory read-through cache, and the invariant that
 * makes its type assertion safe: every key holds a record of the kind
 * its namespace names.
 */
module ClientCacheInMem {
  import opened Wrappers
  import opened Text
  import opened Model

  /** The namespace each per-entity wrapper passes; "releasegroup" has no hyphen. */
  function Namespace(kind: Kind): string {
    match kind
    case ArtistKind => "artist"
    case ReleaseKind => "release"
    case ReleaseGroupKind => "releasegroup"
  }

  /** The cache key: namespace, an underscore, the id. */
  function Key(kind: Kind, id: string): string {
    Namespace(kind) + "_" + id
  }

  /** Reads a key back into the kind and id it was built from. */
  function ParseKey(key: string): Option<(Kind, string)> {
    match CutPrefix(key, "artist_")
    case Some(id) => Some((ArtistKind, id))
    case None =>
      match CutPrefix(key, "release_")
      case Some(id) => Some((ReleaseKind, id))
      case None =>
        match CutPrefix(key, "releasegroup_")
        case Some(id) => Some((ReleaseGroupKind, id))
        case None => None
  }

  /** ParseKey inverts Key. */
  lemma ParseKeyOf(kind: Kind, id: string)
    ensures ParseKey(Key(kind, id)) == Some((kind, id))
  {
    var key := Key(kind, id);
    match kind
    case ArtistKind =>
      assert key == "artist_" + id;
      CutPrefixOf("artist_", id);
    case ReleaseKind =>
      assert key == "release_" + id;
      NotPrefixAt(key, "artist_", 0);
      CutPrefixOf("release_", id);
    case ReleaseGroupKind =>
      assert key == "releasegroup_" + id;
      NotPrefixAt(key, "artist_", 0);
      NotPrefixAt(key, "release_", 7);
      CutPrefixOf("releasegroup_", id);
  }

  /** Distinct (entity, id) pairs give distinct keys. */
  lemma KeyInjective(k1: Kind, id1: string, k2: Kind, id2: string)
    ensures Key(k1, id1) == Key(k2, id2) <==> k1 == k2 && id1 == id2
  {
    ParseKeyOf(k1, id1);
    ParseKeyOf(k2, id2);
  }

  /** Every key of the store maps to a record of the kind its namespace names. */
  ghost predicate WellKinded(lru: map<string, Record>) {
    forall kind: Kind, id: string :: Key(kind, id) in lru ==> lru[Key(kind, id)].data.KindOf() == kind
  }

  /** Storing a record of the right kind under its key keeps the store well kinded. */
  lemma WellKindedAdd(lru: map<string, Record>, kind: Kind, id: string, r: Record)
    requires WellKinded(lru) && r.data.KindOf() == kind
    ensures WellKinded(lru[Key(kind, id) := r])
  {
    var lru' := lru[Key(kind, id) := r];
    forall k: Kind, i: string | Key(k, i) in lru'
      ensures lru'[Key(k, i)].data.KindOf() == k
    {
      KeyInjective(k, i, kind, id);
    }
  }

  /** Dropping entries, as eviction and expiry do, keeps the store well kinded. */
  lemma WellKindedDrop(lru: map<string, Record>, drop: set<string>)
    requires WellKinded(lru)
    ensures WellKinded(lru - drop)
  {
  }
}
