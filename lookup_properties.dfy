/**
 * What the layers promise about a lookup, stated on `Answer`: hits are
 * returned as stored without delegating, failures store nothing,
 * successes store exactly the fetched record, the filesystem cache
 * restamps and persists, the web-service client is called at most once,
 * and a lookup repeated after a success is served from the cache.
 */
module LookupProperties {
  import opened Wrappers
  import opened Model
  import opened Types
  import opened Config
  import opened Factory
  import opened ClientApi
  import opened ClientCacheInMem
  import opened ClientCacheFs
  import opened Lookup

  // ---------------------------------------------------------------------
  // What a layer does not touch
  // ---------------------------------------------------------------------

  /** Below the in-memory layer nothing writes to the in-memory store. */
  lemma {:induction false} NoMemKeepsStore(env: Env, l: Layer, st: State, kind: Kind, id: string)
    requires NoMem(l)
    ensures Answer(env, l, st, kind, id).st.lru == st.lru
    decreases l
  {
    match l
    case Api(_) =>
    case Fs(baseDir, inner) =>
      assert Tiers(l) == [FsTier] + Tiers(inner);
      var path := EntryPath(baseDir, kind, id);
      var read := FileAt(env, st.files, path);
      if read.Absent? {
        NoMemKeepsStore(env, inner, st, kind, id);
        FsAfterMissKeeps(env, path, Answer(env, inner, st, kind, id));
      } else {
        FsReadKeeps(kind, read, st);
      }
  }

  /** Without a filesystem layer no file is written and no directory made. */
  lemma {:induction false} NoFsKeepsFiles(env: Env, l: Layer, st: State, kind: Kind, id: string)
    requires FsTier !in Tiers(l)
    ensures Answer(env, l, st, kind, id).st.files == st.files
    ensures Answer(env, l, st, kind, id).st.dirs == st.dirs
    decreases l
  {
    match l
    case Api(_) =>
    case Fs(_, _) =>
    case Mem(_, _, inner) =>
      assert Tiers(l) == [MemTier] + Tiers(inner);
      var key := Key(kind, id);
      if key !in st.lru {
        NoFsKeepsFiles(env, inner, st, kind, id);
        MemAfterMissKeeps(key, Answer(env, inner, st, kind, id));
      }
  }

  // ---------------------------------------------------------------------
  // Requester calls
  // ---------------------------------------------------------------------

  /** Whether a lookup gets past every cache layer down to the web-service client. */
  predicate ReachesApi(env: Env, l: Layer, st: State, kind: Kind, id: string)
    decreases l
  {
    match l
    case Api(_) => true
    case Mem(_, _, inner) => Key(kind, id) !in st.lru && ReachesApi(env, inner, st, kind, id)
    case Fs(baseDir, inner) =>
      FileAt(env, st.files, EntryPath(baseDir, kind, id)).Absent? && ReachesApi(env, inner, st, kind, id)
  }

  /**
   * A lookup calls the requester at most once: exactly once, with the
   * lookup's request, when every cache misses, and not at all otherwise.
   */
  lemma {:induction false} CallLog(env: Env, l: Layer, st: State, kind: Kind, id: string)
    ensures Answer(env, l, st, kind, id).st.calls ==
      st.calls + (if ReachesApi(env, l, st, kind, id) then [LookupRequest(kind, id)] else [])
    decreases l
  {
    match l
    case Api(_) =>
    case Mem(_, _, inner) =>
      var key := Key(kind, id);
      if key !in st.lru {
        CallLog(env, inner, st, kind, id);
        MemAfterMissKeeps(key, Answer(env, inner, st, kind, id));
      }
    case Fs(baseDir, inner) =>
      var path := EntryPath(baseDir, kind, id);
      var read := FileAt(env, st.files, path);
      if read.Absent? {
        CallLog(env, inner, st, kind, id);
        FsAfterMissKeeps(env, path, Answer(env, inner, st, kind, id));
      } else {
        FsReadKeeps(kind, read, st);
      }
  }

  /** The web-service client: one call with the lookup's request; the record is stamped and typed even when the call fails, and the error passes through. */
  lemma ApiLookup(env: Env, r: Requester, st: State, kind: Kind, id: string)
    ensures var s := Answer(env, Api(r), st, kind, id);
      var resp := env.respond(|st.calls|, LookupRequest(kind, id));
      && s.st.calls == st.calls + [LookupRequest(kind, id)]
      && s.out.record == Record(env.clock(st.ticks), Typed(kind, resp.body))
      && s.out.err == resp.err
      && s.st.lru == st.lru && s.st.files == st.files && s.st.dirs == st.dirs
  {
  }

  // ---------------------------------------------------------------------
  // The in-memory layer
  // ---------------------------------------------------------------------

  /** A hit returns the stored record, date included, with no error, and changes nothing: the inner client is not asked. */
  lemma MemHit(env: Env, size: int, ttl: Duration, inner: Layer, st: State, kind: Kind, id: string)
    requires Key(kind, id) in st.lru
    ensures Answer(env, Mem(size, ttl, inner), st, kind, id) == Step(Outcome(st.lru[Key(kind, id)], None), st)
  {
  }

  /** A miss whose inner lookup fails returns the inner record and error unchanged and stores nothing. */
  lemma MemMissFails(env: Env, size: int, ttl: Duration, inner: Layer, st: State, kind: Kind, id: string)
    requires Key(kind, id) !in st.lru && NoMem(inner)
    requires Answer(env, inner, st, kind, id).out.err.Some?
    ensures Answer(env, Mem(size, ttl, inner), st, kind, id) == Answer(env, inner, st, kind, id)
    ensures Answer(env, Mem(size, ttl, inner), st, kind, id).st.lru == st.lru
  {
    NoMemKeepsStore(env, inner, st, kind, id);
  }

  /**
   * A miss whose inner lookup succeeds returns the inner record with no
   * error; the store gains that record under the key and no other key
   * changes.
   */
  lemma MemMissStores(env: Env, size: int, ttl: Duration, inner: Layer, st: State, kind: Kind, id: string)
    requires Key(kind, id) !in st.lru && NoMem(inner)
    requires Answer(env, inner, st, kind, id).out.err.None?
    ensures var s := Answer(env, Mem(size, ttl, inner), st, kind, id);
      var t := Answer(env, inner, st, kind, id);
      && s.out == Outcome(t.out.record, None)
      && s.st.lru == st.lru[Key(kind, id) := t.out.record]
      && s.st.(lru := st.lru) == t.st
      && (forall k :: k != Key(kind, id) ==> (k in s.st.lru <==> k in st.lru))
      && (forall k :: k != Key(kind, id) && k in st.lru ==> s.st.lru[k] == st.lru[k])
  {
    NoMemKeepsStore(env, inner, st, kind, id);
  }

  /** Right after a successful lookup, the same lookup is a hit: the same record, no error, nothing changes. */
  lemma MemRepeat(env: Env, size: int, ttl: Duration, inner: Layer, st: State, kind: Kind, id: string)
    requires Answer(env, Mem(size, ttl, inner), st, kind, id).out.err.None?
    ensures var s := Answer(env, Mem(size, ttl, inner), st, kind, id);
      Answer(env, Mem(size, ttl, inner), s.st, kind, id) == Step(s.out, s.st)
  {
  }

  // ---------------------------------------------------------------------
  // The filesystem layer
  // ---------------------------------------------------------------------

  /** A file that decodes is returned as stored, date included; nothing is fetched, written or read from the clock. */
  lemma FsHit(env: Env, baseDir: string, inner: Layer, st: State, kind: Kind, id: string, c: Content)
    requires FileAt(env, st.files, EntryPath(baseDir, kind, id)) == Read(c)
    requires Decode(kind, c).Ok?
    ensures Answer(env, Fs(baseDir, inner), st, kind, id) == Step(Outcome(Decode(kind, c).value, None), st)
  {
  }

  /** A file that does not decode is an error, not a miss: the zero record and the decode error, and nothing else happens. */
  lemma FsCorrupt(env: Env, baseDir: string, inner: Layer, st: State, kind: Kind, id: string, c: Content)
    requires FileAt(env, st.files, EntryPath(baseDir, kind, id)) == Read(c)
    requires Decode(kind, c).Err?
    ensures Answer(env, Fs(baseDir, inner), st, kind, id) == Step(Outcome(ZeroRecord(kind), Some(MalformedJson)), st)
  {
  }

  /** A read error other than "does not exist" is returned with the zero record; nothing is fetched or written. */
  lemma FsReadError(env: Env, baseDir: string, inner: Layer, st: State, kind: Kind, id: string)
    requires env.readFault(EntryPath(baseDir, kind, id)).Some?
    ensures Answer(env, Fs(baseDir, inner), st, kind, id) ==
      Step(Outcome(ZeroRecord(kind), env.readFault(EntryPath(baseDir, kind, id))), st)
  {
  }

  /** A missing file whose inner lookup fails: the inner record and error are returned, and no file is written. */
  lemma FsAbsentFails(env: Env, baseDir: string, inner: Layer, st: State, kind: Kind, id: string)
    requires FileAt(env, st.files, EntryPath(baseDir, kind, id)).Absent?
    requires FsTier !in Tiers(inner)
    requires Answer(env, inner, st, kind, id).out.err.Some?
    ensures Answer(env, Fs(baseDir, inner), st, kind, id) == Answer(env, inner, st, kind, id)
    ensures Answer(env, Fs(baseDir, inner), st, kind, id).st.files == st.files
  {
    NoFsKeepsFiles(env, inner, st, kind, id);
  }

  /**
   * Persisting a record returns it; the error is the first fault of
   * encoding, making the directory and writing; the file holds the
   * record's encoding exactly when there was no fault, and is left alone
   * otherwise; the store, the requester log and the clock are untouched.
   */
  lemma PersistFacts(env: Env, path: string, rec: Record, st: State)
    ensures var s := Persist(env, path, rec, st);
      && s.out.record == rec
      && s.out.err == FirstFault(env.marshalFault(rec), env.mkdirFault(Dir(path)), env.writeFault(path))
      && (s.out.err.None? ==> s.st.files == st.files[path := Encode(rec)])
      && (s.out.err.Some? ==> s.st.files == st.files)
      && s.st.calls == st.calls && s.st.lru == st.lru && s.st.ticks == st.ticks
  {
  }

  /**
   * A missing file whose inner lookup succeeds: the fetched record is
   * restamped with the next clock reading and persisted as PersistFacts
   * describes, and that restamped record is what the lookup returns.
   */
  lemma FsAbsentPersists(env: Env, baseDir: string, inner: Layer, st: State, kind: Kind, id: string)
    requires FileAt(env, st.files, EntryPath(baseDir, kind, id)).Absent?
    requires Answer(env, inner, st, kind, id).out.err.None?
    ensures var path := EntryPath(baseDir, kind, id);
      var t := Answer(env, inner, st, kind, id);
      var rec := t.out.record.(date := env.clock(t.st.ticks));
      var s := Answer(env, Fs(baseDir, inner), st, kind, id);
      && s.out.record == rec
      && s.out.err == FirstFault(env.marshalFault(rec), env.mkdirFault(Dir(path)), env.writeFault(path))
      && (s.out.err.None? ==> s.st.files == t.st.files[path := Encode(rec)])
      && (s.out.err.Some? ==> s.st.files == t.st.files)
      && s.st.calls == t.st.calls && s.st.lru == t.st.lru && s.st.ticks == t.st.ticks + 1
  {
    var path := EntryPath(baseDir, kind, id);
    var t := Answer(env, inner, st, kind, id);
    var rec := t.out.record.(date := env.clock(t.st.ticks));
    assert Answer(env, Fs(baseDir, inner), st, kind, id) == Persist(env, path, rec, t.st.(ticks := t.st.ticks + 1));
    PersistFacts(env, path, rec, t.st.(ticks := t.st.ticks + 1));
  }

  /**
   * Round trip: after a lookup that fetched and persisted a record, the
   * same lookup reads that record back from the file, with its new date,
   * and nothing is fetched or written.
   */
  lemma FsRoundTrip(env: Env, baseDir: string, inner: Layer, st: State, kind: Kind, id: string)
    requires WellKinded(st.lru)
    requires FileAt(env, st.files, EntryPath(baseDir, kind, id)).Absent?
    requires Answer(env, Fs(baseDir, inner), st, kind, id).out.err.None?
    ensures var s := Answer(env, Fs(baseDir, inner), st, kind, id);
      Answer(env, Fs(baseDir, inner), s.st, kind, id) == Step(s.out, s.st)
  {
    var path := EntryPath(baseDir, kind, id);
    AnswerKind(env, inner, st, kind, id);
    var s := Answer(env, Fs(baseDir, inner), st, kind, id);
    assert FileAt(env, s.st.files, path) == Read(Encode(s.out.record));
    DecodeEncode(s.out.record);
  }

  // ---------------------------------------------------------------------
  // The whole client
  // ---------------------------------------------------------------------

  /**
   * Under the default configuration a lookup is a hit that sends nothing,
   * or a miss that sends exactly the lookup's request; after a success
   * the record is in the store under its key.
   */
  lemma DefaultClientLookup(env: Env, dataFolder: string, st: State, kind: Kind, id: string)
    ensures var s := Answer(env, NewClient(DefaultConfig(), dataFolder), st, kind, id);
      && (Key(kind, id) in st.lru ==> s == Step(Outcome(st.lru[Key(kind, id)], None), st))
      && (Key(kind, id) !in st.lru ==> s.st.calls == st.calls + [LookupRequest(kind, id)])
      && (s.out.err.None? ==> Key(kind, id) in s.st.lru && s.st.lru[Key(kind, id)] == s.out.record)
  {
    DefaultClient(dataFolder);
    var l := NewClient(DefaultConfig(), dataFolder);
    CallLog(env, l, st, kind, id);
  }
}
