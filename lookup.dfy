/**
 * A client assembled by NewClient, answering lookups by id through its
 * layers. The outside world is an environment of oracles: the requester's
 * answer to each call, the successive readings of the clock, and the
 * faults the filesystem and the JSON encoder may report. The mutable
 * state is the in-memory store, the files, the directories the cache has
 * created, the log of requester calls and the number of clock readings.
 *
 * `Answer` is the lookup as a function of the state; the methods of
 * `Client` perform it step by step, as the decorators do, and are proved
 * to end in the state and outcome `Answer` gives.
 */
module Lookup {
  import opened Wrappers
  import opened Model
  import opened Types
  import opened Config
  import opened Factory
  import opened ClientApi
  import opened ClientCacheInMem
  import opened ClientCacheFs

  datatype Env = Env(
    /** The requester's response to the n-th call it receives. */
    respond: (nat, Request) -> Response,
    /** The n-th reading of time.Now. */
    clock: nat -> Time,
    /** The error os.ReadFile reports for a path, other than "does not exist". */
    readFault: string -> Option<Error>,
    /** The error json.MarshalIndent reports for a record. */
    marshalFault: Record -> Option<Error>,
    /** The error os.MkdirAll reports for a directory. */
    mkdirFault: string -> Option<Error>,
    /** The error os.WriteFile reports for a path. */
    writeFault: string -> Option<Error>,
    /** The web-service client's answers to the two searches. */
    searchRelease: SearchReleaseRequest -> (SearchReleaseResult, Option<Error>),
    searchReleaseGroup: SearchReleaseGroupRequest -> (SearchReleaseGroupResult, Option<Error>))

  datatype State = State(
    lru: map<string, Record>,
    files: map<string, Content>,
    dirs: set<string>,
    calls: seq<Request>,
    ticks: nat)

  /** What a lookup returns, with the state it leaves behind. */
  datatype Step = Step(out: Outcome, st: State)

  /** The three results of os.ReadFile the filesystem cache tells apart. */
  datatype FileRead = Read(content: Content) | Absent | ReadFailed(e: Error)

  function FileAt(env: Env, files: map<string, Content>, path: string): FileRead {
    if env.readFault(path).Some? then ReadFailed(env.readFault(path).value)
    else if path in files then Read(files[path])
    else Absent
  }

  /** The first of the three faults of persisting a record, in the order the steps run. */
  function FirstFault(marshal: Option<Error>, mkdir: Option<Error>, write: Option<Error>): Option<Error> {
    if marshal.Some? then marshal else if mkdir.Some? then mkdir else write
  }

  /**
   * Persisting a freshly fetched (and restamped) record: encode it, create
   * its directory, write the file, each step only when the one before it
   * succeeded. The record is returned whatever happens.
   */
  function Persist(env: Env, path: string, rec: Record, st: State): Step {
    if env.marshalFault(rec).Some? then Step(Outcome(rec, env.marshalFault(rec)), st)
    else
      var dir := Dir(path);
      if env.mkdirFault(dir).Some? then Step(Outcome(rec, env.mkdirFault(dir)), st)
      else
        var made := st.(dirs := st.dirs + {dir});
        if env.writeFault(path).Some? then Step(Outcome(rec, env.writeFault(path)), made)
        else Step(Outcome(rec, None), made.(files := made.files[path := Encode(rec)]))
  }

  /** clientAPIByID: one requester call, then the record stamped with the next clock reading. */
  function ApiStep(env: Env, st: State, kind: Kind, id: string): Step {
    var q := LookupRequest(kind, id);
    var resp := env.respond(|st.calls|, q);
    Step(LookupOutcome(kind, env.clock(st.ticks), resp), st.(calls := st.calls + [q], ticks := st.ticks + 1))
  }

  /** The in-memory layer after a miss: an inner failure is passed on, a success is stored under the key. */
  function MemAfterMiss(key: string, inner: Step): Step {
    if inner.out.err.Some? then inner
    else Step(inner.out, inner.st.(lru := inner.st.lru[key := inner.out.record]))
  }

  /** The filesystem layer when the file could be read, or could not for a reason other than its absence. */
  function FsRead(kind: Kind, read: FileRead, st: State): Step
    requires !read.Absent?
  {
    match read
    case ReadFailed(e) => Step(Outcome(ZeroRecord(kind), Some(e)), st)
    case Read(c) =>
      match Decode(kind, c)
      case Ok(r) => Step(Outcome(r, None), st)
      case Err(e) => Step(Outcome(ZeroRecord(kind), Some(e)), st)
  }

  /** The filesystem layer after a missing file: an inner failure is passed on, a success is restamped and persisted. */
  function FsAfterMiss(env: Env, path: string, inner: Step): Step {
    if inner.out.err.Some? then inner
    else Persist(env, path, inner.out.record.(date := env.clock(inner.st.ticks)), inner.st.(ticks := inner.st.ticks + 1))
  }

  /** A lookup by id through the layer `l`. */
  function Answer(env: Env, l: Layer, st: State, kind: Kind, id: string): Step
    decreases l
  {
    match l
    case Api(_) => ApiStep(env, st, kind, id)
    case Mem(_, _, inner) =>
      var key := Key(kind, id);
      if key in st.lru then Step(Outcome(st.lru[key], None), st)
      else MemAfterMiss(key, Answer(env, inner, st, kind, id))
    case Fs(baseDir, inner) =>
      var path := EntryPath(baseDir, kind, id);
      var read := FileAt(env, st.files, path);
      if read.Absent? then FsAfterMiss(env, path, Answer(env, inner, st, kind, id))
      else FsRead(kind, read, st)
  }

  /** The in-memory step after a miss returns the inner outcome and changes nothing but the store. */
  lemma MemAfterMissKeeps(key: string, inner: Step)
    ensures MemAfterMiss(key, inner).out == inner.out
    ensures MemAfterMiss(key, inner).st.(lru := inner.st.lru) == inner.st
  {
  }

  /** The filesystem step after a missing file keeps the payload, the store and the requester log. */
  lemma FsAfterMissKeeps(env: Env, path: string, inner: Step)
    ensures FsAfterMiss(env, path, inner).out.record.data == inner.out.record.data
    ensures FsAfterMiss(env, path, inner).st.lru == inner.st.lru
    ensures FsAfterMiss(env, path, inner).st.calls == inner.st.calls
  {
  }

  /** The filesystem step on a file that is there (or unreadable) changes no state and returns the kind asked for. */
  lemma FsReadKeeps(kind: Kind, read: FileRead, st: State)
    requires !read.Absent?
    ensures FsRead(kind, read, st).st == st
    ensures FsRead(kind, read, st).out.record.data.KindOf() == kind
  {
  }

  /**
   * Every lookup returns a record of the kind asked for, and keeps every
   * key of the in-memory store holding a record of its namespace's kind:
   * the type assertion on a hit never fails.
   */
  lemma {:induction false} AnswerKind(env: Env, l: Layer, st: State, kind: Kind, id: string)
    requires WellKinded(st.lru)
    ensures Answer(env, l, st, kind, id).out.record.data.KindOf() == kind
    ensures WellKinded(Answer(env, l, st, kind, id).st.lru)
    decreases l
  {
    match l
    case Api(_) =>
    case Mem(_, _, inner) =>
      var key := Key(kind, id);
      if key !in st.lru {
        AnswerKind(env, inner, st, kind, id);
        var s := Answer(env, inner, st, kind, id);
        MemAfterMissKeeps(key, s);
        if s.out.err.None? {
          WellKindedAdd(s.st.lru, kind, id, s.out.record);
        }
      }
    case Fs(baseDir, inner) =>
      var path := EntryPath(baseDir, kind, id);
      var read := FileAt(env, st.files, path);
      if read.Absent? {
        AnswerKind(env, inner, st, kind, id);
        FsAfterMissKeeps(env, path, Answer(env, inner, st, kind, id));
      } else {
        FsReadKeeps(kind, read, st);
      }
  }

  class Client {
    const env: Env
    const chain: Layer
    var lru: map<string, Record>
    var files: map<string, Content>
    var dirs: set<string>
    var calls: seq<Request>
    var ticks: nat

    function Current(): State
      reads this
    {
      State(lru, files, dirs, calls, ticks)
    }

    ghost predicate Valid()
      reads this
    {
      Canonical(chain) && WellKinded(lru)
    }

    /** NewClient with an empty in-memory store, over the files already on disk. */
    constructor (env: Env, c: Config, dataFolder: string, disk: map<string, Content>)
      ensures this.env == env && chain == NewClient(c, dataFolder)
      ensures Current() == State(map[], disk, {}, [], 0)
      ensures Valid()
    {
      this.env := env;
      chain := NewClient(c, dataFolder);
      lru := map[];
      files := disk;
      dirs := {};
      calls := [];
      ticks := 0;
      NewClientTiers(c, dataFolder);
    }

    method Artist(id: string) returns (record: Record, err: Option<Error>)
      requires Valid()
      modifies this
      ensures Valid()
      ensures Step(Outcome(record, err), Current()) == Answer(env, chain, old(Current()), ArtistKind, id)
      ensures record.data.ArtistData?
    {
      record, err := Get(ArtistKind, id);
    }

    method Release(id: string) returns (record: Record, err: Option<Error>)
      requires Valid()
      modifies this
      ensures Valid()
      ensures Step(Outcome(record, err), Current()) == Answer(env, chain, old(Current()), ReleaseKind, id)
      ensures record.data.ReleaseData?
    {
      record, err := Get(ReleaseKind, id);
    }

    method ReleaseGroup(id: string) returns (record: Record, err: Option<Error>)
      requires Valid()
      modifies this
      ensures Valid()
      ensures Step(Outcome(record, err), Current()) == Answer(env, chain, old(Current()), ReleaseGroupKind, id)
      ensures record.data.ReleaseGroupData?
    {
      record, err := Get(ReleaseGroupKind, id);
    }

    method Get(kind: Kind, id: string) returns (record: Record, err: Option<Error>)
      requires Valid()
      modifies this
      ensures Valid()
      ensures Step(Outcome(record, err), Current()) == Answer(env, chain, old(Current()), kind, id)
      ensures record.data.KindOf() == kind
    {
      AnswerKind(env, chain, Current(), kind, id);
      record, err := Fetch(chain, kind, id);
    }

    /** One lookup through the layer `l`. */
    method Fetch(l: Layer, kind: Kind, id: string) returns (record: Record, err: Option<Error>)
      modifies this
      ensures Step(Outcome(record, err), Current()) == Answer(env, l, old(Current()), kind, id)
      decreases l, 1
    {
      match l
      case Api(_) =>
        record, err := FromApi(l, kind, id);
      case Fs(_, _) =>
        record, err := FromFs(l, kind, id);
      case Mem(_, _, _) =>
        record, err := FromMem(l, kind, id);
    }

    /** getClientCacheInMemEntity. */
    method FromMem(l: Layer, kind: Kind, id: string) returns (record: Record, err: Option<Error>)
      requires l.Mem?
      modifies this
      ensures Step(Outcome(record, err), Current()) == Answer(env, l, old(Current()), kind, id)
      decreases l, 0
    {
      var key := Key(kind, id);
      if key in lru {
        return lru[key], None;
      }
      record, err := Fetch(l.inner, kind, id);
      if err.Some? {
        return;
      }
      lru := lru[key := record];
    }

    /** getClientCacheFSEntity. */
    method FromFs(l: Layer, kind: Kind, id: string) returns (record: Record, err: Option<Error>)
      requires l.Fs?
      modifies this
      ensures Step(Outcome(record, err), Current()) == Answer(env, l, old(Current()), kind, id)
      decreases l, 0
    {
      var filePath := EntryPath(l.baseDir, kind, id);
      var read := ReadFile(filePath);
      match read
      case Absent =>
        record, err := Fetch(l.inner, kind, id);
        ghost var fetched := Current();
        if err.None? {
          var now := Now();
          record := record.(date := now);
          var bytes;
          bytes, err := MarshalIndent(record);
          if err.None? {
            err := MkdirAll(Dir(filePath));
            if err.None? {
              err := WriteFile(filePath, bytes);
            }
          }
          assert Step(Outcome(record, err), Current()) == Persist(env, filePath, record, fetched.(ticks := fetched.ticks + 1));
        }
      case Read(content) =>
        record, err := Unmarshal(kind, content);
      case ReadFailed(e) =>
        record, err := ZeroRecord(kind), Some(e);
    }

    /** clientAPIByID: one requester call, then the record stamped with the current time. */
    method FromApi(l: Layer, kind: Kind, id: string) returns (record: Record, err: Option<Error>)
      requires l.Api?
      modifies this
      ensures Step(Outcome(record, err), Current()) == Answer(env, l, old(Current()), kind, id)
    {
      var resp := Send(LookupRequest(kind, id));
      var now := Now();
      record := Record(now, Typed(kind, resp.body));
      err := resp.err;
    }

    /** The requester: logs the call and returns the environment's response to it. */
    method Send(q: Request) returns (resp: Response)
      modifies this
      ensures resp == env.respond(|old(calls)|, q)
      ensures Current() == old(Current()).(calls := old(calls) + [q])
    {
      resp := env.respond(|calls|, q);
      calls := calls + [q];
    }

    /** time.Now: the next reading of the clock. */
    method Now() returns (t: Time)
      modifies this
      ensures t == env.clock(old(ticks))
      ensures Current() == old(Current()).(ticks := old(ticks) + 1)
    {
      t := env.clock(ticks);
      ticks := ticks + 1;
    }

    /** os.ReadFile. */
    method ReadFile(path: string) returns (r: FileRead)
      ensures r == FileAt(env, files, path)
    {
      r := FileAt(env, files, path);
    }

    /** json.MarshalIndent. */
    method MarshalIndent(rec: Record) returns (bytes: Content, err: Option<Error>)
      ensures bytes == Encode(rec) && err == env.marshalFault(rec)
    {
      bytes, err := Encode(rec), env.marshalFault(rec);
    }

    /** json.Unmarshal into the record type of `kind`; on failure the zero record is returned. */
    method Unmarshal(kind: Kind, c: Content) returns (record: Record, err: Option<Error>)
      ensures Decode(kind, c).Ok? ==> record == Decode(kind, c).value && err.None?
      ensures Decode(kind, c).Err? ==> record == ZeroRecord(kind) && err == Some(Decode(kind, c).error)
    {
      match Decode(kind, c)
      case Ok(r) =>
        record, err := r, None;
      case Err(e) =>
        record, err := ZeroRecord(kind), Some(e);
    }

    /** os.MkdirAll: on success the directory exists. */
    method MkdirAll(dir: string) returns (err: Option<Error>)
      modifies this
      ensures err == env.mkdirFault(dir)
      ensures Current() == if err.None? then old(Current()).(dirs := old(dirs) + {dir}) else old(Current())
    {
      err := env.mkdirFault(dir);
      if err.None? {
        dirs := dirs + {dir};
      }
    }

    /** os.WriteFile: on success the file holds the bytes. */
    method WriteFile(path: string, bytes: Content) returns (err: Option<Error>)
      modifies this
      ensures err == env.writeFault(path)
      ensures Current() == if err.None? then old(Current()).(files := old(files)[path := bytes]) else old(Current())
    {
      err := env.writeFault(path);
      if err.None? {
        files := files[path := bytes];
      }
    }

    /** Eviction and expiry in the in-memory store: some entries may go, nothing else changes. */
    method Evict(drop: set<string>)
      requires Valid()
      modifies this
      ensures Valid()
      ensures Current() == old(Current()).(lru := old(lru) - drop)
    {
      lru := lru - drop;
      WellKindedDrop(old(lru), drop);
    }

    /** SearchRelease: no cache layer overrides it, so every layer hands it to the one it wraps. */
    method SearchRelease(req: SearchReleaseRequest) returns (result: SearchReleaseResult, err: Option<Error>)
      ensures (result, err) == env.searchRelease(req)
    {
      result, err := SearchReleaseVia(chain, req);
    }

    method SearchReleaseVia(l: Layer, req: SearchReleaseRequest) returns (result: SearchReleaseResult, err: Option<Error>)
      ensures (result, err) == env.searchRelease(req)
      decreases l
    {
      match l
      case Api(_) =>
        result, err := env.searchRelease(req).0, env.searchRelease(req).1;
      case Fs(_, inner) =>
        result, err := SearchReleaseVia(inner, req);
      case Mem(_, _, inner) =>
        result, err := SearchReleaseVia(inner, req);
    }

    /** SearchReleaseGroup, passed down the same way. */
    method SearchReleaseGroup(req: SearchReleaseGroupRequest) returns (result: SearchReleaseGroupResult, err: Option<Error>)
      ensures (result, err) == env.searchReleaseGroup(req)
    {
      result, err := SearchReleaseGroupVia(chain, req);
    }

    method SearchReleaseGroupVia(l: Layer, req: SearchReleaseGroupRequest)
      returns (result: SearchReleaseGroupResult, err: Option<Error>)
      ensures (result, err) == env.searchReleaseGroup(req)
      decreases l
    {
      match l
      case Api(_) =>
        result, err := env.searchReleaseGroup(req).0, env.searchReleaseGroup(req).1;
      case Fs(_, inner) =>
        result, err := SearchReleaseGroupVia(inner, req);
      case Mem(_, _, inner) =>
        result, err := SearchReleaseGroupVia(inner, req);
    }
  }
}
