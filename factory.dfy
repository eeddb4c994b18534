/**
 * How NewClient stacks the client: the web-service client over the rate
 * limiter over the HTTP transport, optionally wrapped in the filesystem
 * cache, optionally wrapped in the in-memory cache.
 */
module Factory {
  import opened Text
  import opened Config

  /** The resty client with the settings NewClient gives it. */
  datatype Transport = Resty(
    baseUrl: string,
    timeout: Duration,
    userAgent: string,
    retryCount: int,
    retryWaitTime: Duration,
    retryMaxWaitTime: Duration)

  /** requesterLimiter: a token bucket in front of the transport. */
  datatype Requester = Limiter(rateLimit: real, rateBurst: int, transport: Transport)

  /** One client layer; the caches wrap the client they delegate to. */
  datatype Layer =
    | Api(requester: Requester)
    | Fs(baseDir: string, inner: Layer)
    | Mem(size: int, ttl: Duration, inner: Layer)

  /** The sub-folder of the data folder the filesystem cache writes under. */
  const CacheFolder: string := "musicbrainz"

  function RequesterFor(c: Config): Requester {
    Limiter(c.rateLimit, c.rateBurst, Resty(c.baseUrl, c.timeout, c.userAgent, c.retryCount, c.retryWaitTime, c.retryMaxWaitTime))
  }

  /**
   * NewClient. `dataFolder` is the host application's configured data
   * folder, a global the factory reads; the configured BaseDir only
   * switches the filesystem layer on.
   */
  function NewClient(c: Config, dataFolder: string): (l: Layer)
    ensures Innermost(l) == RequesterFor(c)
    ensures Canonical(l)
  {
    var client := Api(RequesterFor(c));
    var client := if c.fsBaseDir != "" then Fs(PathJoin(dataFolder, CacheFolder), client) else client;
    assert Innermost(client) == RequesterFor(c);
    if c.lruSize > 0 then Mem(c.lruSize, c.lruTtl, client) else client
  }

  datatype Tier = MemTier | FsTier | ApiTier

  /** The layers of a client, outermost first. */
  function Tiers(l: Layer): (ts: seq<Tier>)
    ensures ts != [] && ts[|ts| - 1] == ApiTier
  {
    match l
    case Api(_) => [ApiTier]
    case Fs(_, inner) => [FsTier] + Tiers(inner)
    case Mem(_, _, inner) => [MemTier] + Tiers(inner)
  }

  /** The requester at the bottom of a client. */
  function Innermost(l: Layer): Requester {
    match l
    case Api(r) => r
    case Fs(_, inner) => Innermost(inner)
    case Mem(_, _, inner) => Innermost(inner)
  }

  /** The directories of the filesystem layers, outermost first. */
  function FsDirs(l: Layer): seq<string> {
    match l
    case Api(_) => []
    case Fs(dir, inner) => [dir] + FsDirs(inner)
    case Mem(_, _, inner) => FsDirs(inner)
  }

  predicate NoMem(l: Layer) {
    MemTier !in Tiers(l)
  }

  /**
   * The shapes NewClient builds: at most one in-memory layer, outermost,
   * over at most one filesystem layer, over the web-service client.
   */
  predicate Canonical(l: Layer) {
    match l
    case Api(_) => true
    case Fs(_, inner) => inner.Api?
    case Mem(_, _, inner) => inner.Api? || (inner.Fs? && inner.inner.Api?)
  }

  /**
   * Which layers NewClient stacks, and in which order: in-memory iff the
   * size is positive, filesystem iff BaseDir is set, the web-service
   * client last; and the result is one of the canonical shapes.
   */
  lemma NewClientTiers(c: Config, dataFolder: string)
    ensures MemTier in Tiers(NewClient(c, dataFolder)) <==> c.lruSize > 0
    ensures FsTier in Tiers(NewClient(c, dataFolder)) <==> c.fsBaseDir != ""
    ensures Tiers(NewClient(c, dataFolder)) ==
      (if c.lruSize > 0 then [MemTier] else []) + (if c.fsBaseDir != "" then [FsTier] else []) + [ApiTier]
    ensures Canonical(NewClient(c, dataFolder))
  {
    var api := Api(RequesterFor(c));
    var mid := if c.fsBaseDir != "" then Fs(PathJoin(dataFolder, CacheFolder), api) else api;
    assert Tiers(mid) == (if c.fsBaseDir != "" then [FsTier] else []) + [ApiTier];
    assert NewClient(c, dataFolder) == if c.lruSize > 0 then Mem(c.lruSize, c.lruTtl, mid) else mid;
  }

  /** The bottom of every client is the limiter over the transport, configured from the config. */
  lemma NewClientInnermost(c: Config, dataFolder: string)
    ensures Innermost(NewClient(c, dataFolder)).rateLimit == c.rateLimit
    ensures Innermost(NewClient(c, dataFolder)).rateBurst == c.rateBurst
    ensures Innermost(NewClient(c, dataFolder)).transport ==
      Resty(c.baseUrl, c.timeout, c.userAgent, c.retryCount, c.retryWaitTime, c.retryMaxWaitTime)
  {
    var api := Api(RequesterFor(c));
    var mid := if c.fsBaseDir != "" then Fs(PathJoin(dataFolder, CacheFolder), api) else api;
    assert Innermost(mid) == RequesterFor(c);
    assert NewClient(c, dataFolder) == if c.lruSize > 0 then Mem(c.lruSize, c.lruTtl, mid) else mid;
  }

  /** The filesystem layer writes under dataFolder/musicbrainz, whatever BaseDir says. */
  lemma NewClientFsDir(c: Config, dataFolder: string, otherBaseDir: string)
    requires otherBaseDir != ""
    ensures FsDirs(NewClient(c, dataFolder)) == (if c.fsBaseDir != "" then [PathJoin(dataFolder, CacheFolder)] else [])
    ensures c.fsBaseDir != "" ==> NewClient(c.(fsBaseDir := otherBaseDir), dataFolder) == NewClient(c, dataFolder)
  {
    var api := Api(RequesterFor(c));
    var mid := if c.fsBaseDir != "" then Fs(PathJoin(dataFolder, CacheFolder), api) else api;
    assert FsDirs(mid) == (if c.fsBaseDir != "" then [PathJoin(dataFolder, CacheFolder)] else []);
    assert NewClient(c, dataFolder) == if c.lruSize > 0 then Mem(c.lruSize, c.lruTtl, mid) else mid;
  }

  /** The in-memory layer, when present, is the outermost and has the configured size and time to live. */
  lemma NewClientMem(c: Config, dataFolder: string)
    ensures NewClient(c, dataFolder).Mem? <==> c.lruSize > 0
    ensures c.lruSize > 0 ==> NewClient(c, dataFolder).size == c.lruSize && NewClient(c, dataFolder).ttl == c.lruTtl
  {
  }

  /** The default configuration: a 1000-entry, ten-minute in-memory layer directly over the web-service client. */
  lemma DefaultClient(dataFolder: string)
    ensures NewClient(DefaultConfig(), dataFolder) == Mem(1000, 10 * Minute, Api(RequesterFor(DefaultConfig())))
    ensures Innermost(NewClient(DefaultConfig(), dataFolder)) ==
      Limiter(1.0, 3, Resty("https://musicbrainz.org/ws/2", 30 * Second, "go-musicbrainz-clientAPI", 20, 5 * Second, 60 * Second))
  {
  }
}
