/** The client configuration and its defaults. Durations are in nanoseconds, as Go's time.Duration. */
module Config {
  type Duration = int

  const Second: Duration := 1_000_000_000
  const Minute: Duration := 60 * Second

  datatype Config = Config(
    fsBaseDir: string,
    lruSize: int,
    lruTtl: Duration,
    baseUrl: string,
    userAgent: string,
    retryCount: int,
    retryWaitTime: Duration,
    retryMaxWaitTime: Duration,
    rateLimit: real,
    rateBurst: int,
    timeout: Duration)

  /** rate.Every(interval): the number of events per second one every `interval` allows. */
  function Every(interval: Duration): real
    requires interval > 0
  {
    Second as real / interval as real
  }

  /** NewDefaultConfig: no filesystem cache, a 1000-entry in-memory cache kept for ten minutes. */
  function DefaultConfig(): (c: Config)
    ensures c.fsBaseDir == "" && c.lruSize == 1000 && c.lruTtl == 600 * Second
    ensures c.rateLimit == 1.0 && c.rateBurst == 3
    ensures c.retryCount == 20 && c.retryWaitTime == 5 * Second && c.retryMaxWaitTime == 60 * Second
    ensures c.timeout == 30 * Second
  {
    Config(
      fsBaseDir := "",
      lruSize := 1000,
      lruTtl := Minute * 10,
      baseUrl := "https://musicbrainz.org/ws/2",
      userAgent := "go-musicbrainz-clientAPI",
      retryCount := 20,
      retryWaitTime := 5 * Second,
      retryMaxWaitTime := 60 * Second,
      rateLimit := Every(Second),
      rateBurst := 3,
      timeout := 30 * Second)
  }
}
