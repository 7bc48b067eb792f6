/**
 * The two caches of the player display metrics as a value, and the effect of
 * each getter and of the invalidation hook on it. The class in module Player
 * is proved to follow these functions step by step.
 */
module Cache {
  import opened Wrappers
  import opened Metrics

  /**
   * `ratio` is `_devicePixelRatio` (0 means unset); `metrics` is `_viewMetrics`.
   * The two counters record how often a getter went past its cache to the
   * platform branch; they exist only to state the caching guarantees.
   */
  datatype Cache = Cache(ratio: real, metrics: Option<ViewMetrics>, ratioQueries: nat, metricsQueries: nat)

  /** A freshly constructed instance: ratio unset, metrics absent, nothing queried. */
  const Initial := Cache(0.0, None, 0, 0)

  /**
   * The ratio is never negative, and it has been queried exactly once if it is
   * set and never otherwise.
   */
  predicate Coherent(c: Cache) {
    c.ratio >= 0.0 && c.ratioQueries == (if c.ratio > 0.0 then 1 else 0)
  }

  /** What `_devicePixelRatio` holds after the compiled platform branch assigned it (if any). */
  function AfterPlatformBranch(p: Platform, stored: real, host: Host): (r: real)
    ensures p != Other ==> r == host.ratio
    ensures p == Other ==> r == stored
  {
    match p
    case Android => host.ratio
    case WebGL => host.ratio
    case IOS => host.ratio
    case Other => stored
  }

  /** The `devicePixelRatio` getter: the new cache and the value returned. */
  function ReadRatio(p: Platform, c: Cache, host: Host): (res: (Cache, real))
    ensures res.1 > 0.0 && res.0.ratio == res.1
    ensures c.ratio > 0.0 ==> res == (c, c.ratio)
    ensures c.ratio <= 0.0 && (p == Other || host.ratio <= 0.0) ==> res.1 == 1.0
    ensures c.ratio <= 0.0 && p != Other && host.ratio > 0.0 ==> res.1 == host.ratio
    ensures c.ratio <= 0.0 ==> res.0.ratioQueries == c.ratioQueries + 1
    ensures res.0.metrics == c.metrics && res.0.metricsQueries == c.metricsQueries
  {
    if c.ratio > 0.0 then (c, c.ratio)
    else
      var fetched := AfterPlatformBranch(p, c.ratio, host);
      var r := if fetched <= 0.0 then 1.0 else fetched;
      (c.(ratio := r, ratioQueries := c.ratioQueries + 1), r)
  }

  /** The `viewMetrics` getter: the new cache and the structure returned. */
  function ReadMetrics(p: Platform, c: Cache, host: Host): (res: (Cache, ViewMetrics))
    ensures res.0.metrics == Some(res.1)
    ensures c.metrics.Some? ==> res == (c, c.metrics.value)
    ensures c.metrics.None? ==> res.1 == Normalize(p, host) && res.0.metricsQueries == c.metricsQueries + 1
    ensures res.0.ratio == c.ratio && res.0.ratioQueries == c.ratioQueries
  {
    match c.metrics
    case Some(m) => (c, m)
    case None =>
      var m := Normalize(p, host);
      (c.(metrics := Some(m), metricsQueries := c.metricsQueries + 1), m)
  }

  /** `onViewMetricsChanged`: the metrics cache is dropped, nothing else moves. */
  function Invalidate(c: Cache): (c': Cache)
    ensures c'.metrics.None?
    ensures c'.ratio == c.ratio && c'.ratioQueries == c.ratioQueries && c'.metricsQueries == c.metricsQueries
    ensures Coherent(c) ==> Coherent(c')
  {
    c.(metrics := None)
  }

  /** Reads of the ratio keep the cache coherent. */
  lemma ReadRatioKeepsCoherent(p: Platform, c: Cache, host: Host)
    requires Coherent(c)
    ensures Coherent(ReadRatio(p, c, host).0)
  {
  }

  /** Invalidating twice is the same as invalidating once. */
  lemma InvalidateIdempotent(c: Cache)
    ensures Invalidate(Invalidate(c)) == Invalidate(c)
  {
  }

  /**
   * After an invalidation the next metrics read queries the platform branch
   * exactly once and returns what it yields; the ratio cache is untouched.
   */
  lemma InvalidateThenReadRequeries(p: Platform, c: Cache, host: Host)
    ensures Invalidate(c).ratio == c.ratio && Invalidate(c).ratioQueries == c.ratioQueries
    ensures ReadMetrics(p, Invalidate(c), host).1 == Normalize(p, host)
    ensures ReadMetrics(p, Invalidate(c), host).0.metricsQueries == c.metricsQueries + 1
  {
  }
}
