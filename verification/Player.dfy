/**
 * `PlayerDisplayMetrics`: the lazily filled caches in front of the native
 * display queries, as a class whose getters update its two fields in place.
 * The platform is fixed when the instance is built (one branch per build);
 * the native answers a getter would obtain are passed in as a `Host` value.
 */
module Player {
  import opened Wrappers
  import opened Metrics
  import opened Cache

  class PlayerDisplayMetrics {
    const platform: Platform
    /** `_devicePixelRatio`; 0 means unset. */
    var storedRatio: real
    /** `_viewMetrics`; `None` is the null of the nullable struct. */
    var storedMetrics: Option<ViewMetrics>
    /** How many times each getter went past its cache. */
    ghost var ratioQueries: nat
    ghost var metricsQueries: nat

    /** The instance's state as a `Cache` value. */
    ghost function State(): Cache
      reads this
    {
      Cache(storedRatio, storedMetrics, ratioQueries, metricsQueries)
    }

    ghost predicate Valid()
      reads this
    {
      Coherent(State())
    }

    constructor (platform: Platform)
      ensures this.platform == platform
      ensures State() == Initial && Valid()
    {
      this.platform := platform;
      storedRatio := 0.0;
      storedMetrics := None;
      ratioQueries := 0;
      metricsQueries := 0;
    }

    /** Lifecycle hook; does nothing. */
    method OnEnable()
      ensures unchanged(this)
    {
    }

    /** Lifecycle hook; does nothing. */
    method OnGUI()
      ensures unchanged(this)
    {
    }

    /** Lifecycle hook; does nothing. */
    method Update()
      ensures unchanged(this)
    {
    }

    /** Marks the view metrics dirty; the pixel ratio cache is left alone. */
    method OnViewMetricsChanged()
      modifies this`storedMetrics
      ensures State() == Invalidate(old(State()))
      ensures storedMetrics.None? && storedRatio == old(storedRatio)
    {
      storedMetrics := None;
    }

    /** The `devicePixelRatio` getter. */
    method DevicePixelRatio(host: Host) returns (r: real)
      requires Valid()
      modifies this`storedRatio, this`ratioQueries
      ensures Valid()
      ensures (State(), r) == ReadRatio(platform, old(State()), host)
      ensures r > 0.0 && storedRatio == r
      ensures old(storedRatio) > 0.0 ==> r == old(storedRatio) && ratioQueries == old(ratioQueries)
    {
      if storedRatio > 0.0 {
        return storedRatio;
      }
      ratioQueries := ratioQueries + 1;
      match platform {
        case Android => storedRatio := host.ratio;
        case WebGL => storedRatio := host.ratio;
        case IOS => storedRatio := host.ratio;
        case Other =>
      }
      if storedRatio <= 0.0 {
        storedRatio := 1.0;
      }
      r := storedRatio;
    }

    /** The `viewMetrics` getter. */
    method ViewMetrics(host: Host) returns (m: ViewMetrics)
      requires Valid()
      modifies this`storedMetrics, this`metricsQueries
      ensures Valid()
      ensures (State(), m) == ReadMetrics(platform, old(State()), host)
      ensures storedMetrics == Some(m)
      ensures old(storedMetrics).Some? ==> m == old(storedMetrics).value && metricsQueries == old(metricsQueries)
    {
      if storedMetrics.Some? {
        return storedMetrics.value;
      }
      metricsQueries := metricsQueries + 1;
      match platform {
        case Android =>
          var l := host.listener;
          storedMetrics := Some(Metrics.ViewMetrics(
            ToReal(l.top), ToReal(l.bottom), ToReal(l.left), ToReal(l.right), 0.0, 0.0, 0.0, 0.0));
        case WebGL =>
          storedMetrics := Some(Zero);
        case IOS =>
          var viewport := host.viewport;
          storedMetrics := Some(viewport);
        case Other =>
          storedMetrics := Some(Zero);
      }
      m := storedMetrics.value;
    }

    /**
     * The `viewPadding` getter. Like the original it goes through the metrics
     * getter once per field; only the first of those four reads can miss.
     */
    method ViewPadding(host: Host) returns (w: WindowPadding)
      requires Valid()
      modifies this`storedMetrics, this`metricsQueries
      ensures Valid()
      ensures State() == ReadMetrics(platform, old(State()), host).0
      ensures w == PaddingOf(ReadMetrics(platform, old(State()), host).1)
      ensures old(storedMetrics).Some? ==> unchanged(this)
    {
      var left := ViewMetrics(host);
      var top := ViewMetrics(host);
      var right := ViewMetrics(host);
      var bottom := ViewMetrics(host);
      w := WindowPadding(left.paddingLeft, top.paddingTop, right.paddingRight, bottom.paddingBottom);
    }

    /** The `viewInsets` getter, the same projection over the inset fields. */
    method ViewInsets(host: Host) returns (w: WindowPadding)
      requires Valid()
      modifies this`storedMetrics, this`metricsQueries
      ensures Valid()
      ensures State() == ReadMetrics(platform, old(State()), host).0
      ensures w == InsetsOf(ReadMetrics(platform, old(State()), host).1)
      ensures old(storedMetrics).Some? ==> unchanged(this)
    {
      var left := ViewMetrics(host);
      var top := ViewMetrics(host);
      var right := ViewMetrics(host);
      var bottom := ViewMetrics(host);
      w := WindowPadding(left.insetsLeft, top.insetsTop, right.insetsRight, bottom.insetsBottom);
    }
  }

  /**
   * A client: a ratio of 3 is queried once and then served from the cache,
   * even when the native layer later answers something else.
   */
  method RatioIsQueriedOnce(p: Platform, first: Host, later: Host)
    requires p != Other && first.ratio == 3.0
  {
    var d := new PlayerDisplayMetrics(p);
    var r1 := d.DevicePixelRatio(first);
    assert r1 == 3.0 && d.ratioQueries == 1;
    var r2 := d.DevicePixelRatio(later);
    assert r2 == 3.0 && d.ratioQueries == 1;
  }

  /** A client: an invalidation between two metrics reads forces a second query. */
  method InvalidationForcesRequery(p: Platform, first: Host, second: Host)
  {
    var d := new PlayerDisplayMetrics(p);
    var m1 := d.ViewMetrics(first);
    assert m1 == Normalize(p, first) && d.metricsQueries == 1;
    d.OnGUI();
    d.OnViewMetricsChanged();
    var m2 := d.ViewMetrics(second);
    assert m2 == Normalize(p, second) && d.metricsQueries == 2;
    var insets := d.ViewInsets(first);
    assert insets == InsetsOf(m2) && d.metricsQueries == 2;
  }
}
