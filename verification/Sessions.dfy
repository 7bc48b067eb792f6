/**
 * Sessions: any sequence of calls the host makes on the display metrics
 * (reads, change notifications, lifecycle hooks), each read carrying what the
 * native layer would answer at that moment. The lemmas state the caching
 * guarantees over whole sessions.
 */
module Sessions {
  import opened Wrappers
  import opened Metrics
  import opened Cache

  datatype Event =
    | RatioRead(host: Host)
    | MetricsRead(host: Host)
    | PaddingRead(host: Host)
    | InsetsRead(host: Host)
    | MetricsChanged
    | Enable
    | Gui
    | Tick

  datatype Answer =
    | RatioIs(ratio: real)
    | MetricsAre(metrics: ViewMetrics)
    | PaddingIs(padding: WindowPadding)
    | InsetsAre(insets: WindowPadding)
    | NoAnswer

  /** One call: the cache afterwards and what the call returned. */
  function Step(p: Platform, c: Cache, e: Event): (res: (Cache, Answer))
    ensures Coherent(c) ==> Coherent(res.0)
    ensures c.ratio > 0.0 ==> res.0.ratio == c.ratio && res.0.ratioQueries == c.ratioQueries
    ensures res.1.RatioIs? ==> res.1.ratio > 0.0 && res.1.ratio == res.0.ratio
  {
    match e
    case RatioRead(h) =>
      var (c', r) := ReadRatio(p, c, h);
      (c', RatioIs(r))
    case MetricsRead(h) =>
      var (c', m) := ReadMetrics(p, c, h);
      (c', MetricsAre(m))
    case PaddingRead(h) =>
      var (c', m) := ReadMetrics(p, c, h);
      (c', PaddingIs(PaddingOf(m)))
    case InsetsRead(h) =>
      var (c', m) := ReadMetrics(p, c, h);
      (c', InsetsAre(InsetsOf(m)))
    case MetricsChanged => (Invalidate(c), NoAnswer)
    case Enable => (c, NoAnswer)
    case Gui => (c, NoAnswer)
    case Tick => (c, NoAnswer)
  }

  /**
   * A whole session: the final cache and one answer per call, in order. The
   * query counters only ever grow, and the metrics one by at most one per call.
   */
  function Run(p: Platform, c: Cache, es: seq<Event>): (res: (Cache, seq<Answer>))
    ensures |res.1| == |es|
    ensures c.ratioQueries <= res.0.ratioQueries
    ensures c.metricsQueries <= res.0.metricsQueries <= c.metricsQueries + |es|
    decreases |es|
  {
    if es == [] then (c, [])
    else
      var (c1, a) := Step(p, c, es[0]);
      var (c2, rest) := Run(p, c1, es[1..]);
      (c2, [a] + rest)
  }

  /** The calls that go through the `viewMetrics` getter. */
  predicate ReadsMetrics(e: Event) {
    e.MetricsRead? || e.PaddingRead? || e.InsetsRead?
  }

  /** The number of change notifications in a session. */
  function Invalidations(es: seq<Event>): nat {
    if es == [] then 0
    else (if es[0].MetricsChanged? then 1 else 0) + Invalidations(es[1..])
  }

  predicate NoInvalidation(es: seq<Event>) {
    forall i :: 0 <= i < |es| ==> !es[i].MetricsChanged?
  }

  /** Every ratio answer in `answers` is `v`. */
  predicate RatioAnswersAre(answers: seq<Answer>, v: real) {
    forall i :: 0 <= i < |answers| && answers[i].RatioIs? ==> answers[i].ratio == v
  }

  /** Every metrics, padding and insets answer in `answers` is read off `m`. */
  predicate MetricsAnswersFrom(answers: seq<Answer>, m: ViewMetrics) {
    forall i :: 0 <= i < |answers| ==>
      (answers[i].MetricsAre? ==> answers[i].metrics == m) &&
      (answers[i].PaddingIs? ==> answers[i].padding == PaddingOf(m)) &&
      (answers[i].InsetsAre? ==> answers[i].insets == InsetsOf(m))
  }

  /** No answer in `answers` comes from the `viewMetrics` getter. */
  predicate NoMetricsAnswers(answers: seq<Answer>) {
    forall i :: 0 <= i < |answers| ==>
      !answers[i].MetricsAre? && !answers[i].PaddingIs? && !answers[i].InsetsAre?
  }

  /** Running two sessions back to back is running their concatenation. */
  lemma {:induction false} RunAppend(p: Platform, c: Cache, a: seq<Event>, b: seq<Event>)
    ensures Run(p, c, a + b).0 == Run(p, Run(p, c, a).0, b).0
    ensures Run(p, c, a + b).1 == Run(p, c, a).1 + Run(p, Run(p, c, a).0, b).1
    decreases |a|
  {
    if a == [] {
      assert a + b == b;
    } else {
      assert (a + b)[0] == a[0] && (a + b)[1..] == a[1..] + b;
      var (c1, x) := Step(p, c, a[0]);
      RunAppend(p, c1, a[1..], b);
      assert [x] + Run(p, c1, a[1..]).1 + Run(p, Run(p, c1, a[1..]).0, b).1
          == [x] + (Run(p, c1, a[1..]).1 + Run(p, Run(p, c1, a[1..]).0, b).1);
    }
  }

  /** Every session keeps the cache coherent. */
  lemma {:induction false} RunKeepsCoherent(p: Platform, c: Cache, es: seq<Event>)
    requires Coherent(c)
    ensures Coherent(Run(p, c, es).0)
    decreases |es|
  {
    if es != [] {
      RunKeepsCoherent(p, Step(p, c, es[0]).0, es[1..]);
    }
  }

  /** From construction on, the native ratio is queried at most once per process. */
  lemma RatioQueriedAtMostOnce(p: Platform, es: seq<Event>)
    ensures Run(p, Initial, es).0.ratioQueries <= 1
  {
    RunKeepsCoherent(p, Initial, es);
  }

  /**
   * Once the ratio is set it never changes and is never queried again, whatever
   * else happens (change notifications included), and every ratio read returns it.
   */
  lemma {:induction false} RatioPermanent(p: Platform, c: Cache, es: seq<Event>)
    requires c.ratio > 0.0
    ensures Run(p, c, es).0.ratio == c.ratio
    ensures Run(p, c, es).0.ratioQueries == c.ratioQueries
    ensures RatioAnswersAre(Run(p, c, es).1, c.ratio)
    decreases |es|
  {
    if es != [] {
      var (c1, a) := Step(p, c, es[0]);
      RatioPermanent(p, c1, es[1..]);
      var rest := Run(p, c1, es[1..]).1;
      assert Run(p, c, es).1 == [a] + rest;
      forall i | 0 <= i < |[a] + rest| && ([a] + rest)[i].RatioIs?
        ensures ([a] + rest)[i].ratio == c.ratio
      {
        if i > 0 { assert ([a] + rest)[i] == rest[i - 1]; }
      }
    }
  }

  /**
   * In any session every ratio read returns the same positive value: the one
   * the cache holds at the end.
   */
  lemma {:induction false} RatioReadsAgree(p: Platform, c: Cache, es: seq<Event>)
    ensures forall i :: 0 <= i < |Run(p, c, es).1| && Run(p, c, es).1[i].RatioIs? ==>
      Run(p, c, es).1[i].ratio > 0.0 && Run(p, c, es).1[i].ratio == Run(p, c, es).0.ratio
    decreases |es|
  {
    if es != [] {
      var (c1, a) := Step(p, c, es[0]);
      var (c2, rest) := Run(p, c1, es[1..]);
      RatioReadsAgree(p, c1, es[1..]);
      if a.RatioIs? {
        RatioPermanent(p, c1, es[1..]);
      }
      assert Run(p, c, es) == (c2, [a] + rest);
      forall i | 0 <= i < |[a] + rest| && ([a] + rest)[i].RatioIs?
        ensures ([a] + rest)[i].ratio > 0.0 && ([a] + rest)[i].ratio == c2.ratio
      {
        if i > 0 { assert ([a] + rest)[i] == rest[i - 1]; }
      }
    }
  }

  /**
   * When the first ratio query fails (a non-positive native answer, or no
   * native branch at all) the ratio is 1 for good: later native answers,
   * positive or not, are never observed.
   */
  lemma FallbackIsPermanent(p: Platform, c: Cache, h: Host, es: seq<Event>)
    requires c.ratio <= 0.0 && (p == Other || h.ratio <= 0.0)
    ensures RatioAnswersAre(Run(p, c, [RatioRead(h)] + es).1, 1.0)
    ensures Run(p, c, [RatioRead(h)] + es).0.ratio == 1.0
  {
    var all := [RatioRead(h)] + es;
    assert all[0] == RatioRead(h) && all[1..] == es;
    var (c1, a) := Step(p, c, all[0]);
    RatioPermanent(p, c1, es);
  }

  /**
   * Within an epoch (no change notification) a present metrics structure is
   * served unchanged to every metrics, padding and insets read, and nothing is
   * queried.
   */
  lemma {:induction false} EpochStable(p: Platform, c: Cache, es: seq<Event>)
    requires c.metrics.Some? && NoInvalidation(es)
    ensures Run(p, c, es).0.metrics == c.metrics
    ensures Run(p, c, es).0.metricsQueries == c.metricsQueries
    ensures MetricsAnswersFrom(Run(p, c, es).1, c.metrics.value)
    decreases |es|
  {
    if es != [] {
      var (c1, a) := Step(p, c, es[0]);
      assert c1.metrics == c.metrics && c1.metricsQueries == c.metricsQueries by {
        assert !es[0].MetricsChanged?;
      }
      assert NoInvalidation(es[1..]) by {
        forall i | 0 <= i < |es[1..]| ensures !es[1..][i].MetricsChanged? {
          assert es[1..][i] == es[i + 1];
        }
      }
      EpochStable(p, c1, es[1..]);
      var rest := Run(p, c1, es[1..]).1;
      assert Run(p, c, es).1 == [a] + rest;
      forall i | 0 <= i < |[a] + rest|
        ensures var x := ([a] + rest)[i];
          (x.MetricsAre? ==> x.metrics == c.metrics.value) &&
          (x.PaddingIs? ==> x.padding == PaddingOf(c.metrics.value)) &&
          (x.InsetsAre? ==> x.insets == InsetsOf(c.metrics.value))
      {
        if i > 0 { assert ([a] + rest)[i] == rest[i - 1]; }
      }
    }
  }

  /** Without a change notification, the tail of a session is still a session without one. */
  lemma TailHasNoInvalidation(es: seq<Event>)
    requires es != [] && NoInvalidation(es)
    ensures !es[0].MetricsChanged? && NoInvalidation(es[1..])
  {
    forall i | 0 <= i < |es[1..]| ensures !es[1..][i].MetricsChanged? {
      assert es[1..][i] == es[i + 1];
    }
  }

  /**
   * The first read that goes through the metrics getter in an epoch (a
   * `viewMetrics`, `viewPadding` or `viewInsets` read) fixes what the whole
   * epoch reports: the platform branch's answer at that moment, queried once.
   */
  lemma FirstReadFixesEpoch(p: Platform, c: Cache, e: Event, es: seq<Event>)
    requires c.metrics.None? && ReadsMetrics(e) && NoInvalidation(es)
    ensures var (c', answers) := Run(p, c, [e] + es);
      c'.metrics == Some(Normalize(p, e.host)) &&
      c'.metricsQueries == c.metricsQueries + 1 &&
      MetricsAnswersFrom(answers, Normalize(p, e.host))
  {
    var all := [e] + es;
    assert all[0] == e && all[1..] == es;
    var (c1, a) := Step(p, c, all[0]);
    EpochStable(p, c1, es);
    var rest := Run(p, c1, es).1;
    assert Run(p, c, all).1 == [a] + rest;
    forall i | 0 <= i < |[a] + rest|
      ensures var x := ([a] + rest)[i];
        (x.MetricsAre? ==> x.metrics == Normalize(p, e.host)) &&
        (x.PaddingIs? ==> x.padding == PaddingOf(Normalize(p, e.host))) &&
        (x.InsetsAre? ==> x.insets == InsetsOf(Normalize(p, e.host)))
    {
      if i > 0 { assert ([a] + rest)[i] == rest[i - 1]; }
    }
  }

  /**
   * Whatever calls an epoch holds, all of its metrics, padding and insets
   * answers are read off one structure: the one cached at its end. If nothing
   * is cached at the end, the epoch gave no such answer.
   */
  lemma {:induction false} EpochAnswersAgree(p: Platform, c: Cache, es: seq<Event>)
    requires NoInvalidation(es)
    ensures var (c', answers) := Run(p, c, es);
      c'.metrics.Some? ==> MetricsAnswersFrom(answers, c'.metrics.value)
    ensures var (c', answers) := Run(p, c, es);
      c'.metrics.None? ==> NoMetricsAnswers(answers)
    decreases |es|
  {
    if es != [] {
      TailHasNoInvalidation(es);
      var (c1, a) := Step(p, c, es[0]);
      var (c2, rest) := Run(p, c1, es[1..]);
      assert Run(p, c, es) == (c2, [a] + rest);
      if c1.metrics.Some? {
        EpochStable(p, c1, es[1..]);
        assert c2.metrics == c1.metrics;
        forall i | 0 <= i < |[a] + rest|
          ensures var x := ([a] + rest)[i];
            (x.MetricsAre? ==> x.metrics == c2.metrics.value) &&
            (x.PaddingIs? ==> x.padding == PaddingOf(c2.metrics.value)) &&
            (x.InsetsAre? ==> x.insets == InsetsOf(c2.metrics.value))
        {
          if i > 0 { assert ([a] + rest)[i] == rest[i - 1]; }
        }
      } else {
        EpochAnswersAgree(p, c1, es[1..]);
        assert !ReadsMetrics(es[0]);
        forall i | 0 <= i < |[a] + rest|
          ensures var x := ([a] + rest)[i];
            (c2.metrics.Some? ==>
              (x.MetricsAre? ==> x.metrics == c2.metrics.value) &&
              (x.PaddingIs? ==> x.padding == PaddingOf(c2.metrics.value)) &&
              (x.InsetsAre? ==> x.insets == InsetsOf(c2.metrics.value))) &&
            (c2.metrics.None? ==> !x.MetricsAre? && !x.PaddingIs? && !x.InsetsAre?)
        {
          if i > 0 { assert ([a] + rest)[i] == rest[i - 1]; }
        }
      }
    }
  }

  /**
   * A session that opens with a change notification: the next read through the
   * metrics getter queries once more, and it and every later read up to the
   * next notification report the platform's answer at that read.
   */
  lemma NotificationOpensEpoch(p: Platform, c: Cache, e: Event, es: seq<Event>)
    requires ReadsMetrics(e) && NoInvalidation(es)
    ensures Run(p, c, [MetricsChanged] + ([e] + es)).0.metrics == Some(Normalize(p, e.host))
    ensures Run(p, c, [MetricsChanged] + ([e] + es)).0.metricsQueries == c.metricsQueries + 1
    ensures MetricsAnswersFrom(Run(p, c, [MetricsChanged] + ([e] + es)).1[1..], Normalize(p, e.host))
  {
    var tail := [MetricsChanged] + ([e] + es);
    assert tail[0] == MetricsChanged && tail[1..] == [e] + es;
    var c1 := Invalidate(c);
    assert Step(p, c, tail[0]) == (c1, NoAnswer);
    FirstReadFixesEpoch(p, c1, e, es);
    assert Run(p, c, tail).1[1..] == Run(p, c1, [e] + es).1;
  }

  /**
   * A change notification anywhere in a session opens a new epoch, whatever
   * came before and whatever was cached: the answers after the notification
   * are those of `NotificationOpensEpoch`.
   */
  lemma NotificationStartsEpoch(p: Platform, c: Cache, pre: seq<Event>, e: Event, es: seq<Event>)
    requires ReadsMetrics(e) && NoInvalidation(es)
    ensures Run(p, c, pre + ([MetricsChanged] + ([e] + es))).0.metrics == Some(Normalize(p, e.host))
    ensures Run(p, c, pre + ([MetricsChanged] + ([e] + es))).0.metricsQueries
      == Run(p, c, pre).0.metricsQueries + 1
    ensures MetricsAnswersFrom(Run(p, c, pre + ([MetricsChanged] + ([e] + es))).1[|pre| + 1..],
                               Normalize(p, e.host))
  {
    var tail := [MetricsChanged] + ([e] + es);
    var mid := Run(p, c, pre);
    RunAppend(p, c, pre, tail);
    NotificationOpensEpoch(p, mid.0, e, es);
    var later := Run(p, mid.0, tail).1;
    assert |mid.1| == |pre|;
    assert Run(p, c, pre + tail).1[|pre| + 1..] == later[1..];
  }

  /**
   * The metrics are queried at most once per epoch: once if the session starts
   * with the cache absent, plus once per change notification.
   */
  lemma {:induction false} MetricsQueriesPerEpoch(p: Platform, c: Cache, es: seq<Event>)
    ensures Run(p, c, es).0.metricsQueries
      <= c.metricsQueries + (if c.metrics.None? then 1 else 0) + Invalidations(es)
    decreases |es|
  {
    if es != [] {
      MetricsQueriesPerEpoch(p, Step(p, c, es[0]).0, es[1..]);
    }
  }
}
