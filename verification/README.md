# Player display metrics, modelled in Dafny

This project models `PlayerDisplayMetrics` from the UIWidgets engine runtime
(`Runtime/engine/DisplayMetrics.cs`): the object that tells the rendering
engine the device pixel ratio and the safe-area insets and padding. It sits
in front of platform-native queries (Android JNI, the WebGL host, iOS native
calls) and caches their answers:

- `devicePixelRatio` is read once from the native layer and falls back to 1
  when the answer is not positive. The result is cached for good; 0 means
  "unset".
- `viewMetrics` (four insets and four paddings) is built from the platform
  branch on a cache miss and cached until `onViewMetricsChanged` drops it.
- `viewPadding` and `viewInsets` project four fields of the current
  `viewMetrics` into a `WindowPadding` in (left, top, right, bottom) order.
- `OnEnable`, `OnGUI` and `Update` do nothing.

Layout:

- `Wrappers.dfy`: `Option`, standing for the nullable `viewMetrics?`.
- `Metrics.dfy`: the `viewMetrics` struct, `WindowPadding`, the build
  `Platform`, the native answers (`Host`) and the per-platform normalization.
- `Cache.dfy`: the two caches as a value, with the effect of each getter
  and of the invalidation hook as functions.
- `Player.dfy`: the class `PlayerDisplayMetrics`. Its fields are updated in
  place, and each method is proved to follow the `Cache` functions. Two
  client methods show what callers can conclude.
- `Sessions.dfy`: arbitrary sequences of calls (reads, change notifications,
  lifecycle hooks), with the caching guarantees proved over whole sessions.

The build target is a constant of the instance, because exactly one platform
branch is compiled into a build. What the native layer would answer is passed
to each getter as a `Host` value. Ghost counters record how often each getter
went past its cache to the platform branch. On the default build that branch
is a constant, and it is still counted as a query.

On Android the metrics getter reads the four insets from the live-wallpaper
listener's integer fields and sets the four paddings to zero; only WebGL and
the default build report the all-zero structure.

## Model

| member | source | states |
|---|---|---|
| Metrics.Normalize | Runtime/engine/DisplayMetrics.cs:108-155 | Android: padding all zero, insets are the listener's integers in their own slots; WebGL and the default build: the all-zero struct; iOS: the native struct verbatim |
| Metrics.PaddingOf | Runtime/engine/DisplayMetrics.cs:86-89 | the padding projection puts `padding_left`, `padding_top`, `padding_right`, `padding_bottom` on the left, top, right and bottom sides |
| Metrics.InsetsOf | Runtime/engine/DisplayMetrics.cs:95-98 | the insets projection puts `insets_left`, `insets_top`, `insets_right`, `insets_bottom` on the left, top, right and bottom sides |
| Metrics.ProjectionsDetermineMetrics | Runtime/engine/DisplayMetrics.cs:84-100 | padding and insets projections together determine the whole struct: no field is lost or duplicated |
| Cache.AfterPlatformBranch | Runtime/engine/DisplayMetrics.cs:64-74 | on Android, WebGL and iOS the compiled branch overwrites the stored ratio with the native answer; the default build leaves it as it was |
| Cache.ReadRatio | Runtime/engine/DisplayMetrics.cs:58-81 | the ratio getter returns a positive value and caches it; a set ratio is returned as is with no query; an unset one is queried once, giving 1 when the answer is not positive or no platform branch exists and the native answer otherwise; the metrics cache is untouched |
| Cache.ReadMetrics | Runtime/engine/DisplayMetrics.cs:102-157 | the metrics getter leaves the cache present and equal to its result; a present cache is returned unchanged with no query; an absent one is filled from the platform branch with exactly one query; the ratio cache is untouched |
| Cache.Invalidate | Runtime/engine/DisplayMetrics.cs:53-56 | the metrics cache becomes absent; the ratio, both counters and coherence are kept |
| Cache.ReadRatioKeepsCoherent | Runtime/engine/DisplayMetrics.cs:58-81 | a ratio read keeps the ratio non-negative and queried once if set, never if unset |
| Cache.InvalidateIdempotent | Runtime/engine/DisplayMetrics.cs:53-56 | invalidating twice equals invalidating once |
| Cache.InvalidateThenReadRequeries | Runtime/engine/DisplayMetrics.cs:53-56 | invalidation keeps the ratio cache; the next metrics read queries exactly once more and returns the platform branch's answer |
| Player.PlayerDisplayMetrics.constructor | Runtime/engine/DisplayMetrics.cs:40-41 | a new instance has the ratio unset, the metrics absent and nothing queried |
| Player.PlayerDisplayMetrics.OnEnable | Runtime/engine/DisplayMetrics.cs:43-44 | changes no state |
| Player.PlayerDisplayMetrics.OnGUI | Runtime/engine/DisplayMetrics.cs:46-47 | changes no state |
| Player.PlayerDisplayMetrics.Update | Runtime/engine/DisplayMetrics.cs:49-51 | changes no state |
| Player.PlayerDisplayMetrics.OnViewMetricsChanged | Runtime/engine/DisplayMetrics.cs:53-56 | the metrics cache becomes absent; the ratio cache and the counters are unchanged |
| Player.PlayerDisplayMetrics.DevicePixelRatio | Runtime/engine/DisplayMetrics.cs:58-82 | the new state and result are those of `ReadRatio`; the result is positive and stored; a positive stored ratio is returned with no query |
| Player.PlayerDisplayMetrics.ViewMetrics | Runtime/engine/DisplayMetrics.cs:102-158 | the new state and result are those of `ReadMetrics`; the cache then holds the result; a present cache is returned with no query |
| Player.PlayerDisplayMetrics.ViewPadding | Runtime/engine/DisplayMetrics.cs:84-91 | the result is the padding projection (left, top, right, bottom) of the metrics the getter reports; it may fill an absent cache and never changes a present one |
| Player.PlayerDisplayMetrics.ViewInsets | Runtime/engine/DisplayMetrics.cs:93-100 | the result is the insets projection (left, top, right, bottom) of the metrics the getter reports; it may fill an absent cache and never changes a present one |
| Sessions.Step | Runtime/engine/DisplayMetrics.cs:24-37 | any call on the interface keeps the cache coherent, never changes a set ratio, and a ratio answer is positive and equal to the cached ratio |
| Sessions.Run | Runtime/engine/DisplayMetrics.cs:24-37 | a session gives one answer per call; the query counters never decrease, and the metrics one rises by at most one per call |
| Sessions.RunAppend | Runtime/engine/DisplayMetrics.cs:24-37 | running two sessions back to back gives the same final cache and the same answers as running their concatenation |
| Sessions.RunKeepsCoherent | Runtime/engine/DisplayMetrics.cs:58-81 | every session keeps the ratio non-negative and queried exactly once if set |
| Sessions.RatioQueriedAtMostOnce | Runtime/engine/DisplayMetrics.cs:60-62 | from construction on, the native ratio is queried at most once, whatever the session |
| Sessions.RatioPermanent | Runtime/engine/DisplayMetrics.cs:60-62 | once the ratio is set, no session changes or re-queries it, change notifications included, and every ratio read returns it |
| Sessions.RatioReadsAgree | Runtime/engine/DisplayMetrics.cs:58-81 | in any session all ratio reads return the same positive value, the one cached at the end |
| Sessions.FallbackIsPermanent | Runtime/engine/DisplayMetrics.cs:76-78 | if the first query fails (non-positive answer or no branch), the ratio is 1 for the rest of the session, whatever the native layer answers later |
| Sessions.EpochStable | Runtime/engine/DisplayMetrics.cs:104-106 | without a change notification, a present metrics struct is served unchanged to every metrics, padding and insets read, and nothing is queried |
| Sessions.FirstReadFixesEpoch | Runtime/engine/DisplayMetrics.cs:84-156 | when the cache is absent, the first `viewMetrics`, `viewPadding` or `viewInsets` read queries once, and every read until the next notification reports that answer |
| Sessions.EpochAnswersAgree | Runtime/engine/DisplayMetrics.cs:84-106 | in any session without a notification, whatever calls it holds, every metrics, padding and insets answer is read off the struct cached at its end, and there is none if nothing is cached |
| Sessions.NotificationOpensEpoch | Runtime/engine/DisplayMetrics.cs:53-56 | after a notification, the next read through the metrics getter queries exactly once more, and every answer up to the next notification comes from that query |
| Sessions.NotificationStartsEpoch | Runtime/engine/DisplayMetrics.cs:53-56 | the same holds for a notification anywhere in a session, after any earlier calls and whatever was cached |
| Sessions.MetricsQueriesPerEpoch | Runtime/engine/DisplayMetrics.cs:53-56 | metrics are queried at most once per epoch: once if the cache starts absent, plus once per change notification |

## Left out

- JNI plumbing (`AndroidJavaClass`/`AndroidJavaObject`, `AndroidDevicePixelRatio`, lines 110-128 and 160-175): foreign calls; their results are the `Host` inputs. The unreachable `return 2.5f` is not modelled.
- A foreign call that throws is not modelled. In the original the exception leaves the getter with the cache still unset, so the next read queries again. `RatioQueriedAtMostOnce`, `FallbackIsPermanent` and the per-epoch query bounds assume that every foreign call returns.
- The `DllImport` externs for WebGL and iOS and the sequential struct layout (lines 7, 178-189): native boundaries; their results are the `Host` inputs.
- `DisplayMetricsProvider.provider` (lines 20-22): a global factory, plain wiring.
- Floats are reals: NaN, infinities, rounding and the precision of the int-to-float conversion on Android are not modelled.
- `WindowPadding` is defined elsewhere in the library; here it is a plain four-field record.
- The native layer may answer differently between the four metrics reads inside one padding or insets getter. Only the first read can reach it, so a single `Host` value stands for all four.
- Concurrency: the original has none, and so the model has none.
