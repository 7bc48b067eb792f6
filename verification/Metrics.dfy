/**
 * The values the display-metrics provider reports: the eight-field viewport
 * structure, the four-sided window padding derived from it, and how each
 * build target turns its native answers into the structure.
 */
module Metrics {

  /** A 32-bit signed integer, as read from the Android listener's int fields. */
  newtype int32 = x: int | -0x8000_0000 <= x < 0x8000_0000

  /** The build target; exactly one platform branch is compiled into a build. */
  datatype Platform = Android | WebGL | IOS | Other

  /** The `viewMetrics` struct: four insets, then four paddings. Floats are reals here. */
  datatype ViewMetrics = ViewMetrics(
    insetsTop: real, insetsBottom: real, insetsLeft: real, insetsRight: real,
    paddingTop: real, paddingBottom: real, paddingLeft: real, paddingRight: real)

  /** The all-zero structure reported where a platform has no safe-area concept. */
  const Zero := ViewMetrics(0.0, 0.0, 0.0, 0.0, 0.0, 0.0, 0.0, 0.0)

  /** `WindowPadding`, in (left, top, right, bottom) order. */
  datatype WindowPadding = WindowPadding(left: real, top: real, right: real, bottom: real)

  /** The integer insets exposed by the Android live-wallpaper listener. */
  datatype ListenerInsets = ListenerInsets(top: int32, left: int32, right: int32, bottom: int32)

  /**
   * What the native layer would answer right now, for whichever target is built:
   * the pixel-ratio query (Android density, WebGL host ratio or iOS scale factor),
   * the Android listener's insets and the iOS viewport-padding struct.
   */
  datatype Host = Host(ratio: real, listener: ListenerInsets, viewport: ViewMetrics)

  /** The `viewPadding` projection: each padding field goes to the side it names. */
  function PaddingOf(m: ViewMetrics): (w: WindowPadding)
    ensures w.left == m.paddingLeft && w.top == m.paddingTop
    ensures w.right == m.paddingRight && w.bottom == m.paddingBottom
  {
    WindowPadding(m.paddingLeft, m.paddingTop, m.paddingRight, m.paddingBottom)
  }

  /** The `viewInsets` projection: each inset field goes to the side it names. */
  function InsetsOf(m: ViewMetrics): (w: WindowPadding)
    ensures w.left == m.insetsLeft && w.top == m.insetsTop
    ensures w.right == m.insetsRight && w.bottom == m.insetsBottom
  {
    WindowPadding(m.insetsLeft, m.insetsTop, m.insetsRight, m.insetsBottom)
  }

  function ToReal(x: int32): real { x as int as real }

  /** The structure the metrics getter builds on a cache miss, per build target. */
  function Normalize(p: Platform, host: Host): (m: ViewMetrics)
    ensures p == Android ==>
      PaddingOf(m) == WindowPadding(0.0, 0.0, 0.0, 0.0) &&
      InsetsOf(m) == WindowPadding(ToReal(host.listener.left), ToReal(host.listener.top),
                                   ToReal(host.listener.right), ToReal(host.listener.bottom))
    ensures p == WebGL || p == Other ==> m == Zero
    ensures p == IOS ==> m == host.viewport
  {
    match p
    case Android =>
      var l := host.listener;
      ViewMetrics(ToReal(l.top), ToReal(l.bottom), ToReal(l.left), ToReal(l.right), 0.0, 0.0, 0.0, 0.0)
    case WebGL => Zero
    case IOS => host.viewport
    case Other => Zero
  }

  /** Padding and insets together carry every field of the structure, each in its own slot. */
  lemma ProjectionsDetermineMetrics(m1: ViewMetrics, m2: ViewMetrics)
    requires PaddingOf(m1) == PaddingOf(m2) && InsetsOf(m1) == InsetsOf(m2)
    ensures m1 == m2
  {
  }
}
