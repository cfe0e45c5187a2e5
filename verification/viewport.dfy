/**
 * The pure part of the price chart's viewport: fixed-stride downsampling of a
 * candle series, the visible window derived from zoom and scroll, and the
 * clamped zoom steps. Zoom is an exact real in [1, 10]; scroll is the integer
 * percentage of the range slider, 0 to 100.
 */
module Viewport {

  /** Every `SampleRate`-th candle is drawn. */
  const SampleRate: nat := 10
  const MinZoom: real := 1.0
  const MaxZoom: real := 10.0

  /** The zoom levels the controller can hold, and the scroll values the slider can send. */
  predicate ZoomInRange(zoom: real) { MinZoom <= zoom <= MaxZoom }
  predicate ScrollInRange(scroll: int) { 0 <= scroll <= 100 }

  /**
   * `sampleData` at its default rate: keep the elements whose index is a
   * multiple of `SampleRate`, in order. The definition is the index filter;
   * the contract characterises the result as the stride-`SampleRate` walk
   * from index 0.
   */
  function Sample<T>(s: seq<T>): (r: seq<T>)
    ensures |r| == (|s| + SampleRate - 1) / SampleRate
    ensures forall k :: 0 <= k < |r| ==> k * SampleRate < |s| && r[k] == s[k * SampleRate]
    decreases |s|
  {
    if |s| == 0 then []
    else
      var n := |s| - 1;
      var prefix := Sample(s[..n]);
      assert forall k :: 0 <= k < |prefix| ==> prefix[k] == s[k * SampleRate];
      prefix + (if n % SampleRate == 0 then [s[n]] else [])
  }

  /** Number of candles visible at a zoom level: the series length divided by the zoom, at least one. */
  function VisiblePoints(total: nat, zoom: real): (v: int)
    requires zoom > 0.0
    ensures v >= 1
    ensures v > 1 ==> v as real <= total as real / zoom
    ensures total as real / zoom < (v + 1) as real
  {
    var fit := (total as real / zoom).Floor;
    if fit > 1 then fit else 1
  }

  /**
   * `applyZoomAndScroll`'s index arithmetic: the window [start, end) of a
   * series of `total` candles shown at `zoom` with the slider at `scroll`.
   */
  function Window(total: nat, zoom: real, scroll: int): (w: (int, int))
    requires zoom > 0.0 && ScrollInRange(scroll)
    ensures 0 <= w.0 <= w.1 <= total
    ensures w.1 - w.0 <= VisiblePoints(total, zoom)
  {
    var visible := VisiblePoints(total, zoom);
    var d := (total - visible) as real;
    var pct := scroll as real / 100.0;
    ScaledFloorBounds(total - visible, pct);
    var offset := (d * pct).Floor;
    var start := if offset > 0 then offset else 0;
    var end := if total < start + visible then total else start + visible;
    (start, end)
  }

  /** Scaling by a fraction in [0, 1] moves a number toward zero without passing it. */
  lemma ScaleBounds(d: real, pct: real)
    requires 0.0 <= pct <= 1.0
    ensures d >= 0.0 ==> 0.0 <= d * pct <= d
    ensures d <= 0.0 ==> d * pct <= 0.0
  {
    if d >= 0.0 {
      assert d * (1.0 - pct) >= 0.0;
    }
  }

  /**
   * The floor of an integer scaled by a fraction in [0, 1] lies between zero
   * and the integer when that is non-negative, and is at most zero otherwise.
   */
  lemma ScaledFloorBounds(n: int, pct: real)
    requires 0.0 <= pct <= 1.0
    ensures n >= 0 ==> 0 <= (n as real * pct).Floor <= n
    ensures n < 0 ==> (n as real * pct).Floor <= 0
  {
    ScaleBounds(n as real, pct);
    var x := n as real * pct;
    assert x.Floor as real <= x < x.Floor as real + 1.0;
  }

  /**
   * For a non-empty series and an in-range zoom and scroll, the window lies
   * inside the series and holds exactly `VisiblePoints` candles.
   */
  lemma WindowBounds(total: nat, zoom: real, scroll: int)
    requires total > 0 && ZoomInRange(zoom) && ScrollInRange(scroll)
    ensures var (start, end) := Window(total, zoom, scroll);
      && 0 <= start <= end <= total
      && end - start == VisiblePoints(total, zoom)
      && 1 <= VisiblePoints(total, zoom) <= total
  {
    var t := total as real;
    var q := t / zoom;
    assert q * zoom == t;
    assert q <= t by { assert q * (zoom - 1.0) >= 0.0; }
    var visible := VisiblePoints(total, zoom);
    assert visible <= total;
    ScaledFloorBounds(total - visible, scroll as real / 100.0);
  }

  /**
   * Where the window starts: the scroll fraction of the candles that do not
   * fit, rounded down. Scroll 0 shows the oldest candles and scroll 100 the
   * newest.
   */
  lemma WindowStart(total: nat, zoom: real, scroll: int)
    requires total > 0 && ZoomInRange(zoom) && ScrollInRange(scroll)
    ensures var (start, end) := Window(total, zoom, scroll);
      var spare := (total - VisiblePoints(total, zoom)) as real * (scroll as real / 100.0);
      && start as real <= spare < start as real + 1.0
      && (scroll == 0 ==> start == 0)
      && (scroll == 100 ==> end == total)
  {
    WindowBounds(total, zoom, scroll);
    var visible := VisiblePoints(total, zoom);
    var pct := scroll as real / 100.0;
    ScaledFloorBounds(total - visible, pct);
    var spare := (total - visible) as real * pct;
    assert spare.Floor as real <= spare < spare.Floor as real + 1.0;
    if scroll == 0 {
      assert spare == 0.0;
    } else if scroll == 100 {
      assert spare == (total - visible) as real;
    }
  }

  /** Moving the slider right never moves the window's start left. */
  lemma WindowMonotone(total: nat, zoom: real, s1: int, s2: int)
    requires total > 0 && ZoomInRange(zoom) && ScrollInRange(s1) && ScrollInRange(s2)
    requires s1 <= s2
    ensures Window(total, zoom, s1).0 <= Window(total, zoom, s2).0
  {
    WindowBounds(total, zoom, s1);
    WindowStart(total, zoom, s1);
    WindowStart(total, zoom, s2);
    var d := (total - VisiblePoints(total, zoom)) as real;
    FloorsOrdered(Window(total, zoom, s1).0, Window(total, zoom, s2).0, d, s1 as real / 100.0, s2 as real / 100.0);
  }

  /** Two integers that round down the same non-negative number scaled by ordered factors are ordered. */
  lemma FloorsOrdered(a: int, b: int, d: real, p1: real, p2: real)
    requires d >= 0.0 && p1 <= p2
    requires a as real <= d * p1 && d * p2 < b as real + 1.0
    ensures a <= b
  {
    assert d * p2 - d * p1 == d * (p2 - p1);
    assert d * (p2 - p1) >= 0.0;
  }

  /** At zoom 1 the window is the whole series, whatever the scroll position. */
  lemma WindowAtZoomOne(total: nat, scroll: int)
    requires total > 0 && ScrollInRange(scroll)
    ensures Window(total, MinZoom, scroll) == (0, total)
  {
    assert total as real / 1.0 == total as real;
    assert VisiblePoints(total, MinZoom) == total;
  }

  /**
   * What the chart draws for a series at a zoom and scroll: the sampled
   * window of a non-empty series. (An empty series leaves the drawn sequence
   * as it was; the chart only ever holds the empty sequence then.)
   */
  function Displayed<T>(data: seq<T>, zoom: real, scroll: int): (r: seq<T>)
    requires ZoomInRange(zoom) && ScrollInRange(scroll)
    ensures |r| <= |data|
    ensures |r| == 0 <==> |data| == 0
    ensures forall k :: 0 <= k < |r| ==> r[k] in data
  {
    if |data| == 0 then []
    else
      WindowBounds(|data|, zoom, scroll);
      var (start, end) := Window(|data|, zoom, scroll);
      var shown := Sample(data[start..end]);
      assert forall k :: 0 <= k < |shown| ==> shown[k] == data[start + k * SampleRate];
      shown
  }

  /**
   * The drawn candles are the window's candles at stride `SampleRate`, and
   * there are ceil(visible / SampleRate) of them.
   */
  lemma DisplayedIsSampledWindow<T>(data: seq<T>, zoom: real, scroll: int)
    requires |data| > 0 && ZoomInRange(zoom) && ScrollInRange(scroll)
    ensures var (start, end) := Window(|data|, zoom, scroll);
      var shown := Displayed(data, zoom, scroll);
      && |shown| == (VisiblePoints(|data|, zoom) + SampleRate - 1) / SampleRate
      && forall k :: 0 <= k < |shown| ==> start + k * SampleRate < end && shown[k] == data[start + k * SampleRate]
  {
    WindowBounds(|data|, zoom, scroll);
  }

  /**
   * A series of at most `SampleRate` candles is drawn as its first candle
   * alone: a two-candle series at zoom 1 shows one candle, not two.
   */
  lemma ShortSeriesShowsFirstOnly<T>(data: seq<T>, scroll: int)
    requires 1 <= |data| <= SampleRate && ScrollInRange(scroll)
    ensures Displayed(data, MinZoom, scroll) == [data[0]]
  {
    ScrollIgnoredAtZoomOne(data, scroll);
    var shown := Sample(data);
    assert |shown| == 1;
    assert shown[0] == data[0];
  }

  /** At zoom 1 the scroll position has no effect: the whole series is sampled. */
  lemma ScrollIgnoredAtZoomOne<T>(data: seq<T>, scroll: int)
    requires ScrollInRange(scroll)
    ensures Displayed(data, MinZoom, scroll) == Sample(data)
  {
    if |data| > 0 {
      WindowAtZoomOne(|data|, scroll);
      assert data[0..|data|] == data;
    }
  }

  /** `handleZoomIn`: double the zoom, capped at the maximum. */
  function ZoomedIn(zoom: real): (z: real)
    requires ZoomInRange(zoom)
    ensures ZoomInRange(z) && z >= zoom
    ensures z == 2.0 * zoom || z == MaxZoom
    ensures z <= 2.0 * zoom
  {
    if zoom * 2.0 < MaxZoom then zoom * 2.0 else MaxZoom
  }

  /** `handleZoomOut`: halve the zoom, floored at the minimum. */
  function ZoomedOut(zoom: real): (z: real)
    requires ZoomInRange(zoom)
    ensures ZoomInRange(z) && z <= zoom
    ensures z == zoom / 2.0 || z == MinZoom
    ensures z >= zoom / 2.0
  {
    if zoom / 2.0 > MinZoom then zoom / 2.0 else MinZoom
  }

  /** The zoom levels reachable from 1 by zooming in and out. */
  predicate ReachableZoom(zoom: real)
  {
    zoom == 1.0 || zoom == 1.25 || zoom == 2.0 || zoom == 2.5 ||
    zoom == 4.0 || zoom == 5.0 || zoom == 8.0 || zoom == 10.0
  }

  /** Zooming in or out from a reachable level stays among the eight reachable levels. */
  lemma ZoomStepsClosed(zoom: real)
    requires ReachableZoom(zoom)
    ensures ZoomInRange(zoom)
    ensures ReachableZoom(ZoomedIn(zoom)) && ReachableZoom(ZoomedOut(zoom))
  {
  }
}
