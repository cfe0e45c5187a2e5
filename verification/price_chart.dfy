/**
 * The price chart's state: the loaded candles, the drawn (sampled, windowed)
 * candles, the zoom/scroll controller and the two-click trendline capture.
 * Every handler is followed, as in the component, by the effect that re-applies
 * zoom and scroll whenever the candles, the zoom or the scroll change; the
 * model folds that effect into each handler.
 */
module PriceChart {
  import opened Wrappers
  import opened Viewport
  import Sequences
  import BinanceApi

  const RisingColor: string := "#26a69a"
  const FallingColor: string := "#ef5350"

  /** A candle as the chart holds it: its `Date` as whole milliseconds, prices, volume and fill colour. */
  datatype ChartCandle = ChartCandle(timeMs: int, open: real, high: real, low: real, close: real, volume: real, color: string)

  /** The candle colour rule: rising (close at or above open) or falling. */
  function CandleColor(open: real, close: real): (c: string)
    ensures c == RisingColor || c == FallingColor
    ensures c == RisingColor <==> close >= open
  {
    if close >= open then RisingColor else FallingColor
  }

  /** The millisecond value `new Date(ms)` keeps: the number truncated toward zero. */
  function DateValue(ms: real): (t: int)
    ensures ms >= 0.0 ==> t as real <= ms < t as real + 1.0
    ensures ms < 0.0 ==> t as real - 1.0 < ms <= t as real
  {
    if ms >= 0.0 then ms.Floor else -((-ms).Floor)
  }

  /**
   * `loadData`'s formatting of a normalised kline. The numeric fields are
   * already free of `NaN`, so `parseFloat(x) || 0` leaves them as they are.
   */
  function Format(k: BinanceApi.Kline): (c: ChartCandle)
    ensures c.open == k.open && c.high == k.high && c.low == k.low && c.close == k.close && c.volume == k.volume
    ensures c.color == RisingColor <==> k.close >= k.open
    ensures k.time >= 0.0 ==> c.timeMs as real <= k.time * 1000.0 < c.timeMs as real + 1.0
  {
    ChartCandle(DateValue(k.time * 1000.0), k.open, k.high, k.low, k.close, k.volume, CandleColor(k.open, k.close))
  }

  /** A point of a trendline: candle time in seconds, and price. */
  datatype Point = Point(x: real, y: real)

  /** A segment drawn on the chart, from the first point to the second. */
  datatype Segment = Segment(start: Point, end: Point)

  /** The point a click or hover on a candle designates: its time in seconds and the midpoint of its range. */
  function PointOf(c: ChartCandle): (p: Point)
    ensures p.x * 1000.0 == c.timeMs as real
    ensures p.y - c.low == c.high - p.y
  {
    Point(c.timeMs as real / 1000.0, (c.high + c.low) / 2.0)
  }

  class Chart {
    var data: seq<ChartCandle>
    var displayed: seq<ChartCandle>
    var zoomLevel: real
    var scrollPosition: int
    var drawingMode: bool
    var trendlinePoints: seq<Point>
    var temporaryLine: Option<Segment>
    var modalOpen: bool

    /**
     * The preview segment agrees with the captured points: none before the
     * first point, anchored at the first point while one is held, and the
     * committed segment once two are held.
     */
    ghost predicate PreviewConsistent()
      reads this
    {
      && (|trendlinePoints| == 0 ==> temporaryLine == None)
      && (|trendlinePoints| == 1 ==> temporaryLine.None? || temporaryLine.value.start == trendlinePoints[0])
      && (|trendlinePoints| == 2 ==> temporaryLine == Some(Segment(trendlinePoints[0], trendlinePoints[1])))
    }

    ghost predicate Valid()
      reads this
      ensures Valid() ==> |displayed| <= |data| && (|displayed| == 0 <==> |data| == 0)
      ensures Valid() ==> |trendlinePoints| == 0 ==> temporaryLine == None
    {
      && ZoomInRange(zoomLevel)
      && ScrollInRange(scrollPosition)
      && displayed == Displayed(data, zoomLevel, scrollPosition)
      && |trendlinePoints| <= 2
      && PreviewConsistent()
    }

    constructor ()
      ensures Valid()
      ensures data == [] && displayed == []
      ensures zoomLevel == MinZoom && scrollPosition == 0
      ensures !drawingMode && trendlinePoints == [] && temporaryLine == None && !modalOpen
    {
      data := [];
      displayed := [];
      zoomLevel := 1.0;
      scrollPosition := 0;
      drawingMode := false;
      trendlinePoints := [];
      temporaryLine := None;
      modalOpen := false;
    }

    /**
     * `applyZoomAndScroll`: draw the sampled window of a non-empty series; an
     * empty series leaves the drawn candles as they are.
     */
    method ApplyZoomAndScroll()
      requires ZoomInRange(zoomLevel) && ScrollInRange(scrollPosition)
      modifies this`displayed
      ensures |data| == 0 ==> displayed == old(displayed)
      ensures |data| > 0 ==> displayed == Displayed(data, zoomLevel, scrollPosition)
    {
      if |data| == 0 {
        return;
      }
      var totalPoints := |data|;
      WindowBounds(totalPoints, zoomLevel, scrollPosition);
      var (startIndex, endIndex) := Window(totalPoints, zoomLevel, scrollPosition);
      displayed := Sample(data[startIndex..endIndex]);
    }

    /**
     * `loadData` for the current symbol and timeframe: a failed fetch changes
     * nothing; otherwise the formatted candles replace the series and are
     * drawn at the current zoom and scroll, which a reload does not reset.
     */
    method LoadData(klines: Result<seq<BinanceApi.Kline>, BinanceApi.FetchError>)
      requires Valid()
      modifies this
      ensures Valid()
      ensures klines.Failure? ==> data == old(data) && displayed == old(displayed)
      ensures klines.Success? ==> data == Sequences.Map(Format, klines.value)
      ensures zoomLevel == old(zoomLevel) && scrollPosition == old(scrollPosition)
      ensures drawingMode == old(drawingMode) && trendlinePoints == old(trendlinePoints)
      ensures temporaryLine == old(temporaryLine) && modalOpen == old(modalOpen)
    {
      if klines.Failure? {
        return;
      }
      var formattedData := Sequences.Map(Format, klines.value);
      data := formattedData;
      displayed := Sample(formattedData);
      ApplyZoomAndScroll();
    }

    /** `handleZoomIn`: double the zoom up to 10 and redraw. */
    method ZoomIn()
      requires Valid()
      modifies this
      ensures Valid()
      ensures zoomLevel == ZoomedIn(old(zoomLevel)) && scrollPosition == old(scrollPosition)
      ensures data == old(data) && drawingMode == old(drawingMode) && trendlinePoints == old(trendlinePoints)
      ensures temporaryLine == old(temporaryLine) && modalOpen == old(modalOpen)
    {
      zoomLevel := ZoomedIn(zoomLevel);
      ApplyZoomAndScroll();
    }

    /** `handleZoomOut`: halve the zoom down to 1 and redraw. */
    method ZoomOut()
      requires Valid()
      modifies this
      ensures Valid()
      ensures zoomLevel == ZoomedOut(old(zoomLevel)) && scrollPosition == old(scrollPosition)
      ensures data == old(data) && drawingMode == old(drawingMode) && trendlinePoints == old(trendlinePoints)
      ensures temporaryLine == old(temporaryLine) && modalOpen == old(modalOpen)
    {
      zoomLevel := ZoomedOut(zoomLevel);
      ApplyZoomAndScroll();
    }

    /** `handleResetZoom`: zoom 1, scroll 0, and the whole series sampled. */
    method ResetZoom()
      requires Valid()
      modifies this
      ensures Valid()
      ensures zoomLevel == MinZoom && scrollPosition == 0
      ensures displayed == Sample(data)
      ensures data == old(data) && drawingMode == old(drawingMode) && trendlinePoints == old(trendlinePoints)
      ensures temporaryLine == old(temporaryLine) && modalOpen == old(modalOpen)
    {
      zoomLevel := 1.0;
      scrollPosition := 0;
      displayed := Sample(data);
      ApplyZoomAndScroll();
      ScrollIgnoredAtZoomOne(data, 0);
    }

    /**
     * `handleScrollChange` with the slider's new value: rejected (the user is
     * alerted) while the zoom is 1, otherwise the scroll moves and the chart
     * is redrawn.
     */
    method ScrollChange(value: int) returns (rejected: bool)
      requires Valid() && ScrollInRange(value)
      modifies this
      ensures Valid()
      ensures rejected <==> old(zoomLevel) == MinZoom
      ensures rejected ==> scrollPosition == old(scrollPosition) && displayed == old(displayed)
      ensures !rejected ==> scrollPosition == value
      ensures zoomLevel == old(zoomLevel) && data == old(data)
      ensures drawingMode == old(drawingMode) && trendlinePoints == old(trendlinePoints)
      ensures temporaryLine == old(temporaryLine) && modalOpen == old(modalOpen)
    {
      if zoomLevel == 1.0 {
        return true;
      }
      scrollPosition := value;
      ApplyZoomAndScroll();
      return false;
    }

    /**
     * `handleChartClick` (also bound to touch start) on the candle under the
     * cursor, if any. In drawing mode the point is appended while fewer than
     * two are held, and restarts the list once two are; the second point
     * opens the modal, which no click closes.
     */
    method Click(payload: Option<ChartCandle>)
      requires Valid()
      modifies this
      ensures Valid()
      ensures !old(drawingMode) || payload.None? ==>
        trendlinePoints == old(trendlinePoints) && temporaryLine == old(temporaryLine) && modalOpen == old(modalOpen)
      ensures old(drawingMode) && payload.Some? ==>
        && trendlinePoints == (if |old(trendlinePoints)| < 2 then old(trendlinePoints) + [PointOf(payload.value)]
                               else [PointOf(payload.value)])
        && modalOpen == (old(modalOpen) || |trendlinePoints| == 2)
        && (temporaryLine.None? <==> |trendlinePoints| == 1)
      ensures old(modalOpen) ==> modalOpen
      ensures data == old(data) && displayed == old(displayed) && zoomLevel == old(zoomLevel)
      ensures scrollPosition == old(scrollPosition) && drawingMode == old(drawingMode)
    {
      if !drawingMode || payload.None? {
        return;
      }
      var point := PointOf(payload.value);
      var newPoints := if |trendlinePoints| < 2 then trendlinePoints + [point] else [point];
      if |newPoints| == 2 {
        modalOpen := true;
      }
      temporaryLine := if |newPoints| == 1 then None else Some(Segment(newPoints[0], newPoints[1]));
      trendlinePoints := newPoints;
    }

    /**
     * `handleMouseMove` (also bound to touch move): while drawing with exactly
     * one point held, preview the segment from it to the hovered candle.
     */
    method MouseMove(payload: Option<ChartCandle>)
      requires Valid()
      modifies this
      ensures Valid()
      ensures old(drawingMode) && |old(trendlinePoints)| == 1 && payload.Some? ==>
        temporaryLine == Some(Segment(old(trendlinePoints)[0], PointOf(payload.value)))
      ensures !(old(drawingMode) && |old(trendlinePoints)| == 1 && payload.Some?) ==>
        temporaryLine == old(temporaryLine)
      ensures trendlinePoints == old(trendlinePoints) && modalOpen == old(modalOpen)
      ensures data == old(data) && displayed == old(displayed) && zoomLevel == old(zoomLevel)
      ensures scrollPosition == old(scrollPosition) && drawingMode == old(drawingMode)
    {
      if !drawingMode || |trendlinePoints| != 1 || payload.None? {
        return;
      }
      var point := PointOf(payload.value);
      temporaryLine := Some(Segment(trendlinePoints[0], point));
    }

    /** `handleModalClose`: close the modal, drop the points and the preview, and leave drawing mode. */
    method ModalClose()
      requires Valid()
      modifies this
      ensures Valid()
      ensures !modalOpen && trendlinePoints == [] && temporaryLine == None && !drawingMode
      ensures data == old(data) && displayed == old(displayed)
      ensures zoomLevel == old(zoomLevel) && scrollPosition == old(scrollPosition)
    {
      modalOpen := false;
      trendlinePoints := [];
      temporaryLine := None;
      drawingMode := false;
    }

    /** The drawing-mode button: flips the flag and nothing else; captured points and preview stay. */
    method ToggleDrawingMode()
      requires Valid()
      modifies this
      ensures Valid()
      ensures drawingMode == !old(drawingMode)
      ensures trendlinePoints == old(trendlinePoints) && temporaryLine == old(temporaryLine) && modalOpen == old(modalOpen)
      ensures data == old(data) && displayed == old(displayed)
      ensures zoomLevel == old(zoomLevel) && scrollPosition == old(scrollPosition)
    {
      drawingMode := !drawingMode;
    }

    /** The coordinates handed to the trendline modal: the two points once both are held. */
    function ModalCoordinates(): (r: Option<Segment>)
      reads this
      ensures r.Some? <==> |trendlinePoints| == 2
      ensures r.Some? ==> r.value.start == trendlinePoints[0] && r.value.end == trendlinePoints[1]
    {
      if |trendlinePoints| == 2 then Some(Segment(trendlinePoints[0], trendlinePoints[1])) else None
    }

    /**
     * Whether the trendline modal renders: it must be open and have
     * coordinates. After a third click the modal is still open but holds one
     * point, so it renders nothing.
     */
    function ModalShown(): (shown: bool)
      reads this
      ensures shown <==> modalOpen && |trendlinePoints| == 2
    {
      modalOpen && ModalCoordinates().Some?
    }
  }

  /**
   * Two clicks in drawing mode on candles at t = 1000 s (high 12, low 9) and
   * t = 2000 s (high 11, low 8), with a hover in between, capture the points
   * (1000, 10.5) and (2000, 9.5) and open the modal; a third click restarts.
   */
  method TrendlineScenario()
  {
    var chart := new Chart();
    var first := ChartCandle(1000000, 10.0, 12.0, 9.0, 11.0, 0.0, RisingColor);
    var second := ChartCandle(2000000, 11.0, 11.0, 8.0, 9.0, 0.0, FallingColor);
    chart.Click(Some(first));
    assert chart.trendlinePoints == [];
    chart.ToggleDrawingMode();
    chart.Click(Some(first));
    assert chart.trendlinePoints == [Point(1000.0, 10.5)] && chart.temporaryLine == None && !chart.modalOpen;
    chart.MouseMove(Some(second));
    assert chart.trendlinePoints == [Point(1000.0, 10.5)];
    assert chart.temporaryLine == Some(Segment(Point(1000.0, 10.5), Point(2000.0, 9.5)));
    chart.Click(Some(second));
    assert chart.trendlinePoints == [Point(1000.0, 10.5), Point(2000.0, 9.5)];
    assert chart.modalOpen && chart.ModalShown();
    chart.Click(Some(first));
    assert chart.trendlinePoints == [Point(1000.0, 10.5)] && chart.modalOpen && !chart.ModalShown();
    chart.ModalClose();
    assert !chart.drawingMode && chart.trendlinePoints == [] && chart.temporaryLine == None;
  }
}
