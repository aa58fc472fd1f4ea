/** `ChartInteractionManager`: the selection, tooltip, zoom and pan state
    shared by the interactive charts. */
module ChartInteraction {
  import opened Wrappers
  import opened Numbers
  import opened ChartData

  /** The smallest and the largest zoom level. */
  const MinZoom: real := 0.5
  const MaxZoom: real := 5.0

  /** The zoom level a zoom by `delta` asks for, `zoom * (1 + delta)`, kept in
      [0.5, 5]. */
  function ClampedZoom(zoomLevel: real, delta: real): (z: real)
    ensures MinZoom <= z <= MaxZoom
    ensures MinZoom <= zoomLevel * (1.0 + delta) <= MaxZoom ==> z == zoomLevel * (1.0 + delta)
  {
    ClampReal(zoomLevel * (1.0 + delta), MinZoom, MaxZoom)
  }

  /** The pan offset after a change of zoom from `oldZoom` to `newZoom` around
      `center`: `pan + ((center - pan) / newZoom - (center - pan) / oldZoom) * newZoom`. */
  function AdjustedPan(panOffset: real, center: real, oldZoom: real, newZoom: real): real
    requires oldZoom != 0.0 && newZoom != 0.0
  {
    var oldCenter := (center - panOffset) / oldZoom;
    var newCenter := (center - panOffset) / newZoom;
    panOffset + (newCenter - oldCenter) * newZoom
  }

  /** The adjustment keeps the zoom centre over the same content: the
      centre's position in content coordinates, `(center - pan) / zoom`, is
      the same before and after. */
  lemma {:induction false} ZoomKeepsCenter(panOffset: real, center: real, oldZoom: real, newZoom: real)
    requires oldZoom != 0.0 && newZoom != 0.0
    ensures (center - AdjustedPan(panOffset, center, oldZoom, newZoom)) / newZoom
            == (center - panOffset) / oldZoom
  {
    var d := center - panOffset;
    var q := d / oldZoom;
    assert (d / newZoom - q) * newZoom == d - q * newZoom;
    assert center - AdjustedPan(panOffset, center, oldZoom, newZoom) == q * newZoom;
    QuotientOf(q * newZoom, newZoom, q);
  }

  /** Zooming back to the previous level around the same centre restores the pan offset. */
  lemma {:induction false} ZoomRoundTrip(panOffset: real, center: real, oldZoom: real, newZoom: real)
    requires oldZoom != 0.0 && newZoom != 0.0
    ensures AdjustedPan(AdjustedPan(panOffset, center, oldZoom, newZoom), center, newZoom, oldZoom) == panOffset
  {
    var p1 := AdjustedPan(panOffset, center, oldZoom, newZoom);
    ZoomKeepsCenter(panOffset, center, oldZoom, newZoom);
    ZoomKeepsCenter(p1, center, newZoom, oldZoom);
    var q := (center - panOffset) / oldZoom;
    var p2 := AdjustedPan(p1, center, newZoom, oldZoom);
    assert (center - p2) / oldZoom == q;
    DivMul(center - p2, oldZoom);
    DivMul(center - panOffset, oldZoom);
  }

  class ChartInteractionManager {
    var selectedPoint: Option<DataPoint>
    var selectedSeries: Option<int>
    var isTooltipVisible: bool
    var zoomLevel: real
    var panOffset: real

    /** The zoom level stays in range, and a point, its series and the
        tooltip are all present or all absent. */
    ghost predicate Valid()
      reads this
    {
      && MinZoom <= zoomLevel <= MaxZoom
      && (selectedPoint.Some? <==> isTooltipVisible)
      && (selectedSeries.Some? <==> isTooltipVisible)
    }

    /** No selection, no tooltip, zoom 1 and no pan. */
    constructor ()
      ensures Valid()
      ensures selectedPoint == None && selectedSeries == None && !isTooltipVisible
      ensures zoomLevel == 1.0 && panOffset == 0.0
    {
      selectedPoint := None;
      selectedSeries := None;
      isTooltipVisible := false;
      zoomLevel := 1.0;
      panOffset := 0.0;
    }

    /** Selects a point of a series and shows the tooltip; the view is unchanged. */
    method SelectPoint(point: DataPoint, seriesIndex: int)
      requires Valid()
      modifies this
      ensures Valid()
      ensures selectedPoint == Some(point) && selectedSeries == Some(seriesIndex) && isTooltipVisible
      ensures zoomLevel == old(zoomLevel) && panOffset == old(panOffset)
    {
      selectedPoint := Some(point);
      selectedSeries := Some(seriesIndex);
      isTooltipVisible := true;
    }

    /** Clears the selection and hides the tooltip; the view is unchanged. */
    method DeselectPoint()
      requires Valid()
      modifies this
      ensures Valid()
      ensures selectedPoint == None && selectedSeries == None && !isTooltipVisible
      ensures zoomLevel == old(zoomLevel) && panOffset == old(panOffset)
    {
      selectedPoint := None;
      selectedSeries := None;
      isTooltipVisible := false;
    }

    /** Zooms by `delta` around `centerPoint`. When the clamped level equals
        the current one nothing changes; otherwise the pan is adjusted so the
        centre stays over the same content, and the level is updated. The
        selection is untouched. */
    method Zoom(delta: real, centerPoint: real)
      requires Valid()
      modifies this
      ensures Valid()
      ensures var newZoom := ClampedZoom(old(zoomLevel), delta);
        && (newZoom == old(zoomLevel) ==> zoomLevel == old(zoomLevel) && panOffset == old(panOffset))
        && (newZoom != old(zoomLevel) ==>
              zoomLevel == newZoom
              && panOffset == AdjustedPan(old(panOffset), centerPoint, old(zoomLevel), newZoom))
      ensures selectedPoint == old(selectedPoint) && selectedSeries == old(selectedSeries)
      ensures isTooltipVisible == old(isTooltipVisible)
    {
      var newZoomLevel := ClampReal(zoomLevel * (1.0 + delta), MinZoom, MaxZoom);
      if newZoomLevel != zoomLevel {
        var oldCenter := (centerPoint - panOffset) / zoomLevel;
        var newCenter := (centerPoint - panOffset) / newZoomLevel;
        panOffset := panOffset + (newCenter - oldCenter) * newZoomLevel;
        zoomLevel := newZoomLevel;
      }
    }

    /** Moves the view by `delta`; nothing else changes. */
    method Pan(delta: real)
      requires Valid()
      modifies this
      ensures Valid()
      ensures panOffset == old(panOffset) + delta && zoomLevel == old(zoomLevel)
      ensures selectedPoint == old(selectedPoint) && selectedSeries == old(selectedSeries)
      ensures isTooltipVisible == old(isTooltipVisible)
    {
      panOffset := panOffset + delta;
    }

    /** Restores zoom 1 and no pan; the selection is untouched. */
    method ResetView()
      requires Valid()
      modifies this
      ensures Valid()
      ensures zoomLevel == 1.0 && panOffset == 0.0
      ensures selectedPoint == old(selectedPoint) && selectedSeries == old(selectedSeries)
      ensures isTooltipVisible == old(isTooltipVisible)
    {
      zoomLevel := 1.0;
      panOffset := 0.0;
    }
  }
}
