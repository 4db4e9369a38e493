/**
 * The viewport transform tracker: the pixel offset of both canvases while the map is being
 * panned, and the cumulative pan delta the last pan event reported.
 */
module Viewport {

  /** A pixel offset or pan delta. */
  datatype Pixel = Pixel(x: int, y: int)

  const Zero := Pixel(0, 0)

  /** The canvases' `style.left` / `style.top` (both canvases always share them) and `_previousPanDelta`. */
  datatype PanState = PanState(canvasOffset: Pixel, previousPanDelta: Pixel)

  /** What `_clearCanvas` leaves: both canvases at the map's corner and no pan delta recorded. */
  const Cleared := PanState(Zero, Zero)

  /**
   * `_panCanvas`: a pan event reports the delta accumulated since the pan began; the canvases
   * move by what is new in it, and it becomes the previous delta.
   */
  function Pan(s: PanState, delta: Pixel): (r: PanState)
    ensures r.previousPanDelta == delta
    ensures r.canvasOffset.x - s.canvasOffset.x == delta.x - s.previousPanDelta.x
    ensures r.canvasOffset.y - s.canvasOffset.y == delta.y - s.previousPanDelta.y
  {
    PanState(Pixel(s.canvasOffset.x + (delta.x - s.previousPanDelta.x),
                   s.canvasOffset.y + (delta.y - s.previousPanDelta.y)),
             delta)
  }

  /** The state after a run of pan events, oldest first. */
  function PanRun(s: PanState, deltas: seq<Pixel>): PanState
    decreases |deltas|
  {
    if deltas == [] then s else Pan(PanRun(s, deltas[..|deltas| - 1]), deltas[|deltas| - 1])
  }

  /** The tracker's invariant: the canvases sit exactly where the latest cumulative delta puts them. */
  predicate Aligned(s: PanState)
  {
    s.canvasOffset == s.previousPanDelta
  }

  /** Each pan event keeps the canvases aligned with the delta it reports. */
  lemma PanKeepsAligned(s: PanState, delta: Pixel)
    requires Aligned(s)
    ensures Aligned(Pan(s, delta)) && Pan(s, delta).canvasOffset == delta
  {
  }

  /**
   * After any run of pan events since the last clear, the canvas offset is the latest
   * cumulative delta (and stays at the corner when there was none).
   */
  lemma {:induction false} PanRunTracksLatestDelta(deltas: seq<Pixel>)
    ensures Aligned(PanRun(Cleared, deltas))
    ensures PanRun(Cleared, deltas).canvasOffset == if deltas == [] then Zero else deltas[|deltas| - 1]
    decreases |deltas|
  {
    if deltas != [] {
      PanRunTracksLatestDelta(deltas[..|deltas| - 1]);
      PanKeepsAligned(PanRun(Cleared, deltas[..|deltas| - 1]), deltas[|deltas| - 1]);
    }
  }

  /** Cumulative deltas (5,0), (12,0), (12,3) move the canvases by (5,0), then (7,0), then (0,3). */
  lemma PanIncrementsExample()
    ensures var s1 := Pan(Cleared, Pixel(5, 0));
      var s2 := Pan(s1, Pixel(12, 0));
      var s3 := Pan(s2, Pixel(12, 3));
      && s1.canvasOffset == Pixel(5, 0)
      && s2.canvasOffset == Pixel(12, 0)
      && s3.canvasOffset == Pixel(12, 3)
  {
  }
}
