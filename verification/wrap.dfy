/**
 * The wrap-around corrector: moves a point's longitude by a whole number of turns so that
 * features near the antimeridian are drawn next to the map's current centre.
 */
module Wrap {

  /** A map point; `x` is its longitude and `wkid` its spatial reference. */
  datatype GeoPoint = GeoPoint(x: real, y: real, wkid: int)

  /** A point in canvas pixels, as the host's `toScreen` projection returns it. */
  datatype ScreenPoint = ScreenPoint(x: real, y: real)

  /** JavaScript's `Math.round`: halves round up, towards positive infinity. */
  function JsRound(r: real): (n: int)
    ensures r - 0.5 < n as real <= r + 0.5
  {
    (r + 0.5).Floor
  }

  /** True when `lon` lies within half a turn of `center`. */
  predicate NearCenter(lon: real, center: real)
  {
    -180.0 <= center - lon <= 180.0
  }

  /** True when `d` degrees is a whole number of turns. */
  predicate WholeTurns(d: real)
  {
    ((d / 360.0).Floor as real) * 360.0 == d
  }

  /**
   * `_wrapAroundCanvasPointGeometry`: with wrapping enabled, a longitude more than half a turn
   * from the map centre is shifted by `round((center - lon) / 360)` whole turns.
   */
  function WrapAround(p: GeoPoint, center: real, enabled: bool): (q: GeoPoint)
    ensures q.y == p.y && q.wkid == p.wkid
    ensures !enabled ==> q == p
    ensures enabled && NearCenter(p.x, center) ==> q == p
  {
    if !enabled then p
    else
      var diff := center - p.x;
      if diff < -180.0 || diff > 180.0 then p.(x := p.x + (JsRound(diff / 360.0) as real) * 360.0)
      else p
  }

  /**
   * With wrapping enabled the result is the input moved by a whole number of turns, and it
   * always ends up within half a turn of the centre.
   */
  lemma WrapLandsNearCenter(p: GeoPoint, center: real)
    ensures WholeTurns(WrapAround(p, center, true).x - p.x)
    ensures NearCenter(WrapAround(p, center, true).x, center)
  {
    var diff := center - p.x;
    if diff < -180.0 || diff > 180.0 {
      var k := JsRound(diff / 360.0);
      assert diff / 360.0 - 0.5 < k as real <= diff / 360.0 + 0.5;
      assert (diff / 360.0) * 360.0 == diff;
      assert diff - 180.0 < (k as real) * 360.0 <= diff + 180.0;
      assert WrapAround(p, center, true).x - p.x == (k as real) * 360.0;
      assert ((k as real) * 360.0) / 360.0 == k as real;
    }
  }

  /** Correcting twice against the same centre is the same as correcting once. */
  lemma WrapIdempotent(p: GeoPoint, center: real, enabled: bool)
    ensures WrapAround(WrapAround(p, center, enabled), center, enabled) == WrapAround(p, center, enabled)
  {
    if enabled {
      WrapLandsNearCenter(p, center);
    }
  }
}
