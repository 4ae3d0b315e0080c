/**
 * Translation of a Leaflet zoom into a Kakao Maps level: Kakao's levels grow
 * coarser as the number grows, Leaflet's zooms grow finer, and the bridge uses
 * the heuristic `level = round(20 - zoom)` clamped to Kakao's levels 1 to 14.
 */
module ZoomLevel {

  /** The most detailed Kakao level. */
  const MinLevel: int := 1
  /** The least detailed Kakao level. */
  const MaxLevel: int := 14
  /** The constant of the heuristic `level = 20 - zoom`. */
  const LevelOffset: int := 20

  /** JavaScript `Math.min` on integers. */
  function Min(a: int, b: int): (r: int)
    ensures r <= a && r <= b && (r == a || r == b)
  {
    if a <= b then a else b
  }

  /** JavaScript `Math.max` on integers. */
  function Max(a: int, b: int): (r: int)
    ensures r >= a && r >= b && (r == a || r == b)
  {
    if a >= b then a else b
  }

  /** `clamp(n, min, max)`, written as `Math.max(min, Math.min(max, n))`. */
  function Clamp(n: int, lo: int, hi: int): (r: int)
    ensures lo <= hi ==> lo <= r <= hi
    ensures lo <= n <= hi ==> r == n
    ensures n < lo ==> r == lo
    ensures lo <= hi < n ==> r == hi
    ensures hi < lo ==> r == lo
  {
    Max(lo, Min(hi, n))
  }

  /**
   * JavaScript `Math.round` on an exact real: the nearest integer, and of two
   * equally near integers the larger one (a half rounds up, also below zero).
   */
  function JsRound(x: real): (r: int)
    ensures r as real - 0.5 <= x < r as real + 0.5
  {
    (x + 0.5).Floor
  }

  /** `leafletZoomToKakaoLevel(zoom)`. */
  function ZoomToLevel(zoom: real): (level: int)
    ensures MinLevel <= level <= MaxLevel
  {
    Clamp(JsRound(LevelOffset as real - zoom), MinLevel, MaxLevel)
  }

  /** Clamping never reverses the order of two inputs. */
  lemma ClampMonotone(m: int, n: int, lo: int, hi: int)
    requires m <= n
    ensures Clamp(m, lo, hi) <= Clamp(n, lo, hi)
  {
  }

  /** Rounding never reverses the order of two inputs. */
  lemma JsRoundMonotone(x: real, y: real)
    requires x <= y
    ensures JsRound(x) <= JsRound(y)
  {
  }

  /** Rounding returns an integer unchanged. */
  lemma JsRoundOfInteger(n: int)
    ensures JsRound(n as real) == n
  {
  }

  /** A larger Leaflet zoom never gives a larger (coarser) Kakao level. */
  lemma ZoomToLevelAntitone(z1: real, z2: real)
    requires z1 <= z2
    ensures ZoomToLevel(z2) <= ZoomToLevel(z1)
  {
    JsRoundMonotone(LevelOffset as real - z2, LevelOffset as real - z1);
    ClampMonotone(JsRound(LevelOffset as real - z2), JsRound(LevelOffset as real - z1), MinLevel, MaxLevel);
  }

  /**
   * The shape of the translation on fractional zooms: the coarsest level for
   * every zoom up to 6.5, the finest for every zoom above 18.5, and the plain
   * rounded `20 - zoom` in between.
   */
  lemma ZoomToLevelShape(zoom: real)
    ensures ZoomToLevel(zoom) == MaxLevel <==> zoom <= 6.5
    ensures ZoomToLevel(zoom) == MinLevel <==> zoom > 18.5
    ensures 6.5 < zoom <= 18.5 ==>
              ZoomToLevel(zoom) == JsRound(LevelOffset as real - zoom) && MinLevel < ZoomToLevel(zoom) < MaxLevel
  {
  }

  /** On whole zooms: 14 up to zoom 6, exactly `20 - zoom` from 6 to 19, and 1 from 19 on. */
  lemma ZoomToLevelOfInteger(zoom: int)
    ensures zoom <= 6 ==> ZoomToLevel(zoom as real) == MaxLevel
    ensures 6 <= zoom <= 19 ==> ZoomToLevel(zoom as real) == LevelOffset - zoom
    ensures 19 <= zoom ==> ZoomToLevel(zoom as real) == MinLevel
  {
    JsRoundOfInteger(LevelOffset - zoom);
    assert LevelOffset as real - zoom as real == (LevelOffset - zoom) as real;
  }

  /** Worked values of the translation, including two halves that round up. */
  lemma ZoomToLevelExamples()
    ensures ZoomToLevel(0.0) == 14 && ZoomToLevel(6.0) == 14 && ZoomToLevel(7.0) == 13
    ensures ZoomToLevel(15.0) == 5 && ZoomToLevel(20.0) == 1 && ZoomToLevel(25.0) == 1
    ensures ZoomToLevel(6.5) == 14 && ZoomToLevel(7.5) == 13 && ZoomToLevel(18.5) == 2
  {
  }
}
