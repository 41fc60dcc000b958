/**
 * The per-cell visual style of an image cell (src/App.tsx:21-31 and
 * 303-306): a random skew-and-scale transform and a random z-index, both
 * drawn from the page's generator `random = mulberry32(seed)` of line 197.
 * That generator is separate from the one `generateGridData` creates for
 * itself, so styling never changes the grid.
 *
 * Numbers are reals: the transform values are exact here, where JavaScript
 * rounds them to doubles.
 */
module Styles {
  import opened Prng

  /** A value computed from the generator, and the generator state after it. */
  datatype Drawn<T> = Drawn(value: T, rng: U32)

  /** `'none'`, or `skew(xdeg, ydeg) scale(s)`. */
  datatype Transform = NoTransform | SkewScale(skewX: real, skewY: real, scale: real)

  /** The inline style of an image cell. */
  datatype CellStyle = CellStyle(transform: Transform, zIndex: int)

  /** Lines 25-29 for two draws `r1`, `r2` in [0, 1). */
  function SkewOf(intensity: real, r1: real, r2: real): Transform {
    var maxSkew := 8.0 * intensity;
    var maxScale := 1.05 + 0.1 * intensity;
    SkewScale(r1 * maxSkew - maxSkew / 2.0, r2 * maxSkew - maxSkew / 2.0, 1.0 + (maxScale - 1.0) * intensity)
  }

  /** A skew lies in [-4·intensity, 4·intensity), and for an intensity in [0, 1] the scale lies in [1, 1.15]. */
  lemma SkewBounds(intensity: real, r1: real, r2: real)
    requires intensity > 0.0 && 0.0 <= r1 < 1.0 && 0.0 <= r2 < 1.0
    ensures var t := SkewOf(intensity, r1, r2);
      && -4.0 * intensity <= t.skewX < 4.0 * intensity
      && -4.0 * intensity <= t.skewY < 4.0 * intensity
      && (intensity <= 1.0 ==> 1.0 <= t.scale <= 1.15)
  {
    var m := 8.0 * intensity;
    assert m / 2.0 == 4.0 * intensity;
    MulBelow(r1, m);
    MulBelow(r2, m);
    var t := SkewOf(intensity, r1, r2);
    assert t.skewX == r1 * m - m / 2.0 && t.skewY == r2 * m - m / 2.0;
    if intensity <= 1.0 {
      var k := 0.05 + 0.1 * intensity;
      assert 0.0 <= k * intensity <= 0.15 by { MulAtMost(k, intensity, 0.15); }
      assert 1.0 + (1.05 + 0.1 * intensity - 1.0) * intensity == 1.0 + k * intensity;
    }
  }

  lemma MulBelow(r: real, m: real)
    requires 0.0 <= r < 1.0 && m > 0.0
    ensures 0.0 <= r * m < m
  {
  }

  lemma MulAtMost(k: real, x: real, bound: real)
    requires 0.0 <= k <= bound && 0.0 <= x <= 1.0
    ensures 0.0 <= k * x <= bound
  {
  }

  /** `getRandomSkew(intensity, random)`: no draw for intensity 0, otherwise exactly two. */
  function RandomSkew(intensity: real, rng: U32): (r: Drawn<Transform>)
    ensures intensity == 0.0 ==> r == Drawn(NoTransform, rng)
    ensures intensity != 0.0 ==> r.rng == Advance(rng, 2) && r.value.SkewScale?
  {
    if intensity == 0.0 then Drawn(NoTransform, rng)
    else
      var s1 := Advance(rng, 1);
      var s2 := Advance(s1, 1);
      AdvanceAdd(rng, 1, 1);
      Drawn(SkewOf(intensity, Fraction(Mix(s1)), Fraction(Mix(s2))), s2)
  }

  /** Draws the style of one cell takes: two for a skew, one for a random z-index, none when expanded. */
  function StyleDraws(isExpanded: bool, enableSkew: bool, skewIntensity: real, enableZIndexRandomization: bool): nat {
    if isExpanded then 0
    else (if enableSkew && skewIntensity != 0.0 then 2 else 0) + (if enableZIndexRandomization then 1 else 0)
  }

  /** Lines 304-305: the transform is drawn first, then the z-index. */
  function ImageCellStyle(isExpanded: bool, enableSkew: bool, skewIntensity: real, enableZIndexRandomization: bool, rng: U32): (r: Drawn<CellStyle>)
    ensures r.rng == Advance(rng, StyleDraws(isExpanded, enableSkew, skewIntensity, enableZIndexRandomization))
    ensures isExpanded ==> r.value == CellStyle(NoTransform, 50)
    ensures !isExpanded ==> 0 <= r.value.zIndex < 10
    ensures !isExpanded && !enableZIndexRandomization ==> r.value.zIndex == 0
    ensures !enableSkew || skewIntensity == 0.0 ==> r.value.transform == NoTransform
  {
    var skew := if isExpanded || !enableSkew then Drawn(NoTransform, rng) else RandomSkew(skewIntensity, rng);
    if isExpanded then
      assert Advance(rng, 0) == rng;
      Drawn(CellStyle(skew.value, 50), skew.rng)
    else if enableZIndexRandomization then
      var s := Advance(skew.rng, 1);
      AdvanceAdd(rng, StyleDraws(false, enableSkew, skewIntensity, false), 1);
      assert StyleDraws(false, enableSkew, skewIntensity, false) == (if enableSkew && skewIntensity != 0.0 then 2 else 0);
      assert skew.rng == Advance(rng, StyleDraws(false, enableSkew, skewIntensity, false));
      Drawn(CellStyle(skew.value, FloorScaled(Mix(s), 10)), s)
    else
      assert skew.rng == Advance(rng, StyleDraws(false, enableSkew, skewIntensity, false));
      Drawn(CellStyle(skew.value, 0), skew.rng)
  }

  /** `getRandomSkew` drawing from the page's generator. */
  method GetRandomSkew(intensity: real, random: Mulberry32) returns (transform: Transform)
    modifies random
    ensures RandomSkew(intensity, old(random.state)) == Drawn(transform, random.state)
  {
    if intensity == 0.0 {
      return NoTransform;
    }
    ghost var s0 := random.state;
    var u1 := random.Next();
    var u2 := random.Next();
    AdvanceAdd(s0, 1, 1);
    transform := SkewOf(intensity, Fraction(u1), Fraction(u2));
  }

  /** The `style` object of an image cell, lines 303-306. */
  method StyleImageCell(isExpanded: bool, enableSkew: bool, skewIntensity: real, enableZIndexRandomization: bool, random: Mulberry32)
    returns (style: CellStyle)
    modifies random
    ensures ImageCellStyle(isExpanded, enableSkew, skewIntensity, enableZIndexRandomization, old(random.state)) == Drawn(style, random.state)
  {
    var transform := NoTransform;
    if !(isExpanded || !enableSkew) {
      transform := GetRandomSkew(skewIntensity, random);
    }
    var zIndex := 0;
    if isExpanded {
      zIndex := 50;
    } else if enableZIndexRandomization {
      var u := random.Next();
      zIndex := FloorScaled(u, 10);
    }
    style := CellStyle(transform, zIndex);
  }
}
