/**
 * The two d3 scales of the city and the THREE.Color arithmetic used with them
 * (src/app/components/GithubCity.tsx, `colorScale` and `heightScale`).
 */
module Scales {

  /** A THREE.Color: red, green and blue channels, each normally in [0, 1]. */
  datatype Rgb = Rgb(r: real, g: real, b: real)

  predicate InUnitRange(x: real) { 0.0 <= x <= 1.0 }

  predicate IsUnitColor(c: Rgb) { InUnitRange(c.r) && InUnitRange(c.g) && InUnitRange(c.b) }

  /** `Color.multiplyScalar(k)`: every channel times k. */
  function Scale(c: Rgb, k: real): Rgb { Rgb(c.r * k, c.g * k, c.b * k) }

  /** The factor that darkens the base colour into the side colour (material slots 0, 1, 3, 4 and 5) and the window texture's walls. */
  const SideShade: real := 0.85

  /** `baseColor.clone().multiplyScalar(0.85)`: a colour that is nowhere lighter than the base. */
  function SideColor(base: Rgb): (side: Rgb)
    requires IsUnitColor(base)
    ensures IsUnitColor(side)
    ensures side.r <= base.r && side.g <= base.g && side.b <= base.b
  {
    Scale(base, SideShade)
  }

  // ---------------------------------------------------------------------------
  // Colour scale

  /** The range of `colorScale`, one stop per domain point 0, 1, 2, 3, 4. */
  const Palette: seq<string> := ["#ebedf0", "#bef5ca", "#7ce3a1", "#4fd07b", "#2fb344"]

  /** Counts at or above this share the top stop. */
  const ColorCeiling: nat := 4

  predicate IsHexDigit(c: char) { '0' <= c <= '9' || 'a' <= c <= 'f' || 'A' <= c <= 'F' }

  /** A CSS colour of the form "#rrggbb". */
  predicate IsHexColor(s: string) {
    |s| == 7 && s[0] == '#' && forall i :: 1 <= i < 7 ==> IsHexDigit(s[i])
  }

  /**
   * The stop that `colorScale(Math.min(count, 4))` lands on. At an integer domain point d3
   * returns that stop's colour formatted as "rgb(r, g, b)"; the model looks up the hex stop
   * instead, which `new THREE.Color` parses to the same channels, byte / 255.
   */
  function ColorStop(count: nat): string {
    Palette[if count < ColorCeiling then count else ColorCeiling]
  }

  /** Every count is coloured by one of the palette's stops, each a valid "#rrggbb" string. */
  lemma ColorStopIsHex(count: nat)
    ensures ColorStop(count) in Palette && IsHexColor(ColorStop(count))
  {
  }

  /** Every count from 4 upwards gets the saturated green; below 4 each count has its own stop. */
  lemma ColorStopClamp(count: nat)
    ensures count >= ColorCeiling ==> ColorStop(count) == "#2fb344"
    ensures count < ColorCeiling ==> ColorStop(count) == Palette[count]
  {
  }

  /** Two counts share a colour exactly when they agree after clamping to 4. */
  lemma ColorStopSeparates(a: nat, b: nat)
    ensures ColorStop(a) == ColorStop(b) <==> Clamp4(a) == Clamp4(b)
  {
    var i, j := Clamp4(a), Clamp4(b);
    if i != j {
      assert Palette[i][1] != Palette[j][1] || Palette[i][2] != Palette[j][2];
    }
  }

  function Clamp4(count: nat): nat { if count < ColorCeiling then count else ColorCeiling }

  function HexDigitValue(c: char): (v: nat)
    requires IsHexDigit(c)
    ensures v < 16
  {
    if '0' <= c <= '9' then c as int - '0' as int
    else if 'a' <= c <= 'f' then c as int - 'a' as int + 10
    else c as int - 'A' as int + 10
  }

  function HexByte(hi: char, lo: char): (v: nat)
    requires IsHexDigit(hi) && IsHexDigit(lo)
    ensures v < 256
  {
    HexDigitValue(hi) * 16 + HexDigitValue(lo)
  }

  /** `new THREE.Color` on the looked-up stop: each two-digit channel divided by 255, as it also gets from the "rgb(r, g, b)" form. */
  function ParseHexColor(s: string): (c: Rgb)
    requires IsHexColor(s)
    ensures IsUnitColor(c)
  {
    Rgb(HexByte(s[1], s[2]) as real / 255.0,
        HexByte(s[3], s[4]) as real / 255.0,
        HexByte(s[5], s[6]) as real / 255.0)
  }

  // ---------------------------------------------------------------------------
  // Height scale

  /**
   * What the heights rely on of `Math.log`: log 1 = 0 and the logarithm of a
   * number above 1 is positive.
   */
  ghost predicate IsLog(ln: real -> real) {
    ln(1.0) == 0.0 && forall x :: 1.0 < x ==> 0.0 < ln(x)
  }

  /** What the ordering of heights relies on: `Math.log` strictly increases on the positive reals. */
  ghost predicate Increasing(ln: real -> real) {
    forall x, y :: 0.0 < x < y ==> ln(x) < ln(y)
  }

  /** The count at which the height scale's domain ends (`Math.log(30 + 1)`). */
  const DomainCount: nat := 30
  /** The end of the height scale's range. */
  const MaxHeight: real := 1.5
  /** The height of a building for a day without contributions. */
  const FloorHeight: real := 0.05

  /** `heightScale`: the linear map of [0, ln 31] onto [0, 1.5], without clamping. */
  function HeightScale(v: real, ln: real -> real): real
    requires IsLog(ln)
  {
    assert 0.0 < ln((DomainCount + 1) as real);
    (v - 0.0) / (ln((DomainCount + 1) as real) - 0.0) * (MaxHeight - 0.0) + 0.0
  }

  /** `count > 0 ? heightScale(Math.log(count + 1)) : 0.05`: a building is never flat. */
  function Height(count: nat, ln: real -> real): (h: real)
    requires IsLog(ln)
    ensures h > 0.0
  {
    if count > 0 then
      assert 0.0 < ln((count + 1) as real) && 0.0 < ln((DomainCount + 1) as real);
      HeightScale(ln((count + 1) as real), ln)
    else FloorHeight
  }

  /** A day without contributions gets the floor height. */
  lemma HeightOfZero(ln: real -> real)
    requires IsLog(ln)
    ensures Height(0, ln) == FloorHeight
  {
  }

  /** Among positive counts the height strictly increases with the count. */
  lemma HeightMonotone(a: nat, b: nat, ln: real -> real)
    requires IsLog(ln) && Increasing(ln)
    requires 0 < a < b
    ensures Height(a, ln) < Height(b, ln)
  {
    var L := ln((DomainCount + 1) as real);
    var x, y := ln((a + 1) as real), ln((b + 1) as real);
    assert 0.0 < L;
    assert x < y;
    DivideMonotone(x, y, L);
  }

  lemma DivideMonotone(x: real, y: real, d: real)
    requires x < y && 0.0 < d
    ensures x / d * MaxHeight < y / d * MaxHeight
  {
    assert y / d - x / d == (y - x) / d;
  }

  /** Thirty contributions reach exactly the top of the scale's range. */
  lemma HeightAtDomainEnd(ln: real -> real)
    requires IsLog(ln)
    ensures Height(DomainCount, ln) == MaxHeight
  {
    var L := ln((DomainCount + 1) as real);
    assert 0.0 < L;
    assert L / L == 1.0;
  }

  /** The scale is not clamped: more than thirty contributions go above 1.5. */
  lemma HeightUnclamped(count: nat, ln: real -> real)
    requires IsLog(ln) && Increasing(ln)
    requires count > DomainCount
    ensures Height(count, ln) > MaxHeight
  {
    HeightAtDomainEnd(ln);
    HeightMonotone(DomainCount, count, ln);
  }
}
