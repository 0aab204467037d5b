/**
 * The colour the calculator paints behind a pH value: the value is first
 * brought onto the 0-14 scale, then one of seven bands is chosen. Six bands
 * have a fixed colour; the weak-acid band [3, 6) blends from orange
 * rgb(215, 100, 0) towards yellow rgb(255, 255, 0).
 *
 * A colour is kept abstract: a fixed hex code or an (r, g, b) triple, not
 * the CSS text built from it.
 */
module PhColor {
  import opened PhConversions

  datatype Color = Hex(code: string) | Rgb(r: int, g: int, b: int)

  const StrongAcidColor: Color := Hex("#d70000")
  const NearNeutralColor: Color := Hex("#e0f57c")
  const NeutralColor: Color := Hex("#7ceb7c")
  const SlightlyBasicColor: Color := Hex("#7cd6f5")
  const ModeratelyBasicColor: Color := Hex("#0088cc")
  const StrongBaseColor: Color := Hex("#0000cc")

  /** `Math.round` on a non-negative argument: halves round up. */
  function Round(x: real): (n: int)
    ensures x - 0.5 < n as real <= x + 0.5
  {
    (x + 0.5).Floor
  }

  /** Where the weak-acid band puts c, from 0 at pH 3 towards 1 at pH 6. */
  function Fraction(c: real): real {
    (c - 3.0) / 3.0
  }

  /** The orange-to-yellow blend of the weak-acid band. */
  function Blend(c: real): Color {
    var t := Fraction(c);
    Rgb(Round(215.0 + t * 40.0), Round(100.0 + t * 155.0), Round(0.0))
  }

  /**
   * The colour of a pH value. Total: every real has one. Each fixed colour
   * is given exactly on its own band of the clamped value, a blended one
   * exactly on [3, 6), and a blend never leaves the orange-to-yellow range.
   */
  function GetPhColor(pH: real): (color: Color)
    ensures color == StrongAcidColor <==> Clamp(pH) < 3.0
    ensures color.Rgb? <==> 3.0 <= Clamp(pH) < 6.0
    ensures color == NearNeutralColor <==> 6.0 <= Clamp(pH) < 7.0
    ensures color == NeutralColor <==> Clamp(pH) == 7.0
    ensures color == SlightlyBasicColor <==> 7.0 < Clamp(pH) < 9.0
    ensures color == ModeratelyBasicColor <==> 9.0 <= Clamp(pH) < 12.0
    ensures color == StrongBaseColor <==> 12.0 <= Clamp(pH)
    ensures color.Rgb? ==> 215 <= color.r <= 255 && 100 <= color.g <= 255 && color.b == 0
  {
    var constrainedPH := Clamp(pH);
    if constrainedPH < 3.0 then
      StrongAcidColor
    else if constrainedPH < 6.0 then
      Blend(constrainedPH)
    else if constrainedPH < 7.0 then
      NearNeutralColor
    else if constrainedPH == 7.0 then
      NeutralColor
    else if constrainedPH < 9.0 then
      SlightlyBasicColor
    else if constrainedPH < 12.0 then
      ModeratelyBasicColor
    else
      StrongBaseColor
  }

  /** Values off the scale are coloured as the nearest end of the scale. */
  lemma ColorOfClamped(pH: real)
    ensures GetPhColor(pH) == GetPhColor(Clamp(pH))
    ensures pH < 0.0 ==> GetPhColor(pH) == GetPhColor(0.0) == StrongAcidColor
    ensures pH > 14.0 ==> GetPhColor(pH) == GetPhColor(14.0) == StrongBaseColor
  {
  }

  /** Position of a colour on the scale, from strong acid (0) to strong base (6). */
  function Rank(color: Color): nat {
    if color == StrongAcidColor then 0
    else if color.Rgb? then 1
    else if color == NearNeutralColor then 2
    else if color == NeutralColor then 3
    else if color == SlightlyBasicColor then 4
    else if color == ModeratelyBasicColor then 5
    else 6
  }

  /** The bands follow the scale in order: a higher pH never gets a more acidic colour. */
  lemma BandsInOrder(x: real, y: real)
    requires x <= y
    ensures Rank(GetPhColor(x)) <= Rank(GetPhColor(y))
  {
    ClampMonotone(x, y);
  }

  /** Rounding keeps the order of its arguments. */
  lemma RoundMonotone(x: real, y: real)
    requires x <= y
    ensures Round(x) <= Round(y)
  {
  }

  /**
   * Across the weak-acid band both the red and the green channel only grow
   * with pH, and blue stays 0.
   */
  lemma BlendMonotone(x: real, y: real)
    requires 3.0 <= x <= y < 6.0
    ensures GetPhColor(x).Rgb? && GetPhColor(y).Rgb?
    ensures GetPhColor(x).r <= GetPhColor(y).r
    ensures GetPhColor(x).g <= GetPhColor(y).g
    ensures GetPhColor(x).b == GetPhColor(y).b == 0
  {
    var tx, ty := Fraction(x), Fraction(y);
    assert tx <= ty;
    assert tx * 40.0 <= ty * 40.0;
    assert tx * 155.0 <= ty * 155.0;
    RoundMonotone(215.0 + tx * 40.0, 215.0 + ty * 40.0);
    RoundMonotone(100.0 + tx * 155.0, 100.0 + ty * 155.0);
  }

  /**
   * Sample values: the band ends, the middle of the blend (177.5 rounds up
   * to 178), and neutral water.
   */
  lemma SampleColors()
    ensures GetPhColor(0.5) == StrongAcidColor
    ensures GetPhColor(3.0) == Rgb(215, 100, 0)
    ensures GetPhColor(4.5) == Rgb(235, 178, 0)
    ensures GetPhColor(7.0) == NeutralColor
    ensures GetPhColor(-5.0) == GetPhColor(0.0)
    ensures GetPhColor(20.0) == GetPhColor(14.0)
  {
    assert Fraction(3.0) == 0.0;
    assert Fraction(4.5) == 0.5;
    assert Round(235.0) == 235;
    assert Round(177.5) == 178;
  }
}
