/**
 * The colour-temperature slider of the stellar-mass layers: a value in [0, 1]
 * is mapped through seven spectral bands (M, K, G, F, A, B, O) to the
 * (hue, saturation, lightness) triple handed to the colour library. The
 * conversion from HSL to RGB belongs to the library and is not modelled.
 */
module StarColor {

  datatype Hsl = Hsl(h: real, s: real, l: real)

  datatype SpectralClass = M | K | G | F | A | B | O

  /** The band a temperature falls in; every band is closed below and open above. */
  function ClassOf(temp: real): SpectralClass
  {
    if temp < 0.2 then M
    else if temp < 0.35 then K
    else if temp < 0.5 then G
    else if temp < 0.65 then F
    else if temp < 0.8 then A
    else if temp < 0.92 then B
    else O
  }

  /** The HSL triple for a colour temperature, interpolated linearly inside its band. */
  function StarColorFromTemp(temp: real): (c: Hsl)
    ensures 0.0 <= temp <= 1.0 ==> 0.0 <= c.h <= 1.0 && 0.0 <= c.s <= 1.0 && 0.0 <= c.l <= 1.0
  {
    if temp < 0.2 then
      var t := temp / 0.2;
      Hsl(0.0 + t * 0.03, 0.95 - t * 0.15, 0.3 + t * 0.15)
    else if temp < 0.35 then
      var t := (temp - 0.2) / 0.15;
      Hsl(0.08 + t * 0.04, 0.9 - t * 0.1, 0.45 + t * 0.1)
    else if temp < 0.5 then
      var t := (temp - 0.35) / 0.15;
      Hsl(0.14 + t * 0.02, 0.85 - t * 0.25, 0.55 + t * 0.05)
    else if temp < 0.65 then
      var t := (temp - 0.5) / 0.15;
      Hsl(0.16 - t * 0.04, 0.6 - t * 0.4, 0.6 + t * 0.1)
    else if temp < 0.8 then
      var t := (temp - 0.65) / 0.15;
      Hsl(0.12 + t * 0.45, 0.2 - t * 0.15, 0.7 + t * 0.1)
    else if temp < 0.92 then
      var t := (temp - 0.8) / 0.12;
      Hsl(0.58 + t * 0.02, 0.5 + t * 0.3, 0.75 + t * 0.1)
    else
      var t := (temp - 0.92) / 0.08;
      Hsl(0.6 + t * 0.05, 0.9 + t * 0.1, 0.85 + t * 0.1)
  }

  /** Inside one band a hotter star is always drawn strictly lighter. */
  lemma LighterWithinBand(t1: real, t2: real)
    requires ClassOf(t1) == ClassOf(t2) && t1 < t2
    ensures StarColorFromTemp(t1).l < StarColorFromTemp(t2).l
  {
  }

  /**
   * Lightness is not monotone across bands: the top of band A is lighter than
   * the bottom of band B.
   */
  lemma LightnessDropsAtAToB()
    ensures ClassOf(0.79) == A && ClassOf(0.8) == B
    ensures StarColorFromTemp(0.8).l < StarColorFromTemp(0.79).l
  {
  }
}
