/**
 * The conversions between the four equivalent descriptions of acidity of an
 * aqueous solution at 25 degrees Celsius: pH, pOH, the hydrogen-ion
 * concentration [H+] and the hydroxide-ion concentration [OH-].
 *
 * Numbers are modelled as `real`. The two floating-point library calls the
 * conversions rest on, the decimal logarithm and the power of ten, are not
 * modelled: every conversion that needs one takes it as a parameter
 * (`log10`, `pow10`), so that what is proved is the code around them — the
 * guards, the clamp and the exponent expressions — whatever those library
 * functions return. The lemmas at the end that do need their laws state them
 * as explicit hypotheses.
 *
 * Every thrown `Error` of the source becomes an `Err` carrying the same
 * message.
 */
module PhConversions {

  /** The single kind of failure: a caller passed a value outside the domain. */
  datatype Error = InvalidInput(message: string)

  datatype Result<T> = Ok(value: T) | Err(error: Error)

  const HydrogenMessage: string := "Hydrogen ion concentration must be greater than 0"
  const HydroxideMessage: string := "Hydroxide ion concentration must be greater than 0"
  const POHMessage: string := "pOH must be between 0 and 14"
  const PHMessage: string := "pH must be between 0 and 14"

  /** Bounds of the standard pH (and pOH) scale. */
  const ScaleMin: real := 0.0
  const ScaleMax: real := 14.0

  predicate InScale(x: real) {
    ScaleMin <= x <= ScaleMax
  }

  function Min(a: real, b: real): real {
    if a < b then a else b
  }

  function Max(a: real, b: real): real {
    if a < b then b else a
  }

  /**
   * `max(0, min(14, x))`: the nearest point of the scale. Values inside the
   * scale are kept, values below it become 0 and values above it become 14.
   */
  function Clamp(x: real): (c: real)
    ensures InScale(c)
    ensures InScale(x) ==> c == x
    ensures x < ScaleMin ==> c == ScaleMin
    ensures x > ScaleMax ==> c == ScaleMax
  {
    Max(ScaleMin, Min(ScaleMax, x))
  }

  lemma ClampIdempotent(x: real)
    ensures Clamp(Clamp(x)) == Clamp(x)
  {
  }

  /** Clamping commutes with reflection about neutral (x goes to 14 - x). */
  lemma ClampMirror(x: real)
    ensures Clamp(ScaleMax - x) == ScaleMax - Clamp(x)
  {
  }

  /** Clamping never moves two values further apart or out of order. */
  lemma ClampMonotone(x: real, y: real)
    requires x <= y
    ensures Clamp(x) <= Clamp(y)
  {
  }

  /**
   * pH from the hydrogen-ion concentration: fails unless the concentration
   * is positive; otherwise -log10([H+]) brought onto the scale.
   */
  function CalculatePH(log10: real -> real, hydrogenConcentration: real): (r: Result<real>)
    ensures r.Err? <==> hydrogenConcentration <= 0.0
    ensures r.Err? ==> r.error == InvalidInput(HydrogenMessage)
    ensures r.Ok? ==> InScale(r.value)
    ensures r.Ok? && InScale(-log10(hydrogenConcentration)) ==> r.value == -log10(hydrogenConcentration)
    ensures r.Ok? && -log10(hydrogenConcentration) < ScaleMin ==> r.value == ScaleMin
    ensures r.Ok? && -log10(hydrogenConcentration) > ScaleMax ==> r.value == ScaleMax
  {
    if hydrogenConcentration <= 0.0 then
      Err(InvalidInput(HydrogenMessage))
    else
      var pH := -log10(hydrogenConcentration);
      Ok(Clamp(pH))
  }

  /**
   * pH from the hydroxide-ion concentration: fails unless the concentration
   * is positive; otherwise 14 - pOH with pOH = -log10([OH-]), brought onto
   * the scale.
   */
  function CalculatePHFromOH(log10: real -> real, hydroxideConcentration: real): (r: Result<real>)
    ensures r.Err? <==> hydroxideConcentration <= 0.0
    ensures r.Err? ==> r.error == InvalidInput(HydroxideMessage)
    ensures r.Ok? ==> InScale(r.value)
    ensures r.Ok? && InScale(-log10(hydroxideConcentration)) ==> r.value + -log10(hydroxideConcentration) == ScaleMax
    ensures r.Ok? && -log10(hydroxideConcentration) < ScaleMin ==> r.value == ScaleMax
    ensures r.Ok? && -log10(hydroxideConcentration) > ScaleMax ==> r.value == ScaleMin
  {
    if hydroxideConcentration <= 0.0 then
      Err(InvalidInput(HydroxideMessage))
    else
      var pOH := -log10(hydroxideConcentration);
      var pH := 14.0 - pOH;
      Ok(Clamp(pH))
  }

  /**
   * pH from pOH: fails unless pOH lies on the scale; otherwise 14 - pOH,
   * with no clamp (none is needed).
   */
  function CalculatePHFromPOH(pOH: real): (r: Result<real>)
    ensures r.Err? <==> pOH < ScaleMin || pOH > ScaleMax
    ensures r.Err? ==> r.error == InvalidInput(POHMessage)
    ensures r.Ok? ==> InScale(r.value) && r.value + pOH == ScaleMax
  {
    if pOH < 0.0 || pOH > 14.0 then
      Err(InvalidInput(POHMessage))
    else
      var pH := 14.0 - pOH;
      Ok(pH)
  }

  /**
   * [H+] = 10^(-pH): fails unless pH lies on the scale (the input is
   * rejected, not clamped).
   */
  function CalculateHydrogenConcentration(pow10: real -> real, pH: real): (r: Result<real>)
    ensures r.Err? <==> !InScale(pH)
    ensures r.Err? ==> r.error == InvalidInput(PHMessage)
    ensures r.Ok? ==> r.value == pow10(-pH)
  {
    if pH < 0.0 || pH > 14.0 then
      Err(InvalidInput(PHMessage))
    else
      Ok(pow10(-pH))
  }

  /**
   * [OH-] = 10^(pH - 14): fails unless pH lies on the scale (the input is
   * rejected, not clamped).
   */
  function CalculateHydroxideConcentration(pow10: real -> real, pH: real): (r: Result<real>)
    ensures r.Err? <==> !InScale(pH)
    ensures r.Err? ==> r.error == InvalidInput(PHMessage)
    ensures r.Ok? ==> r.value == pow10(-(ScaleMax - pH))
  {
    if pH < 0.0 || pH > 14.0 then
      Err(InvalidInput(PHMessage))
    else
      Ok(pow10(pH - 14.0))
  }

  /**
   * The pOH route and the hydroxide route agree: whenever -log10([OH-]) is
   * a valid pOH, converting the concentration directly gives the same pH as
   * converting that pOH.
   */
  lemma FromOHAgreesWithFromPOH(log10: real -> real, hydroxideConcentration: real)
    requires hydroxideConcentration > 0.0
    requires InScale(-log10(hydroxideConcentration))
    ensures CalculatePHFromOH(log10, hydroxideConcentration) == CalculatePHFromPOH(-log10(hydroxideConcentration))
  {
  }

  /**
   * Read as [H+] and as [OH-], the same positive concentration gives pH
   * values that are mirror images about neutral: they add up to 14, clamp
   * included.
   */
  lemma FromOHMirrorsFromH(log10: real -> real, concentration: real)
    requires concentration > 0.0
    ensures CalculatePH(log10, concentration).Ok?
    ensures CalculatePHFromOH(log10, concentration).Ok?
    ensures CalculatePH(log10, concentration).value + CalculatePHFromOH(log10, concentration).value == ScaleMax
  {
    ClampMirror(-log10(concentration));
  }

  /** pH + pOH = 14 read backwards: the pOH of a valid pH gives that pH back. */
  lemma POHRoundTrip(pH: real)
    requires InScale(pH)
    ensures CalculatePHFromPOH(ScaleMax - pH) == Ok(pH)
  {
  }

  /**
   * Converting from pOH is its own inverse on the scale: the round trip
   * above, applied to the pH that pOH gives.
   */
  lemma POHInvolution(pOH: real)
    requires CalculatePHFromPOH(pOH).Ok?
    ensures CalculatePHFromPOH(CalculatePHFromPOH(pOH).value) == Ok(pOH)
  {
    POHRoundTrip(ScaleMax - pOH);
  }

  /**
   * The ion product itself, for any power function that obeys the exponent
   * law 10^(a+b) = 10^a * 10^b (which the floating-point one only
   * approximates): [H+] * [OH-] = 10^-14 for every pH on the scale.
   */
  lemma IonProduct(pow10: real -> real, pH: real)
    requires forall a: real, b: real :: pow10(a + b) == pow10(a) * pow10(b)
    requires InScale(pH)
    ensures CalculateHydrogenConcentration(pow10, pH).Ok?
    ensures CalculateHydroxideConcentration(pow10, pH).Ok?
    ensures CalculateHydrogenConcentration(pow10, pH).value * CalculateHydroxideConcentration(pow10, pH).value
         == pow10(-ScaleMax)
  {
    var a, b := -pH, pH - 14.0;
    assert pow10(a + b) == pow10(a) * pow10(b);
    assert a + b == -14.0;
  }

  /**
   * For a logarithm that exactly inverts the power function (which the
   * floating-point pair only approximates), pH -> [H+] -> pH is the
   * identity on the scale: the clamp never interferes.
   */
  lemma HydrogenRoundTrip(log10: real -> real, pow10: real -> real, pH: real)
    requires forall x: real :: pow10(x) > 0.0
    requires forall x: real :: log10(pow10(x)) == x
    requires InScale(pH)
    ensures CalculateHydrogenConcentration(pow10, pH).Ok?
    ensures CalculatePH(log10, CalculateHydrogenConcentration(pow10, pH).value) == Ok(pH)
  {
    assert pow10(-pH) > 0.0;
    assert log10(pow10(-pH)) == -pH;
  }

  /** The same round trip through [OH-]: pH -> [OH-] -> pH is the identity. */
  lemma HydroxideRoundTrip(log10: real -> real, pow10: real -> real, pH: real)
    requires forall x: real :: pow10(x) > 0.0
    requires forall x: real :: log10(pow10(x)) == x
    requires InScale(pH)
    ensures CalculateHydroxideConcentration(pow10, pH).Ok?
    ensures CalculatePHFromOH(log10, CalculateHydroxideConcentration(pow10, pH).value) == Ok(pH)
  {
    assert pow10(pH - 14.0) > 0.0;
    assert log10(pow10(pH - 14.0)) == pH - 14.0;
  }

  /**
   * The calculator feeds every pH it obtains from [H+], [OH-] or pOH straight
   * into both concentration functions; because the first three always
   * return a value on the scale, those follow-up calls never fail.
   */
  lemma ConversionsFeedConcentrations(log10: real -> real, pow10: real -> real, x: real)
    ensures CalculatePH(log10, x).Ok? ==>
      CalculateHydrogenConcentration(pow10, CalculatePH(log10, x).value).Ok? &&
      CalculateHydroxideConcentration(pow10, CalculatePH(log10, x).value).Ok?
    ensures CalculatePHFromOH(log10, x).Ok? ==>
      CalculateHydrogenConcentration(pow10, CalculatePHFromOH(log10, x).value).Ok? &&
      CalculateHydroxideConcentration(pow10, CalculatePHFromOH(log10, x).value).Ok?
    ensures CalculatePHFromPOH(x).Ok? ==>
      CalculateHydrogenConcentration(pow10, CalculatePHFromPOH(x).value).Ok? &&
      CalculateHydroxideConcentration(pow10, CalculatePHFromPOH(x).value).Ok?
  {
  }
}
