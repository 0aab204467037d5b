# pH calculator conversions, in Dafny

This project models the conversion and reference module of a browser-based
pH calculator (`src/lib/ph-utils.ts`). It has three parts.

- Five guarded conversions between pH, pOH, the hydrogen-ion concentration
  [H+] and the hydroxide-ion concentration [OH-]. Each throws on input
  outside its domain. The two conversions from a concentration clamp their
  result to the 0-14 scale.
- `getPhColor`, which turns any pH into a display colour. It clamps first,
  then picks one of seven bands. One band blends linearly from orange to
  yellow, with rounding.
- `commonSolutions`, a fixed, ordered catalogue of 17 reference solutions.

Modules:

- `PhConversions` (`ph_conversions.dfy`) holds the clamp, the five
  conversions and the lemmas relating them. A thrown error becomes
  `Err(InvalidInput(message))` with the source's message.
- `PhColor` (`ph_color.dfy`) holds the colour scale. A colour is abstract:
  `Hex(code)` or `Rgb(r, g, b)`.
- `Solutions` (`solutions.dfy`) holds the catalogue and the lookup by name
  that the calculator page performs on it.

Numbers are `real`. `Math.log10` and `Math.pow(10, ·)` are parameters
(`log10`, `pow10: real -> real`). So every property is proved for whatever
those library functions return. The few lemmas that need a law of them (the
exponent law, or the logarithm inverting the power) take that law as a
hypothesis. `Math.round` on the non-negative values it receives here is
`Floor(x + 0.5)`: halves round up.

Two details of the code worth stating outright:

- At pH 4.5 the blend fraction is 0.5, so the green channel is
  `Math.round(177.5)`. Halves round up, so the colour is rgb(235, 178, 0).
- "Pure Water" (pH 7.0) has type `base`. The `// Neutral` comment above it
  in the catalogue does not introduce a third kind.

## Model

| member | source | states |
|---|---|---|
| `PhConversions.Clamp` | src/lib/ph-utils.ts:17 | the result lies in [0, 14]; values already in [0, 14] are kept; values below become 0 and values above become 14 |
| `PhConversions.ClampIdempotent` | src/lib/ph-utils.ts:17 | clamping twice is the same as clamping once |
| `PhConversions.ClampMirror` | src/lib/ph-utils.ts:34-37 | clamping 14 - x gives 14 minus the clamp of x |
| `PhConversions.ClampMonotone` | src/lib/ph-utils.ts:91 | clamping preserves order |
| `PhConversions.CalculatePH` | src/lib/ph-utils.ts:6-18 | fails with the hydrogen message exactly when [H+] <= 0; otherwise the result is in [0, 14]: it is -log10([H+]) when that is on the scale, 0 below it, 14 above it |
| `PhConversions.CalculatePHFromOH` | src/lib/ph-utils.ts:25-38 | fails with the hydroxide message exactly when [OH-] <= 0; otherwise the result is in [0, 14]: pH + pOH = 14 when pOH = -log10([OH-]) is on the scale, 14 when pOH < 0, 0 when pOH > 14 |
| `PhConversions.CalculatePHFromPOH` | src/lib/ph-utils.ts:44-54 | fails with the pOH message exactly when pOH < 0 or pOH > 14; otherwise the result is in [0, 14] and pH + pOH = 14, unclamped |
| `PhConversions.CalculateHydrogenConcentration` | src/lib/ph-utils.ts:60-67 | fails with the pH message exactly when pH is outside [0, 14], with no clamping; otherwise returns 10^(-pH) |
| `PhConversions.CalculateHydroxideConcentration` | src/lib/ph-utils.ts:73-81 | fails with the pH message exactly when pH is outside [0, 14], with no clamping; otherwise returns 10^(-(14 - pH)) |
| `PhConversions.FromOHAgreesWithFromPOH` | src/lib/ph-utils.ts:25-54 | when -log10([OH-]) is a valid pOH, the pH from [OH-] equals the pH from that pOH |
| `PhConversions.FromOHMirrorsFromH` | src/lib/ph-utils.ts:6-38 | for any positive concentration c, pH from [H+] = c plus pH from [OH-] = c is 14, clamp included |
| `PhConversions.POHRoundTrip` | src/lib/ph-utils.ts:44-54 | for every pH in [0, 14], the pH from pOH 14 - pH is pH |
| `PhConversions.POHInvolution` | src/lib/ph-utils.ts:44-54 | the pH from pOH, read again as a pOH, gives back the original pOH |
| `PhConversions.IonProduct` | src/lib/ph-utils.ts:60-81 | for any pow10 obeying 10^(a+b) = 10^a * 10^b and every pH in [0, 14], both concentrations exist and [H+] * [OH-] = 10^-14 |
| `PhConversions.HydrogenRoundTrip` | src/lib/ph-utils.ts:6-67 | for a log10 that exactly inverts a positive pow10, pH to [H+] and back gives pH on all of [0, 14] |
| `PhConversions.HydroxideRoundTrip` | src/lib/ph-utils.ts:25-81 | the same round trip through [OH-] |
| `PhConversions.ConversionsFeedConcentrations` | src/pages/PhCalculator.tsx:45-101 | whenever pH from [H+], [OH-] or pOH succeeds, both concentration functions succeed on the result, as the page's follow-up calls require |
| `PhColor.Round` | src/lib/ph-utils.ts:101-103 | the rounded value is within one half of its argument, with halves going up |
| `PhColor.GetPhColor` | src/lib/ph-utils.ts:89-121 | total; each fixed colour appears exactly on its band of the clamped pH (below 3, [6, 7), exactly 7, (7, 9), [9, 12), 12 and above); a blend appears exactly on [3, 6) and has r in [215, 255], g in [100, 255] and b = 0 |
| `PhColor.ColorOfClamped` | src/lib/ph-utils.ts:91 | a pH and its clamp get the same colour; every pH below 0 gets the colour of 0 (`#d70000`); every pH above 14 gets the colour of 14 (`#0000cc`) |
| `PhColor.BandsInOrder` | src/lib/ph-utils.ts:94-120 | the bands follow the scale in order: a higher pH never gets a band nearer the acid end |
| `PhColor.RoundMonotone` | src/lib/ph-utils.ts:101-102 | rounding preserves order |
| `PhColor.BlendMonotone` | src/lib/ph-utils.ts:100-104 | across [3, 6) the red and green channels never decrease as pH grows, and blue stays 0 |
| `PhColor.SampleColors` | src/lib/ph-utils.ts:94-110 | pH 0.5 is deep red; pH 3 is rgb(215, 100, 0); pH 4.5 is rgb(235, 178, 0); pH 7 is the neutral green; -5 is coloured like 0; 20 is coloured like 14 |
| `Solutions.CatalogueShape` | src/lib/ph-utils.ts:134-157 | 17 entries: first "Battery Acid" at 0.5, "Pure Water" at 7.0 in position 10, last "Drain Cleaner" at 14.0 |
| `Solutions.CatalogueOrdered` | src/lib/ph-utils.ts:136-156 | typical pH strictly increases along the catalogue, and every value is in [0, 14] |
| `Solutions.AcidsBeforeBases` | src/lib/ph-utils.ts:135-156 | an entry is an acid exactly when its typical pH is below 7, and exactly when it is among the first nine; so every acid precedes every base |
| `Solutions.CatalogueNamesDistinct` | src/lib/ph-utils.ts:136-156 | no two entries share a name |
| `Solutions.Find` | src/pages/PhCalculator.tsx:107 | the result is the first entry with the given name; there is no result exactly when no entry has the name |
| `Solutions.FindByName` | src/pages/PhCalculator.tsx:107 | in a list with distinct names, looking up an entry's own name returns that entry |
| `Solutions.CatalogueFindByName` | src/pages/PhCalculator.tsx:105-108 | every catalogue entry is found by its name, and the lookup returns that entry |
| `Solutions.CatalogueConcentrationsDefined` | src/pages/PhCalculator.tsx:105-114 | both concentration functions succeed on every catalogue entry's typical pH |

## Left out

- The numerical behaviour of `Math.log10` and `Math.pow` (src/lib/ph-utils.ts:12, 31, 66, 80) is not modelled. Both are parameters, so a fact such as "pH of [H+] = 1e-7 is 7" is not proved. The round trips and the ion product hold only under the exact laws their lemmas assume; IEEE doubles only approximate those laws.
- Floating point as such is not modelled: there is no rounding, no NaN and no infinity. In particular, the exact `=== 7` test at src/lib/ph-utils.ts:108 is exact real equality here.
- `PhColor.GetPhColor` returns an abstract colour. It does not build the CSS text `rgb(r, g, b)` or the hex string.
- The calculator page (src/pages/PhCalculator.tsx) is not part of this model: React state, `parseFloat`, `toFixed`/`toExponential` formatting, tabs, the slider, the reset to neutral-water defaults and the notes text. Only its lookup by name and the fact that its follow-up conversions cannot fail are stated.
- The informational sidebar (src/components/ph/SidebarContent.tsx) is static markup and is not part of this model.
