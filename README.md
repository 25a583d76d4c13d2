# GasBlender top-up calculator, modelled in Dafny

GasBlender works out a partial-pressure fill for diving cylinders. It starts
from a cylinder that already holds a starting mix. The fill ends at a target
mix and pressure and is made with two top-up gases (nitrox) or three
(trimix). The calculator:

- turns each pressure into an ideal-equivalent ("normal") volume through a
  real-gas compressibility (z) factor, a cubic virial sum over oxygen,
  helium and nitrogen;
- solves the species balances for the volume of each top-up gas, by Cramer's
  rule for trimix and by an oxygen balance for nitrox;
- finds the pressure of each intermediate blend with a fixed-point search;
- writes a report naming every gas ("Trimix 18/20", "Air", "EAN 32");
- refuses a fill that cannot be made, with a short message.

The model follows the source's structure:

- `dotnet.dfy` (`DotNet`, `Options`): .NET's `Math.Round`, with ties to even
  and with a digit count, and integer text with its parser.
- `gas_mix.dfy` (`Mixes`): `GasMix` is a class whose four fields are updated
  in place. `Value()` snapshots a mixture as the `Mix` datatype. The `Air`,
  `Nitrox` and `TriMix` presets are named constructors.
- `compressibility.dfy` (`Compressibility`): the species fractions, `Virial`,
  `ZFactor` and `NormalVolumeFactor`.
- `units.dfy` (`Units`): the bar and psi conversions.
- `pressure_solver.dfy` (`PressureSolver`): `FindPressure` is a `while` loop,
  proved against the recursive function `SolvedPressure`.
- `naming.dfy` (`Naming`): `GasName`, a parser that reads every name back,
  and examples.
- `blends.dfy` (`Blends`): `DegenerateGasCheck`, `SameGas`, the trimix and
  nitrox top-up volumes, and the blends after each top-up.
- `calculator.dfy` (`Calculator`): the `GasCalculator` class, its
  constructor, `CalculateFinalTriMixGasMix` and `CalculateNitroxGasMix`.

The constructor converts psi to bar in place. Each calculation method is
proved equal to a plan function (`TriMixPlan`, `NitroxPlan`). The lemmas
beside the plans state the refusals and the report lines.

A calculation returns an `Outcome`: a `Refusal`, whose text is `Message`,
or the report as a list of `Step`s. `Line` and `Report` render the steps in
the source's exact wording. A third outcome, `Unsettled`, exists only in the
model: the pressure search is given a fuel bound, and `Unsettled` means it
did not pass its exit test within that bound.

## Model

| member | source | states |
|---|---|---|
| DotNet.RoundHalfEven | GasMixer/GasMixLogic/TopUpGasBlender.cs:124 | `Math.Round(x)` is within one half of x, and a tie goes to the even integer |
| DotNet.RoundHalfEvenUnique | GasMixer/GasMixLogic/TopUpGasBlender.cs:124 | the integer within one half of x, even on a tie, is the only possible result of `Math.Round(x)` |
| DotNet.RoundHalfEvenOfInteger | GasMixer/GasMixLogic/TopUpGasBlender.cs:124 | rounding an integer gives the integer back |
| DotNet.RoundDigits | GasMixer/GasMixLogic/TopUpGasBlender.cs:106-114 | `Math.Round(x, d)`, as used by the pressure search and the one-decimal report pressure, lies within half a unit of the d-th decimal of x |
| DotNet.RoundDigitsIdempotent | GasMixer/GasMixLogic/TopUpGasBlender.cs:106-114 | rounding to d decimals twice is rounding once |
| DotNet.NatText | GasMixer/GasMixLogic/TopUpGasBlender.cs:124 | the text of a whole number is a non-empty string of decimal digits |
| DotNet.NatTextValue | GasMixer/GasMixLogic/TopUpGasBlender.cs:124 | the digits of a natural number read back as that number |
| DotNet.IntText | GasMixer/GasMixLogic/TopUpGasBlender.cs:124 | the text of an integer is non-empty and opens with a minus sign exactly when the integer is negative |
| DotNet.IntTextRoundTrip | GasMixer/GasMixLogic/TopUpGasBlender.cs:124 | the text of an integer, sign included, parses back to the integer |
| DotNet.IntTextChars | GasMixer/GasMixLogic/TopUpGasBlender.cs:124 | the text of an integer is non-empty and holds only digits and the minus sign |
| Mixes.GasMix.constructor | GasMixer/GasMixLogic/Models/GasMix.cs:3-9 | a new GasMix holds zero pressure and zero of every gas |
| Mixes.GasMix.Air | GasMixer/GasMixLogic/Models/GasMix.cs:11-20 | Air is 21 % oxygen and 79 % nitrogen at zero pressure, and its percentages add up to 100 |
| Mixes.GasMix.Nitrox | GasMixer/GasMixLogic/Models/GasMix.cs:22-31 | Nitrox(o2) holds o2 oxygen, no helium and 100 − o2 nitrogen at zero pressure, and its percentages add up to 100 |
| Mixes.GasMix.TriMix | GasMixer/GasMixLogic/Models/GasMix.cs:33-42 | TriMix(o2, he) holds o2 oxygen, he helium and 100 − (o2 + he) nitrogen at zero pressure, adding up to 100 |
| Mixes.GasMix.SetPressure | GasMixer/GasMixLogic/Models/GasMix.cs:5 | setting the pressure changes the pressure only |
| Mixes.GasMix.SetHelium | GasMixer/GasMixLogic/Models/GasMix.cs:6 | setting the helium changes the helium only |
| Mixes.GasMix.SetOxygen | GasMixer/GasMixLogic/Models/GasMix.cs:7 | setting the oxygen changes the oxygen only |
| Mixes.GasMix.SetNitrogen | GasMixer/GasMixLogic/Models/GasMix.cs:8 | setting the nitrogen changes the nitrogen only |
| Mixes.HeliumFreeTriMixIsNitrox | GasMixer/GasMixLogic/Models/GasMix.cs:22-42 | a helium-free TriMix preset and the Nitrox preset of the same oxygen are two distinct objects with equal contents |
| Compressibility.FractionOfOxygen | GasMixer/GasMixLogic/TopUpGasBlender.cs:70-73 | the oxygen fraction is the stored percentage divided by 100 (a hundred times it is the percentage) |
| Compressibility.FractionOfHelium | GasMixer/GasMixLogic/TopUpGasBlender.cs:75-78 | the helium fraction is the stored percentage divided by 100 (a hundred times it is the percentage) |
| Compressibility.FractionOfNitrogen | GasMixer/GasMixLogic/TopUpGasBlender.cs:80-84 | nitrogen is what oxygen and helium leave: the three fractions add up to one, whatever nitrogen is stored |
| Compressibility.VirialCubic | GasMixer/GasMixLogic/TopUpGasBlender.cs:86-90 | for three coefficients the virial term is c0·P + c1·P² + c2·P³ |
| Compressibility.Virial | GasMixer/GasMixLogic/TopUpGasBlender.cs:86-90 | the virial term vanishes at zero pressure, for any coefficients |
| Compressibility.ZFactor | GasMixer/GasMixLogic/TopUpGasBlender.cs:92-97 | the z-factor of every mixture is exactly 1 at zero pressure |
| Compressibility.ZFactorOfComposition | GasMixer/GasMixLogic/TopUpGasBlender.cs:92-97 | the z-factor depends only on the oxygen and helium, not on the stored nitrogen or pressure |
| Compressibility.NormalVolumeFactor | GasMixer/GasMixLogic/TopUpGasBlender.cs:99-102 | the normal volume V satisfies V·z(P) = P·z(1); it is 0 at 0 bar and 1 at 1 bar; with positive z-factors it is positive exactly when P is |
| Units.ConvertFromBarToPsi | GasMixer/GasMixLogic/TopUpGasBlender.cs:139-142 | the psi value, divided by 14.5038, gives the bar value back |
| Units.ConvertFromPsiToBar | GasMixer/GasMixLogic/TopUpGasBlender.cs:139-147 | converting a psi value to bar and back gives the psi value |
| Units.BarToPsiRoundTrip | GasMixer/GasMixLogic/TopUpGasBlender.cs:139-147 | converting a bar value to psi and back gives the bar value |
| PressureSolver.InitialResidual | GasMixer/GasMixLogic/TopUpGasBlender.cs:108 | the test before the loop is never negative and is z(1)·P − z(P) + V up to its sign |
| PressureSolver.LoopResidual | GasMixer/GasMixLogic/TopUpGasBlender.cs:114 | the loop's test is rounded to 6 decimals and lies within half a millionth of z(1)·P − (z(P) + V), sign kept |
| PressureSolver.NextPressure | GasMixer/GasMixLogic/TopUpGasBlender.cs:111 | each iterate of the search is already rounded to 6 decimals |
| PressureSolver.FirstPass | GasMixer/GasMixLogic/TopUpGasBlender.cs:109-115 | a pressure the iteration stops at is the one it started from or an iterate rounded to 6 decimals |
| PressureSolver.SolvedPressure | GasMixer/GasMixLogic/TopUpGasBlender.cs:104-118 | a pressure the search returns is rounded to 6 decimals |
| PressureSolver.FirstPassSound | GasMixer/GasMixLogic/TopUpGasBlender.cs:106-117 | a pressure the iteration stops at is rounded and has passed its exit test: the absolute residual if it stops before any step, the signed rounded residual otherwise |
| PressureSolver.SolvedPressureSound | GasMixer/GasMixLogic/TopUpGasBlender.cs:104-118 | a pressure `FindPressure` returns for a volume is rounded to 6 decimals and passes one of its two exit tests |
| PressureSolver.LoopResidualAtSolution | GasMixer/GasMixLogic/TopUpGasBlender.cs:112-114 | at a pressure that solves the normal-volume law exactly, the loop's residual z(1)·P − (z(P) + V) is (V − 1)·(z(P) − 1) − 1, not zero |
| PressureSolver.FirstPassMoreFuel | GasMixer/GasMixLogic/TopUpGasBlender.cs:109-115 | a search that stops within some number of steps gives the same pressure however many more steps it is allowed |
| PressureSolver.FindPressure | GasMixer/GasMixLogic/TopUpGasBlender.cs:104-118 | the loop returns a rounded pressure; it stops within the fuel exactly when the search settles, and then returns the settled pressure |
| Naming.ShownPercent | GasMixer/GasMixLogic/TopUpGasBlender.cs:124 | the whole number a name shows, `Math.Round(f·100 + .5)`, lies between the percentage and one more than it |
| Naming.GasNameReadsBack | GasMixer/GasMixLogic/TopUpGasBlender.cs:120-137 | every gas name parses back to its label (Trimix o2/he, Air, or EAN o2) |
| Naming.GasName | GasMixer/GasMixLogic/TopUpGasBlender.cs:120-137 | every gas name is non-empty and starts with T ("Trimix …"), A ("Air") or E ("EAN …") |
| Naming.GasNameIgnoresPressure | GasMixer/GasMixLogic/TopUpGasBlender.cs:120-137 | the name does not depend on the pressure |
| Naming.Find | GasMixer/GasMixLogic/TopUpGasBlender.cs:124 | the position found is the first occurrence of the character, or the length when it does not occur |
| Naming.EanNameRoundTrip | GasMixer/GasMixLogic/TopUpGasBlender.cs:134 | "EAN n" parses back to the nitrox label n |
| Naming.TrimixNameRoundTrip | GasMixer/GasMixLogic/TopUpGasBlender.cs:124 | "Trimix a/b" parses back to the trimix label a/b |
| Naming.GasNameInjective | GasMixer/GasMixLogic/TopUpGasBlender.cs:120-137 | two mixtures get the same name if and only if they get the same label |
| Naming.LabelDeterminesName | GasMixer/GasMixLogic/TopUpGasBlender.cs:120-137 | mixtures with the same label get the same name |
| Naming.ShownWholePercent | GasMixer/GasMixLogic/TopUpGasBlender.cs:124 | over exact reals, a whole percentage k shows as k when k is even and as k + 1 when k is odd |
| Naming.NitroxNameExample | GasMixer/GasMixLogic/TopUpGasBlender.cs:134 | 32.4 % oxygen without helium is named "EAN 33" |
| Naming.TrimixNameExample | GasMixer/GasMixLogic/TopUpGasBlender.cs:124 | 18 % oxygen with 20 % helium is named "Trimix 18/20" |
| Naming.OddPercentNameExample | GasMixer/GasMixLogic/TopUpGasBlender.cs:134 | 33 % oxygen without helium is named "EAN 34" |
| Blends.FractionsOf | GasMixer/GasMixLogic/TopUpGasBlender.cs:70-84 | the species fractions of a mixture add up to one |
| Blends.Amounts | GasMixer/GasMixLogic/TopUpGasBlender.cs:240-255 | the species amounts in a volume of a mixture add up to that volume |
| Blends.CombinationOfMixes | GasMixer/GasMixLogic/TopUpGasBlender.cs:195-232 | a combination of fractions is the sum of the amounts the gases bring |
| Blends.Demand | GasMixer/GasMixLogic/TopUpGasBlender.cs:198-230 | what the top-up gases must bring adds up to finalVol − initVol |
| Blends.SameGas | GasMixer/GasMixLogic/TopUpGasBlender.cs:168-178 | two gases are the same exactly when their oxygen fractions are equal; helium is not compared |
| Blends.DegenerateGasCheck | GasMixer/GasMixLogic/TopUpGasBlender.cs:149-166 | the six-term expression is the determinant of the fractions of the three top-up gases |
| Blends.DetTerms | GasMixer/GasMixLogic/TopUpGasBlender.cs:152-163 | the determinant expands into the six products the source writes |
| Blends.Det3SwapFirstSecond | GasMixer/GasMixLogic/TopUpGasBlender.cs:149-166 | exchanging the first two rows negates the determinant |
| Blends.Det3SwapSecondFinal | GasMixer/GasMixLogic/TopUpGasBlender.cs:149-166 | exchanging the last two rows negates the determinant |
| Blends.Det3SwapFirstFinal | GasMixer/GasMixLogic/TopUpGasBlender.cs:149-166 | exchanging the first and last rows negates the determinant |
| Blends.Det3RepeatedRow | GasMixer/GasMixLogic/TopUpGasBlender.cs:149-166 | a determinant with a repeated row is zero |
| Blends.EqualCompositionEqualFractions | GasMixer/GasMixLogic/TopUpGasBlender.cs:70-84 | mixtures with equal oxygen and helium have equal fractions, whatever nitrogen they store |
| Blends.DegenerateForDuplicateGases | GasMixer/GasMixLogic/TopUpGasBlender.cs:149-166 | the check is zero whenever two of the three top-up gases have the same oxygen and helium |
| Blends.DegenerateGasCheckAntisymmetric | GasMixer/GasMixLogic/TopUpGasBlender.cs:149-166 | swapping any two top-up gases negates the check |
| Blends.FirstNumerator | GasMixer/GasMixLogic/TopUpGasBlender.cs:195-206 | the first volume's numerator is the determinant with the first gas's row replaced by the demand |
| Blends.SecondNumerator | GasMixer/GasMixLogic/TopUpGasBlender.cs:207-218 | the second volume's numerator is the determinant with the second gas's row replaced by the demand |
| Blends.FinalNumerator | GasMixer/GasMixLogic/TopUpGasBlender.cs:221-232 | the final volume's numerator is the determinant with the final gas's row replaced by the demand |
| Blends.CramerOxygen | GasMixer/GasMixLogic/TopUpGasBlender.cs:195-232 | the Cramer numerators balance the oxygen demand times the determinant |
| Blends.CramerNitrogen | GasMixer/GasMixLogic/TopUpGasBlender.cs:195-232 | the Cramer numerators balance the nitrogen demand times the determinant |
| Blends.CramerHelium | GasMixer/GasMixLogic/TopUpGasBlender.cs:195-232 | the Cramer numerators balance the helium demand times the determinant |
| Blends.CramerSolve | GasMixer/GasMixLogic/TopUpGasBlender.cs:195-232 | with a nonzero determinant the three quotients solve the species system |
| Blends.CramerSolveUnique | GasMixer/GasMixLogic/TopUpGasBlender.cs:195-232 | every solution of a system with a nonzero determinant is Cramer's |
| Blends.Det3OfCombination | GasMixer/GasMixLogic/TopUpGasBlender.cs:195-232 | a row replaced by a combination of the rows scales the determinant by that row's coefficient |
| Blends.TriMixTopUps | GasMixer/GasMixLogic/TopUpGasBlender.cs:192-232 | the three top-up volumes bring exactly the oxygen, nitrogen and helium demand, and add up to finalVol − initVol |
| Blends.TriMixTopUpsUnique | GasMixer/GasMixLogic/TopUpGasBlender.cs:192-232 | any volumes that meet the three species balances are the computed ones |
| Blends.NitroxTopUps | GasMixer/GasMixLogic/TopUpGasBlender.cs:291-305 | the two nitrox volumes add up to finalVol − initVol and bring exactly the missing oxygen |
| Blends.TwoGasSolve | GasMixer/GasMixLogic/TopUpGasBlender.cs:294-305 | the source's two quotient formulas balance the volume and the oxygen |
| Blends.NitroxTopUpsUnique | GasMixer/GasMixLogic/TopUpGasBlender.cs:291-305 | any pair of volumes that balances volume and oxygen is the computed pair |
| Blends.Percent | GasMixer/GasMixLogic/TopUpGasBlender.cs:239-255 | the percentage 100·amount/total, taken as a fraction of total, gives the amount back |
| Blends.AfterFirstTopUp | GasMixer/GasMixLogic/TopUpGasBlender.cs:239-246 | the blend after the first top-up is a zero-pressure mixture adding up to 100 whose volume holds exactly the species of the start plus the first gas |
| Blends.AfterSecondTopUp | GasMixer/GasMixLogic/TopUpGasBlender.cs:249-257 | the blend after the second top-up holds exactly the species of the start plus the first and second gases |
| Blends.MixOf | GasMixer/GasMixLogic/TopUpGasBlender.cs:239-257 | the zero-pressure mixture written from amounts adds up to 100 and its volume holds exactly those amounts |
| Blends.NitrogenByDifference | GasMixer/GasMixLogic/TopUpGasBlender.cs:246 | two amounts of one volume that agree on oxygen and helium agree on nitrogen |
| Blends.NitroxAfterFirstTopUp | GasMixer/GasMixLogic/TopUpGasBlender.cs:312-316 | the nitrox blend is a helium-free zero-pressure mixture adding up to 100 that holds the oxygen of the start plus the first gas |
| Blends.TriMixFillReachesTarget | GasMixer/GasMixLogic/TopUpGasBlender.cs:192-258 | the second blend topped up with the final gas's volume holds what the target's volume holds, species by species |
| Blends.NitroxFillReachesTarget | GasMixer/GasMixLogic/TopUpGasBlender.cs:291-317 | the nitrox blend topped up with the final gas's volume holds the target's oxygen |
| Calculator.Line | GasMixer/GasMixLogic/TopUpGasBlender.cs:262-278 | every report line opens with the fixed words of its kind ("Start with ", "Add ", "Then add ", "Finally top up with "), whatever the number format |
| Calculator.Continuation | GasMixer/GasMixLogic/TopUpGasBlender.cs:262-278 | the text after a line's opening words ends with the name of the gas the line leaves in the cylinder (the starting gas, or the mix made) |
| Calculator.Report | GasMixer/GasMixLogic/TopUpGasBlender.cs:259-281 | the report holds at least one line terminator's length per step |
| Calculator.ReportFirstLine | GasMixer/GasMixLogic/TopUpGasBlender.cs:259-281 | a report of some steps opens with the first step's line and its terminator |
| Calculator.ReportAppend | GasMixer/GasMixLogic/TopUpGasBlender.cs:259-281 | the text of two runs of steps is the text of the first followed by that of the second |
| Calculator.NitroxShapedText | GasMixer/GasMixLogic/TopUpGasBlender.cs:319-338 | three steps shaped start, add, top-up render as three terminated lines with those opening words |
| Calculator.TriMixShapedText | GasMixer/GasMixLogic/TopUpGasBlender.cs:259-281 | four steps shaped start, add, then-add, top-up render as four terminated lines with those opening words |
| Calculator.NitroxReportText | GasMixer/GasMixLogic/TopUpGasBlender.cs:319-338 | a nitrox report renders as exactly three terminated lines opening "Start with ", "Add " and "Finally top up with " |
| Calculator.TriMixReportText | GasMixer/GasMixLogic/TopUpGasBlender.cs:259-281 | a trimix report renders as exactly four terminated lines opening "Start with ", "Add ", "Then add " and "Finally top up with " |
| Calculator.Message | GasMixer/GasMixLogic/TopUpGasBlender.cs:233-310 | each refusal message is non-empty and ends with "!"; the identical-gases one starts with C, the two impossible-blend ones with I |
| Calculator.MessagesDiffer | GasMixer/GasMixLogic/TopUpGasBlender.cs:233-310 | the three refusal messages are different texts, whatever the target's name |
| Calculator.Shown | GasMixer/GasMixLogic/TopUpGasBlender.cs:260-278 | a pressure is reported in psi when the calculator works in psi (converting it back gives the bar value), otherwise in bar |
| Calculator.NormalVolume | GasMixer/GasMixLogic/TopUpGasBlender.cs:192-193 | a mixture's normal volume at its own pressure satisfies V·z(P) = P·z(1) |
| Calculator.TriMixPlan | GasMixer/GasMixLogic/TopUpGasBlender.cs:180-282 | a trimix fill is refused only as impossible for its target, and its report has four steps |
| Calculator.TriMixPlanRefused | GasMixer/GasMixLogic/TopUpGasBlender.cs:233-236 | a trimix fill is refused as "Impossible to blend … with these gases!" if and only if one of the three top-up volumes is negative |
| Calculator.TriMixPlanSettledOn | GasMixer/GasMixLogic/TopUpGasBlender.cs:233-258 | when no trimix volume is negative, the fill goes on to the two blends of those volumes, whose pressure searches are defined (z(1) is not zero) |
| Calculator.TriMixSettled | GasMixer/GasMixLogic/TopUpGasBlender.cs:246-281 | an unrefused trimix fill is never a refusal; it gives a report, of four steps, exactly when both pressure searches settle |
| Calculator.TriMixReport | GasMixer/GasMixLogic/TopUpGasBlender.cs:259-281 | the trimix report is start / add / then add / top up, naming the start, the three top-up gases in order and the target last; each blend's line carries its settled pressure, in psi when the calculator works in psi |
| Calculator.NitroxPlan | GasMixer/GasMixLogic/TopUpGasBlender.cs:284-339 | a nitrox fill is refused only for identical gases or as impossible, and its report has three steps |
| Calculator.NitroxSettled | GasMixer/GasMixLogic/TopUpGasBlender.cs:312-338 | an unrefused nitrox fill is never a refusal; it gives a report, of three steps, exactly when the pressure search settles |
| Calculator.NitroxReport | GasMixer/GasMixLogic/TopUpGasBlender.cs:319-338 | the nitrox report is start / add / top up, naming the start, the first and final gases and the target last; the middle pressure is already rounded to one decimal |
| Calculator.NitroxPlanIdentical | GasMixer/GasMixLogic/TopUpGasBlender.cs:286-289 | a nitrox fill is refused as "Cannot mix with identical gases!" if and only if the first and final gases have equal oxygen |
| Calculator.NitroxPlanImpossible | GasMixer/GasMixLogic/TopUpGasBlender.cs:307-310 | otherwise, it is refused as "Impossible to blend with these gasses!" if and only if the first top-up volume is not positive |
| Calculator.NitroxPlanSettledOn | GasMixer/GasMixLogic/TopUpGasBlender.cs:312-317 | past both refusals, the fill goes on to the blend of the first top-up volume |
| Calculator.NitroxInstructions | GasMixer/GasMixLogic/TopUpGasBlender.cs:284-339 | a nitrox report passed both refusals; it has three lines, and its middle line adds the first gas up to a pressure of the computed blend that passed the search's exit test |
| Calculator.TriMixSettledInstructions | GasMixer/GasMixLogic/TopUpGasBlender.cs:246-281 | a trimix report has four lines: the start, the first and second gases up to pressures of their blends that passed the exit test, and the final top-up to the target |
| Calculator.TriMixInstructions | GasMixer/GasMixLogic/TopUpGasBlender.cs:233-258 | a trimix report comes from non-negative volumes and from the two blends of those volumes |
| Calculator.ToBarTimes | GasMixer/GasMixLogic/TopUpGasBlender.cs:48-53 | one conversion of a pressure is `ConvertFromPsiToBar`; n conversions divide the psi value by the n-th power of 14.5038 (the result times 14.5038ⁿ is the psi value) |
| Calculator.CountAll | GasMixer/GasMixLogic/TopUpGasBlender.cs:48-53 | counting the places a mixture occupies among the first k gives its multiplicity there |
| Calculator.ConvertPressure | GasMixer/GasMixLogic/TopUpGasBlender.cs:48-53 | converting the mixture in place k converts it once more and leaves every other mixture's state as it was |
| Calculator.SkippedIsNotCounted | GasMixer/GasMixLogic/TopUpGasBlender.cs:51-52 | an absent second top-up is skipped without changing any mixture |
| Calculator.ConvertFrom | GasMixer/GasMixLogic/TopUpGasBlender.cs:48-53 | the conversions from place k on leave every supplied mixture converted once for each place it occupies |
| Calculator.ConvertedMixtures | GasMixer/GasMixLogic/TopUpGasBlender.cs:48-53 | the conversion state, restated for each supplied mixture with its multiplicity |
| Calculator.GasCalculator.constructor | GasMixer/GasMixLogic/TopUpGasBlender.cs:41-68 | the calculator keeps the five mixtures and the flag (false unless given); with psi, each mixture's pressure is divided by 14.5038 once per place it was passed in, and its composition is untouched; without psi nothing changes |
| Calculator.GasCalculator.CalculateNitroxGasMix | GasMixer/GasMixLogic/TopUpGasBlender.cs:284-339 | the nitrox method returns exactly the outcome of the nitrox plan for the current mixtures |
| Calculator.GasCalculator.ReportNitrox | GasMixer/GasMixLogic/TopUpGasBlender.cs:312-338 | making the Nitrox preset, finding its pressure and writing the report gives the settled nitrox outcome |
| Calculator.GasCalculator.CalculateFinalTriMixGasMix | GasMixer/GasMixLogic/TopUpGasBlender.cs:180-282 | the trimix method returns exactly the outcome of the trimix plan for the current mixtures |
| Calculator.GasCalculator.ReportTriMix | GasMixer/GasMixLogic/TopUpGasBlender.cs:246-281 | making the two TriMix presets, finding their pressures and writing the report gives the settled trimix outcome |

## Left out

- Naming.ShownWholePercent and Naming.GasName: a whole percentage k lands exactly on the tie k + 0.5 only in exact reals. In IEEE doubles `k / 100 * 100` can fall just off the tie, and the name then differs for k = 14, 28, 29, 56 and 57: such a gas is named EAN 15, 29, 29, 57 and 57 where the model names it EAN 14, 28, 30, 56 and 58, and the same holds for the helium figure of a Trimix name.
- The Windows Forms front end and its text-box parsing are not part of this model.
- IEEE double arithmetic is modelled as exact real arithmetic: no rounding error, NaN or infinity. Real-valued `Math.Round` is modelled exactly.
- Division by zero is excluded by preconditions instead of producing NaN or infinity. These are `DegenerateGasCheck != 0` for trimix (the source divides by it unguarded and only computes `det > 0` with empty branches), and nonzero z-factors and blend volumes (`Measurable`, `NitroxComputable`, `TriMixComputable`). The fill preconditions guard only divisions the source reaches: `NitroxComputable` asks nothing of a fill whose first and final gases are the same, since that fill is refused before any division. PressureSolver.FindPressure requires z(1) ≠ 0 for its mixture outright, although the source divides by z(1) only inside the loop, after a failed first test; a mixture whose z(1) is 0 has no physical composition.
- PressureSolver.FindPressure: the source loops until the exit test passes and may never stop. The model gives it a fuel bound and reports whether the test passed. `Unsettled` is the outcome when it did not. Convergence of the iteration is not proved.
- The loop's exit test does not measure how well the pressure solves V·z(P) = z(1)·P. `PressureSolver.LoopResidualAtSolution` shows that at an exact solution the unrounded residual is (V − 1)·(z(P) − 1) − 1. So at an exact solution the signed test passes where that product stays below about 1. At a solution where (V − 1)·(z(P) − 1) > 1, such as a large normal volume, the source's loop cannot stop there. The model keeps the test as written and does not claim the returned pressure solves the law.
- The search is not proved to invert the normal-volume law, nor to be monotone in the volume.
- Calculator.GasCalculator.CalculateFinalTriMixGasMix requires a non-null second top-up gas. The source dereferences it without a check, so a null one would raise an exception. Only the constructor accepts null (it skips the conversion). The front end passes null at Form1.cs:42 and Form1.cs:89 and both times goes on to call `CalculateNitroxGasMix` (Form1.cs:44, Form1.cs:91), so no caller in the repository reaches the trimix calculation with null.
- Calculator.Line takes .NET's number formatting (`:F1` and the default `double` format) as parameters, and Calculator.Report takes the line renderer (`Calculator.Renderer` of those formats) and the line terminator of `StringBuilder.AppendLine`. The calculation methods return the steps; the text is their `Report`.
- Naming.GasName writes every rounded percentage as plain integer digits. For the double that `Math.Round` returns, .NET prints "-0" when the value is a negative zero (an oxygen percentage in [-1, -0.5); the helium figure is written only when it is positive), and exponent form ("1E+15") from 10^15 up. The model writes "0" and plain digits there. Both cases arise only from percentages no real gas has.
- The nitrox second top-up volume is computed by `Blends.NitroxTopUps` as in the source. The nitrox report never uses it, as in the source.
- Calculator.GasCalculator.constructor: the `: 0` arm of the conditional in the second top-up conversion cannot be reached and is not modelled separately.
- The mixtures are held by reference. A mixture passed in two places is converted from psi once per place, as the source does. The model states this for any aliasing but does not single it out as a defect.
- The `Virial` function sums any number of coefficients. `Compressibility.VirialCubic` proves it equals the source's three-term cubic.
