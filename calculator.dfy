/**
 * The GasCalculator: it holds the five mixtures of a fill (starting, target,
 * and the first, second and final top-up gases) and the unit flag, converts
 * the supplied pressures from psi to bar in place when asked to, and works
 * out a trimix or a nitrox fill as a list of report steps.
 */
module Calculator {
  import opened DotNet
  import opened Options
  import opened Mixes
  import opened Compressibility
  import opened PressureSolver
  import opened Naming
  import opened Units
  import opened Blends

  /** Why a calculation refuses a fill. */
  datatype Refusal = IdenticalGases | ImpossibleNitrox | ImpossibleTriMix(target: Mix)

  /** The message returned for a refusal; the trimix one names the target gas. */
  function Message(reason: Refusal): (m: string)
    ensures |m| > 0 && m[|m| - 1] == '!'
    ensures m[0] == if reason.IdenticalGases? then 'C' else 'I'
  {
    match reason
    case IdenticalGases => "Cannot mix with identical gases!"
    case ImpossibleNitrox => "Impossible to blend with these gasses!"
    case ImpossibleTriMix(target) => "Impossible to blend " + GasName(target) + " with these gases!"
  }

  /**
   * One line of the report: the pressure as the line shows it, and the
   * gases it names (their pressures play no part in a name).
   */
  datatype Step =
    | Start(pressure: real, gas: Mix)
    | Add(gas: Mix, pressure: real, result: Mix)
    | ThenAdd(gas: Mix, pressure: real, result: Mix)
    | TopUp(gas: Mix, pressure: real, result: Mix)

  /**
   * The text of a line. How .NET writes a number is a parameter: `fixed1`
   * for the one-decimal format of the starting pressure, `general` for the
   * default format of the others. Whatever the format, the line opens with
   * the fixed words of its kind.
   */
  function Line(step: Step, fixed1: real -> string, general: real -> string): (line: string)
    ensures Opening(step) <= line
  {
    Opening(step) + Continuation(step, fixed1, general)
  }

  /** The fixed words each kind of line opens with. */
  function Opening(step: Step): string {
    match step
    case Start(_, _) => "Start with "
    case Add(_, _, _) => "Add "
    case ThenAdd(_, _, _) => "Then add "
    case TopUp(_, _, _) => "Finally top up with "
  }

  /**
   * The rest of a line, after its opening words; it ends with the name of
   * the gas the line leaves in the cylinder.
   */
  function Continuation(step: Step, fixed1: real -> string, general: real -> string): (c: string)
    ensures var last := if step.Start? then GasName(step.gas) else GasName(step.result);
            |last| <= |c| && c[|c| - |last|..] == last
  {
    match step
    case Start(pressure, gas) => fixed1(pressure) + " bar of " + GasName(gas)
    case Add(gas, pressure, result) =>
      GasName(gas) + "  Until Pressure is " + general(pressure) + " to make the mix " + GasName(result)
    case ThenAdd(gas, pressure, result) =>
      GasName(gas) + "  Until Pressure is " + general(pressure) + " to make the mix " + GasName(result)
    case TopUp(gas, pressure, result) =>
      GasName(gas) + " to " + general(pressure) + " and Final mix is " + GasName(result)
  }

  /** The renderer of the report's lines, for the given number formats. */
  function Renderer(fixed1: real -> string, general: real -> string): Step -> string {
    step => Line(step, fixed1, general)
  }

  /**
   * The report: each step rendered as a line, followed by the line
   * terminator, so it is at least one terminator long per step.
   */
  function Report(steps: seq<Step>, render: Step -> string, newline: string): (r: string)
    ensures |r| >= |steps| * |newline|
  {
    if steps == [] then ""
    else render(steps[0]) + newline + Report(steps[1..], render, newline)
  }

  /** The report of a non-empty run of steps opens with its first line and terminator. */
  lemma ReportFirstLine(steps: seq<Step>, render: Step -> string, newline: string)
    requires steps != []
    ensures render(steps[0]) + newline <= Report(steps, render, newline)
  {
    var rest := Report(steps[1..], render, newline);
    assert Report(steps, render, newline) == (render(steps[0]) + newline) + rest;
  }

  /** The report of two runs of steps is the report of the first followed by that of the second. */
  lemma {:induction false} ReportAppend(a: seq<Step>, b: seq<Step>, render: Step -> string, newline: string)
    ensures Report(a + b, render, newline) == Report(a, render, newline) + Report(b, render, newline)
  {
    if a == [] {
      assert a + b == b;
    } else {
      assert (a + b)[0] == a[0];
      assert (a + b)[1..] == a[1..] + b;
      ReportAppend(a[1..], b, render, newline);
    }
  }

  /** The report of three steps, line by line. */
  lemma ThreeLines(steps: seq<Step>, render: Step -> string, newline: string)
    requires |steps| == 3
    ensures Report(steps, render, newline)
         == render(steps[0]) + newline + render(steps[1]) + newline + render(steps[2]) + newline
  {
    assert steps == [steps[0]] + [steps[1]] + [steps[2]];
    ReportAppend([steps[0]] + [steps[1]], [steps[2]], render, newline);
    ReportAppend([steps[0]], [steps[1]], render, newline);
    assert [steps[0]][1..] == [] && [steps[1]][1..] == [] && [steps[2]][1..] == [];
  }

  /** The report of four steps, line by line. */
  lemma FourLines(steps: seq<Step>, render: Step -> string, newline: string)
    requires |steps| == 4
    ensures Report(steps, render, newline)
         == render(steps[0]) + newline + render(steps[1]) + newline + render(steps[2]) + newline
            + render(steps[3]) + newline
  {
    assert steps == [steps[0]] + steps[1..];
    ReportAppend([steps[0]], steps[1..], render, newline);
    ThreeLines(steps[1..], render, newline);
    assert [steps[0]][1..] == [];
  }

  /** The text of three steps shaped as a nitrox report. */
  lemma NitroxShapedText(steps: seq<Step>, fixed1: real -> string, general: real -> string, newline: string)
    requires |steps| == 3 && steps[0].Start? && steps[1].Add? && steps[2].TopUp?
    ensures Report(steps, Renderer(fixed1, general), newline)
         == Line(steps[0], fixed1, general) + newline + Line(steps[1], fixed1, general) + newline
            + Line(steps[2], fixed1, general) + newline
    ensures "Start with " <= Line(steps[0], fixed1, general)
    ensures "Add " <= Line(steps[1], fixed1, general)
    ensures "Finally top up with " <= Line(steps[2], fixed1, general)
  {
    ThreeLines(steps, Renderer(fixed1, general), newline);
  }

  /** The text of four steps shaped as a trimix report. */
  lemma TriMixShapedText(steps: seq<Step>, fixed1: real -> string, general: real -> string, newline: string)
    requires |steps| == 4 && steps[0].Start? && steps[1].Add? && steps[2].ThenAdd? && steps[3].TopUp?
    ensures Report(steps, Renderer(fixed1, general), newline)
         == Line(steps[0], fixed1, general) + newline + Line(steps[1], fixed1, general) + newline
            + Line(steps[2], fixed1, general) + newline + Line(steps[3], fixed1, general) + newline
    ensures "Start with " <= Line(steps[0], fixed1, general)
    ensures "Add " <= Line(steps[1], fixed1, general)
    ensures "Then add " <= Line(steps[2], fixed1, general)
    ensures "Finally top up with " <= Line(steps[3], fixed1, general)
  {
    FourLines(steps, Renderer(fixed1, general), newline);
  }

  /**
   * What a calculation returns: a refusal, or the report.
   * Unsettled stands for a pressure search that did not pass its exit test
   * within the fuel given; the calculator itself would keep searching.
   */
  datatype Outcome = Refused(reason: Refusal) | Instructions(steps: seq<Step>) | Unsettled

  /** The three refusal messages are different texts. */
  lemma MessagesDiffer(target: Mix)
    ensures Message(IdenticalGases) != Message(ImpossibleNitrox)
    ensures Message(IdenticalGases) != Message(ImpossibleTriMix(target))
    ensures Message(ImpossibleNitrox) != Message(ImpossibleTriMix(target))
  {
    TriMixMessageDiffers(GasName(target));
  }

  /** A gas name that does not start with w makes the trimix message differ from the nitrox one. */
  lemma TriMixMessageDiffers(name: string)
    requires |name| > 0 && name[0] != 'w'
    ensures "Impossible to blend " + name + " with these gases!" != Message(ImpossibleNitrox)
  {
    assert ("Impossible to blend " + name + " with these gases!")[20] == name[0];
    assert Message(ImpossibleNitrox)[20] == 'w';
  }

  /** A pressure as the report shows it: in psi when the calculator works in psi. */
  function Shown(isPsi: bool, bar: real): (shown: real)
    ensures isPsi ==> ConvertFromPsiToBar(shown) == bar
    ensures !isPsi ==> shown == bar
  {
    if isPsi then ConvertFromBarToPsi(bar) else bar
  }

  /** The normal volume of a mixture at its own pressure is defined (its z-factor is not zero). */
  predicate Measurable(mix: Mix) {
    ZFactor(mix.pressure, mix) != 0.0
  }

  function NormalVolume(mix: Mix): (v: real)
    requires Measurable(mix)
    ensures v * ZFactor(mix.pressure, mix) == mix.pressure * ZFactor(1.0, mix)
  {
    NormalVolumeFactor(mix.pressure, mix)
  }

  /**
   * The divisions of a nitrox fill are defined: the normal volumes, the
   * percentage of the first blend (were it computed) and its pressure search.
   */
  predicate NitroxComputable(start: Mix, target: Mix, first: Mix, final: Mix) {
    !SameGas(first, final) ==>
      Measurable(start) && Measurable(target) &&
      var initVol := NormalVolume(start);
      var firstTopUp := NitroxTopUps(start, target, first, final, initVol, NormalVolume(target)).0;
      firstTopUp > 0.0 ==>
        initVol + firstTopUp != 0.0 && ZFactor(1.0, NitroxAfterFirstTopUp(start, first, initVol, firstTopUp)) != 0.0
  }

  /**
   * The divisions of a trimix fill are defined: the determinant (the source
   * divides by it unguarded), the normal volumes, the percentages of the two
   * blends and their pressure searches.
   */
  predicate TriMixComputable(start: Mix, target: Mix, first: Mix, second: Mix, final: Mix) {
    DegenerateGasCheck(first, second, final) != 0.0 && Measurable(start) && Measurable(target) &&
    var initVol := NormalVolume(start);
    var v := TriMixTopUps(start, target, first, second, final, initVol, NormalVolume(target));
    (v.0 >= 0.0 && v.1 >= 0.0 && v.2 >= 0.0 ==>
      initVol + v.0 != 0.0 && initVol + v.0 + v.1 != 0.0
      && ZFactor(1.0, AfterFirstTopUp(start, first, initVol, v.0)) != 0.0
      && ZFactor(1.0, AfterSecondTopUp(start, first, second, initVol, v.0, v.1)) != 0.0)
  }

  /**
   * The outcome of a trimix fill: refused when a top-up volume is negative,
   * otherwise settled on the two intermediate blends and their volumes.
   */
  function TriMixPlan(start: Mix, target: Mix, first: Mix, second: Mix, final: Mix, isPsi: bool, fuel: nat): (o: Outcome)
    requires TriMixComputable(start, target, first, second, final)
    ensures o.Refused? ==> o.reason == ImpossibleTriMix(target)
    ensures o.Instructions? ==> |o.steps| == 4
  {
    var initVol := NormalVolume(start);
    var v := TriMixTopUps(start, target, first, second, final, initVol, NormalVolume(target));
    if v.0 < 0.0 || v.1 < 0.0 || v.2 < 0.0 then Refused(ImpossibleTriMix(target))
    else
      TriMixSettled(start, target, first, second, final, isPsi, fuel,
                    AfterFirstTopUp(start, first, initVol, v.0), initVol + v.0,
                    AfterSecondTopUp(start, first, second, initVol, v.0, v.1), initVol + v.0 + v.1)
  }

  /** A trimix fill is refused as impossible exactly when one of the three top-up volumes is negative. */
  lemma TriMixPlanRefused(start: Mix, target: Mix, first: Mix, second: Mix, final: Mix, isPsi: bool, fuel: nat)
    requires TriMixComputable(start, target, first, second, final)
    ensures var v := TriMixTopUps(start, target, first, second, final, NormalVolume(start), NormalVolume(target));
            TriMixPlan(start, target, first, second, final, isPsi, fuel) == Refused(ImpossibleTriMix(target))
            <==> v.0 < 0.0 || v.1 < 0.0 || v.2 < 0.0
  {
  }

  /** Past the refusal, the plan is settled on the blends of the computed volumes. */
  lemma TriMixPlanSettledOn(start: Mix, target: Mix, first: Mix, second: Mix, final: Mix, isPsi: bool, fuel: nat,
                            initVol: real, v: (real, real, real))
    requires TriMixComputable(start, target, first, second, final)
    requires initVol == NormalVolume(start)
    requires v == TriMixTopUps(start, target, first, second, final, initVol, NormalVolume(target))
    requires v.0 >= 0.0 && v.1 >= 0.0 && v.2 >= 0.0
    ensures ZFactor(1.0, AfterFirstTopUp(start, first, initVol, v.0)) != 0.0
    ensures ZFactor(1.0, AfterSecondTopUp(start, first, second, initVol, v.0, v.1)) != 0.0
    ensures TriMixPlan(start, target, first, second, final, isPsi, fuel)
         == TriMixSettled(start, target, first, second, final, isPsi, fuel,
                          AfterFirstTopUp(start, first, initVol, v.0), initVol + v.0,
                          AfterSecondTopUp(start, first, second, initVol, v.0, v.1), initVol + v.0 + v.1)
  {
  }

  /**
   * A trimix fill whose volumes are not refused: unsettled when a pressure
   * search for one of the blends (mix1 holding vol1, mix2 holding vol2) does
   * not settle, otherwise the report.
   */
  function TriMixSettled(start: Mix, target: Mix, first: Mix, second: Mix, final: Mix, isPsi: bool, fuel: nat,
                         mix1: Mix, vol1: real, mix2: Mix, vol2: real): (o: Outcome)
    requires ZFactor(1.0, mix1) != 0.0 && ZFactor(1.0, mix2) != 0.0
    ensures !o.Refused?
    ensures o.Instructions? <==> SolvedPressure(mix1, vol1, fuel).Some? && SolvedPressure(mix2, vol2, fuel).Some?
    ensures o.Instructions? ==> |o.steps| == 4
  {
    match (SolvedPressure(mix1, vol1, fuel), SolvedPressure(mix2, vol2, fuel))
    case (Some(pressure1), Some(pressure2)) =>
      Instructions(TriMixReport(start, target, first, second, final, isPsi, mix1, pressure1, mix2, pressure2))
    case _ => Unsettled
  }

  /**
   * The four lines of a trimix report: the start, the first top-up to the
   * pressure of the first blend, the second top-up to the pressure of the
   * second blend, and the final top-up to the target.
   */
  function TriMixReport(start: Mix, target: Mix, first: Mix, second: Mix, final: Mix, isPsi: bool,
                        mix1: Mix, pressure1: real, mix2: Mix, pressure2: real): (steps: seq<Step>)
    ensures |steps| == 4 && steps[0].Start? && steps[1].Add? && steps[2].ThenAdd? && steps[3].TopUp?
    ensures steps[0].gas == start && steps[1].gas == first && steps[2].gas == second && steps[3].gas == final
    ensures steps[3].result == target
    ensures !isPsi ==> steps[1].pressure == pressure1 && steps[2].pressure == pressure2
    ensures isPsi ==> (ConvertFromPsiToBar(steps[1].pressure) == pressure1
                       && ConvertFromPsiToBar(steps[2].pressure) == pressure2)
  {
    [Start(Shown(isPsi, start.pressure), start),
     Add(first, Shown(isPsi, pressure1), mix1.(pressure := pressure1)),
     ThenAdd(second, Shown(isPsi, pressure2), mix2.(pressure := pressure2)),
     TopUp(final, Shown(isPsi, target.pressure), target)]
  }

  /**
   * The outcome of a nitrox fill: refused when the first and final gases
   * have the same oxygen, or when the first top-up volume is not positive;
   * otherwise the report, whose intermediate pressure is the one the
   * pressure search settles on for the first blend, shown to one decimal.
   */
  function NitroxPlan(start: Mix, target: Mix, first: Mix, final: Mix, isPsi: bool, fuel: nat): (o: Outcome)
    requires NitroxComputable(start, target, first, final)
    ensures o.Refused? ==> o.reason == IdenticalGases || o.reason == ImpossibleNitrox
    ensures o.Instructions? ==> |o.steps| == 3
  {
    if SameGas(first, final) then Refused(IdenticalGases)
    else
      var initVol := NormalVolume(start);
      var firstTopUp := NitroxTopUps(start, target, first, final, initVol, NormalVolume(target)).0;
      if firstTopUp <= 0.0 then Refused(ImpossibleNitrox)
      else NitroxSettled(start, target, first, final, isPsi, fuel,
                         NitroxAfterFirstTopUp(start, first, initVol, firstTopUp), initVol + firstTopUp)
  }

  /**
   * A nitrox fill that is not refused: unsettled when the pressure search
   * for the first blend (mix1, holding vol1) does not settle, otherwise the
   * three-line report.
   */
  function NitroxSettled(start: Mix, target: Mix, first: Mix, final: Mix, isPsi: bool, fuel: nat,
                         mix1: Mix, vol1: real): (o: Outcome)
    requires ZFactor(1.0, mix1) != 0.0
    ensures !o.Refused?
    ensures o.Instructions? <==> SolvedPressure(mix1, vol1, fuel).Some?
    ensures o.Instructions? ==> |o.steps| == 3
  {
    match SolvedPressure(mix1, vol1, fuel)
    case Some(pressure1) => Instructions(NitroxReport(start, target, first, final, isPsi, mix1, pressure1))
    case None => Unsettled
  }

  /**
   * The three lines of a nitrox report: the start, the first top-up to the
   * pressure of the first blend shown to one decimal, and the final top-up.
   */
  function NitroxReport(start: Mix, target: Mix, first: Mix, final: Mix, isPsi: bool,
                        mix1: Mix, pressure1: real): (steps: seq<Step>)
    ensures |steps| == 3 && steps[0].Start? && steps[1].Add? && steps[2].TopUp?
    ensures steps[0].gas == start && steps[1].gas == first && steps[2].gas == final && steps[2].result == target
    ensures RoundDigits(steps[1].pressure, 1) == steps[1].pressure
  {
    RoundDigitsIdempotent(Shown(isPsi, pressure1), 1);
    [Start(Shown(isPsi, start.pressure), start),
     Add(first, RoundDigits(Shown(isPsi, pressure1), 1), mix1.(pressure := pressure1)),
     TopUp(final, Shown(isPsi, target.pressure), target)]
  }

  /** A nitrox fill is refused as identical exactly when the first and final gases share their oxygen. */
  lemma NitroxPlanIdentical(start: Mix, target: Mix, first: Mix, final: Mix, isPsi: bool, fuel: nat)
    requires NitroxComputable(start, target, first, final)
    ensures NitroxPlan(start, target, first, final, isPsi, fuel) == Refused(IdenticalGases)
        <==> FractionOfOxygen(first) == FractionOfOxygen(final)
  {
  }

  /** Otherwise it is refused as impossible exactly when the first top-up is not positive. */
  lemma NitroxPlanImpossible(start: Mix, target: Mix, first: Mix, final: Mix, isPsi: bool, fuel: nat)
    requires NitroxComputable(start, target, first, final) && !SameGas(first, final)
    ensures var initVol := NormalVolume(start);
            NitroxPlan(start, target, first, final, isPsi, fuel) == Refused(ImpossibleNitrox)
            <==> NitroxTopUps(start, target, first, final, initVol, NormalVolume(target)).0 <= 0.0
  {
  }

  /** Past the refusals, the plan is settled on the blend of the computed first top-up. */
  lemma NitroxPlanSettledOn(start: Mix, target: Mix, first: Mix, final: Mix, isPsi: bool, fuel: nat,
                            initVol: real, firstTopUp: real)
    requires NitroxComputable(start, target, first, final) && !SameGas(first, final)
    requires initVol == NormalVolume(start)
    requires firstTopUp == NitroxTopUps(start, target, first, final, initVol, NormalVolume(target)).0
    requires firstTopUp > 0.0
    ensures NitroxPlan(start, target, first, final, isPsi, fuel)
         == NitroxSettled(start, target, first, final, isPsi, fuel,
                          NitroxAfterFirstTopUp(start, first, initVol, firstTopUp), initVol + firstTopUp)
  {
  }

  /**
   * A nitrox report: neither refusal applies, the start and final lines name
   * the starting and target gases at their pressures, and the middle line
   * adds the first gas up to a pressure of the first blend that is rounded
   * to 6 decimals and passed the exit test of the pressure search.
   */
  lemma NitroxInstructions(start: Mix, target: Mix, first: Mix, final: Mix, isPsi: bool, fuel: nat)
    requires NitroxComputable(start, target, first, final)
    requires NitroxPlan(start, target, first, final, isPsi, fuel).Instructions?
    ensures !SameGas(first, final)
    ensures var initVol := NormalVolume(start);
            var firstTopUp := NitroxTopUps(start, target, first, final, initVol, NormalVolume(target)).0;
            var blend := NitroxAfterFirstTopUp(start, first, initVol, firstTopUp);
            var steps := NitroxPlan(start, target, first, final, isPsi, fuel).steps;
            firstTopUp > 0.0 && |steps| == 3
            && steps[0] == Start(Shown(isPsi, start.pressure), start)
            && steps[1].Add? && steps[1].gas == first
            && steps[1].result == blend.(pressure := steps[1].result.pressure)
            && steps[1].pressure == RoundDigits(Shown(isPsi, steps[1].result.pressure), 1)
            && Passed(blend, initVol + firstTopUp, steps[1].result.pressure)
            && steps[2] == TopUp(final, Shown(isPsi, target.pressure), target)
  {
    var initVol := NormalVolume(start);
    var firstTopUp := NitroxTopUps(start, target, first, final, initVol, NormalVolume(target)).0;
    var blend := NitroxAfterFirstTopUp(start, first, initVol, firstTopUp);
    SolvedPressureSound(blend, initVol + firstTopUp, fuel);
  }

  /**
   * The text of a nitrox report: three lines, opening "Start with ", "Add "
   * and "Finally top up with ", each followed by the line terminator.
   */
  lemma NitroxReportText(start: Mix, target: Mix, first: Mix, final: Mix, isPsi: bool, fuel: nat,
                         fixed1: real -> string, general: real -> string, newline: string)
    requires NitroxComputable(start, target, first, final)
    requires NitroxPlan(start, target, first, final, isPsi, fuel).Instructions?
    ensures var steps := NitroxPlan(start, target, first, final, isPsi, fuel).steps;
            |steps| == 3
            && Report(steps, Renderer(fixed1, general), newline)
               == Line(steps[0], fixed1, general) + newline + Line(steps[1], fixed1, general) + newline
                  + Line(steps[2], fixed1, general) + newline
            && "Start with " <= Line(steps[0], fixed1, general)
            && "Add " <= Line(steps[1], fixed1, general)
            && "Finally top up with " <= Line(steps[2], fixed1, general)
  {
    NitroxInstructions(start, target, first, final, isPsi, fuel);
    NitroxShapedText(NitroxPlan(start, target, first, final, isPsi, fuel).steps, fixed1, general, newline);
  }

  /**
   * A settled trimix fill: the start and final lines name the starting and
   * target gases at their pressures, and the two middle lines add the first
   * and second gases up to pressures of the two blends that passed the exit
   * test of the pressure search for their volumes.
   */
  lemma TriMixSettledInstructions(start: Mix, target: Mix, first: Mix, second: Mix, final: Mix, isPsi: bool, fuel: nat,
                                  mix1: Mix, vol1: real, mix2: Mix, vol2: real)
    requires ZFactor(1.0, mix1) != 0.0 && ZFactor(1.0, mix2) != 0.0
    requires TriMixSettled(start, target, first, second, final, isPsi, fuel, mix1, vol1, mix2, vol2).Instructions?
    ensures var steps := TriMixSettled(start, target, first, second, final, isPsi, fuel, mix1, vol1, mix2, vol2).steps;
            |steps| == 4
            && steps[0] == Start(Shown(isPsi, start.pressure), start)
            && steps[1].Add? && steps[1].gas == first
            && steps[1].result == mix1.(pressure := steps[1].result.pressure)
            && steps[1].pressure == Shown(isPsi, steps[1].result.pressure)
            && Passed(mix1, vol1, steps[1].result.pressure)
            && steps[2].ThenAdd? && steps[2].gas == second
            && steps[2].result == mix2.(pressure := steps[2].result.pressure)
            && steps[2].pressure == Shown(isPsi, steps[2].result.pressure)
            && Passed(mix2, vol2, steps[2].result.pressure)
            && steps[3] == TopUp(final, Shown(isPsi, target.pressure), target)
  {
    SolvedPressureSound(mix1, vol1, fuel);
    SolvedPressureSound(mix2, vol2, fuel);
  }

  /**
   * The text of a trimix report: four lines, opening "Start with ", "Add ",
   * "Then add " and "Finally top up with ", each followed by the line terminator.
   */
  lemma TriMixReportText(start: Mix, target: Mix, first: Mix, second: Mix, final: Mix, isPsi: bool, fuel: nat,
                         mix1: Mix, vol1: real, mix2: Mix, vol2: real,
                         fixed1: real -> string, general: real -> string, newline: string)
    requires ZFactor(1.0, mix1) != 0.0 && ZFactor(1.0, mix2) != 0.0
    requires TriMixSettled(start, target, first, second, final, isPsi, fuel, mix1, vol1, mix2, vol2).Instructions?
    ensures var steps := TriMixSettled(start, target, first, second, final, isPsi, fuel, mix1, vol1, mix2, vol2).steps;
            |steps| == 4
            && Report(steps, Renderer(fixed1, general), newline)
               == Line(steps[0], fixed1, general) + newline + Line(steps[1], fixed1, general) + newline
                  + Line(steps[2], fixed1, general) + newline + Line(steps[3], fixed1, general) + newline
            && "Start with " <= Line(steps[0], fixed1, general)
            && "Add " <= Line(steps[1], fixed1, general)
            && "Then add " <= Line(steps[2], fixed1, general)
            && "Finally top up with " <= Line(steps[3], fixed1, general)
  {
    TriMixSettledInstructions(start, target, first, second, final, isPsi, fuel, mix1, vol1, mix2, vol2);
    TriMixShapedText(TriMixSettled(start, target, first, second, final, isPsi, fuel, mix1, vol1, mix2, vol2).steps,
                     fixed1, general, newline);
  }

  /**
   * A trimix report comes from top-up volumes none of which is negative, and
   * its blends are the mixtures after the first and second top-ups.
   */
  lemma TriMixInstructions(start: Mix, target: Mix, first: Mix, second: Mix, final: Mix, isPsi: bool, fuel: nat,
                           initVol: real, v: (real, real, real))
    requires TriMixComputable(start, target, first, second, final)
    requires initVol == NormalVolume(start)
    requires v == TriMixTopUps(start, target, first, second, final, initVol, NormalVolume(target))
    requires TriMixPlan(start, target, first, second, final, isPsi, fuel).Instructions?
    ensures v.0 >= 0.0 && v.1 >= 0.0 && v.2 >= 0.0
    ensures TriMixPlan(start, target, first, second, final, isPsi, fuel)
         == TriMixSettled(start, target, first, second, final, isPsi, fuel,
                          AfterFirstTopUp(start, first, initVol, v.0), initVol + v.0,
                          AfterSecondTopUp(start, first, second, initVol, v.0, v.1), initVol + v.0 + v.1)
  {
  }

  /** x raised to the n-th power. */
  function Power(x: real, n: nat): real {
    if n == 0 then 1.0 else x * Power(x, n - 1)
  }

  /**
   * Applying the psi-to-bar conversion n times: once is ConvertFromPsiToBar,
   * and n times divides by the n-th power of 14.5038.
   */
  function ToBarTimes(psi: real, n: nat): (bar: real)
    ensures n == 1 ==> bar == ConvertFromPsiToBar(psi)
    ensures bar * Power(PsiPerBar, n) == psi
  {
    if n == 0 then psi
    else
      var before := ToBarTimes(psi, n - 1);
      var bar := ConvertFromPsiToBar(before);
      assert bar * PsiPerBar == before;
      assert bar * Power(PsiPerBar, n) == (bar * PsiPerBar) * Power(PsiPerBar, n - 1);
      bar
  }

  /** How many of the first k places of s hold m. */
  function Count(s: seq<GasMix?>, m: GasMix?, k: nat): nat
    requires k <= |s|
  {
    if k == 0 then 0 else Count(s, m, k - 1) + (if s[k - 1] == m then 1 else 0)
  }

  /** Counting every place gives the multiplicity. */
  lemma {:induction false} CountAll(s: seq<GasMix?>, m: GasMix?, k: nat)
    requires k <= |s|
    ensures Count(s, m, k) == multiset(s[..k])[m]
  {
    if k > 0 {
      CountAll(s, m, k - 1);
      assert s[..k] == s[..k - 1] + [s[k - 1]];
    }
  }

  /**
   * Every mixture of `supplied` holds its `initial` state, with the pressure
   * converted from psi to bar once for each of the first k places it occupies.
   */
  predicate ConvertedFrom(supplied: seq<GasMix?>, initial: map<GasMix, Mix>, k: nat)
    requires k <= |supplied|
    reads supplied
  {
    forall i | 0 <= i < |supplied| && supplied[i] != null ::
      supplied[i] in initial &&
      supplied[i].Value() == initial[supplied[i]].(pressure := ToBarTimes(initial[supplied[i]].pressure, Count(supplied, supplied[i], k)))
  }

  /**
   * One conversion of the constructor, of the mixture in place k: it divides
   * that mixture's pressure by 14.5038 in place.
   */
  method ConvertPressure(mix: GasMix, ghost supplied: seq<GasMix?>, ghost initial: map<GasMix, Mix>, ghost k: nat)
    requires k < |supplied| && supplied[k] == mix
    requires ConvertedFrom(supplied, initial, k)
    modifies mix
    ensures ConvertedFrom(supplied, initial, k + 1)
  {
    mix.SetPressure(ConvertFromPsiToBar(mix.pressure));
  }

  /** An absent mixture in place k is skipped; passing over it changes no mixture's count. */
  lemma SkippedIsNotCounted(supplied: seq<GasMix?>, initial: map<GasMix, Mix>, k: nat)
    requires k < |supplied| && supplied[k] == null
    requires ConvertedFrom(supplied, initial, k)
    ensures ConvertedFrom(supplied, initial, k + 1)
  {
  }

  /**
   * The conversions of the constructor from place k on, in order; an absent
   * mixture (only the second top-up may be absent) is skipped.
   */
  method ConvertFrom(supplied: seq<GasMix?>, ghost initial: map<GasMix, Mix>, k: nat)
    requires k <= |supplied| && ConvertedFrom(supplied, initial, k)
    modifies set j | k <= j < |supplied| :: supplied[j]
    ensures ConvertedFrom(supplied, initial, |supplied|)
    decreases |supplied| - k
  {
    if k < |supplied| {
      var mix := supplied[k];
      if mix != null {
        ConvertPressure(mix, supplied, initial, k);
      } else {
        SkippedIsNotCounted(supplied, initial, k);
      }
      ConvertFrom(supplied, initial, k + 1);
    }
  }

  /** ConvertedFrom, stated for each supplied mixture and its multiplicity. */
  lemma ConvertedMixtures(supplied: seq<GasMix?>, initial: map<GasMix, Mix>, k: nat)
    requires k <= |supplied| && ConvertedFrom(supplied, initial, k)
    ensures forall m: GasMix | m in supplied ::
      m in initial && m.Value() == initial[m].(pressure := ToBarTimes(initial[m].pressure, multiset(supplied[..k])[m]))
  {
    forall m: GasMix | m in supplied
      ensures m in initial && m.Value() == initial[m].(pressure := ToBarTimes(initial[m].pressure, multiset(supplied[..k])[m]))
    {
      var i :| 0 <= i < |supplied| && supplied[i] == m;
      CountAll(supplied, m, k);
    }
  }

  class GasCalculator {
    const startingMix: GasMix
    const targetMix: GasMix
    const firstTopUpMix: GasMix
    const secondTopUpMix: GasMix?
    const finalTopUpMix: GasMix
    const isPsi: bool

    /** The supplied mixtures, in the order the constructor converts them. */
    function Supplied(): seq<GasMix?> {
      [startingMix, targetMix, firstTopUpMix, secondTopUpMix, finalTopUpMix]
    }

    /**
     * With isPsi, every supplied mixture has its pressure divided by
     * 14.5038 in place, once for each place it was passed in (the second
     * top-up is skipped when absent); its composition is untouched. Without
     * isPsi nothing changes.
     */
    constructor (startingMix: GasMix, targetMix: GasMix, firstTopUpMix: GasMix, secondTopUpMix: GasMix?,
                 finalTopUpMix: GasMix, isPsi: bool := false)
      modifies startingMix, targetMix, firstTopUpMix, secondTopUpMix, finalTopUpMix
      ensures this.startingMix == startingMix && this.targetMix == targetMix
      ensures this.firstTopUpMix == firstTopUpMix && this.secondTopUpMix == secondTopUpMix
      ensures this.finalTopUpMix == finalTopUpMix && this.isPsi == isPsi
      ensures forall m: GasMix | m in Supplied() ::
        m.Value() == old(m.Value()).(pressure := ToBarTimes(old(m.pressure), if isPsi then multiset(Supplied())[m] else 0))
    {
      this.isPsi := isPsi;
      this.startingMix := startingMix;
      this.targetMix := targetMix;
      this.firstTopUpMix := firstTopUpMix;
      this.secondTopUpMix := secondTopUpMix;
      this.finalTopUpMix := finalTopUpMix;
      new;
      var supplied := Supplied();
      ghost var initial := map m: GasMix | m in supplied :: m.Value();
      assert forall m: GasMix | m in supplied :: initial[m] == old(m.Value());
      assert supplied[..0] == [] && supplied[..5] == supplied;
      if isPsi {
        ConvertFrom(supplied, initial, 0);
        ConvertedMixtures(supplied, initial, 5);
      } else {
        ConvertedMixtures(supplied, initial, 0);
      }
    }

    /**
     * CalculateNitroxGasMix: refuse identical first and final gases, then
     * refuse a fill whose first top-up is not positive, otherwise report the
     * start, the first top-up up to the rounded pressure of the first blend,
     * and the final top-up to the target.
     */
    method CalculateNitroxGasMix(fuel: nat) returns (outcome: Outcome)
      requires NitroxComputable(startingMix.Value(), targetMix.Value(), firstTopUpMix.Value(), finalTopUpMix.Value())
      ensures outcome == NitroxPlan(startingMix.Value(), targetMix.Value(), firstTopUpMix.Value(),
                                    finalTopUpMix.Value(), isPsi, fuel)
    {
      var start, target, first, final :=
        startingMix.Value(), targetMix.Value(), firstTopUpMix.Value(), finalTopUpMix.Value();
      if SameGas(first, final) {
        return Refused(IdenticalGases);
      }
      var initVol := NormalVolume(start);
      var finalVol := NormalVolume(target);
      var topUps := NitroxTopUps(start, target, first, final, initVol, finalVol);
      var firstTopUp := topUps.0;
      if firstTopUp <= 0.0 {
        return Refused(ImpossibleNitrox);
      }
      var blend := NitroxAfterFirstTopUp(start, first, initVol, firstTopUp);
      NitroxPlanSettledOn(start, target, first, final, isPsi, fuel, initVol, firstTopUp);
      outcome := ReportNitrox(blend, initVol + firstTopUp, fuel);
    }

    /**
     * The mixing part of CalculateNitroxGasMix: make the first blend as the
     * Nitrox preset, find its pressure, and write the report.
     */
    method ReportNitrox(blend: Mix, volume: real, fuel: nat) returns (outcome: Outcome)
      requires blend.pressure == 0.0 && blend.helium == 0.0 && blend.oxygen + blend.nitrogen == 100.0
      requires ZFactor(1.0, blend) != 0.0
      ensures outcome == NitroxSettled(startingMix.Value(), targetMix.Value(), firstTopUpMix.Value(),
                                       finalTopUpMix.Value(), isPsi, fuel, blend, volume)
    {
      var mix1 := new GasMix.Nitrox(blend.oxygen);
      assert mix1.Value() == blend;
      var pressure, settled := FindPressure(mix1, volume, fuel);
      if !settled {
        return Unsettled;
      }
      mix1.SetPressure(pressure);
      outcome := Instructions([
        Start(Shown(isPsi, startingMix.pressure), startingMix.Value()),
        Add(firstTopUpMix.Value(), RoundDigits(Shown(isPsi, mix1.pressure), 1), mix1.Value()),
        TopUp(finalTopUpMix.Value(), Shown(isPsi, targetMix.pressure), targetMix.Value())]);
    }

    /**
     * CalculateFinalTriMixGasMix: solve for the three top-up volumes; refuse
     * the fill when one of them is negative, otherwise report the start, the
     * two intermediate blends with their pressures and the final top-up.
     */
    method CalculateFinalTriMixGasMix(fuel: nat) returns (outcome: Outcome)
      requires secondTopUpMix != null
      requires TriMixComputable(startingMix.Value(), targetMix.Value(), firstTopUpMix.Value(),
                                secondTopUpMix.Value(), finalTopUpMix.Value())
      ensures outcome == TriMixPlan(startingMix.Value(), targetMix.Value(), firstTopUpMix.Value(),
                                    secondTopUpMix.Value(), finalTopUpMix.Value(), isPsi, fuel)
    {
      var start, target, first, second, final := startingMix.Value(), targetMix.Value(),
        firstTopUpMix.Value(), secondTopUpMix.Value(), finalTopUpMix.Value();
      var initVol := NormalVolume(start);
      var finalVol := NormalVolume(target);
      var v := TriMixTopUps(start, target, first, second, final, initVol, finalVol);
      if v.0 < 0.0 || v.1 < 0.0 || v.2 < 0.0 {
        TriMixPlanRefused(start, target, first, second, final, isPsi, fuel);
        return Refused(ImpossibleTriMix(target));
      }
      var blend1 := AfterFirstTopUp(start, first, initVol, v.0);
      var blend2 := AfterSecondTopUp(start, first, second, initVol, v.0, v.1);
      TriMixPlanSettledOn(start, target, first, second, final, isPsi, fuel, initVol, v);
      ghost var settled := TriMixSettled(start, target, first, second, final, isPsi, fuel,
                                         blend1, initVol + v.0, blend2, initVol + v.0 + v.1);
      assert settled == TriMixPlan(start, target, first, second, final, isPsi, fuel);
      outcome := ReportTriMix(blend1, initVol + v.0, blend2, initVol + v.0 + v.1, fuel);
      assert startingMix.Value() == start && targetMix.Value() == target;
      assert firstTopUpMix.Value() == first && secondTopUpMix.Value() == second && finalTopUpMix.Value() == final;
    }

    /**
     * The mixing part of CalculateFinalTriMixGasMix: make each blend as the
     * TriMix preset, find its pressure, and write the report.
     */
    method ReportTriMix(blend1: Mix, vol1: real, blend2: Mix, vol2: real, fuel: nat) returns (outcome: Outcome)
      requires secondTopUpMix != null
      requires blend1.pressure == 0.0 && blend1.oxygen + blend1.helium + blend1.nitrogen == 100.0
      requires blend2.pressure == 0.0 && blend2.oxygen + blend2.helium + blend2.nitrogen == 100.0
      requires ZFactor(1.0, blend1) != 0.0 && ZFactor(1.0, blend2) != 0.0
      ensures outcome == TriMixSettled(startingMix.Value(), targetMix.Value(), firstTopUpMix.Value(),
                                       secondTopUpMix.Value(), finalTopUpMix.Value(), isPsi, fuel,
                                       blend1, vol1, blend2, vol2)
    {
      var mix1 := new GasMix.TriMix(blend1.oxygen, blend1.helium);
      assert mix1.Value() == blend1;
      var pressure1, settled1 := FindPressure(mix1, vol1, fuel);
      if !settled1 {
        return Unsettled;
      }
      mix1.SetPressure(pressure1);
      var mix2 := new GasMix.TriMix(blend2.oxygen, blend2.helium);
      assert mix2.Value() == blend2;
      var pressure2, settled2 := FindPressure(mix2, vol2, fuel);
      if !settled2 {
        return Unsettled;
      }
      mix2.SetPressure(pressure2);
      outcome := Instructions([
        Start(Shown(isPsi, startingMix.pressure), startingMix.Value()),
        Add(firstTopUpMix.Value(), Shown(isPsi, mix1.pressure), mix1.Value()),
        ThenAdd(secondTopUpMix.Value(), Shown(isPsi, mix2.pressure), mix2.Value()),
        TopUp(finalTopUpMix.Value(), Shown(isPsi, targetMix.pressure), targetMix.Value())]);
    }
  }
}
