/**
 * The fixed-point search for the pressure at which a mixture holds a given
 * ideal-equivalent volume. The search has no iteration cap of its own; the
 * model bounds it by a fuel count so that it terminates, and reports whether
 * the exit test was met within that bound.
 */
module PressureSolver {
  import opened Options
  import opened DotNet
  import opened Mixes
  import opened Compressibility

  /** The residual below which the search stops. */
  const Tolerance: real := 0.000001

  /** Math.Round(x, 6). */
  function Round6(x: real): real {
    RoundDigits(x, 6)
  }

  function Abs(x: real): real {
    if x < 0.0 then -x else x
  }

  /** The test made before the loop: the size of z(1)·P − z(P) + V, whatever its sign. */
  function InitialResidual(mix: Mix, volume: real, pressure: real): (r: real)
    ensures r >= 0.0
    ensures var e := ZFactor(1.0, mix) * pressure - ZFactor(pressure, mix) + volume; r == e || r == -e
  {
    Abs(ZFactor(1.0, mix) * pressure - ZFactor(pressure, mix) + volume)
  }

  /**
   * The test made after each step: z(1)·P − (z(P) + V), signed, rounded to
   * 6 decimals, so within half a millionth of the unrounded value.
   */
  function LoopResidual(mix: Mix, volume: real, pressure: real): (r: real)
    ensures Round6(r) == r
    ensures var e := ZFactor(1.0, mix) * pressure - (ZFactor(pressure, mix) + volume);
            e - 0.0000005 <= r <= e + 0.0000005
  {
    var e := ZFactor(1.0, mix) * pressure - (ZFactor(pressure, mix) + volume);
    RoundDigitsIdempotent(e, 6);
    Round6(e)
  }

  /** The residual the search compares with the tolerance after `step` steps. */
  function Residual(mix: Mix, volume: real, step: nat, pressure: real): real {
    if step == 0 then InitialResidual(mix, volume, pressure) else LoopResidual(mix, volume, pressure)
  }

  /** One step of the iteration: P := round6(V·z(P) / z(1)). */
  function NextPressure(mix: Mix, volume: real, pressure: real): (next: real)
    requires ZFactor(1.0, mix) != 0.0
    ensures Round6(next) == next
  {
    var q := volume * ZFactor(pressure, mix) / ZFactor(1.0, mix);
    RoundDigitsIdempotent(q, 6);
    Round6(q)
  }

  /**
   * The first pressure of the iteration, from step `step` on, whose residual
   * passes the test, if one comes within `fuel` further steps.
   */
  function FirstPass(mix: Mix, volume: real, step: nat, pressure: real, fuel: nat): (r: Option<real>)
    requires ZFactor(1.0, mix) != 0.0
    ensures r.Some? ==> r.value == pressure || Round6(r.value) == r.value
    decreases fuel
  {
    if Residual(mix, volume, step, pressure) <= Tolerance then Some(pressure)
    else if fuel == 0 then None
    else FirstPass(mix, volume, step + 1, NextPressure(mix, volume, pressure), fuel - 1)
  }

  /** What FindPressure returns, when it returns within `fuel` steps: a pressure rounded to 6 decimals. */
  function SolvedPressure(mix: Mix, volume: real, fuel: nat): (r: Option<real>)
    requires ZFactor(1.0, mix) != 0.0
    ensures r.Some? ==> Round6(r.value) == r.value
  {
    RoundDigitsIdempotent(volume, 6);
    FirstPass(mix, Round6(volume), 0, Round6(volume), fuel)
  }

  /**
   * A pressure the search returns is rounded to 6 decimals and passed the exit
   * test: either the initial test on the rounded volume itself, or the signed
   * loop residual after some step.
   */
  lemma {:induction false} FirstPassSound(mix: Mix, volume: real, step: nat, pressure: real, fuel: nat)
    requires ZFactor(1.0, mix) != 0.0
    requires Round6(pressure) == pressure
    ensures FirstPass(mix, volume, step, pressure, fuel).Some? ==>
      var p := FirstPass(mix, volume, step, pressure, fuel).value;
      Round6(p) == p &&
      ((step == 0 && p == pressure && InitialResidual(mix, volume, p) <= Tolerance)
       || LoopResidual(mix, volume, p) <= Tolerance)
    decreases fuel
  {
    if Residual(mix, volume, step, pressure) > Tolerance && fuel > 0 {
      FirstPassSound(mix, volume, step + 1, NextPressure(mix, volume, pressure), fuel - 1);
    }
  }

  /**
   * A pressure the search may return for a volume: rounded to 6 decimals and
   * passing the exit test, either the initial test on the rounded volume
   * itself or the signed loop residual after some step.
   */
  predicate Passed(mix: Mix, volume: real, p: real) {
    Round6(p) == p &&
    ((p == Round6(volume) && InitialResidual(mix, Round6(volume), p) <= Tolerance)
     || LoopResidual(mix, Round6(volume), p) <= Tolerance)
  }

  lemma SolvedPressureSound(mix: Mix, volume: real, fuel: nat)
    requires ZFactor(1.0, mix) != 0.0
    ensures SolvedPressure(mix, volume, fuel).Some? ==> Passed(mix, volume, SolvedPressure(mix, volume, fuel).value)
  {
    RoundDigitsIdempotent(volume, 6);
    FirstPassSound(mix, Round6(volume), 0, Round6(volume), fuel);
  }

  /** More fuel never changes a result that was found with less. */
  lemma {:induction false} FirstPassMoreFuel(mix: Mix, volume: real, step: nat, pressure: real, fuel: nat, more: nat)
    requires ZFactor(1.0, mix) != 0.0
    requires FirstPass(mix, volume, step, pressure, fuel).Some?
    requires fuel <= more
    ensures FirstPass(mix, volume, step, pressure, more) == FirstPass(mix, volume, step, pressure, fuel)
    decreases fuel
  {
    if Residual(mix, volume, step, pressure) > Tolerance {
      FirstPassMoreFuel(mix, volume, step + 1, NextPressure(mix, volume, pressure), fuel - 1, more - 1);
    }
  }

  /**
   * The loop's residual does not measure the normal-volume law: at a pressure
   * that solves V·z(P) = z(1)·P exactly, the unrounded residual is
   * (V − 1)·(z(P) − 1) − 1, not zero.
   */
  lemma LoopResidualAtSolution(mix: Mix, volume: real, p: real)
    requires volume * ZFactor(p, mix) == ZFactor(1.0, mix) * p
    ensures ZFactor(1.0, mix) * p - (ZFactor(p, mix) + volume) == (volume - 1.0) * (ZFactor(p, mix) - 1.0) - 1.0
  {
    var z1, z := ZFactor(1.0, mix), ZFactor(p, mix);
    assert z1 * p - (z + volume) == volume * z - z - volume;
    assert (volume - 1.0) * (z - 1.0) - 1.0 == volume * z - z - volume;
  }

  /**
   * FindPressure: start from the volume rounded to 6 decimals and iterate
   * NextPressure until the residual test passes (or the fuel runs out).
   */
  method FindPressure(mix: GasMix, volume: real, fuel: nat) returns (pressure: real, converged: bool)
    requires ZFactor(1.0, mix.Value()) != 0.0
    ensures Round6(pressure) == pressure
    ensures converged <==> SolvedPressure(mix.Value(), volume, fuel).Some?
    ensures converged ==> SolvedPressure(mix.Value(), volume, fuel) == Some(pressure)
  {
    var m := mix.Value();
    var v := Round6(volume);
    pressure := v;
    RoundDigitsIdempotent(volume, 6);
    var residual := InitialResidual(m, v, pressure);
    var steps: nat := 0;
    while residual > Tolerance && steps < fuel
      invariant steps <= fuel
      invariant Round6(pressure) == pressure
      invariant residual == Residual(m, v, steps, pressure)
      invariant FirstPass(m, v, steps, pressure, fuel - steps) == SolvedPressure(m, volume, fuel)
      decreases fuel - steps
    {
      pressure := NextPressure(m, v, pressure);
      residual := LoopResidual(m, v, pressure);
      steps := steps + 1;
    }
    converged := residual <= Tolerance;
  }
}
