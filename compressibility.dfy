/**
 * The real-gas model of the GasCalculator: species fractions of a mixture,
 * per-species cubic virial terms, the compressibility (z) factor they add
 * up to, and the ideal-equivalent ("normal") volume a cylinder holds.
 */
module Compressibility {
  import opened Mixes

  /** The virial coefficients of each species, lowest power first (units of bar⁻¹, bar⁻², bar⁻³). */
  const OxygenCoefficients: seq<real> :=
    [-0.000718092073703, 0.00000281852572808, -0.00000000150290620492]

  const NitrogenCoefficients: seq<real> :=
    [-0.000219260353292, 0.00000292844845532, -0.00000000207613482075]

  const HeliumCoefficients: seq<real> :=
    [0.000487320026468, -0.0000000883632921053, 0.0000000000533304543646]

  /** The oxygen percentage as a fraction: a hundredth of it. */
  function FractionOfOxygen(mix: Mix): (r: real)
    ensures r * 100.0 == mix.oxygen
  {
    mix.oxygen / 100.0
  }

  /** The helium percentage as a fraction: a hundredth of it. */
  function FractionOfHelium(mix: Mix): (r: real)
    ensures r * 100.0 == mix.helium
  {
    mix.helium / 100.0
  }

  /**
   * Nitrogen is whatever is not oxygen or helium: the stored nitrogen
   * percentage plays no part, and the three fractions add up to one.
   */
  function FractionOfNitrogen(mix: Mix): (r: real)
    ensures FractionOfOxygen(mix) + FractionOfHelium(mix) + r == 1.0
  {
    var o2AndHe := mix.oxygen + mix.helium;
    (100.0 - o2AndHe) / 100.0
  }

  /**
   * The virial term of a species: coefficient i multiplies the (i+1)-th power
   * of the pressure, that is c[0]·P + c[1]·P² + c[2]·P³ for three coefficients;
   * every term vanishes at zero pressure.
   */
  function Virial(pressure: real, coefficients: seq<real>): (v: real)
    ensures pressure == 0.0 ==> v == 0.0
  {
    if coefficients == [] then 0.0
    else coefficients[0] * pressure + pressure * Virial(pressure, coefficients[1..])
  }

  /** For a three-coefficient array the virial term is the cubic written out. */
  lemma VirialCubic(pressure: real, c: seq<real>)
    requires |c| == 3
    ensures Virial(pressure, c) == c[0] * pressure + c[1] * pressure * pressure + c[2] * pressure * pressure * pressure
  {
    assert c[1..][1..][1..] == [];
    calc {
      Virial(pressure, c);
      c[0] * pressure + pressure * Virial(pressure, c[1..]);
      c[0] * pressure + pressure * (c[1] * pressure + pressure * Virial(pressure, c[1..][1..]));
      c[0] * pressure + pressure * (c[1] * pressure + pressure * (c[2] * pressure + pressure * 0.0));
    }
  }

  /** The compressibility factor: exactly 1 at zero pressure, for every mixture. */
  function ZFactor(pressure: real, mix: Mix): (z: real)
    ensures pressure == 0.0 ==> z == 1.0
  {
    1.0 + FractionOfOxygen(mix) * Virial(pressure, OxygenCoefficients)
        + FractionOfHelium(mix) * Virial(pressure, HeliumCoefficients)
        + FractionOfNitrogen(mix) * Virial(pressure, NitrogenCoefficients)
  }

  /**
   * The ideal-equivalent volume of a mixture at a pressure, normalised so
   * that one bar holds exactly one unit: V·z(P) = P·z(1).
   */
  function NormalVolumeFactor(pressure: real, mix: Mix): (v: real)
    requires ZFactor(pressure, mix) != 0.0
    ensures v * ZFactor(pressure, mix) == pressure * ZFactor(1.0, mix)
    ensures pressure == 0.0 ==> v == 0.0
    ensures pressure == 1.0 ==> v == 1.0
    ensures ZFactor(pressure, mix) > 0.0 && ZFactor(1.0, mix) > 0.0 ==> (v > 0.0 <==> pressure > 0.0)
  {
    var z1 := ZFactor(1.0, mix);
    var z := ZFactor(pressure, mix);
    QuotientFacts(pressure, z1, z);
    pressure * z1 / z
  }

  lemma QuotientFacts(p: real, z1: real, z: real)
    requires z != 0.0
    ensures (p * z1 / z) * z == p * z1
    ensures p == 0.0 ==> p * z1 / z == 0.0
    ensures p == 1.0 && z1 == z ==> p * z1 / z == 1.0
    ensures z > 0.0 && z1 > 0.0 ==> (p * z1 / z > 0.0 <==> p > 0.0)
  {
    if z > 0.0 && z1 > 0.0 {
      if p > 0.0 {
        assert p * z1 > 0.0;
      } else {
        assert p * z1 <= 0.0;
      }
    }
  }

  /**
   * The z-factor depends on a mixture only through its oxygen and helium:
   * neither the stored nitrogen percentage nor the stored pressure enters it.
   */
  lemma ZFactorOfComposition(pressure: real, a: Mix, b: Mix)
    requires a.oxygen == b.oxygen && a.helium == b.helium
    ensures ZFactor(pressure, a) == ZFactor(pressure, b)
  {
    assert FractionOfOxygen(a) == FractionOfOxygen(b);
    assert FractionOfHelium(a) == FractionOfHelium(b);
    assert FractionOfNitrogen(a) == FractionOfNitrogen(b);
    var o2, he, n2 := Virial(pressure, OxygenCoefficients), Virial(pressure, HeliumCoefficients),
                      Virial(pressure, NitrogenCoefficients);
    assert ZFactor(pressure, a) == 1.0 + FractionOfOxygen(a) * o2 + FractionOfHelium(a) * he + FractionOfNitrogen(a) * n2;
    assert ZFactor(pressure, b) == 1.0 + FractionOfOxygen(b) * o2 + FractionOfHelium(b) * he + FractionOfNitrogen(b) * n2;
  }
}
