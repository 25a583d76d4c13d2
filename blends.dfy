/**
 * The two blend solvers of the GasCalculator, as pure arithmetic over the
 * oxygen, nitrogen and helium content of mixtures.
 *
 * A trimix fill adds three top-up gases to a starting mix; the volumes are
 * Cramer's rule applied to the species balances, and the system is singular
 * exactly when the 3×3 determinant of the top-up gases' fractions is zero.
 * A nitrox fill adds two gases and balances oxygen alone.
 */
module Blends {
  import opened Mixes
  import opened Compressibility

  /** An amount (or fraction) of each species. */
  datatype Species = Species(oxygen: real, nitrogen: real, helium: real)

  /** The species fractions of a mixture; they add up to one. */
  function FractionsOf(mix: Mix): (f: Species)
    ensures f.oxygen + f.nitrogen + f.helium == 1.0
  {
    Species(FractionOfOxygen(mix), FractionOfNitrogen(mix), FractionOfHelium(mix))
  }

  function Total(s: Species): real {
    s.oxygen + s.nitrogen + s.helium
  }

  /** x·a + y·b + z·c, species by species. */
  function Combination(a: Species, x: real, b: Species, y: real, c: Species, z: real): Species {
    Species(a.oxygen * x + b.oxygen * y + c.oxygen * z,
            a.nitrogen * x + b.nitrogen * y + c.nitrogen * z,
            a.helium * x + b.helium * y + c.helium * z)
  }

  function Scale(s: Species, k: real): Species {
    Species(s.oxygen * k, s.nitrogen * k, s.helium * k)
  }

  function Plus(a: Species, b: Species): Species {
    Species(a.oxygen + b.oxygen, a.nitrogen + b.nitrogen, a.helium + b.helium)
  }

  function Minus(a: Species, b: Species): Species {
    Species(a.oxygen - b.oxygen, a.nitrogen - b.nitrogen, a.helium - b.helium)
  }

  /** How much of each species `volume` of a mixture holds; the amounts add up to the volume. */
  function Amounts(mix: Mix, volume: real): (a: Species)
    ensures Total(a) == volume
  {
    var f := FractionsOf(mix);
    assert f.oxygen * volume + f.nitrogen * volume + f.helium * volume == Total(f) * volume;
    Scale(FractionsOf(mix), volume)
  }

  /** A combination of fractions is the sum of the amounts of the gases. */
  lemma CombinationOfMixes(a: Mix, x: real, b: Mix, y: real, c: Mix, z: real)
    ensures Combination(FractionsOf(a), x, FractionsOf(b), y, FractionsOf(c), z)
         == Plus(Plus(Amounts(a, x), Amounts(b, y)), Amounts(c, z))
  {
  }

  /**
   * The determinant of the matrix whose rows are a, b and c, with the columns
   * in the order oxygen, nitrogen, helium, expanded along the first row.
   */
  function Det3(a: Species, b: Species, c: Species): real {
    a.oxygen * (b.nitrogen * c.helium - b.helium * c.nitrogen)
    - a.nitrogen * (b.oxygen * c.helium - b.helium * c.oxygen)
    + a.helium * (b.oxygen * c.nitrogen - b.nitrogen * c.oxygen)
  }

  /**
   * What the top-up gases must supply, species by species, to turn initVol
   * of the starting mix into finalVol of the target mix.
   */
  function Demand(start: Mix, target: Mix, initVol: real, finalVol: real): (d: Species)
    ensures Total(d) == finalVol - initVol
  {
    Minus(Amounts(target, finalVol), Amounts(start, initVol))
  }

  /** Two gases count as the same when their oxygen percentages are equal; helium is not compared. */
  function SameGas(mix1: Mix, mix2: Mix): (same: bool)
    ensures same <==> FractionOfOxygen(mix1) == FractionOfOxygen(mix2)
  {
    mix1.oxygen == mix2.oxygen
  }

  /**
   * DegenerateGasCheck: the determinant of the fractions of the first,
   * second and final top-up gases, the three rows of the trimix system.
   */
  function DegenerateGasCheck(first: Mix, second: Mix, final: Mix): (det: real)
    ensures det == Det3(FractionsOf(first), FractionsOf(second), FractionsOf(final))
  {
    var g1, g2, g3 := FractionsOf(first), FractionsOf(second), FractionsOf(final);
    DetTerms(g1, g2, g3);
    g3.helium * g2.nitrogen * g1.oxygen
    - g2.helium * g3.nitrogen * g1.oxygen
    - g3.helium * g1.nitrogen * g2.oxygen
    + g1.helium * g3.nitrogen * g2.oxygen
    + g2.helium * g1.nitrogen * g3.oxygen
    - g1.helium * g2.nitrogen * g3.oxygen
  }

  lemma DetTerms(g1: Species, g2: Species, g3: Species)
    ensures Det3(g1, g2, g3) ==
      g3.helium * g2.nitrogen * g1.oxygen
      - g2.helium * g3.nitrogen * g1.oxygen
      - g3.helium * g1.nitrogen * g2.oxygen
      + g1.helium * g3.nitrogen * g2.oxygen
      + g2.helium * g1.nitrogen * g3.oxygen
      - g1.helium * g2.nitrogen * g3.oxygen
  {
  }

  /** Exchanging two rows negates the determinant. */
  lemma Det3SwapFirstSecond(a: Species, b: Species, c: Species)
    ensures Det3(b, a, c) == -Det3(a, b, c)
  {
  }

  lemma Det3SwapSecondFinal(a: Species, b: Species, c: Species)
    ensures Det3(a, c, b) == -Det3(a, b, c)
  {
  }

  lemma Det3SwapFirstFinal(a: Species, b: Species, c: Species)
    ensures Det3(c, b, a) == -Det3(a, b, c)
  {
  }

  /** A determinant with a repeated row is zero. */
  lemma Det3RepeatedRow(a: Species, b: Species)
    ensures Det3(a, a, b) == 0.0 && Det3(a, b, a) == 0.0 && Det3(b, a, a) == 0.0
  {
  }

  /** Two mixtures with equal oxygen and helium have equal fractions, whatever nitrogen they store. */
  lemma EqualCompositionEqualFractions(a: Mix, b: Mix)
    requires a.oxygen == b.oxygen && a.helium == b.helium
    ensures FractionsOf(a) == FractionsOf(b)
  {
  }

  /**
   * DegenerateGasCheck is zero whenever two of the three top-up gases have
   * the same oxygen and helium.
   */
  lemma DegenerateForDuplicateGases(first: Mix, second: Mix, final: Mix)
    requires (first.oxygen == second.oxygen && first.helium == second.helium)
          || (first.oxygen == final.oxygen && first.helium == final.helium)
          || (second.oxygen == final.oxygen && second.helium == final.helium)
    ensures DegenerateGasCheck(first, second, final) == 0.0
  {
    var g1, g2, g3 := FractionsOf(first), FractionsOf(second), FractionsOf(final);
    if first.oxygen == second.oxygen && first.helium == second.helium {
      EqualCompositionEqualFractions(first, second);
      Det3RepeatedRow(g1, g3);
    } else if first.oxygen == final.oxygen && first.helium == final.helium {
      EqualCompositionEqualFractions(first, final);
      Det3RepeatedRow(g1, g2);
    } else {
      EqualCompositionEqualFractions(second, final);
      Det3RepeatedRow(g2, g1);
    }
  }

  /** Swapping two top-up gases negates DegenerateGasCheck. */
  lemma DegenerateGasCheckAntisymmetric(first: Mix, second: Mix, final: Mix)
    ensures DegenerateGasCheck(second, first, final) == -DegenerateGasCheck(first, second, final)
    ensures DegenerateGasCheck(first, final, second) == -DegenerateGasCheck(first, second, final)
    ensures DegenerateGasCheck(final, second, first) == -DegenerateGasCheck(first, second, final)
  {
    var g1, g2, g3 := FractionsOf(first), FractionsOf(second), FractionsOf(final);
    Det3SwapFirstSecond(g1, g2, g3);
    Det3SwapSecondFinal(g1, g2, g3);
    Det3SwapFirstFinal(g1, g2, g3);
  }

  /**
   * The numerators of the trimix volumes, each written as the source writes
   * it; each is the determinant with that gas's row replaced by the demand d.
   */
  function FirstNumerator(g1: Species, g2: Species, g3: Species, d: Species): (r: real)
    ensures r == Det3(d, g2, g3)
  {
    (g3.nitrogen * g2.oxygen - g2.nitrogen * g3.oxygen) * d.helium
    + (g2.helium * g3.oxygen - g3.helium * g2.oxygen) * d.nitrogen
    + (g3.helium * g2.nitrogen - g2.helium * g3.nitrogen) * d.oxygen
  }

  function SecondNumerator(g1: Species, g2: Species, g3: Species, d: Species): (r: real)
    ensures r == Det3(g1, d, g3)
  {
    (g1.nitrogen * g3.oxygen - g3.nitrogen * g1.oxygen) * d.helium
    + (g3.helium * g1.oxygen - g1.helium * g3.oxygen) * d.nitrogen
    + (g1.helium * g3.nitrogen - g3.helium * g1.nitrogen) * d.oxygen
  }

  function FinalNumerator(g1: Species, g2: Species, g3: Species, d: Species): (r: real)
    ensures r == Det3(g1, g2, d)
  {
    (g2.nitrogen * g1.oxygen - g1.nitrogen * g2.oxygen) * d.helium
    + (g1.helium * g2.oxygen - g2.helium * g1.oxygen) * d.nitrogen
    + (g2.helium * g1.nitrogen - g1.helium * g2.nitrogen) * d.oxygen
  }

  lemma CramerOxygen(g1: Species, g2: Species, g3: Species, d: Species)
    ensures g1.oxygen * Det3(d, g2, g3) + g2.oxygen * Det3(g1, d, g3) + g3.oxygen * Det3(g1, g2, d)
         == d.oxygen * Det3(g1, g2, g3)
  {
  }

  lemma CramerNitrogen(g1: Species, g2: Species, g3: Species, d: Species)
    ensures g1.nitrogen * Det3(d, g2, g3) + g2.nitrogen * Det3(g1, d, g3) + g3.nitrogen * Det3(g1, g2, d)
         == d.nitrogen * Det3(g1, g2, g3)
  {
  }

  lemma CramerHelium(g1: Species, g2: Species, g3: Species, d: Species)
    ensures g1.helium * Det3(d, g2, g3) + g2.helium * Det3(g1, d, g3) + g3.helium * Det3(g1, g2, d)
         == d.helium * Det3(g1, g2, g3)
  {
  }

  lemma SumOfQuotients(a: real, b: real, c: real, x: real, y: real, z: real, k: real, e: real)
    requires k != 0.0 && a * x + b * y + c * z == e * k
    ensures a * (x / k) + b * (y / k) + c * (z / k) == e
  {
    assert a * (x / k) == (a * x) / k;
    assert b * (y / k) == (b * y) / k;
    assert c * (z / k) == (c * z) / k;
    assert (a * x) / k + (b * y) / k + (c * z) / k == (a * x + b * y + c * z) / k;
    QuotientOfMultiple(e, k);
  }

  /**
   * Cramer's rule with the numerators as the source writes them: when det is
   * the (nonzero) determinant of the rows, the quotients solve the system.
   */
  function CramerSolve(g1: Species, g2: Species, g3: Species, d: Species, det: real): (v: (real, real, real))
    requires det == Det3(g1, g2, g3) && det != 0.0
    ensures Combination(g1, v.0, g2, v.1, g3, v.2) == d
  {
    CramerQuotients(g1, g2, g3, d, det);
    (FirstNumerator(g1, g2, g3, d) / det, SecondNumerator(g1, g2, g3, d) / det, FinalNumerator(g1, g2, g3, d) / det)
  }

  /** Cramer's rule over the determinants themselves. */
  lemma CramerQuotients(g1: Species, g2: Species, g3: Species, d: Species, det: real)
    requires det == Det3(g1, g2, g3) && det != 0.0
    ensures Combination(g1, Det3(d, g2, g3) / det, g2, Det3(g1, d, g3) / det, g3, Det3(g1, g2, d) / det) == d
  {
    CramerOxygen(g1, g2, g3, d);
    CramerNitrogen(g1, g2, g3, d);
    CramerHelium(g1, g2, g3, d);
    QuotientsSolve(g1, g2, g3, d, Det3(d, g2, g3), Det3(g1, d, g3), Det3(g1, g2, d), det);
  }

  /** Numerators that balance every species times k give quotients that balance it outright. */
  lemma QuotientsSolve(g1: Species, g2: Species, g3: Species, d: Species, x: real, y: real, z: real, k: real)
    requires k != 0.0
    requires g1.oxygen * x + g2.oxygen * y + g3.oxygen * z == d.oxygen * k
    requires g1.nitrogen * x + g2.nitrogen * y + g3.nitrogen * z == d.nitrogen * k
    requires g1.helium * x + g2.helium * y + g3.helium * z == d.helium * k
    ensures Combination(g1, x / k, g2, y / k, g3, z / k) == d
  {
    SumOfQuotients(g1.oxygen, g2.oxygen, g3.oxygen, x, y, z, k, d.oxygen);
    SumOfQuotients(g1.nitrogen, g2.nitrogen, g3.nitrogen, x, y, z, k, d.nitrogen);
    SumOfQuotients(g1.helium, g2.helium, g3.helium, x, y, z, k, d.helium);
  }

  /** A system with a nonzero determinant has no solution other than Cramer's. */
  lemma CramerSolveUnique(g1: Species, g2: Species, g3: Species, d: Species, det: real, x: real, y: real, z: real)
    requires det == Det3(g1, g2, g3) && det != 0.0
    requires Combination(g1, x, g2, y, g3, z) == d
    ensures CramerSolve(g1, g2, g3, d, det) == (x, y, z)
  {
    assert CramerSolve(g1, g2, g3, d, det) == (Det3(d, g2, g3) / det, Det3(g1, d, g3) / det, Det3(g1, g2, d) / det);
    Det3OfCombination(g1, g2, g3, x, y, z);
    assert Det3(d, g2, g3) == x * det && Det3(g1, d, g3) == y * det && Det3(g1, g2, d) == z * det;
    QuotientOfMultiple(x, det);
    QuotientOfMultiple(y, det);
    QuotientOfMultiple(z, det);
  }

  /** The determinant is linear in its first row. */
  lemma Det3OfCombination(g1: Species, g2: Species, g3: Species, x: real, y: real, z: real)
    ensures Det3(Combination(g1, x, g2, y, g3, z), g2, g3) == x * Det3(g1, g2, g3)
    ensures Det3(g1, Combination(g1, x, g2, y, g3, z), g3) == y * Det3(g1, g2, g3)
    ensures Det3(g1, g2, Combination(g1, x, g2, y, g3, z)) == z * Det3(g1, g2, g3)
  {
  }

  /** What the three top-up gases bring: firstTopUp of the first, and so on. */
  function Added(first: Mix, second: Mix, final: Mix, v: (real, real, real)): Species {
    Plus(Plus(Amounts(first, v.0), Amounts(second, v.1)), Amounts(final, v.2))
  }

  /**
   * The volumes of the first, second and final top-up gases of a trimix fill,
   * by Cramer's rule over the determinant DegenerateGasCheck: together they
   * bring exactly the demand of every species, and so the missing volume.
   */
  function TriMixTopUps(start: Mix, target: Mix, first: Mix, second: Mix, final: Mix,
                        initVol: real, finalVol: real): (v: (real, real, real))
    requires DegenerateGasCheck(first, second, final) != 0.0
    ensures Added(first, second, final, v) == Demand(start, target, initVol, finalVol)
    ensures v.0 + v.1 + v.2 == finalVol - initVol
  {
    var g1, g2, g3 := FractionsOf(first), FractionsOf(second), FractionsOf(final);
    var v := CramerSolve(g1, g2, g3, Demand(start, target, initVol, finalVol), DegenerateGasCheck(first, second, final));
    CombinationOfMixes(first, v.0, second, v.1, final, v.2);
    v
  }

  /**
   * When the top-up gases are not degenerate, the trimix volumes are the
   * only ones that satisfy the three species balances.
   */
  lemma TriMixTopUpsUnique(start: Mix, target: Mix, first: Mix, second: Mix, final: Mix,
                           initVol: real, finalVol: real, v: (real, real, real))
    requires DegenerateGasCheck(first, second, final) != 0.0
    requires Added(first, second, final, v) == Demand(start, target, initVol, finalVol)
    ensures TriMixTopUps(start, target, first, second, final, initVol, finalVol) == v
  {
    CombinationOfMixes(first, v.0, second, v.1, final, v.2);
    CramerSolveUnique(FractionsOf(first), FractionsOf(second), FractionsOf(final),
                      Demand(start, target, initVol, finalVol), DegenerateGasCheck(first, second, final), v.0, v.1, v.2);
  }

  lemma QuotientOfMultiple(x: real, det: real)
    requires det != 0.0
    ensures x * det / det == x
  {
  }

  /**
   * The two volumes of a nitrox fill: the first top-up gas, then the final
   * one. Together they bring the missing volume and the missing oxygen.
   */
  function NitroxTopUps(start: Mix, target: Mix, first: Mix, final: Mix,
                        initVol: real, finalVol: real): (v: (real, real))
    requires !SameGas(first, final)
    ensures v.0 + v.1 == finalVol - initVol
    ensures Amounts(first, v.0).oxygen + Amounts(final, v.1).oxygen
         == Demand(start, target, initVol, finalVol).oxygen
  {
    var v := TwoGasSolve(FractionOfOxygen(first), FractionOfOxygen(final),
                         FractionOfOxygen(start), FractionOfOxygen(target), initVol, finalVol);
    OxygenBalance(start, target, first, final, initVol, finalVol, v.0, v.1);
    v
  }

  /** The oxygen balance over the fractions, restated over the species amounts. */
  lemma OxygenBalance(start: Mix, target: Mix, first: Mix, final: Mix, initVol: real, finalVol: real,
                      x: real, y: real)
    requires FractionOfOxygen(first) * x + FractionOfOxygen(final) * y
          == FractionOfOxygen(target) * finalVol - FractionOfOxygen(start) * initVol
    ensures Amounts(first, x).oxygen + Amounts(final, y).oxygen == Demand(start, target, initVol, finalVol).oxygen
  {
    assert Amounts(first, x).oxygen == FractionOfOxygen(first) * x;
    assert Amounts(final, y).oxygen == FractionOfOxygen(final) * y;
    assert Demand(start, target, initVol, finalVol).oxygen
        == FractionOfOxygen(target) * finalVol - FractionOfOxygen(start) * initVol;
  }

  /**
   * The nitrox balances as the source writes them, over the oxygen fractions
   * f1 (first top-up), fF (final top-up), fS (start) and fT (target): the
   * two volumes add up to the missing volume and bring the missing oxygen.
   */
  function TwoGasSolve(f1: real, fF: real, fS: real, fT: real, initVol: real, finalVol: real): (v: (real, real))
    requires f1 != fF
    ensures v.0 + v.1 == finalVol - initVol
    ensures f1 * v.0 + fF * v.1 == fT * finalVol - fS * initVol
  {
    var x := (fF - fT) / (fF - f1) * finalVol - (fF - fS) / (fF - f1) * initVol;
    var y := (f1 - fT) / (f1 - fF) * finalVol - (f1 - fS) / (f1 - fF) * initVol;
    TwoGasBalance(f1, fF, fS, fT, initVol, finalVol, x, y);
    (x, y)
  }

  lemma TwoGasBalance(f1: real, fF: real, fS: real, fT: real, initVol: real, finalVol: real, x: real, y: real)
    requires f1 != fF
    requires x == (fF - fT) / (fF - f1) * finalVol - (fF - fS) / (fF - f1) * initVol
    requires y == (f1 - fT) / (f1 - fF) * finalVol - (f1 - fS) / (f1 - fF) * initVol
    ensures x + y == finalVol - initVol && f1 * x + fF * y == fT * finalVol - fS * initVol
  {
    var k := fF - f1;
    assert x * k == (fF - fT) * finalVol - (fF - fS) * initVol;
    assert y * k == (fT - f1) * finalVol - (fS - f1) * initVol;
    assert (x + y) * k == (finalVol - initVol) * k;
    assert (f1 * x + fF * y) * k == (fT * finalVol - fS * initVol) * k;
  }

  /** The nitrox volumes are the only pair that balances volume and oxygen. */
  lemma NitroxTopUpsUnique(start: Mix, target: Mix, first: Mix, final: Mix,
                           initVol: real, finalVol: real, v: (real, real))
    requires !SameGas(first, final)
    requires v.0 + v.1 == finalVol - initVol
    requires Amounts(first, v.0).oxygen + Amounts(final, v.1).oxygen
          == Demand(start, target, initVol, finalVol).oxygen
    ensures NitroxTopUps(start, target, first, final, initVol, finalVol) == v
  {
    var w := NitroxTopUps(start, target, first, final, initVol, finalVol);
    BalancedPairsAgree(first, final, w.0 + w.1, Amounts(first, w.0).oxygen + Amounts(final, w.1).oxygen,
                       w.0, w.1, v.0, v.1);
  }

  /** Two pairs of volumes of two different gases that bring the same volume and oxygen are equal. */
  lemma BalancedPairsAgree(first: Mix, final: Mix, volume: real, oxygen: real, x: real, y: real, x': real, y': real)
    requires FractionOfOxygen(first) != FractionOfOxygen(final)
    requires x + y == volume && x' + y' == volume
    requires Amounts(first, x).oxygen + Amounts(final, y).oxygen == oxygen
    requires Amounts(first, x').oxygen + Amounts(final, y').oxygen == oxygen
    ensures x == x' && y == y'
  {
    OxygenAmount(first, x);
    OxygenAmount(final, y);
    OxygenAmount(first, x');
    OxygenAmount(final, y');
    TwoByTwoUnique(FractionOfOxygen(first), FractionOfOxygen(final), x, y, x', y');
  }

  lemma OxygenAmount(mix: Mix, volume: real)
    ensures Amounts(mix, volume).oxygen == FractionOfOxygen(mix) * volume
  {
  }

  lemma TwoByTwoUnique(f1: real, fF: real, x: real, y: real, x': real, y': real)
    requires f1 != fF
    requires x + y == x' + y'
    requires f1 * x + fF * y == f1 * x' + fF * y'
    ensures x == x' && y == y'
  {
    assert (f1 - fF) * (x - x') == 0.0;
  }

  /**
   * The percentage of a species in a blend, from its amount and the blend's
   * volume: 100·amount / total.
   */
  function Percent(amount: real, total: real): (p: real)
    requires total != 0.0
    ensures p / 100.0 * total == amount
  {
    var p := 100.0 * amount / total;
    assert p * total == 100.0 * amount;
    p
  }

  /**
   * The trimix mix after the first top-up: initVol of the starting mix and
   * firstTopUp of the first gas, written as the preset TriMix(oxygen, helium)
   * at zero pressure. It holds exactly the species of its two parts.
   */
  function AfterFirstTopUp(start: Mix, first: Mix, initVol: real, firstTopUp: real): (mix: Mix)
    requires initVol + firstTopUp != 0.0
    ensures mix.pressure == 0.0 && mix.oxygen + mix.helium + mix.nitrogen == 100.0
    ensures Amounts(mix, initVol + firstTopUp) == Plus(Amounts(start, initVol), Amounts(first, firstTopUp))
  {
    var parts := Plus(Amounts(start, initVol), Amounts(first, firstTopUp));
    assert Total(parts) == initVol + firstTopUp;
    MixOf(parts, initVol + firstTopUp)
  }

  /** The trimix mix after the second top-up: the first two gases added to the starting mix. */
  function AfterSecondTopUp(start: Mix, first: Mix, second: Mix,
                            initVol: real, firstTopUp: real, secondTopUp: real): (mix: Mix)
    requires initVol + firstTopUp + secondTopUp != 0.0
    ensures mix.pressure == 0.0 && mix.oxygen + mix.helium + mix.nitrogen == 100.0
    ensures Amounts(mix, initVol + firstTopUp + secondTopUp)
         == Plus(Plus(Amounts(start, initVol), Amounts(first, firstTopUp)), Amounts(second, secondTopUp))
  {
    var parts := Plus(Plus(Amounts(start, initVol), Amounts(first, firstTopUp)), Amounts(second, secondTopUp));
    assert Total(parts) == initVol + firstTopUp + secondTopUp;
    MixOf(parts, initVol + firstTopUp + secondTopUp)
  }

  /**
   * The mixture, at zero pressure, of which `total` holds the amounts
   * `parts`: oxygen and helium as percentages of the total, nitrogen the
   * rest, as the blends after each top-up are written.
   */
  function MixOf(parts: Species, total: real): (mix: Mix)
    requires total != 0.0 && Total(parts) == total
    ensures mix.pressure == 0.0 && mix.oxygen + mix.helium + mix.nitrogen == 100.0
    ensures Amounts(mix, total) == parts
  {
    var oxygen := Percent(parts.oxygen, total);
    var helium := Percent(parts.helium, total);
    var mix := Mix(0.0, helium, oxygen, 100.0 - (oxygen + helium));
    NitrogenByDifference(Amounts(mix, total), parts);
    mix
  }

  /** Two amounts of the same volume that agree on oxygen and helium agree on nitrogen. */
  lemma NitrogenByDifference(a: Species, b: Species)
    requires Total(a) == Total(b) && a.oxygen == b.oxygen && a.helium == b.helium
    ensures a == b
  {
  }

  /**
   * The nitrox mix after the first top-up, written as the preset
   * Nitrox(oxygen) at zero pressure. It holds the oxygen of its two parts.
   */
  function NitroxAfterFirstTopUp(start: Mix, first: Mix, initVol: real, firstTopUp: real): (mix: Mix)
    requires initVol + firstTopUp != 0.0
    ensures mix.pressure == 0.0 && mix.helium == 0.0 && mix.oxygen + mix.nitrogen == 100.0
    ensures Amounts(mix, initVol + firstTopUp).oxygen
         == Amounts(start, initVol).oxygen + Amounts(first, firstTopUp).oxygen
  {
    var oxygen := Percent(Amounts(start, initVol).oxygen + Amounts(first, firstTopUp).oxygen, initVol + firstTopUp);
    Mix(0.0, 0.0, oxygen, 100.0 - oxygen)
  }

  /**
   * The planned trimix fill ends on the target: the mix after the second
   * gas, topped up with the final volume of the final gas, holds what
   * finalVol of the target holds, species by species.
   */
  lemma TriMixFillReachesTarget(start: Mix, target: Mix, first: Mix, second: Mix, final: Mix,
                                initVol: real, finalVol: real)
    requires DegenerateGasCheck(first, second, final) != 0.0
    requires var v := TriMixTopUps(start, target, first, second, final, initVol, finalVol);
             initVol + v.0 + v.1 != 0.0
    ensures var v := TriMixTopUps(start, target, first, second, final, initVol, finalVol);
            var mix2 := AfterSecondTopUp(start, first, second, initVol, v.0, v.1);
            (initVol + v.0 + v.1) + v.2 == finalVol
            && Plus(Amounts(mix2, initVol + v.0 + v.1), Amounts(final, v.2)) == Amounts(target, finalVol)
  {
    var v := TriMixTopUps(start, target, first, second, final, initVol, finalVol);
    var mix2 := AfterSecondTopUp(start, first, second, initVol, v.0, v.1);
    BalanceCompletes(Amounts(start, initVol), Amounts(first, v.0), Amounts(second, v.1), Amounts(final, v.2),
                     Amounts(target, finalVol), Amounts(mix2, initVol + v.0 + v.1));
  }

  lemma BalanceCompletes(s: Species, a1: Species, a2: Species, a3: Species, t: Species, m: Species)
    requires Plus(Plus(a1, a2), a3) == Minus(t, s)
    requires m == Plus(Plus(s, a1), a2)
    ensures Plus(m, a3) == t
  {
  }

  /**
   * The planned nitrox fill ends on the target's oxygen: the mix after the
   * first gas, topped up with the second volume of the final gas, holds the
   * oxygen of finalVol of the target.
   */
  lemma NitroxFillReachesTarget(start: Mix, target: Mix, first: Mix, final: Mix, initVol: real, finalVol: real)
    requires !SameGas(first, final)
    requires initVol + NitroxTopUps(start, target, first, final, initVol, finalVol).0 != 0.0
    ensures var v := NitroxTopUps(start, target, first, final, initVol, finalVol);
            var mix1 := NitroxAfterFirstTopUp(start, first, initVol, v.0);
            (initVol + v.0) + v.1 == finalVol
            && Amounts(mix1, initVol + v.0).oxygen + Amounts(final, v.1).oxygen == Amounts(target, finalVol).oxygen
  {
  }
}
