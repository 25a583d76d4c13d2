/**
 * The gas mixture entity: a pressure and the percentages of helium, oxygen
 * and nitrogen. The blender overwrites the pressure of mixtures in place, so
 * a mixture is an object with mutable fields; `Value` reads its current state.
 */
module Mixes {

  /** The state of a GasMix object at one moment. */
  datatype Mix = Mix(pressure: real, helium: real, oxygen: real, nitrogen: real)

  class GasMix {
    var pressure: real
    var helium: real
    var oxygen: real
    var nitrogen: real

    function Value(): Mix
      reads this
    {
      Mix(pressure, helium, oxygen, nitrogen)
    }

    /** A plain mixture: every field starts at zero. */
    constructor ()
      ensures Value() == Mix(0.0, 0.0, 0.0, 0.0)
    {
      pressure, helium, oxygen, nitrogen := 0.0, 0.0, 0.0, 0.0;
    }

    /** Air: 21 % oxygen, 79 % nitrogen, no helium, no pressure. */
    constructor Air()
      ensures pressure == 0.0 && helium == 0.0 && nitrogen == 79.0 && oxygen == 21.0
      ensures oxygen + helium + nitrogen == 100.0
    {
      pressure := 0.0;
      helium := 0.0;
      nitrogen := 79.0;
      oxygen := 21.0;
    }

    /** Nitrox: the given oxygen percentage, the rest nitrogen. */
    constructor Nitrox(o2: real)
      ensures pressure == 0.0 && helium == 0.0 && oxygen == o2 && nitrogen == 100.0 - o2
      ensures oxygen + helium + nitrogen == 100.0
    {
      pressure := 0.0;
      nitrogen := 100.0 - o2;
      helium := 0.0;
      oxygen := o2;
    }

    /** Trimix: the given oxygen and helium percentages, the rest nitrogen. */
    constructor TriMix(o2: real, he: real)
      ensures pressure == 0.0 && helium == he && oxygen == o2 && nitrogen == 100.0 - (o2 + he)
      ensures oxygen + helium + nitrogen == 100.0
    {
      pressure := 0.0;
      helium := he;
      oxygen := o2;
      nitrogen := 100.0 - (o2 + he);
    }

    /** The setters of the four properties: each changes its own field only. */
    method SetPressure(p: real)
      modifies this
      ensures Value() == old(Value()).(pressure := p)
    {
      pressure := p;
    }

    method SetHelium(he: real)
      modifies this
      ensures Value() == old(Value()).(helium := he)
    {
      helium := he;
    }

    method SetOxygen(o2: real)
      modifies this
      ensures Value() == old(Value()).(oxygen := o2)
    {
      oxygen := o2;
    }

    method SetNitrogen(n2: real)
      modifies this
      ensures Value() == old(Value()).(nitrogen := n2)
    {
      nitrogen := n2;
    }
  }

  /** A trimix preset without helium holds the same mixture as the nitrox preset. */
  method HeliumFreeTriMixIsNitrox(o2: real) returns (trimix: GasMix, nitrox: GasMix)
    ensures fresh(trimix) && fresh(nitrox) && trimix != nitrox
    ensures trimix.Value() == nitrox.Value()
  {
    trimix := new GasMix.TriMix(o2, 0.0);
    nitrox := new GasMix.Nitrox(o2);
  }
}
