/**
 * The display name of a gas in the blending report: "Trimix a/b" when the
 * mixture holds helium, "Air" for 21 % oxygen, otherwise "EAN n".
 */
module Naming {
  import opened Options
  import opened DotNet
  import opened Mixes
  import opened Compressibility

  /**
   * The whole number shown for a fraction: Math.Round(fraction·100 + 0.5).
   * Because of the added half and the ties-to-even rounding, it lies between
   * the percentage and one more than it.
   */
  function ShownPercent(fraction: real): (n: int)
    ensures fraction * 100.0 <= n as real <= fraction * 100.0 + 1.0
  {
    RoundHalfEven(fraction * 100.0 + 0.5)
  }

  /** What a name says about a mixture. */
  datatype GasLabel = TrimixLabel(oxygen: int, helium: int) | AirLabel | EanLabel(oxygen: int)

  /** The label GasName writes out for a mixture. */
  function Label(mix: Mix): GasLabel {
    if FractionOfHelium(mix) > 0.0 then
      TrimixLabel(ShownPercent(FractionOfOxygen(mix)), ShownPercent(FractionOfHelium(mix)))
    else if mix.oxygen == 21.0 then AirLabel
    else EanLabel(ShownPercent(FractionOfOxygen(mix)))
  }

  /** The name of a mixture: "Trimix …", "Air" or "EAN …", so it starts with T, A or E. */
  function GasName(mix: Mix): (name: string)
    ensures |name| > 0 && (name[0] == 'T' || name[0] == 'A' || name[0] == 'E')
  {
    if FractionOfHelium(mix) > 0.0 then
      "Trimix " + IntText(ShownPercent(FractionOfOxygen(mix))) + "/" + IntText(ShownPercent(FractionOfHelium(mix)))
    else if mix.oxygen == 21.0 then
      "Air"
    else
      "EAN " + IntText(ShownPercent(FractionOfOxygen(mix)))
  }

  /** Every name reads back into the label of its mixture: no two labels share a name. */
  lemma GasNameReadsBack(mix: Mix)
    ensures ParseGasName(GasName(mix)) == Some(Label(mix))
  {
    if FractionOfHelium(mix) > 0.0 {
      TrimixNameRoundTrip(ShownPercent(FractionOfOxygen(mix)), ShownPercent(FractionOfHelium(mix)));
    } else if mix.oxygen != 21.0 {
      EanNameRoundTrip(ShownPercent(FractionOfOxygen(mix)));
    }
  }

  /** The name depends on the oxygen and helium only, not on the pressure. */
  lemma GasNameIgnoresPressure(mix: Mix, pressure: real)
    ensures GasName(mix.(pressure := pressure)) == GasName(mix)
  {
    var moved := mix.(pressure := pressure);
    assert moved.oxygen == mix.oxygen && moved.helium == mix.helium;
    assert FractionOfOxygen(moved) == FractionOfOxygen(mix);
    assert FractionOfHelium(moved) == FractionOfHelium(mix);
  }

  /** The first position of c in s, or |s| when c does not occur. */
  function Find(s: string, c: char): (k: nat)
    ensures k <= |s|
    ensures forall i :: 0 <= i < k ==> s[i] != c
    ensures k < |s| ==> s[k] == c
  {
    if s == [] then 0
    else if s[0] == c then 0
    else 1 + Find(s[1..], c)
  }

  /** Reads a gas name back into a label; None for text GasName never writes. */
  function ParseGasName(s: string): Option<GasLabel> {
    if s == "Air" then Some(AirLabel)
    else if |s| >= 4 && s[..4] == "EAN " then
      match ParseInt(s[4..])
      case Some(o2) => Some(EanLabel(o2))
      case None => None
    else if |s| >= 7 && s[..7] == "Trimix " then
      var rest := s[7..];
      var k := Find(rest, '/');
      if k < |rest| then
        match (ParseInt(rest[..k]), ParseInt(rest[k + 1..]))
        case (Some(o2), Some(he)) => Some(TrimixLabel(o2, he))
        case _ => None
      else None
    else None
  }

  lemma EanNameRoundTrip(o2: int)
    ensures ParseGasName("EAN " + IntText(o2)) == Some(EanLabel(o2))
  {
    var s := "EAN " + IntText(o2);
    IntTextChars(o2);
    assert s[..4] == "EAN ";
    assert s != "Air" by { assert s[0] == 'E'; }
    assert s[4..] == IntText(o2);
    IntTextRoundTrip(o2);
  }

  lemma TrimixNameRoundTrip(o2: int, he: int)
    ensures ParseGasName("Trimix " + IntText(o2) + "/" + IntText(he)) == Some(TrimixLabel(o2, he))
  {
    var s := "Trimix " + IntText(o2) + "/" + IntText(he);
    IntTextChars(o2);
    IntTextChars(he);
    assert s[..7] == "Trimix ";
    assert s != "Air" by { assert s[0] == 'T'; }
    assert s[..4] != "EAN " by { assert s[..4][0] == 'T'; }
    var rest := s[7..];
    assert rest == IntText(o2) + "/" + IntText(he);
    var k := |IntText(o2)|;
    assert rest[k] == '/';
    assert forall i :: 0 <= i < k ==> rest[i] == IntText(o2)[i];
    assert Find(rest, '/') == k;
    assert rest[..k] == IntText(o2);
    assert rest[k + 1..] == IntText(he);
    IntTextRoundTrip(o2);
    IntTextRoundTrip(he);
  }

  /** Two mixtures share a name exactly when they share a label. */
  lemma GasNameInjective(a: Mix, b: Mix)
    ensures GasName(a) == GasName(b) <==> Label(a) == Label(b)
  {
    GasNameReadsBack(a);
    GasNameReadsBack(b);
    if Label(a) == Label(b) {
      LabelDeterminesName(a, b);
    }
  }

  lemma LabelDeterminesName(a: Mix, b: Mix)
    requires Label(a) == Label(b)
    ensures GasName(a) == GasName(b)
  {
  }

  /** A whole percentage is shown as itself when even and one higher when odd. */
  lemma ShownWholePercent(k: int)
    ensures ShownPercent(k as real / 100.0) == if k % 2 == 0 then k else k + 1
  {
    var x := (k as real / 100.0) * 100.0 + 0.5;
    assert x == k as real + 0.5;
    if k % 2 == 0 {
      RoundHalfEvenUnique(x, k);
    } else {
      RoundHalfEvenUnique(x, k + 1);
    }
  }

  /** 32.4 % oxygen without helium reads "EAN 33". */
  lemma NitroxNameExample()
    ensures GasName(Mix(0.0, 0.0, 32.4, 67.6)) == "EAN 33"
  {
    RoundHalfEvenUnique(32.9, 33);
    assert ShownPercent(FractionOfOxygen(Mix(0.0, 0.0, 32.4, 67.6))) == 33;
    assert IntText(33) == "33";
  }

  /** 18 % oxygen with 20 % helium reads "Trimix 18/20". */
  lemma TrimixNameExample()
    ensures GasName(Mix(0.0, 20.0, 18.0, 62.0)) == "Trimix 18/20"
  {
    RoundHalfEvenUnique(18.5, 18);
    RoundHalfEvenUnique(20.5, 20);
    assert ShownPercent(FractionOfOxygen(Mix(0.0, 20.0, 18.0, 62.0))) == 18;
    assert ShownPercent(FractionOfHelium(Mix(0.0, 20.0, 18.0, 62.0))) == 20;
    assert IntText(18) == "18";
    assert IntText(20) == "20";
  }

  /** An odd whole percentage is shown one too high: 33 % oxygen reads "EAN 34". */
  lemma OddPercentNameExample()
    ensures GasName(Mix(0.0, 0.0, 33.0, 67.0)) == "EAN 34"
  {
    RoundHalfEvenUnique(33.5, 34);
    assert ShownPercent(FractionOfOxygen(Mix(0.0, 0.0, 33.0, 67.0))) == 34;
    assert IntText(34) == "34";
  }
}
