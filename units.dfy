/** Conversion between bar and pounds per square inch. */
module Units {

  /** Pounds per square inch in one bar. */
  const PsiPerBar: real := 14.5038

  /** Bar to psi; dividing the result by the factor gives the input again. */
  function ConvertFromBarToPsi(bar: real): (psi: real)
    ensures psi / PsiPerBar == bar
  {
    bar * PsiPerBar
  }

  /** Psi to bar; converting the result back to psi gives the input again. */
  function ConvertFromPsiToBar(psi: real): (bar: real)
    ensures ConvertFromBarToPsi(bar) == psi
  {
    psi / PsiPerBar
  }

  /** The other round trip: bar to psi and back changes nothing either. */
  lemma BarToPsiRoundTrip(bar: real)
    ensures ConvertFromPsiToBar(ConvertFromBarToPsi(bar)) == bar
  {
  }
}
