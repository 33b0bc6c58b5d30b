/** `ethics.py`: the disclaimer appended to generated output, and the constant checks. */
module Ethics {
  /** The fixed text `add_disclaimer` appends. */
  const Disclaimer: string := "\n\n[Disclaimer: This is not legal advice. All outputs must be reviewed by a qualified Tennessee-licensed attorney.]"

  /** `add_disclaimer`: the output, unchanged, followed by the disclaimer. */
  function AddDisclaimer(output: string): (r: string)
    ensures |r| == |output| + |Disclaimer|
    ensures r[..|output|] == output
    ensures r[|output|..] == Disclaimer
  {
    output + Disclaimer
  }

  /** Different outputs keep different results: the disclaimer never merges two outputs. */
  lemma AddDisclaimerInjective(a: string, b: string)
    requires AddDisclaimer(a) == AddDisclaimer(b)
    ensures a == b
  {
    assert |a| == |b|;
    assert a == AddDisclaimer(a)[..|a|];
  }

  /** Adding the disclaimer twice appends it twice; the call does not recognise its own output. */
  lemma AddDisclaimerTwice(output: string)
    ensures AddDisclaimer(AddDisclaimer(output)) == output + Disclaimer + Disclaimer
    ensures AddDisclaimer(AddDisclaimer(output)) != AddDisclaimer(output)
  {
    assert |AddDisclaimer(AddDisclaimer(output))| == |output| + 2 * |Disclaimer|;
  }

  /** `check_bias`: a placeholder that never reports bias. */
  function CheckBias<D>(data: D): (biased: bool)
    ensures !biased
  {
    false
  }

  /** `transparency_report`: a placeholder with nothing to report. */
  function TransparencyReport(): (report: map<string, string>)
    ensures report == map[]
  {
    map[]
  }

  /** `accountability_check`: a placeholder that always passes. */
  function AccountabilityCheck(): (ok: bool)
    ensures ok
  {
    true
  }

  /** `EthicsManager.check_confidentiality`: a placeholder that always passes. */
  function CheckConfidentiality<D>(data: D): (ok: bool)
    ensures ok
  {
    true
  }
}
