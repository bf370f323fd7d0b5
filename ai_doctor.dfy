/**
 * The recommendation lists the AI doctor attaches to a symptom analysis, chosen by the
 * analysis's `severity_level` alone, compared in lower case.
 */
module AiDoctor {
  import opened PyStrings

  /** The analysis dict, with the string values the severity lookup reads. */
  type Analysis = map<string, string>

  const Urgent: seq<string> := [
    "\U{1F6A8} These symptoms require immediate medical attention",
    "Please seek professional medical care as soon as possible",
    "If symptoms worsen, go to the nearest emergency room"]

  const Consult: seq<string> := [
    "\U{26A0}\U{FE0F} These symptoms should be evaluated by a healthcare provider",
    "Consider scheduling a medical consultation",
    "Monitor your symptoms closely"]

  const SelfCare: seq<string> := [
    "\U{1F4DD} These symptoms can likely be managed with self-care",
    "Monitor your condition over the next few days"]

  /** `analysis.get("severity_level", "").lower()`. */
  function Severity(analysis: Analysis): string
  {
    ToLower(if "severity_level" in analysis then analysis["severity_level"] else "")
  }

  /** `generate_medical_recommendations`. */
  function GenerateMedicalRecommendations(analysis: Analysis): (r: seq<string>)
    ensures |r| >= 2
    ensures Severity(analysis) == "high" ==> r == Urgent
    ensures Severity(analysis) == "medium" ==> r == Consult
    ensures Severity(analysis) != "high" && Severity(analysis) != "medium" ==> r == SelfCare
  {
    var severity := Severity(analysis);
    if severity == "high" then Urgent
    else if severity == "medium" then Consult
    else SelfCare
  }

  /** The three lists differ, so the list returned tells which severity was read. */
  lemma ListRevealsSeverity(analysis: Analysis)
    ensures GenerateMedicalRecommendations(analysis) == Urgent <==> Severity(analysis) == "high"
    ensures GenerateMedicalRecommendations(analysis) == Consult <==> Severity(analysis) == "medium"
    ensures GenerateMedicalRecommendations(analysis) == SelfCare <==>
              Severity(analysis) != "high" && Severity(analysis) != "medium"
  {
    assert |Urgent[2]| != |Consult[2]|;
    assert Urgent != Consult && Urgent != SelfCare && Consult != SelfCare;
  }

  /** A missing `severity_level` reads as "" and gets the self-care advice. */
  lemma MissingSeverityIsSelfCare(analysis: Analysis)
    requires "severity_level" !in analysis
    ensures GenerateMedicalRecommendations(analysis) == SelfCare
  {
    assert Severity(analysis) == "";
  }

  /** Severities that agree up to letter case get the same advice, e.g. "HIGH", "High" and "high". */
  lemma CaseDoesNotMatter(analysis: Analysis, a: string, b: string)
    requires ToLower(a) == ToLower(b)
    ensures GenerateMedicalRecommendations(analysis["severity_level" := a])
            == GenerateMedicalRecommendations(analysis["severity_level" := b])
  {
  }

  /** "HIGH" is urgent: the comparison is made after lower-casing. */
  lemma UpperCaseHighIsUrgent(analysis: Analysis)
    ensures GenerateMedicalRecommendations(analysis["severity_level" := "HIGH"]) == Urgent
  {
    assert ToLower("HIGH") == "high";
  }
}
