/** The burnout-risk rule of src/decisions/rules.py. */
module Rules {
  import opened Engagement

  datatype Risk = Risk(risk: string, priority: string, confidence: real)

  /**
   * Low engagement is a burnout risk of high priority, with confidence 0.7;
   * every other engagement value, known or not, is no risk, low priority,
   * confidence 0.9.
   */
  function AssessRisk(features: Features): (r: Risk)
    ensures r.priority == "high" <==> features.engagement == "low"
    ensures r.priority == "high" || r.priority == "low"
    ensures r.risk == "burnout" <==> r.priority == "high"
    ensures r.risk == "burnout" || r.risk == "none"
    ensures r.confidence == (if r.priority == "high" then 0.7 else 0.9)
  {
    if features.engagement == "low" then
      Risk("burnout", "high", 0.7)
    else
      Risk("none", "low", 0.9)
  }

  /** The rule does not tell medium engagement from high engagement. */
  lemma MediumAndHighAgree()
    ensures AssessRisk(Features("medium")) == AssessRisk(Features("high")) == Risk("none", "low", 0.9)
  {
  }
}
