/**
 * Decision orchestration of src/decisions/core.py: the risk decision, the
 * strategic decisions (promotion, skill development, organisational health)
 * and the per-employee action plan. The fact-store helpers this file imports
 * are not modelled; their results are the fields of a `FactStore`, which
 * stands for the driver every entry point receives.
 */
module Core {
  import opened Wrappers
  import opened Engagement
  import opened Rules
  import opened Actions

  /** Truthiness of an optional string: present and not empty. */
  predicate Truthy(s: Option<string>) {
    s.Some? && s.value != ""
  }

  /** The risk decision is the burnout-risk rule itself; it notifies the manager exactly for low engagement. */
  function MakeDecision(features: Features): (r: Risk)
    ensures r == AssessRisk(features)
    ensures DecideAction(r) == "Notify manager" <==> features.engagement == "low"
  {
    AssessRisk(features)
  }

  datatype Employee = Employee(id: string, name: string, level: string, role: string, department: string)
  datatype SkillRecommendations = SkillRecommendations(recommendedSkills: seq<string>, priority: string)
  datatype EngagementRecommendation = EngagementRecommendation(recommendedActions: seq<string>)
  datatype ReportingLine = ReportingLine(employee: string, manager: string, managerLevel: string)
  datatype TeamStructure = TeamStructure(reportingLines: seq<ReportingLine>, totalReports: int)
  datatype SkillGapAnalysis = SkillGapAnalysis(criticalSkillGaps: seq<SkillGap>)
  datatype Analytics = Analytics(teamStructure: TeamStructure, skillGaps: SkillGapAnalysis)

  /**
   * What the fact store answers: the employee lookup (None when the id is
   * unknown), the skills, promotion eligibility and skill recommendations of
   * an employee, the engagement recommendation for an (engagement, level,
   * role) triple, and the organisation-wide team structure and skill gaps.
   */
  datatype FactStore = FactStore(
    analyzeEmployee: string -> Option<Employee>,
    employeeSkills: string -> map<string, string>,
    promotionEligibility: string -> PromotionEligibility,
    skillRecommendations: string -> SkillRecommendations,
    recommendEngagementAction: (string, string, string) -> EngagementRecommendation,
    teamStructure: TeamStructure,
    skillGaps: SkillGapAnalysis)

  /** An assessment, or the error status returned for an unknown employee. */
  datatype AssessmentResult =
    | StatusError(message: string)
    | Assessment(
        employeeId: string,
        employee: Employee,
        skills: map<string, string>,
        promotionEligible: PromotionEligibility,
        skillRecommendations: SkillRecommendations,
        engagementActions: Option<EngagementRecommendation>)

  const EmployeeNotFound := "Employee not found"

  /**
   * Gathers an employee's facts. An unknown employee is an error status;
   * engagement actions are looked up exactly when an engagement level is
   * given, for that level and the employee's level and role.
   */
  function ComprehensiveAssessment(store: FactStore, employeeId: string, engagement: Option<string>)
    : (r: AssessmentResult)
    ensures r.StatusError? <==> store.analyzeEmployee(employeeId).None?
    ensures r.StatusError? ==> r.message == EmployeeNotFound
    ensures r.Assessment? ==>
      && r.employeeId == employeeId
      && r.employee == store.analyzeEmployee(employeeId).value
      && r.skills == store.employeeSkills(employeeId)
      && r.promotionEligible == store.promotionEligibility(employeeId)
      && r.skillRecommendations == store.skillRecommendations(employeeId)
      && (r.engagementActions.Some? <==> Truthy(engagement))
      && (Truthy(engagement) ==>
            r.engagementActions.value ==
            store.recommendEngagementAction(engagement.value, r.employee.level, r.employee.role))
  {
    match store.analyzeEmployee(employeeId)
    case None => StatusError(EmployeeNotFound)
    case Some(employee) =>
      Assessment(
        employeeId,
        employee,
        store.employeeSkills(employeeId),
        store.promotionEligibility(employeeId),
        store.skillRecommendations(employeeId),
        if Truthy(engagement) then
          Some(store.recommendEngagementAction(engagement.value, employee.level, employee.role))
        else None)
  }

  /** One organisation-level recommendation; `skill` is None for the reporting-structure one. */
  datatype StrategicAction = StrategicAction(action: string, skill: Option<string>, reason: string)

  datatype StrategicResult =
    | DecisionError(message: string)
    | PromotionDecision(
        decision: string, reason: string, confidence: real, employee: Employee, details: AssessmentResult)
    | TrainingDecision(
        decision: string, recommendations: SkillRecommendations, employee: Employee, priority: string)
    | OrganizationalStrategy(
        decisionType: string, strategicDecisions: seq<StrategicAction>, analytics: Analytics)

  const HireExternalExpert := "hire_external_expert"
  const DevelopInternalTalent := "develop_internal_talent"
  const EstablishReportingStructure := "establish_reporting_structure"
  const CriticalGapPrefix := "Critical gap: only "
  const ExpertsInfix := " expert(s) in "
  const HighGapPrefix := "High gap: limited expertise in "

  /** The decision that closes an organisation without reporting lines. */
  const EstablishReporting := StrategicAction(EstablishReportingStructure, None,
    "No clear reporting relationships defined")

  function DigitChar(d: nat): char
    requires d < 10
  {
    "0123456789"[d]
  }

  /** The decimal rendering of a count. */
  function DecimalString(n: nat): string {
    if n < 10 then [DigitChar(n)] else DecimalString(n / 10) + [DigitChar(n % 10)]
  }

  /** What one gap contributes: a hire for a critical gap, internal development for a high one, nothing otherwise. */
  function GapDecision(gap: SkillGap): seq<StrategicAction> {
    if gap.priority == Critical then
      [StrategicAction(HireExternalExpert, Some(gap.skill),
         CriticalGapPrefix + DecimalString(gap.experts) + ExpertsInfix + gap.skill)]
    else if gap.priority == High then
      [StrategicAction(DevelopInternalTalent, Some(gap.skill), HighGapPrefix + gap.skill)]
    else []
  }

  /** The decisions of all gaps, in gap order. */
  function GapDecisions(gaps: seq<SkillGap>): seq<StrategicAction> {
    if gaps == [] then [] else GapDecisions(gaps[..|gaps| - 1]) + GapDecision(gaps[|gaps| - 1])
  }

  const PromotionIdRequired := "Employee ID required for promotion decision"
  const SkillIdRequired := "Employee ID required for skill development decision"
  const UnknownDecisionType := "Unknown decision type: "

  /**
   * Makes a strategic decision of the given type. Promotion and skill
   * development need a target id and fail as the assessment fails; a
   * promotion is granted exactly when the assessment finds the employee
   * eligible. Organisational health maps the critical and high skill gaps to
   * decisions in gap order and adds the reporting-structure decision last
   * when there are no reporting lines. Any other type is an error naming it.
   */
  method MakeStrategicDecision(store: FactStore, decisionType: string, targetId: Option<string>)
    returns (r: StrategicResult)
    ensures decisionType == "promotion" && !Truthy(targetId) ==> r == DecisionError(PromotionIdRequired)
    ensures decisionType == "skill_development" && !Truthy(targetId) ==> r == DecisionError(SkillIdRequired)
    ensures (decisionType == "promotion" || decisionType == "skill_development") && Truthy(targetId) ==>
      var a := ComprehensiveAssessment(store, targetId.value, None);
      a.StatusError? ==> r == DecisionError(a.message)
    ensures decisionType == "promotion" && Truthy(targetId) ==>
      var a := ComprehensiveAssessment(store, targetId.value, None);
      a.Assessment? ==>
        && r.PromotionDecision?
        && (r.decision == "promote" <==> a.promotionEligible.eligible)
        && (r.decision == "do_not_promote" <==> !a.promotionEligible.eligible)
        && r.reason == a.promotionEligible.reason
        && r.confidence == (if a.promotionEligible.confidence.Some? then a.promotionEligible.confidence.value else 0.0)
        && r.employee == a.employee && r.details == a
    ensures decisionType == "skill_development" && Truthy(targetId) ==>
      var a := ComprehensiveAssessment(store, targetId.value, None);
      a.Assessment? ==>
        r == TrainingDecision("initiate_training", a.skillRecommendations, a.employee, a.skillRecommendations.priority)
    ensures decisionType == "organizational_health" ==>
      && r.OrganizationalStrategy?
      && r.decisionType == "organizational_strategy"
      && r.analytics == Analytics(store.teamStructure, store.skillGaps)
      && r.strategicDecisions ==
           GapDecisions(store.skillGaps.criticalSkillGaps) +
           (if store.teamStructure.totalReports == 0 then [EstablishReporting] else [])
    ensures decisionType !in {"promotion", "skill_development", "organizational_health"} ==>
      r == DecisionError(UnknownDecisionType + decisionType)
  {
    if decisionType == "promotion" {
      if !Truthy(targetId) {
        return DecisionError(PromotionIdRequired);
      }
      var assessment := ComprehensiveAssessment(store, targetId.value, None);
      if assessment.StatusError? {
        return DecisionError(assessment.message);
      }
      var promotionResult := assessment.promotionEligible;
      r := PromotionDecision(
        if promotionResult.eligible then "promote" else "do_not_promote",
        promotionResult.reason,
        if promotionResult.confidence.Some? then promotionResult.confidence.value else 0.0,
        assessment.employee,
        assessment);
    } else if decisionType == "skill_development" {
      if !Truthy(targetId) {
        return DecisionError(SkillIdRequired);
      }
      var assessment := ComprehensiveAssessment(store, targetId.value, None);
      if assessment.StatusError? {
        return DecisionError(assessment.message);
      }
      r := TrainingDecision("initiate_training", assessment.skillRecommendations, assessment.employee,
        assessment.skillRecommendations.priority);
    } else if decisionType == "organizational_health" {
      var analytics := Analytics(store.teamStructure, store.skillGaps);
      var skillGaps := analytics.skillGaps.criticalSkillGaps;
      var decisions: seq<StrategicAction> := [];
      for i := 0 to |skillGaps|
        invariant decisions == GapDecisions(skillGaps[..i])
      {
        assert skillGaps[..i + 1][..i] == skillGaps[..i];
        decisions := decisions + GapDecision(skillGaps[i]);
      }
      assert skillGaps[..|skillGaps|] == skillGaps;
      if analytics.teamStructure.totalReports == 0 {
        decisions := decisions + [EstablishReporting];
      }
      r := OrganizationalStrategy("organizational_strategy", decisions, analytics);
    } else {
      r := DecisionError(UnknownDecisionType + decisionType);
    }
  }

  /** The number of gaps whose priority is critical or high. */
  function ActionableGapCount(gaps: seq<SkillGap>): nat {
    if gaps == [] then 0
    else
      var last := gaps[|gaps| - 1];
      ActionableGapCount(gaps[..|gaps| - 1]) + (if last.priority == Critical || last.priority == High then 1 else 0)
  }

  /** The gap decisions of a concatenation are those of its parts, in order. */
  lemma {:induction false} GapDecisionsAppend(xs: seq<SkillGap>, ys: seq<SkillGap>)
    ensures GapDecisions(xs + ys) == GapDecisions(xs) + GapDecisions(ys)
  {
    if ys == [] {
      assert xs + ys == xs;
    } else {
      var init := ys[..|ys| - 1];
      assert (xs + ys)[..|xs + ys| - 1] == xs + init;
      GapDecisionsAppend(xs, init);
      assert GapDecisions(xs) + GapDecisions(init) + GapDecision(ys[|ys| - 1]) ==
        GapDecisions(xs) + (GapDecisions(init) + GapDecision(ys[|ys| - 1]));
    }
  }

  /**
   * One decision per critical or high gap and none for the others: every
   * decision is a hire or an internal development, each one is the decision
   * of some gap, and their number is the number of critical and high gaps.
   */
  lemma {:induction false} GapDecisionsFromGaps(gaps: seq<SkillGap>)
    ensures var ds := GapDecisions(gaps);
      && |ds| == ActionableGapCount(gaps)
      && forall k :: 0 <= k < |ds| ==>
           && (ds[k].action == HireExternalExpert || ds[k].action == DevelopInternalTalent)
           && exists j :: 0 <= j < |gaps| && GapDecision(gaps[j]) == [ds[k]]
  {
    if gaps != [] {
      var init, last := gaps[..|gaps| - 1], gaps[|gaps| - 1];
      GapDecisionsFromGaps(init);
      var ds, front := GapDecisions(gaps), GapDecisions(init);
      forall k | 0 <= k < |ds|
        ensures exists j :: 0 <= j < |gaps| && GapDecision(gaps[j]) == [ds[k]]
      {
        if k < |front| {
          var j :| 0 <= j < |init| && GapDecision(init[j]) == [front[k]];
          assert gaps[j] == init[j];
        } else {
          assert GapDecision(gaps[|gaps| - 1]) == [ds[k]];
        }
      }
    }
  }

  /**
   * The reporting-structure decision closes the organisational decisions
   * exactly when there are no reporting lines, and appears nowhere else.
   */
  lemma ReportingStructureLast(gaps: seq<SkillGap>, totalReports: int)
    ensures var ds := GapDecisions(gaps) + (if totalReports == 0 then [EstablishReporting] else []);
      && (|ds| > 0 && ds[|ds| - 1] == EstablishReporting <==> totalReports == 0)
      && forall k :: 0 <= k < |ds| - 1 ==> ds[k].action != EstablishReportingStructure
  {
    GapDecisionsFromGaps(gaps);
    var front := GapDecisions(gaps);
    if |front| > 0 {
      assert front[|front| - 1].action != EstablishReportingStructure;
    }
  }

  /** One planned action of an action plan. */
  datatype PlannedAction =
    | SkillDevelopmentStep(skills: seq<string>, priority: string, timeline: string)
    | EngagementStep(actions: seq<string>, priority: string, timeline: string)
    | PromotionPathway(targetRole: string, timeline: string)

  datatype CurrentState = CurrentState(skills: map<string, string>, engagement: Option<string>, promotionEligible: bool)

  datatype PlanResult =
    | PlanError(message: string)
    | ActionPlan(
        employeeId: string,
        employee: Employee,
        currentState: CurrentState,
        plannedActions: seq<PlannedAction>,
        timeline: string)

  /** The position of each kind of step in a plan. */
  function StepRank(step: PlannedAction): nat {
    match step
    case SkillDevelopmentStep(_, _, _) => 0
    case EngagementStep(_, _, _) => 1
    case PromotionPathway(_, _) => 2
  }

  /** Skill development before engagement before promotion, each at most once. */
  predicate InPlanOrder(steps: seq<PlannedAction>) {
    forall i, j :: 0 <= i < j < |steps| ==> StepRank(steps[i]) < StepRank(steps[j])
  }

  predicate HasStep(steps: seq<PlannedAction>, rank: nat) {
    exists i :: 0 <= i < |steps| && StepRank(steps[i]) == rank
  }

  /** The content a step of each kind takes from the assessment and the engagement level. */
  predicate StepFromAssessment(step: PlannedAction, a: AssessmentResult, engagement: Option<string>)
    requires a.Assessment?
  {
    match step
    case SkillDevelopmentStep(skills, priority, timeline) =>
      skills == a.skillRecommendations.recommendedSkills && priority == a.skillRecommendations.priority &&
      timeline == "30-60 days"
    case EngagementStep(actions, priority, timeline) =>
      a.engagementActions.Some? && actions == a.engagementActions.value.recommendedActions &&
      priority == (if engagement == Some("low") then "high" else "medium") && timeline == "immediate"
    case PromotionPathway(targetRole, timeline) =>
      targetRole == "Senior " + a.employee.role && timeline == "6-12 months"
  }

  /** The step `x` when `present`, and nothing otherwise. */
  function StepIf(present: bool, x: PlannedAction): seq<PlannedAction> {
    if present then [x] else []
  }

  /** A plan made of one optional step of each rank, in rank order, has each rank exactly when that step is present. */
  lemma OptionalStepsInOrder(b0: bool, x0: PlannedAction, b1: bool, x1: PlannedAction, b2: bool, x2: PlannedAction)
    requires StepRank(x0) == 0 && StepRank(x1) == 1 && StepRank(x2) == 2
    ensures var steps := StepIf(b0, x0) + StepIf(b1, x1) + StepIf(b2, x2);
      && |steps| <= 3
      && InPlanOrder(steps)
      && (HasStep(steps, 0) <==> b0) && (HasStep(steps, 1) <==> b1) && (HasStep(steps, 2) <==> b2)
      && forall step :: step in steps ==> (b0 && step == x0) || (b1 && step == x1) || (b2 && step == x2)
  {
    var steps := StepIf(b0, x0) + StepIf(b1, x1) + StepIf(b2, x2);
    forall i | 0 <= i < |steps|
      ensures (b0 && steps[i] == x0) || (b1 && steps[i] == x1) || (b2 && steps[i] == x2)
    {
    }
    if b0 { assert StepRank(steps[0]) == 0; }
    if b1 { assert StepRank(steps[|StepIf(b0, x0)|]) == 1; }
    if b2 { assert StepRank(steps[|steps| - 1]) == 2; }
  }

  /** The skill development step of an assessment. */
  function SkillStep(a: AssessmentResult): PlannedAction
    requires a.Assessment?
  {
    SkillDevelopmentStep(a.skillRecommendations.recommendedSkills, a.skillRecommendations.priority, "30-60 days")
  }

  /** The engagement step of an assessment: high priority exactly for low engagement. */
  function EngagementStepFor(a: AssessmentResult, engagement: Option<string>): PlannedAction
    requires a.Assessment?
  {
    EngagementStep(if a.engagementActions.Some? then a.engagementActions.value.recommendedActions else [],
      if engagement == Some("low") then "high" else "medium", "immediate")
  }

  /** The promotion pathway of an assessment, towards the senior version of the current role. */
  function PromotionStep(a: AssessmentResult): PlannedAction
    requires a.Assessment?
  {
    PromotionPathway("Senior " + a.employee.role, "6-12 months")
  }

  /** The steps a plan holds for an assessment: each optional step in its fixed order. */
  function PlanSteps(a: AssessmentResult, engagement: Option<string>): seq<PlannedAction>
    requires a.Assessment?
  {
    StepIf(|a.skillRecommendations.recommendedSkills| > 0, SkillStep(a)) +
    StepIf(a.engagementActions.Some?, EngagementStepFor(a, engagement)) +
    StepIf(a.promotionEligible.eligible, PromotionStep(a))
  }

  /**
   * A plan holds at most three steps, in rank order: a skill development
   * step exactly when skills are recommended, an engagement step exactly
   * when an engagement level was given, and a promotion pathway exactly
   * when the employee is eligible, each with the content the assessment
   * gives it.
   */
  lemma PlanStepsShape(store: FactStore, employeeId: string, engagement: Option<string>)
    requires ComprehensiveAssessment(store, employeeId, engagement).Assessment?
    ensures var a := ComprehensiveAssessment(store, employeeId, engagement);
      var steps := PlanSteps(a, engagement);
      && |steps| <= 3
      && InPlanOrder(steps)
      && (HasStep(steps, 0) <==> |a.skillRecommendations.recommendedSkills| > 0)
      && (HasStep(steps, 1) <==> Truthy(engagement))
      && (HasStep(steps, 2) <==> a.promotionEligible.eligible)
      && forall step :: step in steps ==> StepFromAssessment(step, a, engagement)
  {
    var a := ComprehensiveAssessment(store, employeeId, engagement);
    OptionalStepsInOrder(
      |a.skillRecommendations.recommendedSkills| > 0, SkillStep(a),
      a.engagementActions.Some?, EngagementStepFor(a, engagement),
      a.promotionEligible.eligible, PromotionStep(a));
  }

  /** A low-engagement employee with no recommended skills who is not eligible gets one high-priority engagement step. */
  lemma LowEngagementOnlyPlan(store: FactStore, employeeId: string)
    requires ComprehensiveAssessment(store, employeeId, Some("low")).Assessment?
    requires ComprehensiveAssessment(store, employeeId, Some("low")).skillRecommendations.recommendedSkills == []
    requires !ComprehensiveAssessment(store, employeeId, Some("low")).promotionEligible.eligible
    ensures var a := ComprehensiveAssessment(store, employeeId, Some("low"));
      PlanSteps(a, Some("low")) == [EngagementStep(a.engagementActions.value.recommendedActions, "high", "immediate")]
  {
  }

  /**
   * Plans an employee's next actions from a fresh assessment. An error
   * status is returned as it is. Otherwise the plan records the current
   * state and a 90-day timeline, and appends, in this order, a skill
   * development step, an engagement step and a promotion pathway, each
   * when the assessment calls for it.
   */
  method CreateActionPlan(store: FactStore, employeeId: string, engagement: Option<string>) returns (r: PlanResult)
    ensures var a := ComprehensiveAssessment(store, employeeId, engagement);
      a.StatusError? ==> r == PlanError(a.message)
    ensures var a := ComprehensiveAssessment(store, employeeId, engagement);
      a.Assessment? ==>
        r == ActionPlan(employeeId, a.employee, CurrentState(a.skills, engagement, a.promotionEligible.eligible),
          PlanSteps(a, engagement), "90 days")
  {
    var assessment := ComprehensiveAssessment(store, employeeId, engagement);
    if assessment.StatusError? {
      return PlanError(assessment.message);
    }
    var plannedActions: seq<PlannedAction> := [];
    if |assessment.skillRecommendations.recommendedSkills| > 0 {
      plannedActions := plannedActions + [SkillStep(assessment)];
    }
    if assessment.engagementActions.Some? {
      plannedActions := plannedActions + [EngagementStepFor(assessment, engagement)];
    }
    if assessment.promotionEligible.eligible {
      plannedActions := plannedActions + [PromotionStep(assessment)];
    }
    r := ActionPlan(
      employeeId,
      assessment.employee,
      CurrentState(assessment.skills, engagement, assessment.promotionEligible.eligible),
      plannedActions,
      "90 days");
  }
}
