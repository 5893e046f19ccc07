/**
 * The action catalogue of src/actions/actions.py: the legacy notify/observe
 * decision, the static template table, the three executors that map a
 * categorical input to a fixed list of action records, the execution report
 * that counts them, and the comprehensive plan that concatenates them.
 */
module Actions {
  import opened Wrappers
  import opened Engagement
  import opened Rules

  /** Legacy decision: a high-priority risk notifies the manager, anything else is observed. */
  function DecideAction(decision: Risk): (action: string)
    ensures action == "Notify manager" <==> decision.priority == "high"
    ensures action == "Observe" <==> decision.priority != "high"
  {
    if decision.priority == "high" then "Notify manager" else "Observe"
  }

  /** Composed with the risk rule, the manager is notified exactly for low engagement. */
  lemma NotifyIffLowEngagement(features: Features)
    ensures DecideAction(AssessRisk(features)) == "Notify manager" <==> features.engagement == "low"
  {
  }

  // Action types.
  const OneOnOneMeeting := "one_on_one_meeting"
  const WorkloadReview := "workload_review"
  const EngagementCheck := "engagement_check"
  const GrowthOpportunity := "growth_opportunity"
  const Recognition := "recognition"
  const Retention := "retention"
  const SkillDevelopment := "skill_development"
  const Mentorship := "mentorship"
  const Promotion := "promotion"
  const RoleChange := "role_change"
  const RoleTransition := "role_transition"
  const TrainingProgram := "training_program"
  const HireExternal := "hire_external"
  const EmergencyTraining := "emergency_training"
  const KnowledgeTransfer := "knowledge_transfer"

  // Urgency tiers, which are also the skill-gap priorities.
  const Immediate := "immediate"
  const Critical := "critical"
  const High := "high"
  const Medium := "medium"

  const PendingApproval := "pending_approval"

  /**
   * One entry of the template table. An empty `participants` stands for an
   * absent key; a flag that is None is absent from the entry.
   */
  datatype Template = Template(
    description: string,
    priority: string,
    duration: string,
    participants: seq<string>,
    budgetRequired: Option<bool>,
    requiresApproval: Option<bool>)

  const OneOnOneMeetingTemplate := Template("Schedule one-on-one discussion with employee", Immediate, "60 minutes",
    ["HR Manager", "Direct Manager", "Employee"], None, None)
  const SkillDevelopmentTemplate := Template("Enroll employee in skill development program", High, "30-60 days",
    [], Some(true), None)
  const MentorshipTemplate := Template("Pair employee with mentor", Medium, "ongoing", [], Some(false), None)
  const PromotionTemplate := Template("Promote employee to next level", High, "immediate", [], None, Some(true))
  const RoleChangeTemplate := Template("Transfer employee to different role", Medium, "1-2 weeks", [], None, Some(true))
  const TrainingProgramTemplate := Template("Enroll in specialized training", High, "varies", [], Some(true), None)
  const HireExternalTemplate := Template("Hire external expert or contractor", Critical, "2-4 weeks",
    [], Some(true), Some(true))
  const KnowledgeTransferTemplate := Template("Facilitate knowledge transfer session", High, "2-3 hours",
    [], Some(false), None)

  /** The static template table, keyed by action type. */
  const ActionTemplates: map<string, Template> := map[
    OneOnOneMeeting := OneOnOneMeetingTemplate,
    SkillDevelopment := SkillDevelopmentTemplate,
    Mentorship := MentorshipTemplate,
    Promotion := PromotionTemplate,
    RoleChange := RoleChangeTemplate,
    TrainingProgram := TrainingProgramTemplate,
    HireExternal := HireExternalTemplate,
    KnowledgeTransfer := KnowledgeTransferTemplate
  ]

  /** An action type needs budget when its template entry exists and sets the flag to true. */
  predicate BudgetRequired(kind: string) {
    kind in ActionTemplates && ActionTemplates[kind].budgetRequired == Some(true)
  }

  /** An action type needs approval when its template entry exists and sets the flag to true. */
  predicate ApprovalRequired(kind: string) {
    kind in ActionTemplates && ActionTemplates[kind].requiresApproval == Some(true)
  }

  /** The table read as two flag lists; every type outside the table needs neither. */
  lemma TemplateFlags(kind: string)
    ensures BudgetRequired(kind) <==> kind == SkillDevelopment || kind == TrainingProgram || kind == HireExternal
    ensures ApprovalRequired(kind) <==> kind == Promotion || kind == RoleChange || kind == HireExternal
  {
  }

  /**
   * An action record. `target` and `urgency` are None where the record has no
   * such key; an empty `actionItems` or `requiredApprovals` stands for an
   * absent list, and `details` holds the remaining string-valued keys
   * (frequency, estimated_timeline, training_type).
   */
  datatype Action = Action(
    kind: string,
    target: Option<string>,
    urgency: Option<string>,
    reason: string,
    template: Option<Template>,
    actionItems: seq<string>,
    requiredApprovals: seq<string>,
    details: map<string, string>)

  /** Every action is aimed at `target`. */
  predicate AllTargeted(actions: seq<Action>, target: string) {
    forall i :: 0 <= i < |actions| ==> actions[i].target == Some(target)
  }

  /** Every action has urgency `urgency`. */
  predicate AllUrgent(actions: seq<Action>, urgency: string) {
    forall i :: 0 <= i < |actions| ==> actions[i].urgency == Some(urgency)
  }

  /** An action with a target and an urgency and no optional keys. */
  function Directed(kind: string, target: string, urgency: string, reason: string): Action {
    Action(kind, Some(target), Some(urgency), reason, None, [], [], map[])
  }

  /** A skill-gap record, as the gap analysis reports it. */
  datatype SkillGap = SkillGap(skill: string, priority: string, experts: nat)

  /** A promotion-eligibility record; `confidence` is None when the key is absent. */
  datatype PromotionEligibility = PromotionEligibility(eligible: bool, reason: string, confidence: Option<real>)

  // The fixed texts of the engagement actions.
  const BurnoutReason := "High burnout risk - needs intervention"
  const WorkloadReason := "Assess and rebalance workload"
  const WorkloadItems := ["Review current projects", "Identify bottlenecks", "Rebalance priorities"]
  const DeclineReason := "Monitor for further decline"
  const ChallengeReason := "Provide new challenges"
  const RecognitionReason := "Recognize and reward high engagement"
  const RecognitionItems := ["Public recognition", "Bonus/raise consideration", "Leadership opportunity"]
  const RetentionReason := "Ensure retention of top performer"
  const RetentionItems := ["Career development discussion", "Advancement pathway", "Mentorship opportunity"]

  datatype EngagementExecution = EngagementExecution(
    employeeId: string, engagementLevel: string, recommendedActions: seq<Action>, status: string)

  /**
   * Two actions aimed at the employee: both immediate for low engagement,
   * a high then a medium one otherwise; any level other than "low" and
   * "medium" is answered with recognition and retention.
   */
  function ExecuteEngagementAction(employeeId: string, actionType: string, engagementLevel: string)
    : (r: EngagementExecution)
    ensures r.employeeId == employeeId && r.engagementLevel == engagementLevel
    ensures r.status == PendingApproval
    ensures |r.recommendedActions| == 2
    ensures AllTargeted(r.recommendedActions, employeeId)
    ensures engagementLevel == "low" ==>
      r.recommendedActions[0].kind == OneOnOneMeeting && r.recommendedActions[1].kind == WorkloadReview &&
      AllUrgent(r.recommendedActions, Immediate)
    ensures engagementLevel != "low" ==>
      r.recommendedActions[0].urgency == Some(High) && r.recommendedActions[1].urgency == Some(Medium)
    ensures engagementLevel == "medium" ==>
      r.recommendedActions[0].kind == EngagementCheck && r.recommendedActions[1].kind == GrowthOpportunity
    ensures engagementLevel != "low" && engagementLevel != "medium" ==>
      r.recommendedActions[0].kind == Recognition && r.recommendedActions[1].kind == Retention
  {
    var actions :=
      if engagementLevel == "low" then
        [ Directed(OneOnOneMeeting, employeeId, Immediate, BurnoutReason).(template := Some(OneOnOneMeetingTemplate)),
          Directed(WorkloadReview, employeeId, Immediate, WorkloadReason).(actionItems := WorkloadItems) ]
      else if engagementLevel == "medium" then
        [ Directed(EngagementCheck, employeeId, High, DeclineReason).(details := map["frequency" := "bi-weekly"]),
          Directed(GrowthOpportunity, employeeId, Medium, ChallengeReason)
            .(template := Some(SkillDevelopmentTemplate)) ]
      else
        [ Directed(Recognition, employeeId, High, RecognitionReason).(actionItems := RecognitionItems),
          Directed(Retention, employeeId, Medium, RetentionReason).(actionItems := RetentionItems) ];
    EngagementExecution(employeeId, engagementLevel, actions, PendingApproval)
  }

  // The fixed texts of the skill actions; three of them end with the skill name.
  const NoExpertsReason := "No internal experts in "
  const UrgentCapabilityReason := "Urgent need for internal capability"
  const LimitedExpertiseReason := "Limited expertise in "
  const ShareKnowledgeReason := "Share knowledge among team members"
  const DevelopCapabilityReason := "Develop internal capability in "

  datatype SkillExecution = SkillExecution(
    skill: string, priority: string, recommendedActions: seq<Action>, status: string)

  /**
   * Actions aimed at the skill, echoing the gap's priority: a critical gap
   * gets two critical actions led by an external hire, a high gap a training
   * programme and a knowledge transfer, and any other gap one medium
   * training programme.
   */
  function ExecuteSkillAction(employeeId: string, gap: SkillGap): (r: SkillExecution)
    ensures r.skill == gap.skill && r.priority == gap.priority && r.status == PendingApproval
    ensures AllTargeted(r.recommendedActions, gap.skill)
    ensures gap.priority == Critical ==>
      |r.recommendedActions| == 2 && r.recommendedActions[0].kind == HireExternal &&
      r.recommendedActions[1].kind == EmergencyTraining &&
      AllUrgent(r.recommendedActions, Critical)
    ensures gap.priority == High ==>
      |r.recommendedActions| == 2 && r.recommendedActions[0].kind == TrainingProgram &&
      r.recommendedActions[1].kind == KnowledgeTransfer &&
      AllUrgent(r.recommendedActions, High)
    ensures gap.priority != Critical && gap.priority != High ==>
      |r.recommendedActions| == 1 && r.recommendedActions[0].kind == TrainingProgram &&
      r.recommendedActions[0].urgency == Some(Medium)
  {
    var skill := gap.skill;
    var actions :=
      if gap.priority == Critical then
        [ Directed(HireExternal, skill, Critical, NoExpertsReason + skill)
            .(template := Some(HireExternalTemplate), details := map["estimated_timeline" := "2-4 weeks"]),
          Directed(EmergencyTraining, skill, Critical, UrgentCapabilityReason)
            .(details := map["training_type" := "accelerated"]) ]
      else if gap.priority == High then
        [ Directed(TrainingProgram, skill, High, LimitedExpertiseReason + skill)
            .(template := Some(TrainingProgramTemplate), details := map["estimated_timeline" := "30-60 days"]),
          Directed(KnowledgeTransfer, skill, High, ShareKnowledgeReason)
            .(template := Some(KnowledgeTransferTemplate)) ]
      else
        [ Directed(TrainingProgram, skill, Medium, DevelopCapabilityReason + skill)
            .(details := map["estimated_timeline" := "60-90 days"]) ];
    SkillExecution(skill, gap.priority, actions, PendingApproval)
  }

  // The fixed texts of the promotion actions.
  const PromotionApprovers := ["HR Manager", "Department Head", "Executive Leadership"]
  const TransitionReason := "Support successful transition to new role"
  const TransitionItems := ["Prepare new position briefing", "Arrange executive coaching",
                            "Plan team introduction", "Set 30-60-90 day goals"]

  /** The two shapes of the promotion executor's result. */
  datatype PromotionExecution =
    | NotEligible(employeeId: string, reason: string, recommendedActions: seq<Action>)
    | Eligible(employeeId: string, confidence: real, recommendedActions: seq<Action>, status: string)

  /**
   * An ineligible employee gets one skill-development action carrying the
   * eligibility reason; an eligible one gets a promotion and a role
   * transition, both high, and the eligibility confidence, 0.8 when absent.
   */
  function ExecutePromotionAction(employeeId: string, eligibility: PromotionEligibility): (r: PromotionExecution)
    ensures r.employeeId == employeeId
    ensures r.Eligible? <==> eligibility.eligible
    ensures !eligibility.eligible ==>
      r.reason == eligibility.reason && |r.recommendedActions| == 1 &&
      r.recommendedActions[0].kind == SkillDevelopment && r.recommendedActions[0].reason == eligibility.reason &&
      r.recommendedActions[0].urgency == None
    ensures eligibility.eligible ==>
      r.status == PendingApproval &&
      r.confidence == (if eligibility.confidence.Some? then eligibility.confidence.value else 0.8) &&
      |r.recommendedActions| == 2 &&
      r.recommendedActions[0].kind == Promotion && r.recommendedActions[0].reason == eligibility.reason &&
      r.recommendedActions[1].kind == RoleTransition &&
      AllTargeted(r.recommendedActions, employeeId) && AllUrgent(r.recommendedActions, High)
  {
    if !eligibility.eligible then
      NotEligible(employeeId, eligibility.reason,
        [Action(SkillDevelopment, None, None, eligibility.reason, None, [], [], map[])])
    else
      var actions := [
        Directed(Promotion, employeeId, High, eligibility.reason)
          .(template := Some(PromotionTemplate), requiredApprovals := PromotionApprovers),
        Directed(RoleTransition, employeeId, High, TransitionReason).(actionItems := TransitionItems)
      ];
      Eligible(employeeId, if eligibility.confidence.Some? then eligibility.confidence.value else 0.8,
        actions, PendingApproval)
  }

  /** The number of actions that satisfy `p`. */
  function CountWhere(actions: seq<Action>, p: Action -> bool): (n: nat)
    ensures n <= |actions|
    ensures n == 0 <==> forall i :: 0 <= i < |actions| ==> !p(actions[i])
  {
    if actions == [] then 0
    else (if p(actions[0]) then 1 else 0) + CountWhere(actions[1..], p)
  }

  /** Counting distributes over concatenation. */
  lemma {:induction false} CountAppend(xs: seq<Action>, ys: seq<Action>, p: Action -> bool)
    ensures CountWhere(xs + ys, p) == CountWhere(xs, p) + CountWhere(ys, p)
  {
    if xs == [] {
      assert xs + ys == ys;
    } else {
      assert (xs + ys)[1..] == xs[1..] + ys;
      CountAppend(xs[1..], ys, p);
    }
  }

  predicate IsImmediate(a: Action) { a.urgency == Some(Immediate) }
  predicate IsHighPriority(a: Action) { a.urgency == Some(High) }
  predicate IsCritical(a: Action) { a.urgency == Some(Critical) }
  predicate NeedsBudget(a: Action) { BudgetRequired(a.kind) }
  predicate NeedsApproval(a: Action) { ApprovalRequired(a.kind) }

  /** An action has at most one urgency, so the three urgency tiers never count more than the list holds. */
  lemma {:induction false} UrgencyTiersBounded(actions: seq<Action>)
    ensures CountWhere(actions, IsImmediate) + CountWhere(actions, IsHighPriority) + CountWhere(actions, IsCritical)
      <= |actions|
  {
    if actions != [] {
      UrgencyTiersBounded(actions[1..]);
    }
  }

  datatype ActionSummary = ActionSummary(totalActions: nat, immediate: nat, highPriority: nat, critical: nat)
  datatype ResourceRequirements = ResourceRequirements(budgetItems: nat, approvalsRequired: nat)
  datatype ExecutionReport = ExecutionReport(
    employeeId: string,
    actionSummary: ActionSummary,
    resourceRequirements: ResourceRequirements,
    actions: seq<Action>)

  /**
   * Summarises a list of actions: its length, how many are immediate, high
   * and critical, and how many need budget or approval according to the
   * template table. The list itself is kept as it was given.
   */
  function GenerateActionExecutionReport(employeeId: string, actions: seq<Action>): (r: ExecutionReport)
    ensures r.employeeId == employeeId && r.actions == actions
    ensures r.actionSummary.totalActions == |actions|
    ensures r.actionSummary.immediate + r.actionSummary.highPriority + r.actionSummary.critical
      <= r.actionSummary.totalActions
    ensures r.actionSummary.immediate == CountWhere(actions, IsImmediate)
    ensures r.actionSummary.highPriority == CountWhere(actions, IsHighPriority)
    ensures r.actionSummary.critical == CountWhere(actions, IsCritical)
    ensures r.resourceRequirements.budgetItems == CountWhere(actions, NeedsBudget)
    ensures r.resourceRequirements.approvalsRequired == CountWhere(actions, NeedsApproval)
  {
    UrgencyTiersBounded(actions);
    ExecutionReport(
      employeeId,
      ActionSummary(|actions|, CountWhere(actions, IsImmediate), CountWhere(actions, IsHighPriority),
        CountWhere(actions, IsCritical)),
      ResourceRequirements(CountWhere(actions, NeedsBudget), CountWhere(actions, NeedsApproval)),
      actions)
  }

  /** A report on one external hire counts one budget item and one approval. */
  lemma HireExternalReport(employeeId: string, a: Action)
    requires a.kind == HireExternal
    ensures GenerateActionExecutionReport(employeeId, [a]).resourceRequirements == ResourceRequirements(1, 1)
  {
  }

  /**
   * The decision data of a comprehensive plan; a field is None when its key
   * is absent.
   */
  datatype DecisionData = DecisionData(
    engagement: Option<string>,
    promotionEligible: Option<PromotionEligibility>,
    skillGaps: Option<seq<SkillGap>>)

  /** The skill actions of every gap, in gap order. */
  function SkillActionsOf(employeeId: string, gaps: seq<SkillGap>): seq<Action> {
    if gaps == [] then []
    else SkillActionsOf(employeeId, gaps[..|gaps| - 1]) + ExecuteSkillAction(employeeId, gaps[|gaps| - 1]).recommendedActions
  }

  /**
   * The combined action list of a comprehensive plan: the engagement actions
   * when the key is present, then the promotion actions when that key is
   * present, then each gap's skill actions in gap order.
   */
  function PlanActions(employeeId: string, data: DecisionData): seq<Action> {
    EngagementPart(employeeId, data) + PromotionPart(employeeId, data) + SkillPart(employeeId, data)
  }

  function EngagementPart(employeeId: string, data: DecisionData): seq<Action> {
    if data.engagement.Some? then
      ExecuteEngagementAction(employeeId, "engagement_response", data.engagement.value).recommendedActions
    else []
  }

  function PromotionPart(employeeId: string, data: DecisionData): seq<Action> {
    if data.promotionEligible.Some? then
      ExecutePromotionAction(employeeId, data.promotionEligible.value).recommendedActions
    else []
  }

  function SkillPart(employeeId: string, data: DecisionData): seq<Action> {
    if data.skillGaps.Some? then SkillActionsOf(employeeId, data.skillGaps.value) else []
  }

  /**
   * Regrouping a concatenation. Stated as a lemma so that the loop below
   * receives only this instance, not the sequence reasoning behind it.
   */
  lemma AppendAssociative<T>(a: seq<T>, b: seq<T>, c: seq<T>)
    ensures (a + b) + c == a + (b + c)
  {
  }

  /** Gathers the actions the decision data calls for and reports on them. */
  method ExecuteComprehensiveActionPlan(employeeId: string, data: DecisionData) returns (report: ExecutionReport)
    ensures report == GenerateActionExecutionReport(employeeId, PlanActions(employeeId, data))
  {
    var allActions: seq<Action> := [];
    if data.engagement.Some? {
      var engagementActions := ExecuteEngagementAction(employeeId, "engagement_response", data.engagement.value);
      allActions := allActions + engagementActions.recommendedActions;
    }
    if data.promotionEligible.Some? {
      var promotionActions := ExecutePromotionAction(employeeId, data.promotionEligible.value);
      allActions := allActions + promotionActions.recommendedActions;
    }
    ghost var before := EngagementPart(employeeId, data) + PromotionPart(employeeId, data);
    assert allActions == before;
    if data.skillGaps.Some? {
      var gaps := data.skillGaps.value;
      for i := 0 to |gaps|
        invariant allActions == before + SkillActionsOf(employeeId, gaps[..i])
      {
        var skillActions := ExecuteSkillAction(employeeId, gaps[i]);
        assert gaps[..i + 1][..i] == gaps[..i];
        AppendAssociative(before, SkillActionsOf(employeeId, gaps[..i]), skillActions.recommendedActions);
        allActions := allActions + skillActions.recommendedActions;
      }
      assert gaps[..|gaps|] == gaps;
    } else {
      assert before + [] == before;
    }
    report := GenerateActionExecutionReport(employeeId, allActions);
  }

  /** How many actions a gap of the given priority produces. */
  function GapActionCount(priority: string): nat {
    if priority == Critical || priority == High then 2 else 1
  }

  /** The sum of `GapActionCount` over the gaps. */
  function GapActionTotal(gaps: seq<SkillGap>): nat {
    if gaps == [] then 0 else GapActionTotal(gaps[..|gaps| - 1]) + GapActionCount(gaps[|gaps| - 1].priority)
  }

  /** The number of critical gaps. */
  function CriticalGapCount(gaps: seq<SkillGap>): nat {
    if gaps == [] then 0
    else CriticalGapCount(gaps[..|gaps| - 1]) + (if gaps[|gaps| - 1].priority == Critical then 1 else 0)
  }

  /**
   * What one gap's actions add to a report: one budget item whatever the
   * priority (external hire or training programme), one approval for a
   * critical gap only, and nothing immediate.
   */
  lemma SkillActionCounts(employeeId: string, gap: SkillGap)
    ensures var acts := ExecuteSkillAction(employeeId, gap).recommendedActions;
      && |acts| == GapActionCount(gap.priority)
      && CountWhere(acts, NeedsBudget) == 1
      && CountWhere(acts, NeedsApproval) == (if gap.priority == Critical then 1 else 0)
      && CountWhere(acts, IsImmediate) == 0
  {
  }

  /** The skill actions of all gaps: their number, budget items, approvals and immediate actions. */
  lemma {:induction false} SkillActionsOfCounts(employeeId: string, gaps: seq<SkillGap>)
    ensures var acts := SkillActionsOf(employeeId, gaps);
      && |acts| == GapActionTotal(gaps)
      && CountWhere(acts, NeedsBudget) == |gaps|
      && CountWhere(acts, NeedsApproval) == CriticalGapCount(gaps)
      && CountWhere(acts, IsImmediate) == 0
  {
    if gaps != [] {
      var init, last := gaps[..|gaps| - 1], gaps[|gaps| - 1];
      var xs, ys := SkillActionsOf(employeeId, init), ExecuteSkillAction(employeeId, last).recommendedActions;
      SkillActionsOfCounts(employeeId, init);
      SkillActionCounts(employeeId, last);
      CountAppend(xs, ys, NeedsBudget);
      CountAppend(xs, ys, NeedsApproval);
      CountAppend(xs, ys, IsImmediate);
    }
  }

  /** Engagement actions add nothing to the resource counts; they are immediate exactly for low engagement. */
  lemma EngagementActionCounts(employeeId: string, engagementLevel: string)
    ensures var acts := ExecuteEngagementAction(employeeId, "engagement_response", engagementLevel).recommendedActions;
      && CountWhere(acts, NeedsBudget) == 0
      && CountWhere(acts, NeedsApproval) == 0
      && CountWhere(acts, IsImmediate) == (if engagementLevel == "low" then 2 else 0)
  {
  }

  /**
   * A declined promotion adds one budget item (its skill-development
   * action), an approved one adds one approval (the promotion itself);
   * neither is immediate.
   */
  lemma PromotionActionCounts(employeeId: string, eligibility: PromotionEligibility)
    ensures var acts := ExecutePromotionAction(employeeId, eligibility).recommendedActions;
      && CountWhere(acts, NeedsBudget) == (if eligibility.eligible then 0 else 1)
      && CountWhere(acts, NeedsApproval) == (if eligibility.eligible then 1 else 0)
      && CountWhere(acts, IsImmediate) == 0
  {
  }

  /**
   * The size of the combined list: two engagement actions when that key is
   * present, one or two promotion actions when that key is present, and two,
   * two or one actions per critical, high or other gap.
   */
  lemma PlanActionsLength(employeeId: string, data: DecisionData)
    ensures |PlanActions(employeeId, data)| ==
      (if data.engagement.Some? then 2 else 0) +
      (if data.promotionEligible.Some? then (if data.promotionEligible.value.eligible then 2 else 1) else 0) +
      (if data.skillGaps.Some? then GapActionTotal(data.skillGaps.value) else 0)
  {
    if data.skillGaps.Some? {
      SkillActionsOfCounts(employeeId, data.skillGaps.value);
    }
  }

  /**
   * The report on a comprehensive plan: immediate actions come only from low
   * engagement; budget items are one per gap plus one for a declined
   * promotion; approvals are one per critical gap plus one for an approved
   * promotion.
   */
  lemma ComprehensivePlanReport(employeeId: string, data: DecisionData)
    ensures var r := GenerateActionExecutionReport(employeeId, PlanActions(employeeId, data));
      var promoted := data.promotionEligible.Some? && data.promotionEligible.value.eligible;
      var declined := data.promotionEligible.Some? && !data.promotionEligible.value.eligible;
      var gaps := if data.skillGaps.Some? then data.skillGaps.value else [];
      && r.actionSummary.immediate == (if data.engagement == Some("low") then 2 else 0)
      && r.resourceRequirements.budgetItems == (if declined then 1 else 0) + |gaps|
      && r.resourceRequirements.approvalsRequired == (if promoted then 1 else 0) + CriticalGapCount(gaps)
  {
    var e, p, k := EngagementPart(employeeId, data), PromotionPart(employeeId, data), SkillPart(employeeId, data);
    if data.engagement.Some? {
      EngagementActionCounts(employeeId, data.engagement.value);
    }
    if data.promotionEligible.Some? {
      PromotionActionCounts(employeeId, data.promotionEligible.value);
    }
    if data.skillGaps.Some? {
      SkillActionsOfCounts(employeeId, data.skillGaps.value);
    }
    CountAppend(e, p, IsImmediate);
    CountAppend(e + p, k, IsImmediate);
    CountAppend(e, p, NeedsBudget);
    CountAppend(e + p, k, NeedsBudget);
    CountAppend(e, p, NeedsApproval);
    CountAppend(e + p, k, NeedsApproval);
  }
}
