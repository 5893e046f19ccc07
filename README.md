# AI decision platform: engagement, risk, actions and plans in Dafny

This project models the decision core of the AI decision platform, an HR
decision service.

- Engagement classification: a survey score maps to an engagement level
  (`low`, `medium`, `high`), and the level column is written into the survey
  frame.
- Risk rule: low engagement means a burnout risk with high priority.
- Legacy decision: the manager is notified exactly when the priority is high.
- Action catalogue:
  - a static template table, with budget and approval flags;
  - three executors, for engagement, skill gaps and promotion, each turning
    its input into a fixed list of action records;
  - an execution report that counts the actions by urgency, budget and
    approval;
  - a comprehensive plan that puts all three kinds together and reports on
    them.
- Strategic decisions:
  - promotion and skill development for one employee;
  - organisational health, built from skill gaps and reporting lines;
  - a 90-day action plan per employee.
- In-memory knowledge graph: employee id to feature record, filled from the
  survey frame.

The modules follow the source files:

- `Engagement` models `src/features/engagement.py`.
- `Rules` models `src/decisions/rules.py`.
- `Actions` models `src/actions/actions.py`.
- `Core` models `src/decisions/core.py`.
- `KnowledgeGraph` models `src/decisions/knowledge_graph.py`.
- `Wrappers` holds the `Option` type.

Representation choices:

- Engagement levels, priorities, urgencies and action types stay strings. The
  source compares them with literals and lets every other value fall through
  to a default branch, and the model keeps that.
- Scores are reals.
- A dictionary key that may be absent is an `Option`.
- The fact-store helpers that `core.py` imports are not part of this model.
  Their answers are the fields of a `FactStore` value, which stands for the
  database driver. `Core.ComprehensiveAssessment` models
  `comprehensive_employee_assessment` over it.
- Code that updates state in place is imperative:
  - the survey frame is a class that `ComputeEngagement` updates;
  - the graph is a class whose map `AddEmployee` and `BuildGraph` update;
  - the loops of `execute_comprehensive_action_plan`, of
    `make_strategic_decision` and the appends of `create_action_plan` are
    methods.

  Each method is proved against a function, and the properties are lemmas
  about that function.

The classifier sends every score above 2 other than exactly 3 to `high`,
including scores strictly between 2 and 3. `Engagement.EngagementLevel`
states this rule, and `Engagement.ScoreBetweenTwoAndThreeIsHigh` states the
case of scores strictly between 2 and 3 on its own.

## Model

| member | source | states |
|---|---|---|
| Engagement.EngagementLevel | src/features/engagement.py:1-6 | The level is always one of the three. It is low exactly for scores at most 2, medium exactly for score 3, and high exactly for every other score. |
| Engagement.ScoreBetweenTwoAndThreeIsHigh | src/features/engagement.py:2-6 | Every score strictly between 2 and 3 is classified high. |
| Engagement.WithEngagementColumn | src/features/engagement.py:8-10 | Assigning the column keeps every row's id and score. It sets every row's engagement to the level of its score and leaves no row without one. |
| Engagement.EngagementColumnIdempotent | src/features/engagement.py:9 | Assigning the column twice gives the same frame as assigning it once. |
| Engagement.ComputeEngagement | src/features/engagement.py:8-10 | The frame is updated in place to the frame with the engagement column, and the same frame object is returned. |
| Rules.AssessRisk | src/decisions/rules.py:1-12 | Priority is high exactly for low engagement, otherwise low. Risk is burnout exactly when priority is high, otherwise none. Confidence is 0.7 for high priority and 0.9 otherwise. |
| Rules.MediumAndHighAgree | src/decisions/rules.py:1-12 | Medium and high engagement get the same assessment. |
| Actions.DecideAction | src/actions/actions.py:4-8 | The result is "Notify manager" exactly when priority is high, and "Observe" exactly otherwise. |
| Actions.NotifyIffLowEngagement | src/actions/actions.py:4-8 | Composed with the risk rule, the manager is notified exactly when engagement is low. |
| Actions.TemplateFlags | src/actions/actions.py:20-70 | The template table asks for budget exactly for skill development, training programs and external hires. It asks for approval exactly for promotions, role changes and external hires. |
| Actions.ExecuteEngagementAction | src/actions/actions.py:73-134 | The result echoes the ids, is pending approval and holds two actions directed at the employee. Low engagement gives a 1:1 meeting then a workload review, both immediate. Medium gives an engagement check then a growth opportunity, at high then medium urgency. Any other level gives recognition then retention, at high then medium urgency. |
| Actions.ExecuteSkillAction | src/actions/actions.py:137-196 | Every action targets the gap's skill. A critical gap gives an external hire then emergency training, both critical. A high gap gives a training program then knowledge transfer, both high. Any other gap gives one medium-urgency training program. |
| Actions.ExecutePromotionAction | src/actions/actions.py:199-246 | The result is eligible exactly when the input is eligible. If not, the reason is copied and the one action is skill development with that reason and no urgency. If eligible, confidence defaults to 0.8, the status is pending approval, and there is a promotion carrying the reason then a role transition, both high and aimed at the employee. |
| Actions.CountWhere | src/actions/actions.py:251-258 | The count is at most the list length, and it is zero exactly when no action satisfies the predicate. |
| Actions.CountAppend | src/actions/actions.py:251-258 | Counting over a concatenation is the sum of the counts of its parts. |
| Actions.UrgencyTiersBounded | src/actions/actions.py:253-255 | Immediate, high and critical counts together never exceed the list length. |
| Actions.GenerateActionExecutionReport | src/actions/actions.py:249-277 | The report keeps the id and the action list. Its total is the length, and the three urgency tiers sum to at most the total. Each count is the number of actions with that urgency, or whose template requires budget or approval. |
| Actions.HireExternalReport | src/actions/actions.py:57-63 | A report on one external hire needs one budget item and one approval. |
| Actions.ExecuteComprehensiveActionPlan | src/actions/actions.py:280-311 | The report is the report on the engagement actions, then the promotion actions, then the skill actions of every gap in gap order, each part present only when its key is. |
| Actions.SkillActionCounts | src/actions/actions.py:137-196 | Critical and high gaps give two actions and other gaps one. Each gap needs one budget item and no immediate action, and one approval exactly when critical. |
| Actions.SkillActionsOfCounts | src/actions/actions.py:303-306 | Across a list of gaps, the action count, budget items and approvals add up gap by gap, and no skill action is immediate. |
| Actions.EngagementActionCounts | src/actions/actions.py:73-134 | Engagement actions need no budget and no approval. They hold two immediate actions exactly for low engagement and none otherwise. |
| Actions.PromotionActionCounts | src/actions/actions.py:199-246 | The declined path needs one budget item and no approval. The eligible path needs one approval and no budget. Neither has an immediate action. |
| Actions.PlanActionsLength | src/actions/actions.py:280-311 | The plan holds 2 engagement actions, 1 or 2 promotion actions, and 1 or 2 actions per gap, each part present only when its key is. |
| Actions.ComprehensivePlanReport | src/actions/actions.py:280-311 | Immediate actions are 2 exactly for low engagement, else 0. Budget items are one per declined promotion plus one per gap. Approvals are one per eligible promotion plus one per critical gap. |
| Core.MakeDecision | src/decisions/core.py:17-19 | The decision is the risk rule's, and it notifies the manager exactly for low engagement. |
| Core.ComprehensiveAssessment | src/decisions/core.py:22-49 | An unknown employee gives the "Employee not found" error, and only then. Otherwise the assessment holds the store's facts. Engagement actions are present exactly when a non-empty engagement is given, and come from that engagement and the employee's level and role. |
| Core.MakeStrategicDecision | src/decisions/core.py:65-140 | A missing target id is an error naming the decision, and a failed assessment is passed through. Promotion gives "promote" exactly for an eligible employee, with confidence defaulting to 0. Skill development gives training with the recommendations' priority. Organisational health gives the gap decisions in gap order, then the reporting-structure decision when there are no reports. An unknown type is an error naming it. |
| Core.GapDecisionsAppend | src/decisions/core.py:112-124 | The gap decisions of a concatenation are those of its parts, in order. |
| Core.GapDecisionsFromGaps | src/decisions/core.py:112-124 | There is exactly one decision per critical or high gap. Each decision is a hire or an internal development, and each is the decision of some gap. |
| Core.ReportingStructureLast | src/decisions/core.py:126-131 | The reporting-structure decision comes last exactly when there are no reports, and appears nowhere else. |
| Core.OptionalStepsInOrder | src/decisions/core.py:164-188 | One optional step of each rank, in rank order, makes a plan of at most three steps in strict rank order. Each rank is present exactly when its step is, and every step is one of the present ones. |
| Core.PlanStepsShape | src/decisions/core.py:164-188 | A plan has at most three steps, skill then engagement then promotion. The skill step is there exactly when skills are recommended, the engagement step exactly when a non-empty engagement is given, and the promotion pathway exactly when the employee is eligible. Each step carries the assessment's content. |
| Core.LowEngagementOnlyPlan | src/decisions/core.py:164-188 | A low-engagement employee with no recommended skills who is not eligible gets exactly one high-priority, immediate engagement step. |
| Core.CreateActionPlan | src/decisions/core.py:143-190 | A failed assessment is passed through. Otherwise the plan records the id, the employee, the current state and a 90-day timeline, and its steps are the plan steps of the assessment. |
| KnowledgeGraph.PopulateKeys | src/decisions/knowledge_graph.py:9-15 | Building adds exactly the ids of the frame to the ids already present. |
| KnowledgeGraph.PopulateLastWins | src/decisions/knowledge_graph.py:3-4 | When an id occurs more than once in the frame, its last row decides the stored record. |
| KnowledgeGraph.PopulateOthersUnchanged | src/decisions/knowledge_graph.py:9-15 | An id that no row carries keeps its entry, or stays absent. |
| KnowledgeGraph.PopulateTwice | src/decisions/knowledge_graph.py:9-15 | Building the graph twice from the same frame stores the same records as building it once. |
| KnowledgeGraph.Graph.AddEmployee | src/decisions/knowledge_graph.py:3-4 | The map gets the record under the id, replacing any old one. Looking up the id gives the record, and every other id looks up as before. |
| KnowledgeGraph.Graph.GetEmployee | src/decisions/knowledge_graph.py:6-7 | The lookup is present exactly when the id is stored, and then it is the stored record. |
| KnowledgeGraph.Graph.BuildGraph | src/decisions/knowledge_graph.py:9-15 | Rows are added in frame order, each with its engagement as the record. The graph's ids become the old ids plus the frame's ids, and the graph itself is returned. |

## Left out

- Timestamps are not modelled: the assessment, analytics and report timestamps, the report date and the next review date. They read the clock.
- The engagement analysis in the assessment is not modelled. Nothing in the core reads it.
- The `isinstance(assessment, dict)` error branches are not modelled. The assessment is always a dictionary, so they cannot be taken.
- The `ACTION_TYPES` table is not modelled. Nothing reads it.
- The helpers that `core.py` imports are inputs: the employee, skills and promotion lookups, the skill and engagement recommendations, the team structure and the skill gaps. Their code is not part of this model.
- `organizational_analytics` is not modelled as its own operation. Its result is the team structure and skill gaps of the `FactStore`, without the timestamp.
- The Neo4j client and database, the web app, the scripts and the ontology are not part of this model.
- Engagement.SurveyRow: other columns of the survey frame are not modelled. Floating point is modelled as exact reals, so NaN scores and rounding are not captured.
- Core.ComprehensiveAssessment: the engagement recommendation is taken to be present whenever it is looked up. The source would skip the engagement step for an empty recommendation dictionary, which the model does not capture.
- Actions.ExecuteComprehensiveActionPlan: a key present with a `None` value is treated like an absent key. For `engagement`, the source passes `None` to the engagement executor, whose fall-through branch adds recognition and retention, so it reports 2 actions where the model reports none. For `promotion_eligible` and `skill_gaps`, the source fails on the `None` value, and the model does not capture that failure.
- KnowledgeGraph.Graph: the module-level dictionary is modelled as one object. `build_graph` returns that object, not a copy.
- KnowledgeGraph.Graph.BuildGraph: requires every row to carry an engagement value. The source raises on a frame without the engagement column, and the model does not capture that error.
