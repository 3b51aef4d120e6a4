/** The competency frameworks and the scoring rubric: constant tables that
    both coaches load once and only read.

    `CoachCompetencies` is `STARMethodCoach.load_competencies`
    (eight questions per competency); `GeneralCompetencies` is
    `UnifiedSTARCoach.load_general_competencies`, which keeps the same
    descriptions and signs but only the first five questions. */
module Catalog {

  /** One competency of the framework. */
  datatype CompetencyEntry = CompetencyEntry(
    description: string,
    questions: seq<string>,
    skilledSigns: seq<string>,
    unskilledSigns: seq<string>)

  /** The four qualitative labels of the rubric. */
  datatype Label = Talented | Skilled | Unskilled | Overused

  /** The key under which a label is stored in `story.score` and in the
      rubric table. */
  function LabelName(l: Label): string {
    match l
    case Talented => "Talented"
    case Skilled => "Skilled"
    case Unskilled => "Unskilled"
    case Overused => "Overused"
  }

  /** Distinct labels are stored under distinct names, so a saved score
      identifies the label it came from. */
  lemma LabelNameInjective(a: Label, b: Label)
    requires LabelName(a) == LabelName(b)
    ensures a == b
  {
  }

  /** An entry of `scoring_criteria`. */
  datatype Criterion = Criterion(description: string, criteria: seq<string>)

  /** `scoring_criteria`: label name to description and criteria. */
  const ScoringCriteria: map<string, Criterion> := map[
    "Talented" := Criterion(
      "Exceptional demonstration of the competency, going beyond expectations",
      [ "Provides specific, detailed examples with measurable outcomes",
        "Shows initiative and leadership beyond the immediate task",
        "Demonstrates complex problem-solving and creative thinking",
        "Exhibits high impact results that benefited multiple stakeholders",
        "Shows clear personal ownership and accountability" ]),
    "Skilled" := Criterion(
      "Effective demonstration of the competency, meeting expectations",
      [ "Provides clear examples with concrete outcomes",
        "Shows appropriate action steps relevant to the situation",
        "Demonstrates logical problem-solving approach",
        "Exhibits positive results that achieved objectives",
        "Shows personal contribution to the outcome" ]),
    "Unskilled" := Criterion(
      "Limited demonstration of the competency, below expectations",
      [ "Provides vague or generic examples without specifics",
        "Shows minimal action or reactive rather than proactive approach",
        "Demonstrates limited problem-solving or decision making",
        "Exhibits unclear or minimal results",
        "Shows little personal responsibility or ownership" ]),
    "Overused" := Criterion(
      "Excessive or inappropriate application of the competency",
      [ "Demonstrates overkill or disproportionate response to the situation",
        "Shows rigid adherence to a strength that became counterproductive",
        "Exhibits tunnel vision or ignoring of other important factors",
        "Demonstrates perfectionism or micromanagement",
        "Shows inability to adapt approach when needed" ])
  ]

  /** `scoring_criteria[score]['description']`: the lookup cannot fail,
      because the rubric has exactly one entry per label. */
  function ScoreDescription(l: Label): (d: string)
    ensures LabelName(l) in ScoringCriteria && d == ScoringCriteria[LabelName(l)].description
  {
    ScoringCriteria[LabelName(l)].description
  }

  /** The rubric's keys are exactly the names of the four labels. */
  lemma ScoringCriteriaKeys()
    ensures ScoringCriteria.Keys == set l: Label | true :: LabelName(l)
  {
    var names := set l: Label | true :: LabelName(l);
    assert LabelName(Talented) in names && LabelName(Skilled) in names;
    assert LabelName(Unskilled) in names && LabelName(Overused) in names;
  }

  /** The eight competency names of the framework. */
  const CompetencyNameSet: set<string> := {
    "Action Oriented", "Being Resilient", "Collaborates", "Communicates Effectively",
    "Customer Focus", "Decision Quality", "Drives Results", "Strategic Mindset"
  }

  const ActionOrientedDescription := "Taking on new opportunities and tough challenges with a sense of urgency, high energy, and enthusiasm."

  const ActionOrientedQuestions: seq<string> := [
    "Explain what you did when faced with a difficult and urgent problem.",
    "Tell me about a time you had to take over someone else's challenging project.",
    "Tell me about a situation that required an enormous amount of energy and effort.",
    "Describe a time you seized an opportunity and moved forward with purpose.",
    "Tell me about a time you were the first person to take action on something.",
    "Describe a time when you were proactive in addressing a potential problem.",
    "Tell me about a time you took a calculated risk and it paid off.",
    "Explain a situation where you had to juggle multiple high-priority tasks."
  ]

  const ActionOrientedSkilledSigns: seq<string> := [
    "Readily takes action on challenges, without unnecessary planning",
    "Identifies and seizes new opportunities",
    "Displays a can-do attitude in good and bad times",
    "Steps up to handle tough issues"
  ]

  const ActionOrientedUnskilledSigns: seq<string> := [
    "Is slow to act on an opportunity",
    "Spends too much time planning and looking for information",
    "May be overly methodical, taking too long to act on a problem",
    "Is reluctant to step up to challenges; waits for someone else to take action"
  ]

  const BeingResilientDescription := "Rebounding from setbacks and adversity when facing difficult situations."

  const BeingResilientQuestions: seq<string> := [
    "Describe a crisis you had to handle.",
    "Give me an example of how you managed an emergency situation.",
    "Tell me about a time when you felt under extreme pressure but managed to carry on.",
    "Tell me about a time when a project or initiative seemed like it was going nowhere.",
    "Tell me about a time when someone or something caught you by surprise and caused you to be blocked.",
    "Describe a time when you had to adapt to a significant change at work.",
    "Tell me about a time you received constructive criticism and how you handled it.",
    "Explain a situation where you had to maintain your composure in a challenging circumstance."
  ]

  const BeingResilientSkilledSigns: seq<string> := [
    "Is confident under pressure",
    "Handles and manages crises effectively",
    "Maintains a positive attitude despite adversity",
    "Bounces back from setbacks",
    "Grows from hardships and negative experiences"
  ]

  const BeingResilientUnskilledSigns: seq<string> := [
    "Gets easily rattled in high-pressure situations",
    "Exhibits low energy and motivation during times of stress and worry",
    "Acts defensively when faced with criticism or roadblocks",
    "Takes too long to recover from setbacks"
  ]

  const CollaboratesDescription := "Building partnerships and working collaboratively with others to meet shared objectives."

  const CollaboratesQuestions: seq<string> := [
    "Tell me about a time when you built strong relationships where none previously existed.",
    "Describe a time you had to build partnerships to achieve a shared objective.",
    "Tell me about a successful experience you had implementing something across organizational boundaries.",
    "Describe a time when a team or group did not get their share of credit.",
    "Tell me about a time you succeeded in an initiative by collaborating with others.",
    "Explain a situation where you had to work with a difficult colleague and how you handled it.",
    "Describe a time when you had to coordinate with multiple teams to achieve a goal.",
    "Tell me about a time you had to manage conflicting priorities from different stakeholders."
  ]

  const CollaboratesSkilledSigns: seq<string> := [
    "Works cooperatively with others across the organization to achieve shared objectives",
    "Represents own interests while being fair to others and their areas",
    "Partners with others to get work done and recognizes their contributions",
    "Gains trust and support of others"
  ]

  const CollaboratesUnskilledSigns: seq<string> := [
    "Overlooks opportunities to work collaboratively with others",
    "Puts own interests above others'",
    "Shuts down lines of communication across groups",
    "Prefers to work alone and be accountable only for individual contributions"
  ]

  const CommunicatesEffectivelyDescription := "Developing and delivering multi-mode communications that convey a clear understanding of the unique needs of different audiences."

  const CommunicatesEffectivelyQuestions: seq<string> := [
    "Tell me about a time when you had to explain something important to someone who did not understand your industry or function's language or work.",
    "Describe the best presentation you've ever given.",
    "Tell me about a time when others were missing the key points in a discussion and you helped get things back on track.",
    "Tell me about a time you had to shut off a person in the middle of a meeting or who was talking too much or interrupting.",
    "Describe a time you had to convey the same message through different methods of communication.",
    "Explain a situation where you had to adjust your communication style to suit the audience.",
    "Tell me about a time when you used data or evidence to support your message.",
    "Describe a time when you had to persuade someone to see things your way."
  ]

  const CommunicatesEffectivelySkilledSigns: seq<string> := [
    "Is effective in a variety of communication settings",
    "Attentively listens to others",
    "Adjusts to fit the audience and the message",
    "Provides timely and helpful information to others",
    "Encourages the open expression of diverse ideas and opinions"
  ]

  const CommunicatesEffectivelyUnskilledSigns: seq<string> := [
    "Has difficulty communicating clear written and verbal messages",
    "Tends to always communicate the same way without adjusting to diverse audiences",
    "Doesn't take the time to listen or understand others' viewpoints",
    "Doesn't consistently share information others need to do their jobs"
  ]

  const CustomerFocusDescription := "Building strong customer relationships and delivering customer-centric solutions."

  const CustomerFocusQuestions: seq<string> := [
    "Describe a time you obtained up-to-date information from a customer, and what you did with it.",
    "Tell me about a time when you went the extra mile for a challenging customer.",
    "Tell me about a time you were confronted with an internal or external customer problem.",
    "Tell me about a time when you almost lost a customer and had to win them back.",
    "Tell me about a time when you changed your approach to better meet a customer's needs.",
    "Describe a time when you gathered customer feedback and how you used it.",
    "Tell me about a time you had to manage a customer's expectations.",
    "Explain a situation where you turned an unhappy customer into a satisfied one."
  ]

  const CustomerFocusSkilledSigns: seq<string> := [
    "Gains insight into customer needs",
    "Identifies opportunities that benefit both the customer and the organization",
    "Builds and delivers solutions that meet customer expectations",
    "Establishes and maintains effective customer relationships"
  ]

  const CustomerFocusUnskilledSigns: seq<string> := [
    "Thinks they already know what the customer needs",
    "Doesn't consider customer feedback important",
    "Doesn't dedicate enough time to building relationships with customers",
    "Focuses on internal activities instead of the customer"
  ]

  const DecisionQualityDescription := "Making good and timely decisions that keep the organization moving forward."

  const DecisionQualityQuestions: seq<string> := [
    "Describe a time you had to make a quick decision and gather a lot of information in a short time frame.",
    "Give me an example of a difficult problem you worked on and walk me through your decision-making process.",
    "Describe a time when you made a major decision and were really pleased with the outcome.",
    "Tell me about a quick decision you made that turned out to be a good one.",
    "Describe a time when you received useful feedback on a decision you made.",
    "Tell me about a time when you had to decide between two equally qualified candidates.",
    "Explain a situation where you had to make a decision with incomplete information.",
    "Describe a time when you changed your mind about a decision and what prompted the change."
  ]

  const DecisionQualitySkilledSigns: seq<string> := [
    "Makes sound decisions, even in the absence of complete information",
    "Relies on experience, analysis, and judgment when making decisions",
    "Considers all relevant factors and uses appropriate decision-making criteria",
    "Recognizes when a quick 80% solution will suffice"
  ]

  const DecisionQualityUnskilledSigns: seq<string> := [
    "Approaches decisions haphazardly or delays decision making",
    "Makes decisions based on incomplete data or inaccurate assumptions",
    "Ignores different points of view",
    "Makes decisions that impact short-term results at the expense of longer-term goals"
  ]

  const DrivesResultsDescription := "Consistently achieving results, even under tough circumstances."

  const DrivesResultsQuestions: seq<string> := [
    "Describe a time you championed a cause that others had abandoned.",
    "Tell me about a time you got results that far exceeded your own expectations.",
    "Tell me about a time you got results even though some major factor changed, such as a budget cut.",
    "Describe a time when you drove yourself harder than you were driving others.",
    "Talk about a time you were assigned to a fix-it or turnaround project.",
    "Explain a situation where you had to overcome significant obstacles to achieve a goal.",
    "Describe a time when your persistence paid off in achieving a difficult objective.",
    "Tell me about a time you had to motivate others to achieve results."
  ]

  const DrivesResultsSkilledSigns: seq<string> := [
    "Has a strong bottom-line orientation",
    "Persists in accomplishing objectives despite obstacles and setbacks",
    "Has a track record of exceeding goals successfully",
    "Pushes self and helps others achieve results"
  ]

  const DrivesResultsUnskilledSigns: seq<string> := [
    "Is reluctant to push for results",
    "Does the least to get by",
    "Is an inconsistent performer",
    "Gives up easily",
    "Often misses deadlines"
  ]

  const StrategicMindsetDescription := "Seeing ahead to future possibilities and translating them into breakthrough strategies."

  const StrategicMindsetQuestions: seq<string> := [
    "Give me an example of working with a team and creating a new vision and strategy.",
    "Give me an example of exploring various scenarios and possibilities when charting a course for the future.",
    "Tell me about a time when your strategic vision or big-picture thinking was an asset.",
    "Tell me about a time you were implementing a strategy and had to revise it mid-process due to changes in the environment.",
    "Describe a time you had to develop a strategy that would create value for your organization or customers.",
    "Explain a situation where you had to align your team's goals with the organization's strategic objectives.",
    "Tell me about a time when you identified a long-term opportunity and acted on it.",
    "Describe a time when you had to convince others to buy into your strategic vision."
  ]

  const StrategicMindsetSkilledSigns: seq<string> := [
    "Anticipates future trends and implications accurately",
    "Readily poses future scenarios",
    "Articulates credible pictures and visions of possibilities",
    "Creates competitive and breakthrough strategies"
  ]

  const StrategicMindsetUnskilledSigns: seq<string> := [
    "Is more comfortable in the tactical here and now",
    "Spends little time thinking about strategic issues",
    "Contributes little to strategic discussions",
    "Lacks the disciplined thought processes to develop a coherent view"
  ]

  /** `STARMethodCoach.load_competencies`. */
  const CoachCompetencies: map<string, CompetencyEntry> := map[
    "Action Oriented" := CompetencyEntry(ActionOrientedDescription, ActionOrientedQuestions,
      ActionOrientedSkilledSigns, ActionOrientedUnskilledSigns),
    "Being Resilient" := CompetencyEntry(BeingResilientDescription, BeingResilientQuestions,
      BeingResilientSkilledSigns, BeingResilientUnskilledSigns),
    "Collaborates" := CompetencyEntry(CollaboratesDescription, CollaboratesQuestions,
      CollaboratesSkilledSigns, CollaboratesUnskilledSigns),
    "Communicates Effectively" := CompetencyEntry(CommunicatesEffectivelyDescription, CommunicatesEffectivelyQuestions,
      CommunicatesEffectivelySkilledSigns, CommunicatesEffectivelyUnskilledSigns),
    "Customer Focus" := CompetencyEntry(CustomerFocusDescription, CustomerFocusQuestions,
      CustomerFocusSkilledSigns, CustomerFocusUnskilledSigns),
    "Decision Quality" := CompetencyEntry(DecisionQualityDescription, DecisionQualityQuestions,
      DecisionQualitySkilledSigns, DecisionQualityUnskilledSigns),
    "Drives Results" := CompetencyEntry(DrivesResultsDescription, DrivesResultsQuestions,
      DrivesResultsSkilledSigns, DrivesResultsUnskilledSigns),
    "Strategic Mindset" := CompetencyEntry(StrategicMindsetDescription, StrategicMindsetQuestions,
      StrategicMindsetSkilledSigns, StrategicMindsetUnskilledSigns)
  ]

  /** `UnifiedSTARCoach.load_general_competencies`: the same framework with
      the first five questions of each competency. */
  const GeneralCompetencies: map<string, CompetencyEntry> := map[
    "Action Oriented" := CompetencyEntry(ActionOrientedDescription, ActionOrientedQuestions[..5],
      ActionOrientedSkilledSigns, ActionOrientedUnskilledSigns),
    "Being Resilient" := CompetencyEntry(BeingResilientDescription, BeingResilientQuestions[..5],
      BeingResilientSkilledSigns, BeingResilientUnskilledSigns),
    "Collaborates" := CompetencyEntry(CollaboratesDescription, CollaboratesQuestions[..5],
      CollaboratesSkilledSigns, CollaboratesUnskilledSigns),
    "Communicates Effectively" := CompetencyEntry(CommunicatesEffectivelyDescription, CommunicatesEffectivelyQuestions[..5],
      CommunicatesEffectivelySkilledSigns, CommunicatesEffectivelyUnskilledSigns),
    "Customer Focus" := CompetencyEntry(CustomerFocusDescription, CustomerFocusQuestions[..5],
      CustomerFocusSkilledSigns, CustomerFocusUnskilledSigns),
    "Decision Quality" := CompetencyEntry(DecisionQualityDescription, DecisionQualityQuestions[..5],
      DecisionQualitySkilledSigns, DecisionQualityUnskilledSigns),
    "Drives Results" := CompetencyEntry(DrivesResultsDescription, DrivesResultsQuestions[..5],
      DrivesResultsSkilledSigns, DrivesResultsUnskilledSigns),
    "Strategic Mindset" := CompetencyEntry(StrategicMindsetDescription, StrategicMindsetQuestions[..5],
      StrategicMindsetSkilledSigns, StrategicMindsetUnskilledSigns)
  ]

  /** Both coaches know exactly the eight framework competencies. */
  lemma CatalogKeys()
    ensures CoachCompetencies.Keys == GeneralCompetencies.Keys
    ensures CoachCompetencies.Keys == CompetencyNameSet
  {
  }

  /** The two coaches agree on every description and sign list; the unified
      coach's questions are the first five of the original coach's. */
  lemma CatalogsAgree(c: string)
    requires c in CoachCompetencies
    ensures c in GeneralCompetencies
    ensures CoachCompetencies[c].description == GeneralCompetencies[c].description
    ensures CoachCompetencies[c].skilledSigns == GeneralCompetencies[c].skilledSigns
    ensures CoachCompetencies[c].unskilledSigns == GeneralCompetencies[c].unskilledSigns
    ensures |CoachCompetencies[c].questions| == 8
    ensures GeneralCompetencies[c].questions == CoachCompetencies[c].questions[..5]
  {
  }

  /** Every competency lists at least four skilled signs, so the closing
      feedback's "first two skilled signs" always has two lines. */
  lemma EnoughSkilledSigns()
    ensures forall c :: c in CoachCompetencies ==> |CoachCompetencies[c].skilledSigns| >= 4
    ensures forall c :: c in GeneralCompetencies ==> |GeneralCompetencies[c].skilledSigns| >= 4
  {
  }

  /** An entry of a role framework's `competency_details`: a description and
      guidance text for each STAR section (empty when none is known). */
  datatype CompetencyDetails = CompetencyDetails(
    description: string, situation: string, task: string, action: string, result: string)

  /** A role framework: the competencies of each role, and details per
      competency. */
  datatype RoleFramework = RoleFramework(
    rolesCompetencies: map<string, seq<string>>,
    competencyDetails: map<string, CompetencyDetails>)
}
