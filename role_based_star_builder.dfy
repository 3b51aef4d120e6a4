/** The role-based STAR builder: picks the competencies a question is
    about, guides each section with competency-specific prompts and
    clarifying questions, and pads short sections with a note. Console
    answers are parameters. */
module RoleBasedStarBuilder {
  import opened Wrappers
  import opened Text
  import opened Catalog
  import opened Scoring
  import opened Refinement

  /** A details entry with no section guidance, as every fallback entry is. */
  function Undetailed(description: string): CompetencyDetails {
    CompetencyDetails(description, "", "", "", "")
  }

  /** `keyword_mapping`, in declaration order. */
  const KeywordMapping: seq<(string, seq<string>)> := [
    ("customer", ["Customer Focus"]),
    ("relationship", ["Customer Focus", "Interpersonal Savvy"]),
    ("uncertain", ["Manages Ambiguity"]),
    ("ambiguous", ["Manages Ambiguity"]),
    ("technology", ["Tech Savvy"]),
    ("innovation", ["Tech Savvy"]),
    ("challenge", ["Action Oriented", "Being Resilient"]),
    ("conflict", ["Manages Conflict"]),
    ("complex", ["Manages Complexity", "Managing Complexity"]),
    ("result", ["Drives Results"]),
    ("communicate", ["Communicates Effectively"]),
    ("decision", ["Decision Quality"]),
    ("collaborate", ["Collaborates"]),
    ("team", ["Collaborates", "Interpersonal Savvy"]),
    ("resilient", ["Being Resilient"]),
    ("adapt", ["Situational Adaptability"]),
    ("resource", ["Resourcefulness"]),
    ("business", ["Business Insight"]),
    ("plan", ["Plans and Aligns"]),
    ("persuade", ["Persuades"]),
    ("influence", ["Persuades"]),
    ("learn", ["Nimble Learning", "Self Development"]),
    ("accountability", ["Ensures Accountability"]),
    ("process", ["Optimizes Work Processes"]),
    ("grow", ["Self Development"])
  ]

  /** The `prompts` table of `get_competency_situation_prompt`. */
  const SituationPrompts: map<string, string> := map[
    "Customer Focus" :=
      "Describe a situation involving customer needs or expectations. What was the customer context?",
    "Tech Savvy" :=
      "Describe a situation requiring technical innovation or digital solutions. What was the technology landscape?",
    "Drives Results" :=
      "Describe a challenging situation with clear objectives. What obstacles were you facing?"
  ]

  const SituationDefault := "Consider:\n- What was the context?\n- When and where did this happen?\n- Who was involved?\n- What challenges existed?"

  /** The `prompts` table of `get_competency_task_prompt`. */
  const TaskPrompts: map<string, string> := map[
    "Technical Problem Solving" :=
      "What technical challenge were you tasked with solving? What were the requirements or constraints?"
  ]

  const TaskDefault := "Consider:\n- What was your specific responsibility?\n- What goals were you trying to achieve?\n- What challenges did you face?"

  /** The `prompts` table of `get_competency_action_prompt`. */
  const ActionPrompts: map<string, string> := map[
    "Technical Problem Solving" :=
      "What specific technical approach did you take? How did you analyze the problem and implement your solution?",
    "Innovation" :=
      "What innovative steps did you take? How did you think differently or challenge conventional approaches?"
  ]

  const ActionDefault := "Consider:\n- What specific actions did YOU take?\n- How did you approach the problem?\n- What skills or tools did you use?"

  /** The `prompts` table of `get_competency_result_prompt`. */
  const ResultPrompts: map<string, string> := map[
    "Technical Problem Solving" :=
      "What was the technical outcome? How did it impact performance, reliability, or scalability? Can you quantify the results?",
    "Innovation" :=
      "What resulted from your innovative approach? How was it received by users or stakeholders? What impact did it have?",
    "Collaboration" :=
      "What did your collaborative approach achieve? How did working together lead to better outcomes than working alone?",
    "Communication" :=
      "What was the impact of your communication? How did it improve understanding or influence others?",
    "Customer Focus" :=
      "How did your actions improve the customer experience? What customer feedback or metrics demonstrate this?",
    "Strategic Thinking" :=
      "What strategic outcomes resulted? How did your approach contribute to long-term goals or vision?",
    "User-Centered Design" :=
      "How did users respond to your design? What improvements in user experience or metrics can you point to?",
    "Cross-Functional Leadership" :=
      "What did your leadership across teams achieve? How did it overcome organizational silos?",
    "Business Acumen" :=
      "What business results did you achieve? Can you quantify the impact in terms of revenue, cost savings, or efficiency?",
    "Execution Excellence" :=
      "What quality outcomes resulted from your execution? How did you meet or exceed expectations?",
    "Analytical Thinking" :=
      "What insights or conclusions did your analysis produce? How did these findings drive decisions or actions?",
    "Statistical Modeling" :=
      "How accurate or useful was your model? What business decisions did it enable?",
    "Programming Skills" :=
      "How did your code perform? What improvements in functionality, performance, or reliability resulted?",
    "Process Improvement" :=
      "How much more efficient or effective was the process after your changes? Can you quantify the improvement?",
    "Attention to Detail" :=
      "How did your thoroughness contribute to quality outcomes? What errors or issues were prevented?",
    "Adaptability" :=
      "How did your flexibility lead to positive outcomes? What would have happened without your adaptability?",
    "Design Thinking" :=
      "What resulted from your design thinking approach? How did the solution meet user needs in a unique way?",
    "Visual Communication" :=
      "How effective was your visual communication? What feedback or metrics show it achieved its purpose?",
    "Prototyping Skills" :=
      "What did you learn from your prototypes? How did they influence the final product?",
    "User Empathy" :=
      "How did your empathetic approach improve the solution for users? What positive user feedback resulted?",
    "Time Management" :=
      "How did you meet your deadlines? What would have happened without your effective time management?",
    "Problem Solving" :=
      "What was the outcome of your solution? How effective was it in addressing the core problem?",
    "Communication of Complex Ideas" :=
      "How did your audience respond to your communication? Did they understand and act on the complex information?",
    "Business Impact" :=
      "What specific business results did you achieve? How did these results align with organizational goals?"
  ]

  const ResultDefault := "Consider:\n- What was the outcome?\n- What impact did you have?\n- Can you quantify the results?\n- What did you learn?"

  /** The `questions` table of `get_situation_clarifying_questions`. */
  const SituationClarifying: map<string, seq<string>> := map[
    "Technical Problem Solving" := [
      "What technologies or systems were specifically involved?",
      "What made this problem particularly challenging from a technical perspective?" ],
    "Innovation" := [
      "What aspects of the situation required fresh thinking?",
      "What constraints or limitations were you working with?" ],
    "Collaboration" := [
      "Who were the key stakeholders or team members involved?",
      "What were the team dynamics or challenges that existed?" ],
    "Communication" := [
      "What communication challenges existed in this situation?",
      "Who was your audience or who did you need to communicate with?" ],
    "Customer Focus" := [
      "What customer needs or pain points were present in this situation?",
      "What was at stake for the customer experience?" ]
  ]

  const SituationClarifyingDefault: seq<string> := [
    "Can you add more specifics about the context and challenges?" ]

  /** The `questions` table of `get_task_clarifying_questions`. */
  const TaskClarifying: map<string, seq<string>> := map[
    "Technical Problem Solving" := [
      "What specific technical requirements or constraints did you need to consider?",
      "What was the technical goal you needed to achieve?" ],
    "Innovation" := [
      "Why couldn\'t this task be solved with conventional approaches?",
      "What objectives required creative thinking?" ],
    "Collaboration" := [
      "What was your specific role within the team?",
      "What dependencies existed between your work and others\'?" ],
    "Strategic Thinking" := [
      "What business objectives were you trying to support?",
      "What was the strategic importance of this task?" ],
    "User-Centered Design" := [
      "What user needs were you specifically responsible for addressing?",
      "What user experience goals were you tasked with achieving?" ]
  ]

  const TaskClarifyingDefault: seq<string> := [
    "What specific responsibility or goal was assigned to you?" ]

  /** The `questions` table of `get_action_clarifying_questions`. */
  const ActionClarifying: map<string, seq<string>> := map[
    "Technical Problem Solving" := [
      "What specific technical approach or methodology did you use?",
      "How did you test or validate your solution?" ],
    "Innovation" := [
      "What made your approach innovative or different from conventional solutions?",
      "How did you develop or refine your innovative idea?" ],
    "Collaboration" := [
      "How did you specifically facilitate collaboration or overcome collaboration challenges?",
      "What communication strategies did you employ?" ],
    "Communication" := [
      "How did you tailor your communication to your audience?",
      "What specific communication techniques did you use?" ],
    "User-Centered Design" := [
      "How did you incorporate user feedback or research into your actions?",
      "What design methodologies did you employ?" ]
  ]

  const ActionClarifyingDefault: seq<string> := [
    "What specific steps did you personally take?",
    "How did you overcome challenges?" ]

  /** The `questions` table of `get_result_clarifying_questions`. */
  const ResultClarifying: map<string, seq<string>> := map[
    "Technical Problem Solving" := [
      "Can you quantify the technical improvements (speed, reliability, etc.)?",
      "What long-term technical benefits resulted from your solution?" ],
    "Innovation" := [
      "How was your innovation received by users or stakeholders?",
      "Did your innovation lead to any broader changes or improvements?" ],
    "Collaboration" := [
      "How did your collaborative approach contribute to the team\'s success?",
      "What feedback did you receive about your collaboration skills?" ],
    "Business Impact" := [
      "Can you quantify the business impact in terms of revenue, cost savings, or efficiency?",
      "How did your work align with broader business goals?" ],
    "User-Centered Design" := [
      "How did users respond to your solution?",
      "What measurable improvements in user experience resulted from your work?" ]
  ]

  const ResultClarifyingDefault: seq<string> := [
    "Can you quantify the impact or results?",
    "What did you personally learn from this experience?" ]

  /** `load_role_competencies_fallback`: every section text is empty. */
  const RoleFallback: RoleFramework := RoleFramework(
    map[
      "Technical Specialist" := ["Customer Focus", "Manages Ambiguity", "Tech Savvy", "Action Oriented", "Manages Conflict", "Manages Complexity"],
      "Technical Expert" := ["Drives Results", "Communicates Effectively", "Tech Savvy", "Decision Quality", "Manages Complexity", "Collaborates"],
      "Genius" := ["Being Resilient", "Decision Quality", "Tech Savvy", "Action Oriented", "Situational Adaptability", "Managing Complexity"],
      "Genius Admin" := ["Customer Focus", "Action Oriented", "Resourcefulness", "Interpersonal Savvy", "Managing Complexity", "Communicates Effectively"],
      "Business Expert" := ["Business Insight", "Customer Focus", "Drives Results", "Action Oriented", "Organizational Savvy", "Collaborates", "Tech Savvy"],
      "Business Pro" := ["Decision Quality", "Communicates Effectively", "Plans and Aligns", "Collaborates", "Persuades", "Resourcefulness", "Business Insight"],
      "Operations Specialist" := ["Action Oriented", "Manages Ambiguity", "Customer Focus", "Interpersonal Savvy", "Nimble Learning", "Plans and Aligns"],
      "Operations Expert" := ["Decision Quality", "Manages Complexity", "Drives Results", "Resourcefulness", "Action Oriented", "Interpersonal Savvy"],
      "Ops Lead" := ["Ensures Accountability", "Manages Complexity", "Drives Results", "Optimizes Work Processes", "Manages Ambiguity", "Collaborates", "Interpersonal Savvy"],
      "Specialist" := ["Drives Results", "Manages Ambiguity", "Nimble Learning", "Customer Focus", "Self Development"],
      "Expert" := ["Drives Results", "Communicates Effectively", "Tech Savvy", "Decision Quality", "Manages Complexity", "Collaborates"],
      "Lead" := ["Manages Complexity", "Manages Conflict", "Decision Quality", "Optimizes Work Processes", "Manages Ambiguity", "Collaborates", "Interpersonal Savvy", "Drives Results"],
      "Creative Pro" := ["Tech Savvy", "Collaborates", "Drives Results", "Communicates Effectively", "Decision Quality"],
      "Creative" := ["Communicates Effectively", "Tech Savvy", "Action Oriented", "Drives Results", "Nimble Learning", "Interpersonal Savvy"],
      "Lead Genius" := ["Tech Savvy", "Optimizes Work Processes", "Manages Conflict", "Decision Quality", "Collaborates", "Interpersonal Savvy"]
    ],
    map[
      "Customer Focus" := Undetailed(
        "Building strong customer relationships and delivering customer-centric solutions."),
      "Manages Ambiguity" := Undetailed(
        "Operating effectively, even when things are not certain or the way forward is not clear."),
      "Tech Savvy" := Undetailed(
        "Anticipating and adopting innovations in business-building digital and technology applications."),
      "Action Oriented" := Undetailed(
        "Taking on new opportunities and tough challenges with a sense of urgency, high energy, and enthusiasm."),
      "Manages Conflict" := Undetailed(
        "Handling conflict situations effectively, with a minimum of noise."),
      "Manages Complexity" := Undetailed(
        "Making sense of complex, high quantity, and sometimes contradictory information to effectively solve problems."),
      "Drives Results" := Undetailed(
        "Consistently achieving results, even under tough circumstances."),
      "Communicates Effectively" := Undetailed(
        "Developing and delivering multi-mode communications that convey a clear understanding of the unique needs of different audiences."),
      "Decision Quality" := Undetailed(
        "Making good and timely decisions that keep the organization moving forward."),
      "Collaborates" := Undetailed(
        "Building partnerships and working collaboratively with others to meet shared objectives."),
      "Being Resilient" := Undetailed(
        "Rebounding from setbacks and adversity when facing difficult situations."),
      "Situational Adaptability" := Undetailed(
        "Adapting approach and demeanor in real time to match the shifting demands of different situations."),
      "Managing Complexity" := Undetailed(
        "Making sense of complex, high quantity, and sometimes contradictory information to effectively solve problems."),
      "Resourcefulness" := Undetailed(
        "Securing and deploying resources effectively and efficiently."),
      "Interpersonal Savvy" := Undetailed(
        "Relating openly and comfortably with diverse groups of people."),
      "Business Insight" := Undetailed(
        "Applying knowledge of business and the marketplace to advance the organization\'s goals."),
      "Organizational Savvy" := Undetailed(
        "Maneuvering comfortably through complex policy, process, and people-related organizational dynamics."),
      "Plans and Aligns" := Undetailed(
        "Planning and prioritizing work to meet commitments aligned with organizational goals."),
      "Persuades" := Undetailed(
        "Using compelling arguments to gain the support and commitment of others."),
      "Nimble Learning" := Undetailed(
        "Actively learning through experimentation when tackling new problems, using both successes and failures as learning fodder."),
      "Ensures Accountability" := Undetailed(
        "Holding self and others accountable to meet commitments."),
      "Optimizes Work Processes" := Undetailed(
        "Knowing the most effective and efficient processes to get things done, with a focus on continuous improvement."),
      "Self Development" := Undetailed(
        "Actively seeking new ways to grow and be challenged using both formal and informal development channels.")
    ])

  /** The fallback framework gives no section guidance for any competency. */
  lemma FallbackHasNoGuidance(c: string)
    requires c in RoleFallback.competencyDetails
    ensures RoleFallback.competencyDetails[c].situation == ""
    ensures RoleFallback.competencyDetails[c].task == ""
    ensures RoleFallback.competencyDetails[c].action == ""
    ensures RoleFallback.competencyDetails[c].result == ""
  {
  }

  function Min(a: nat, b: nat): nat { if a < b then a else b }

  // ---------------------------------------------------------------------
  // identify_relevant_competencies

  /** One keyword table: each entry pairs a keyword with the competencies
      it points to. */
  type KeywordTable = seq<(string, seq<string>)>

  /** The role competencies keyword `k` of the table contributes when it
      occurs in the lower-cased question. */
  function KeywordHits(lowerQuestion: string, competencies: seq<string>, table: KeywordTable, k: nat): set<string>
    requires k < |table|
  {
    if Contains(lowerQuestion, table[k].0)
    then set c | c in table[k].1 && c in competencies
    else {}
  }

  /** The matches contributed by the first `n` keywords of the table. */
  function MatchedUpTo(lowerQuestion: string, competencies: seq<string>, table: KeywordTable, n: nat): set<string>
    requires n <= |table|
  {
    if n == 0 then {}
    else MatchedUpTo(lowerQuestion, competencies, table, n - 1) + KeywordHits(lowerQuestion, competencies, table, n - 1)
  }

  /** `matching_competencies` once the keyword loop is over. */
  function Matched(question: string, competencies: seq<string>): set<string> {
    MatchedUpTo(Lower(question), competencies, KeywordMapping, |KeywordMapping|)
  }

  /** A competency is matched exactly when it belongs to the role and some
      keyword occurring in the question maps to it. */
  lemma {:induction false} MatchedUpToMeaning(lowerQuestion: string, competencies: seq<string>, table: KeywordTable, n: nat, c: string)
    requires n <= |table|
    ensures c in MatchedUpTo(lowerQuestion, competencies, table, n) <==>
      c in competencies &&
      exists k :: 0 <= k < n && Contains(lowerQuestion, table[k].0) && c in table[k].1
  {
    if n > 0 {
      MatchedUpToMeaning(lowerQuestion, competencies, table, n - 1, c);
      var k := n - 1;
      if c in KeywordHits(lowerQuestion, competencies, table, k) {
        assert Contains(lowerQuestion, table[k].0) && c in table[k].1;
      }
    }
  }

  lemma MatchedMeaning(question: string, competencies: seq<string>, c: string)
    ensures c in Matched(question, competencies) <==>
      c in competencies &&
      exists k :: 0 <= k < |KeywordMapping| && Contains(Lower(question), KeywordMapping[k].0) && c in KeywordMapping[k].1
  {
    MatchedUpToMeaning(Lower(question), competencies, KeywordMapping, |KeywordMapping|, c);
  }

  /** The keyword loop of `identify_relevant_competencies`: for every
      keyword found in the question, add the related competencies that
      belong to the role. */
  method CollectMatches(lowerQuestion: string, competencies: seq<string>, table: KeywordTable)
    returns (matching: set<string>)
    ensures matching == MatchedUpTo(lowerQuestion, competencies, table, |table|)
  {
    matching := {};
    var i := 0;
    while i < |table|
      invariant 0 <= i <= |table|
      invariant matching == MatchedUpTo(lowerQuestion, competencies, table, i)
    {
      var keyword := table[i].0;
      var related := table[i].1;
      if Contains(lowerQuestion, keyword) {
        var before := matching;
        var j := 0;
        while j < |related|
          invariant 0 <= j <= |related|
          invariant matching == before + set c | c in related[..j] && c in competencies
        {
          if related[j] in competencies {
            matching := matching + {related[j]};
          }
          assert related[..j + 1] == related[..j] + [related[j]];
          j := j + 1;
        }
        assert related[..j] == related;
      }
      i := i + 1;
    }
  }

  /** `list(matching_competencies)[:3]`: up to three distinct members of a
      set, in an order left open. */
  method TakeThree(matching: set<string>) returns (r: seq<string>)
    ensures |r| == Min(3, |matching|)
    ensures forall i :: 0 <= i < |r| ==> r[i] in matching
    ensures forall i, j :: 0 <= i < j < |r| ==> r[i] != r[j]
  {
    r := [];
    var rest := matching;
    while |r| < 3 && rest != {}
      invariant rest <= matching
      invariant forall k :: 0 <= k < |r| ==> r[k] in matching && r[k] !in rest
      invariant forall k, l :: 0 <= k < l < |r| ==> r[k] != r[l]
      invariant |r| + |rest| == |matching|
      invariant |r| <= 3
      decreases |rest|
    {
      var x :| x in rest;
      r := r + [x];
      rest := rest - {x};
    }
  }

  /** `identify_relevant_competencies`: collect the matched set keyword by
      keyword; with no match fall back to the first three role competencies,
      otherwise return up to three matches. Python's set order is not
      fixed, so which three are returned is left open. */
  method IdentifyRelevantCompetencies(question: string, competencies: seq<string>) returns (r: seq<string>)
    ensures |r| <= 3
    ensures Matched(question, competencies) == {} ==> r == competencies[..Min(3, |competencies|)]
    ensures Matched(question, competencies) != {} ==>
      && |r| == Min(3, |Matched(question, competencies)|)
      && (forall i :: 0 <= i < |r| ==> r[i] in Matched(question, competencies))
      && (forall i, j :: 0 <= i < j < |r| ==> r[i] != r[j])
  {
    var matching := CollectMatches(Lower(question), competencies, KeywordMapping);
    if matching == {} {
      return competencies[..Min(3, |competencies|)];
    }
    r := TakeThree(matching);
  }

  // ---------------------------------------------------------------------
  // choose_primary_competency

  /** The index picked by the first answer that is a number in range;
      answers that are not numbers (`None`) or out of range are asked
      again. */
  function FirstPick(answers: seq<Option<int>>, n: nat): (r: Option<nat>)
    ensures r.Some? ==> r.value < n
    ensures r.Some? <==> exists k :: 0 <= k < |answers| && answers[k].Some? && 1 <= answers[k].value <= n
  {
    if answers == [] then None
    else if answers[0].Some? && 1 <= answers[0].value <= n then Some(answers[0].value - 1)
    else
      var r := FirstPick(answers[1..], n);
      assert forall k :: 1 <= k < |answers| ==> answers[k] == answers[1..][k - 1];
      r
  }

  /** `choose_primary_competency`: the only competency when there is one,
      otherwise the first valid numbered answer. */
  method ChoosePrimaryCompetency(competencies: seq<string>, answers: seq<Option<int>>) returns (r: Option<string>)
    ensures |competencies| == 1 ==> r == Some(competencies[0])
    ensures r.Some? ==> r.value in competencies
    ensures |competencies| != 1 ==>
      r == (if FirstPick(answers, |competencies|).Some?
            then Some(competencies[FirstPick(answers, |competencies|).value]) else None)
  {
    if |competencies| == 1 {
      return Some(competencies[0]);
    }
    var i := 0;
    while i < |answers|
      invariant 0 <= i <= |answers|
      invariant FirstPick(answers, |competencies|) == FirstPick(answers[i..], |competencies|)
    {
      assert answers[i..][1..] == answers[i + 1..];
      if answers[i].Some? && 1 <= answers[i].value <= |competencies| {
        return Some(competencies[answers[i].value - 1]);
      }
      i := i + 1;
    }
    return None;
  }

  // ---------------------------------------------------------------------
  // Section prompts and clarifying questions

  /** `competency_details[competency][section]`. */
  function DetailField(d: CompetencyDetails, section: string): string
    requires section in SectionNames
  {
    if section == "situation" then d.situation
    else if section == "task" then d.task
    else if section == "action" then d.action
    else d.result
  }

  /** The guard of every prompt getter: the details give non-empty guidance
      for this competency and section. */
  predicate HasGuidance(details: map<string, CompetencyDetails>, competency: string, section: string)
    requires section in SectionNames
  {
    competency in details && DetailField(details[competency], section) != ""
  }

  function PromptTable(section: string): map<string, string>
    requires section in SectionNames
  {
    if section == "situation" then SituationPrompts
    else if section == "task" then TaskPrompts
    else if section == "action" then ActionPrompts
    else ResultPrompts
  }

  function DefaultPrompt(section: string): string
    requires section in SectionNames
  {
    if section == "situation" then SituationDefault
    else if section == "task" then TaskDefault
    else if section == "action" then ActionDefault
    else ResultDefault
  }

  /** `get_competency_<section>_prompt(competency, competency_details)`:
      the details' guidance first, then the competency's table entry, then
      the section's default. */
  function SectionPrompt(section: string, competency: string, details: map<string, CompetencyDetails>): (p: string)
    requires section in SectionNames
    ensures HasGuidance(details, competency, section) ==>
      p == "Suggested guidance for " + competency + " " + section + "s:\n" + DetailField(details[competency], section)
    ensures !HasGuidance(details, competency, section) ==>
      p == (if competency in PromptTable(section) then PromptTable(section)[competency] else DefaultPrompt(section))
  {
    if HasGuidance(details, competency, section) then
      "Suggested guidance for " + competency + " " + section + "s:\n" + DetailField(details[competency], section)
    else if competency in PromptTable(section) then PromptTable(section)[competency]
    else DefaultPrompt(section)
  }

  /** With the fallback framework the details never give guidance, so every
      prompt is the one a caller without details would get. */
  lemma FallbackPromptsAreTablePrompts(section: string, competency: string)
    requires section in SectionNames
    ensures SectionPrompt(section, competency, RoleFallback.competencyDetails)
         == SectionPrompt(section, competency, map[])
  {
    if competency in RoleFallback.competencyDetails {
      FallbackHasNoGuidance(competency);
    }
  }

  function ClarifyingTable(section: string): map<string, seq<string>>
    requires section in SectionNames
  {
    if section == "situation" then SituationClarifying
    else if section == "task" then TaskClarifying
    else if section == "action" then ActionClarifying
    else ResultClarifying
  }

  function ClarifyingDefault(section: string): seq<string>
    requires section in SectionNames
  {
    if section == "situation" then SituationClarifyingDefault
    else if section == "task" then TaskClarifyingDefault
    else if section == "action" then ActionClarifyingDefault
    else ResultClarifyingDefault
  }

  /** `get_<section>_clarifying_questions(competency, text)`: never empty,
      so the clarification round is always run. */
  function ClarifyingQuestions(section: string, competency: string): (qs: seq<string>)
    requires section in SectionNames
    ensures |qs| > 0
  {
    var table := ClarifyingTable(section);
    assert forall c :: c in table ==> |table[c]| == 2;
    if competency in table then table[competency] else ClarifyingDefault(section)
  }

  /** The section text after the clarifying round: each non-empty answer is
      appended after one space; empty answers add nothing. */
  function Clarified(text: string, answers: seq<string>): string
    decreases |answers|
  {
    if answers == [] then text
    else Clarified(if answers[0] != "" then text + " " + answers[0] else text, answers[1..])
  }

  /** The loop of `build_enhanced_star_story` over the answers to one
      section's clarifying questions. */
  method AppendClarifications(text: string, answers: seq<string>) returns (r: string)
    ensures r == Clarified(text, answers)
  {
    r := text;
    var i := 0;
    while i < |answers|
      invariant 0 <= i <= |answers|
      invariant Clarified(r, answers[i..]) == Clarified(text, answers)
    {
      assert answers[i..][1..] == answers[i + 1..];
      if answers[i] != "" {
        r := r + " " + answers[i];
      }
      i := i + 1;
    }
  }

  /** Total length the answers add: one space plus the answer, per
      non-empty answer. */
  function AddedLength(answers: seq<string>): nat {
    if answers == [] then 0
    else (if answers[0] != "" then 1 + |answers[0]| else 0) + AddedLength(answers[1..])
  }

  /** The clarifying round only ever extends the text: the original text is
      a prefix, and the growth is exactly one space per non-empty answer
      plus the answers themselves. */
  lemma {:induction false} ClarifiedExtends(text: string, answers: seq<string>)
    ensures IsPrefix(text, Clarified(text, answers))
    ensures |Clarified(text, answers)| == |text| + AddedLength(answers)
    decreases |answers|
  {
    if answers != [] {
      var next := if answers[0] != "" then text + " " + answers[0] else text;
      ClarifiedExtends(next, answers[1..]);
      var r := Clarified(next, answers[1..]);
      assert r[..|text|] == r[..|next|][..|text|];
      assert next[..|text|] == text;
    }
  }

  /** Only empty answers leave the text as it was. */
  lemma ClarifiedUnchangedIffAllEmpty(text: string, answers: seq<string>)
    ensures Clarified(text, answers) == text <==> forall i :: 0 <= i < |answers| ==> answers[i] == ""
  {
    ClarifiedExtends(text, answers);
    AddedLengthZeroIffAllEmpty(answers);
    if Clarified(text, answers) != text {
      assert IsPrefix(text, Clarified(text, answers));
    }
  }

  lemma {:induction false} AddedLengthZeroIffAllEmpty(answers: seq<string>)
    ensures AddedLength(answers) == 0 <==> forall i :: 0 <= i < |answers| ==> answers[i] == ""
  {
    if answers != [] {
      AddedLengthZeroIffAllEmpty(answers[1..]);
      assert forall i :: 1 <= i < |answers| ==> answers[i] == answers[1..][i - 1];
    }
  }

  // ---------------------------------------------------------------------
  // enhance_text and generate_talented_response

  /** `examples[:100]`. */
  function Excerpt(s: string): (e: string)
    ensures |e| <= 100 && IsPrefix(e, s)
    ensures |s| <= 100 ==> e == s
  {
    if |s| <= 100 then s else s[..100]
  }

  /** `enhance_text`: a section of twenty words or more is returned as it
      is; a shorter one gets a bracketed note after a space, quoting at most
      100 characters of the details' guidance when there is any. */
  function EnhanceText(text: string, competency: string, section: string,
                       details: map<string, CompetencyDetails>): (r: string)
    requires section in SectionNames
    ensures WordCount(text) >= 20 ==> r == text
    ensures WordCount(text) < 20 ==> IsPrefix(text + " [Note:", r) && r[|r| - 1] == ']'
    ensures WordCount(text) < 20 && HasGuidance(details, competency, section) ==>
      IsSuffix(" Example: " + Excerpt(DetailField(details[competency], section)) + "...]", r)
    ensures WordCount(text) < 20 && !HasGuidance(details, competency, section) ==>
      IsSuffix(competency + ".]", r)
  {
    if WordCount(text) < 20 then
      var body := " Consider expanding this section with more specific details relevant to " + competency + ".";
      var tail := if HasGuidance(details, competency, section)
        then " Example: " + Excerpt(DetailField(details[competency], section)) + "...]"
        else "]";
      var r := (text + " [Note:") + (body + tail);
      assert r[..|text + " [Note:"|] == text + " [Note:";
      assert r[|r| - |tail|..] == tail;
      assert !HasGuidance(details, competency, section) ==> r[|r| - |competency + ".]"|..] == competency + ".]";
      r
    else text
  }

  /** `generate_talented_response`: each of the four sections enhanced. */
  function GenerateTalentedResponse(story: StarText, competency: string,
                                    details: map<string, CompetencyDetails>): (r: StarText)
    ensures r.situation == EnhanceText(story.situation, competency, "situation", details)
    ensures r.task == EnhanceText(story.task, competency, "task", details)
    ensures r.action == EnhanceText(story.action, competency, "action", details)
    ensures r.result == EnhanceText(story.result, competency, "result", details)
  {
    StarText(
      EnhanceText(story.situation, competency, "situation", details),
      EnhanceText(story.task, competency, "task", details),
      EnhanceText(story.action, competency, "action", details),
      EnhanceText(story.result, competency, "result", details))
  }

  /** The talented response keeps every section as a prefix and leaves a
      story whose sections all have twenty words or more untouched. */
  lemma TalentedResponseExtends(story: StarText, competency: string, details: map<string, CompetencyDetails>)
    ensures var r := GenerateTalentedResponse(story, competency, details);
      && IsPrefix(story.situation, r.situation) && IsPrefix(story.task, r.task)
      && IsPrefix(story.action, r.action) && IsPrefix(story.result, r.result)
    ensures WordCount(story.situation) >= 20 && WordCount(story.task) >= 20
         && WordCount(story.action) >= 20 && WordCount(story.result) >= 20
         ==> GenerateTalentedResponse(story, competency, details) == story
  {
    var r := GenerateTalentedResponse(story, competency, details);
    EnhancePrefix(story.situation, competency, "situation", details);
    EnhancePrefix(story.task, competency, "task", details);
    EnhancePrefix(story.action, competency, "action", details);
    EnhancePrefix(story.result, competency, "result", details);
  }

  lemma EnhancePrefix(text: string, competency: string, section: string, details: map<string, CompetencyDetails>)
    requires section in SectionNames
    ensures IsPrefix(text, EnhanceText(text, competency, section, details))
  {
    var r := EnhanceText(text, competency, section, details);
    if WordCount(text) < 20 {
      assert r[..|text|] == r[..|text + " [Note:"|][..|text|];
    }
  }
}
