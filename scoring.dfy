/** The story scoring and feedback engine shared by `STARMethodCoach` and
    `UnifiedSTARCoach`: measurements derived from the four STAR texts, the
    ordered decision list that turns them into a label, and the feedback
    report. Both coaches run exactly these rules; they differ only in how
    the story is held and which catalog they pass in. */
module Scoring {
  import opened Wrappers
  import opened Text
  import opened Catalog

  /** The four narrative texts of a story. */
  datatype StarText = StarText(situation: string, task: string, action: string, result: string)

  /** The measurements the rules read. */
  datatype Measures = Measures(
    situationLen: nat,
    taskLen: nat,
    actionLen: nat,
    resultLen: nat,
    quantifiable: bool,
    personal: bool,
    skilledAlignment: nat,
    unskilledAlignment: nat)

  /** Personal voice: plain substring containment of "i ", "my " or "me " in
      the lower-cased action, so "time " counts as well. */
  predicate PersonalVoice(action: string) {
    Contains(Lower(action), "i ") || Contains(Lower(action), "my ") || Contains(Lower(action), "me ")
  }

  /** Some whitespace-separated word of the lower-cased sign occurs in the
      lower-cased action or result. */
  predicate SignMatches(sign: string, actionLower: string, resultLower: string) {
    exists w :: w in Words(Lower(sign)) && (Contains(actionLower, w) || Contains(resultLower, w))
  }

  /** The number of signs that match the story. */
  function Alignment(signs: seq<string>, actionLower: string, resultLower: string): (n: nat)
    ensures n <= |signs|
    ensures n == 0 <==> forall i :: 0 <= i < |signs| ==> !SignMatches(signs[i], actionLower, resultLower)
    ensures n == |signs| <==> forall i :: 0 <= i < |signs| ==> SignMatches(signs[i], actionLower, resultLower)
  {
    if signs == [] then 0
    else
      var rest := Alignment(signs[1..], actionLower, resultLower);
      assert forall i :: 1 <= i < |signs| ==> signs[i] == signs[1..][i - 1];
      (if SignMatches(signs[0], actionLower, resultLower) then 1 else 0) + rest
  }

  /** All measurements of a story against one competency entry. */
  function Measure(t: StarText, e: CompetencyEntry): (m: Measures)
    ensures m.situationLen == WordCount(t.situation) && m.taskLen == WordCount(t.task)
    ensures m.actionLen == WordCount(t.action) && m.resultLen == WordCount(t.result)
    ensures m.quantifiable <==> HasDigit(t.result)
    ensures m.personal <==> PersonalVoice(t.action)
    ensures m.skilledAlignment <= |e.skilledSigns| && m.unskilledAlignment <= |e.unskilledSigns|
  {
    var a := Lower(t.action);
    var r := Lower(t.result);
    Measures(
      WordCount(t.situation), WordCount(t.task), WordCount(t.action), WordCount(t.result),
      HasDigit(t.result), PersonalVoice(t.action),
      Alignment(e.skilledSigns, a, r), Alignment(e.unskilledSigns, a, r))
  }

  /** Rule 1's condition: a section is too short to judge. */
  predicate TooShort(m: Measures) {
    m.situationLen < 20 || m.actionLen < 30 || m.resultLen < 20
  }

  /** Rule 4's condition, also the trigger of the "Balance" suggestion. */
  predicate ActionHeavy(m: Measures) {
    m.actionLen > 200 && m.resultLen < 50
  }

  /** The ordered decision list; the first rule that fires decides, and
      Skilled is the default when none does. */
  function Classify(m: Measures): (l: Label)
    // rule 1 beats everything
    ensures TooShort(m) ==> l == Unskilled
    // rule 2 (no personal voice) comes before the digit check
    ensures !TooShort(m) && !m.personal ==> l == Unskilled
    // rule 3 (no digit) comes before the Overused check
    ensures !TooShort(m) && m.personal && !m.quantifiable ==> l == Skilled
    // rule 4 (action-heavy) comes before Talented is considered
    ensures !TooShort(m) && m.personal && m.quantifiable && ActionHeavy(m) ==> l == Overused
    ensures l == Talented ==>
      m.actionLen > 50 && m.skilledAlignment > 2 && m.quantifiable && m.personal
      && !ActionHeavy(m) && !TooShort(m)
    ensures l == Overused ==> ActionHeavy(m) && 20 <= m.resultLen < 50 && m.personal && m.quantifiable
    ensures l == Unskilled && !TooShort(m) && m.personal && m.quantifiable ==> m.unskilledAlignment > 2
  {
    if TooShort(m) then Unskilled
    else if !m.personal then Unskilled
    else if !m.quantifiable then Skilled
    else if ActionHeavy(m) then Overused
    else if m.skilledAlignment > 2 && m.quantifiable && m.personal && m.actionLen > 50 then Talented
    else if m.unskilledAlignment > 2 then Unskilled
    else Skilled
  }

  /** An order-free description of each label, read off the rubric. */
  predicate IsTalented(m: Measures) {
    !TooShort(m) && m.personal && m.quantifiable && !ActionHeavy(m)
    && m.skilledAlignment > 2 && m.actionLen > 50
  }

  predicate IsOverused(m: Measures) {
    !TooShort(m) && m.personal && m.quantifiable && ActionHeavy(m)
  }

  predicate IsUnskilled(m: Measures) {
    TooShort(m) || !m.personal
    || (m.quantifiable && !ActionHeavy(m) && !IsTalented(m) && m.unskilledAlignment > 2)
  }

  /** The decision list agrees with the order-free description, label by
      label and in both directions. */
  lemma ClassifyCharacterised(m: Measures)
    ensures Classify(m) == Talented <==> IsTalented(m)
    ensures Classify(m) == Overused <==> IsOverused(m)
    ensures Classify(m) == Unskilled <==> IsUnskilled(m)
    ensures Classify(m) == Skilled <==> !IsTalented(m) && !IsOverused(m) && !IsUnskilled(m)
  {
  }

  /** Adding a digit to the result of an otherwise sound story moves it off
      the rule-3 Skilled only when rule 4, 5 or 6 then fires. */
  lemma QuantifyingMovesOnlyViaLaterRules(m: Measures)
    requires !TooShort(m) && m.personal && !m.quantifiable
    ensures Classify(m) == Skilled
    ensures var q := m.(quantifiable := true);
      Classify(q) != Skilled <==>
        ActionHeavy(q) || (q.skilledAlignment > 2 && q.actionLen > 50) || q.unskilledAlignment > 2
  {
  }

  /** A section that is present but blank has no words, so the story is
      judged too short. */
  lemma {:induction false} BlankSectionIsTooShort(t: StarText, e: CompetencyEntry)
    requires IsBlank(t.situation) || IsBlank(t.action) || IsBlank(t.result)
    ensures TooShort(Measure(t, e))
    ensures Classify(Measure(t, e)) == Unskilled
  {
    WordCountZeroIffBlank(t.situation);
    WordCountZeroIffBlank(t.action);
    WordCountZeroIffBlank(t.result);
  }

  /** The substring reading of personal voice accepts "time " although it
      holds no first-person word. */
  lemma PersonalVoiceFalsePositive()
    ensures PersonalVoice("it was time to act")
  {
    var a := Lower("it was time to act");
    assert a == "it was time to act";
    assert a[9..12] == "me ";
    ContainsAt(a, "me ", 9);
  }

  // ---------------------------------------------------------------------
  // Feedback

  /** The seven independent improvement suggestions, in output order. */
  datatype Suggestion =
    | AddContext | ClarifyTask | UseFirstPerson | DetailActions
    | ExpandOutcome | QuantifyResults | Rebalance

  /** Position of a suggestion in the fixed output order. */
  function Rank(s: Suggestion): nat {
    match s
    case AddContext => 0
    case ClarifyTask => 1
    case UseFirstPerson => 2
    case DetailActions => 3
    case ExpandOutcome => 4
    case QuantifyResults => 5
    case Rebalance => 6
  }

  /** The condition under which each suggestion is printed. */
  predicate Triggered(s: Suggestion, m: Measures) {
    match s
    case AddContext => m.situationLen < 20
    case ClarifyTask => m.taskLen < 20
    case UseFirstPerson => !m.personal
    case DetailActions => m.actionLen < 50
    case ExpandOutcome => m.resultLen < 20
    case QuantifyResults => !m.quantifiable
    case Rebalance => ActionHeavy(m)
  }

  function SuggestionText(s: Suggestion): string {
    match s
    case AddContext => "- Add more context to your situation to set the stage more effectively."
    case ClarifyTask => "- Clarify your specific responsibility or challenge in more detail."
    case UseFirstPerson => "- Focus more on YOUR actions by using 'I' statements rather than 'we' or passive voice."
    case DetailActions => "- Provide more specific details about the steps you took and your decision-making process."
    case ExpandOutcome => "- Expand on the outcomes and impact of your actions."
    case QuantifyResults => "- Include specific numbers or metrics to quantify your results (%, $, time saved, etc.)."
    case Rebalance => "- Balance your story by focusing more on results and less on listing every action step."
  }

  /** The suggestion at a given position of the output order. */
  function AtRank(k: nat): (s: Suggestion)
    requires k < 7
    ensures Rank(s) == k
  {
    [AddContext, ClarifyTask, UseFirstPerson, DetailActions, ExpandOutcome, QuantifyResults, Rebalance][k]
  }

  /** The triggered suggestions from position `k` on, in order. */
  function SuggestionsFrom(m: Measures, k: nat): (r: seq<Suggestion>)
    requires k <= 7
    ensures forall s :: s in r <==> Rank(s) >= k && Triggered(s, m)
    ensures forall i :: 0 <= i < |r| ==> Rank(r[i]) >= k
    ensures forall i, j :: 0 <= i < j < |r| ==> Rank(r[i]) < Rank(r[j])
    decreases 7 - k
  {
    if k == 7 then []
    else
      var s := AtRank(k);
      (if Triggered(s, m) then [s] else []) + SuggestionsFrom(m, k + 1)
  }

  /** The suggestions printed for a story: each appears exactly when its own
      condition holds, and always in the fixed order. */
  function Suggestions(m: Measures): (r: seq<Suggestion>)
    ensures forall s :: s in r <==> Triggered(s, m)
    ensures forall i, j :: 0 <= i < j < |r| ==> Rank(r[i]) < Rank(r[j])
  {
    SuggestionsFrom(m, 0)
  }

  /** The label's opening sentence of the feedback. */
  function VerdictText(l: Label): string {
    match l
    case Talented => "Your story demonstrates excellent mastery of this competency. It's detailed, focused, and shows significant impact."
    case Skilled => "Your story effectively demonstrates this competency. It provides a clear example with appropriate detail and positive outcomes."
    case Unskilled => "Your story needs improvement to effectively demonstrate this competency. It lacks some key elements that would make it more convincing."
    case Overused => "Your story shows an overemphasis on certain aspects of the competency, potentially at the expense of balance and effectiveness."
  }

  /** The two fixed closing tips of each framework competency, in the order
      the `if`/`elif` chain of `provide_feedback` tests the names. */
  const ClosingTips: map<string, seq<string>> := map[
    "Action Oriented" := [
      "- Emphasizing how quickly you took initiative without excessive planning",
      "- Highlighting your eagerness to tackle challenges head-on" ],
    "Being Resilient" := [
      "- Focusing more on how you maintained composure under pressure",
      "- Emphasizing what you learned from overcoming adversity" ],
    "Collaborates" := [
      "- Detailing how you balanced your interests with those of others",
      "- Explaining how you recognized others' contributions" ],
    "Communicates Effectively" := [
      "- Highlighting how you adapted your communication style to different audiences",
      "- Showing how you ensured your message was clearly understood" ],
    "Customer Focus" := [
      "- Emphasizing how you gained insight into customer needs",
      "- Detailing how you built a strong customer relationship" ],
    "Decision Quality" := [
      "- Highlighting the factors you considered in your decision-making process",
      "- Showing how you made decisions with incomplete information" ],
    "Drives Results" := [
      "- Emphasizing your persistence despite obstacles",
      "- Highlighting how you exceeded expectations or goals" ],
    "Strategic Mindset" := [
      "- Emphasizing how you anticipated future trends or implications",
      "- Showing how your approach aligned with broader objectives" ]
  ]

  /** The closing tips for any name: none outside the framework. */
  function StrengthenTips(competency: string): seq<string> {
    if competency in ClosingTips then ClosingTips[competency] else []
  }

  /** Exactly the framework competencies have tips, two each. */
  lemma ClosingTipsCoverFramework()
    ensures ClosingTips.Keys == CompetencyNameSet
    ensures forall c :: c in ClosingTips ==> |ClosingTips[c]| == 2
  {
  }

  /** The competency-specific closing block. */
  datatype Closing =
    | ConsiderSigns(signs: seq<string>)   // "Consider incorporating these elements ..."
    | Strengthen(tips: seq<string>)       // "To further strengthen your story ..."

  predicate NeedsSigns(l: Label) { l == Unskilled || l == Overused }

  /** The closing block; `None` stands for the failed catalog lookup when a
      weak story names a competency the catalog does not hold. */
  function ClosingFor(competency: string, l: Label, catalog: map<string, CompetencyEntry>): (r: Option<Closing>)
    ensures NeedsSigns(l) ==> (r.Some? <==> competency in catalog)
    ensures NeedsSigns(l) && r.Some? ==>
      && r.value.ConsiderSigns?
      && |r.value.signs| == (if |catalog[competency].skilledSigns| < 2 then |catalog[competency].skilledSigns| else 2)
      && r.value.signs == catalog[competency].skilledSigns[..|r.value.signs|]
    ensures !NeedsSigns(l) ==> r.Some? && r.value.Strengthen?
  {
    if NeedsSigns(l) then
      if competency in catalog then
        var signs := catalog[competency].skilledSigns;
        Some(ConsiderSigns(if |signs| < 2 then signs else signs[..2]))
      else None
    else Some(Strengthen(StrengthenTips(competency)))
  }

  /** With either coach's catalog, a weak story is told exactly the first two
      skilled signs of its competency, and any other story gets the two
      fixed tips of its competency. */
  lemma ClosingWithFrameworkCatalog(competency: string, l: Label)
    requires competency in CoachCompetencies
    ensures ClosingFor(competency, l, CoachCompetencies)
         == ClosingFor(competency, l, GeneralCompetencies)
    ensures NeedsSigns(l) ==>
      ClosingFor(competency, l, CoachCompetencies) == Some(ConsiderSigns(CoachCompetencies[competency].skilledSigns[..2]))
    ensures !NeedsSigns(l) ==>
      && ClosingFor(competency, l, CoachCompetencies) == Some(Strengthen(StrengthenTips(competency)))
      && |StrengthenTips(competency)| == 2
  {
    CatalogKeys();
    CatalogsAgree(competency);
    EnoughSkilledSigns();
    ClosingTipsCoverFramework();
  }

  /** The structured feedback of `provide_feedback`. */
  datatype FeedbackReport = FeedbackReport(
    verdict: string,
    suggestions: seq<Suggestion>,
    competency: string,
    closing: Closing)

  /** `provide_feedback(score)` for a story and competency. */
  function Feedback(t: StarText, competency: string, l: Label,
                    catalog: map<string, CompetencyEntry>): (r: FeedbackReport)
    requires competency in catalog
    ensures r.verdict == VerdictText(l) && r.competency == competency
    ensures forall s :: s in r.suggestions <==> Triggered(s, Measure(t, catalog[competency]))
    ensures forall i, j :: 0 <= i < j < |r.suggestions| ==> Rank(r.suggestions[i]) < Rank(r.suggestions[j])
    ensures ClosingFor(competency, l, catalog) == Some(r.closing)
  {
    var m := Measure(t, catalog[competency]);
    var c := ClosingFor(competency, l, catalog);
    FeedbackReport(VerdictText(l), Suggestions(m), competency, c.value)
  }

  function SuggestionLines(ss: seq<Suggestion>): (lines: seq<string>)
    ensures |lines| == |ss|
    ensures forall i :: 0 <= i < |ss| ==> lines[i] == SuggestionText(ss[i])
  {
    if ss == [] then [] else [SuggestionText(ss[0])] + SuggestionLines(ss[1..])
  }

  function PrefixAll(prefix: string, xs: seq<string>): (r: seq<string>)
    ensures |r| == |xs|
    ensures forall i :: 0 <= i < |xs| ==> r[i] == prefix + xs[i]
  {
    if xs == [] then [] else [prefix + xs[0]] + PrefixAll(prefix, xs[1..])
  }

  /** The printed lines of the feedback, in order. */
  function FeedbackLines(r: FeedbackReport): seq<string> {
    [r.verdict, "\nSpecific suggestions for improvement:"]
    + SuggestionLines(r.suggestions)
    + ["\nCompetency-specific feedback for '" + r.competency + "':"]
    + match r.closing
      case ConsiderSigns(signs) =>
        ["Consider incorporating these elements that demonstrate skill in this competency:"]
        + PrefixAll("- ", signs)
      case Strengthen(tips) =>
        ["To further strengthen your story for this competency, consider:"] + tips
  }

  // ---------------------------------------------------------------------
  // The whole assessment

  /** Outcome of scoring: the two refusals and the assessed result. */
  datatype Assessment =
    | Incomplete
    | UnknownCompetency(name: string)
    | Assessed(score: Label, description: string, feedback: FeedbackReport)

  predicate Complete(t: StarText, competency: string) {
    t.situation != "" && t.task != "" && t.action != "" && t.result != "" && competency != ""
  }

  /** `score_story` without its printing: refuse an incomplete story, fail on
      an unknown competency, otherwise measure, classify, describe and give
      feedback. */
  function Assess(t: StarText, competency: string, catalog: map<string, CompetencyEntry>): (a: Assessment)
    ensures a.Incomplete? <==> !Complete(t, competency)
    ensures a.UnknownCompetency? <==> Complete(t, competency) && competency !in catalog
    ensures a.Assessed? ==>
      && competency in catalog
      && a.score == Classify(Measure(t, catalog[competency]))
      && a.description == ScoringCriteria[LabelName(a.score)].description
      && a.feedback == Feedback(t, competency, a.score, catalog)
  {
    if !Complete(t, competency) then Incomplete
    else if competency !in catalog then UnknownCompetency(competency)
    else
      var l := Classify(Measure(t, catalog[competency]));
      Assessed(l, ScoreDescription(l), Feedback(t, competency, l, catalog))
  }

  /** `c * n` in Python: `n` copies of `c`. */
  function Repeat(c: char, n: nat): (r: string)
    ensures |r| == n && forall i :: 0 <= i < n ==> r[i] == c
  {
    if n == 0 then [] else [c] + Repeat(c, n - 1)
  }

  /** Everything `score_story` prints, in order. On an unknown competency the
      header is printed before the failing lookup raises. */
  function AssessmentLines(a: Assessment): seq<string> {
    match a
    case Incomplete => ["\nCannot score an incomplete story."]
    case UnknownCompetency(_) => ["\n" + Repeat('=', 80), "STORY ASSESSMENT"]
    case Assessed(l, d, f) =>
      ["\n" + Repeat('=', 80), "STORY ASSESSMENT", "\nSCORE: " + LabelName(l),
       "\nScore Description: " + d, "\nFEEDBACK:"]
      + FeedbackLines(f)
  }

  /** An assessed weak story is shown the first two skilled signs of its
      competency. */
  lemma AssessedClosing(t: StarText, competency: string, catalog: map<string, CompetencyEntry>)
    requires Complete(t, competency) && competency in catalog
    requires |catalog[competency].skilledSigns| >= 2
    ensures var a := Assess(t, competency, catalog);
      && a.Assessed?
      && (NeedsSigns(a.score) ==> a.feedback.closing == ConsiderSigns(catalog[competency].skilledSigns[..2]))
      && (!NeedsSigns(a.score) ==> a.feedback.closing == Strengthen(StrengthenTips(competency)))
  {
    var l := Classify(Measure(t, catalog[competency]));
    var a := Assess(t, competency, catalog);
    assert a.score == l && a.feedback == Feedback(t, competency, l, catalog);
    ClosingOfEntry(competency, l, catalog);
  }

  /** The closing for a competency with at least two skilled signs. */
  lemma ClosingOfEntry(competency: string, l: Label, catalog: map<string, CompetencyEntry>)
    requires competency in catalog && |catalog[competency].skilledSigns| >= 2
    ensures NeedsSigns(l) ==> ClosingFor(competency, l, catalog) == Some(ConsiderSigns(catalog[competency].skilledSigns[..2]))
    ensures !NeedsSigns(l) ==> ClosingFor(competency, l, catalog) == Some(Strengthen(StrengthenTips(competency)))
  {
  }

  /** An assessed story without a digit in its result is always told to
      quantify it, and the rebalance advice appears exactly for an
      action-heavy story. */
  lemma AssessedSuggestions(t: StarText, competency: string, catalog: map<string, CompetencyEntry>)
    requires Complete(t, competency) && competency in catalog
    ensures var a := Assess(t, competency, catalog);
      && a.Assessed?
      && (QuantifyResults in a.feedback.suggestions <==> !HasDigit(t.result))
      && (Rebalance in a.feedback.suggestions <==> ActionHeavy(Measure(t, catalog[competency])))
  {
    var m := Measure(t, catalog[competency]);
    var f := Feedback(t, competency, Classify(m), catalog);
    assert Assess(t, competency, catalog).feedback == f;
    QuantifyAndRebalance(m, f.suggestions);
  }

  lemma QuantifyAndRebalance(m: Measures, ss: seq<Suggestion>)
    requires forall s :: s in ss <==> Triggered(s, m)
    ensures QuantifyResults in ss <==> !m.quantifiable
    ensures Rebalance in ss <==> ActionHeavy(m)
  {
    assert Triggered(QuantifyResults, m) == !m.quantifiable;
    assert Triggered(Rebalance, m) == ActionHeavy(m);
  }
}
