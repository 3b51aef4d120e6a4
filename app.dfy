/** The deterministic decisions of the Streamlit front end: slugs for file
    names, the fallback interview prompts, the STAR progress bar and the
    checks made before and after scoring. Rendering and the remote model
    calls are not part of this module. */
module App {
  import opened Wrappers
  import opened Text
  import opened Scoring

  // ---------------------------------------------------------------------
  // slugify

  /** The characters `[\w\-_. ]` keeps. */
  predicate SlugKeeps(c: char) { IsWordChar(c) || c == '-' || c == '.' || c == ' ' }

  /** A character a slug may hold. */
  predicate SlugChar(c: char) { IsWordChar(c) || c == '-' || c == '.' }

  /** `re.sub(r'[^\w\-_. ]', '', value)`: the kept characters, in order. */
  function SlugFilter(s: string): (r: string)
    ensures |r| <= |s|
    ensures forall i :: 0 <= i < |r| ==> SlugKeeps(r[i])
  {
    if s == [] then ""
    else (if SlugKeeps(s[0]) then [s[0]] else "") + SlugFilter(s[1..])
  }

  /** A string of kept characters passes the filter unchanged. */
  lemma {:induction false} SlugFilterKeepsKept(s: string)
    requires forall i :: 0 <= i < |s| ==> SlugKeeps(s[i])
    ensures SlugFilter(s) == s
  {
    if s != [] {
      assert forall i :: 0 <= i < |s[1..]| ==> s[1..][i] == s[i + 1];
      SlugFilterKeepsKept(s[1..]);
      assert s == [s[0]] + s[1..];
    }
  }

  function Min(a: nat, b: nat): nat { if a < b then a else b }

  /** `slugify`: at most 80 characters, each a word character, `-` or `.`;
      the first 80 characters of the filtered text with its spaces turned
      into `_`. */
  function Slugify(value: string): (r: string)
    ensures |r| == Min(80, |SlugFilter(value)|)
    ensures forall i :: 0 <= i < |r| ==> SlugChar(r[i])
    ensures IsPrefix(r, ReplaceChar(SlugFilter(value), ' ', '_'))
  {
    var replaced := ReplaceChar(SlugFilter(value), ' ', '_');
    if |replaced| <= 80 then replaced else replaced[..80]
  }

  /** A slug is its own slug. */
  lemma SlugifyIdempotent(value: string)
    ensures Slugify(Slugify(value)) == Slugify(value)
  {
    var r := Slugify(value);
    SlugFilterKeepsKept(r);
    assert ReplaceChar(r, ' ', '_') == r;
  }

  /** Text that is already a short slug is kept as it is; in particular no
      character outside the pattern survives. */
  lemma ShortSlugUnchanged(value: string)
    requires |value| <= 80
    requires forall i :: 0 <= i < |value| ==> SlugChar(value[i])
    ensures Slugify(value) == value
  {
    SlugFilterKeepsKept(value);
    assert ReplaceChar(value, ' ', '_') == value;
  }

  // ---------------------------------------------------------------------
  // get_behavioral_prompts_for_competency

  /** The questions for a competency: its entry in the question table when
      it has one (`COMPETENCY_QUESTIONS`, given as a parameter), otherwise
      four generic prompts that each name the competency. */
  function BehavioralPrompts(name: string, questions: map<string, seq<string>>): (ps: seq<string>)
    ensures name in questions ==> ps == questions[name]
    ensures name !in questions ==> |ps| == 4 && forall i :: 0 <= i < 4 ==> Contains(ps[i], name)
  {
    if name in questions then questions[name]
    else
      var ps := [
        "Describe a time you demonstrated " + name + " in a challenging situation.",
        "Share an experience when your " + name + " skills made a difference.",
        "Give an example of how you used " + name + " to achieve a positive outcome.",
        "Tell me about a situation where " + name + " was critical to your success."
      ];
      ContainsMiddle("Describe a time you demonstrated ", name, " in a challenging situation.");
      ContainsMiddle("Share an experience when your ", name, " skills made a difference.");
      ContainsMiddle("Give an example of how you used ", name, " to achieve a positive outcome.");
      ContainsMiddle("Tell me about a situation where ", name, " was critical to your success.");
      ps
  }

  // ---------------------------------------------------------------------
  // star_progress

  /** `bool(x.strip())`. */
  function Filled1(x: string): nat { if IsBlank(x) then 0 else 1 }

  /** How many of the four sections hold more than whitespace. */
  function FilledCount(t: StarText): (n: nat)
    ensures n <= 4
    ensures n == 4 <==> !IsBlank(t.situation) && !IsBlank(t.task) && !IsBlank(t.action) && !IsBlank(t.result)
    ensures n == 0 <==> IsBlank(t.situation) && IsBlank(t.task) && IsBlank(t.action) && IsBlank(t.result)
  {
    Filled1(t.situation) + Filled1(t.task) + Filled1(t.action) + Filled1(t.result)
  }

  datatype Colour = Green | Amber | Red

  /** The hex code the bar is drawn with. */
  function ColourCode(c: Colour): string {
    match c
    case Green => "#4caf50"
    case Amber => "#ffc107"
    case Red => "#e57373"
  }

  /** The bar's colour: `percent = filled / total` compared with 1 and
      then with 0.5. For counts out of four these comparisons are exact, so
      they are taken on the count: green exactly when all four sections are
      filled, amber for two or three, red for none or one. */
  function ProgressColour(filled: nat): (c: Colour)
    requires filled <= 4
    ensures c == Green <==> filled == 4
    ensures c == Amber <==> 2 <= filled <= 3
    ensures c == Red <==> filled <= 1
  {
    if filled * 1 == 4 then Green else if filled * 2 >= 4 then Amber else Red
  }

  /** `int(percent * 100)`. */
  function ProgressPercent(filled: nat): (p: nat)
    requires filled <= 4
    ensures p <= 100 && (p == 100 <==> filled == 4) && (p == 0 <==> filled == 0)
  {
    filled * 25
  }

  // ---------------------------------------------------------------------
  // Scoring request and error check

  /** `current_s and current_t and current_a and current_r`: scoring is
      only requested when no section is empty. */
  predicate ShouldScore(t: StarText) {
    t.situation != "" && t.task != "" && t.action != "" && t.result != ""
  }

  /** A full progress bar always allows scoring, and a scored request with
      a competency is a complete story for the engine. The converse of the
      first fails: sections of blanks are scored but leave the bar short. */
  lemma ProgressAndScoring(t: StarText, competency: string)
    ensures FilledCount(t) == 4 ==> ShouldScore(t)
    ensures ShouldScore(t) && competency != "" ==> Complete(t, competency)
    ensures ShouldScore(StarText(" ", " ", " ", " ")) && FilledCount(StarText(" ", " ", " ", " ")) == 0
  {
    var blank := StarText(" ", " ", " ", " ");
    assert IsBlank(" ");
  }

  /** The error keywords looked for in the feedback text. */
  const ErrorKeywords: seq<string> := ["error", "could not", "failed", "unable to process"]

  /** `any(k in feedback.lower() for k in ...)`. */
  predicate IsErrorFeedback(feedback: string) {
    exists k :: 0 <= k < |ErrorKeywords| && Contains(Lower(feedback), ErrorKeywords[k])
  }

  /** The check ignores case. */
  lemma ErrorCheckIgnoresCase(feedback: string)
    ensures IsErrorFeedback(Lower(feedback)) <==> IsErrorFeedback(feedback)
  {
    LowerOfLower(Lower(feedback));
  }

  /** Text added after an error keyword cannot hide it. */
  lemma {:induction false} ErrorCheckSurvivesAppend(feedback: string, more: string)
    requires IsErrorFeedback(feedback)
    ensures IsErrorFeedback(feedback + more)
  {
    var k :| 0 <= k < |ErrorKeywords| && Contains(Lower(feedback), ErrorKeywords[k]);
    var at := ContainsWitness(Lower(feedback), ErrorKeywords[k]);
    LowerAppend(feedback, more);
    var whole := Lower(feedback + more);
    assert whole[at..at + |ErrorKeywords[k]|] == Lower(feedback)[at..at + |ErrorKeywords[k]|];
    ContainsAt(whole, ErrorKeywords[k], at);
  }

  /** How the result of a scoring request is shown. */
  datatype Display =
    | ScoreWithError      // score shown, feedback shown as an error
    | ScoreWithWarning    // score shown, feedback shown as a warning
    | ScoreWithFeedback   // score shown with the feedback
    | ScoreOnly           // score shown, no feedback text
    | ProcessingError     // no score, the feedback text shown as the error
    | UnexpectedError     // neither score nor feedback

  /** The branches after `score_story` in the "Get Feedback & Score"
      handler; an empty string stands for Python's falsy values. */
  function DisplayFor(score: Option<string>, feedback: string): (d: Display)
    ensures d == ScoreWithError ==> IsErrorFeedback(feedback)
    ensures d == ScoreWithWarning ==> IsErrorFeedback(feedback) && score.Some? && score.value != "N/A"
    ensures d == ScoreWithFeedback <==> score.Some? && feedback != "" && !IsErrorFeedback(feedback)
    ensures score.None? <==> d == ProcessingError || d == UnexpectedError
  {
    if score.Some? then
      if feedback != "" then
        if IsErrorFeedback(feedback) && (score.value == "N/A" || score.value == "") then ScoreWithError
        else if IsErrorFeedback(feedback) then ScoreWithWarning
        else ScoreWithFeedback
      else ScoreOnly
    else if feedback != "" then ProcessingError
    else UnexpectedError
  }
}
