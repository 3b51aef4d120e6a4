/** `UnifiedSTARCoach`: the combined console coach. Its story is a plain
    dictionary, scored by the same engine against the general eight-competency
    catalog; it also carries example stories, section tips and the built-in
    role framework used when no competency PDFs can be read. Console answers,
    the directory listing and the clock are parameters. */
module UnifiedStarCoach {
  import opened Wrappers
  import opened Text
  import opened Catalog
  import opened Scoring
  import opened Persistence
  import opened Refinement

  // ---------------------------------------------------------------------
  // Constant tables

  /** One entry of `get_example_star_story`. */
  datatype ExampleStory = ExampleStory(
    question: string, situation: string, task: string, action: string, result: string)

  const ExampleStories: map<string, ExampleStory> := map[
    "Drives Results" := ExampleStory(
      "Tell me about a time you got results that far exceeded your own expectations.",
      "Last quarter, our team was struggling to meet our sales targets due to a sudden market downturn.",
      "As the team lead, I was responsible for motivating the team and finding new ways to generate leads despite the challenging environment.",
      "I organized daily stand-ups to share quick wins, introduced a new lead-tracking system, and personally coached team members on outreach techniques.",
      "Within six weeks, our team exceeded the revised target by 30%, and two team members received company awards for their performance."),
    "Customer Focus" := ExampleStory(
      "Tell me about a time you went the extra mile for a challenging customer.",
      "A long-term client was unhappy with a recent product update and threatened to switch to a competitor.",
      "I needed to address their concerns, restore their confidence, and retain their business.",
      "I scheduled a face-to-face meeting, listened to their feedback, and worked with our product team to implement a custom solution.",
      "The client renewed their contract for another year and provided a positive testimonial that helped us win new business."),
    "Action Oriented" := ExampleStory(
      "Tell me about a time you were the first person to take action on something.",
      "Our project was delayed because no one wanted to take the lead on a critical task.",
      "I decided to step up and coordinate the team to get things moving.",
      "I quickly organized a kickoff meeting, delegated tasks, and set clear deadlines.",
      "The project was back on track within a week and delivered ahead of schedule."),
    "Being Resilient" := ExampleStory(
      "Tell me about a time when you felt under extreme pressure but managed to carry on.",
      "During a major system outage, I was responsible for restoring service under tight time constraints.",
      "I had to troubleshoot the issue while keeping stakeholders informed and calm.",
      "I methodically diagnosed the problem, communicated updates, and coordinated with the IT team.",
      "Service was restored within two hours, and I received recognition for my composure and leadership."),
    "Collaborates" := ExampleStory(
      "Describe a time you had to build partnerships to achieve a shared objective.",
      "Our department needed to launch a new product, but we lacked marketing expertise.",
      "I was tasked with building a cross-functional team to ensure a successful launch.",
      "I reached out to the marketing team, set up regular meetings, and encouraged open communication.",
      "The product launch exceeded sales targets, and both teams received positive feedback from leadership."),
    "Communicates Effectively" := ExampleStory(
      "Tell me about a time when you had to explain something important to someone who did not understand your industry or function\'s language or work.",
      "I had to present a technical solution to a group of non-technical stakeholders.",
      "My goal was to ensure everyone understood the benefits and risks of the proposed solution.",
      "I used simple analogies, visual aids, and encouraged questions throughout the presentation.",
      "The stakeholders approved the solution, and the project moved forward smoothly."),
    "Decision Quality" := ExampleStory(
      "Describe a time you had to make a quick decision and gather a lot of information in a short time frame.",
      "A key supplier suddenly went out of business, threatening our production schedule.",
      "I needed to find an alternative supplier quickly to avoid delays.",
      "I gathered information from multiple vendors, evaluated their capabilities, and negotiated terms.",
      "We secured a new supplier within 48 hours, and production continued without interruption."),
    "Strategic Mindset" := ExampleStory(
      "Give me an example of working with a team and creating a new vision and strategy.",
      "Our company was facing increased competition and declining market share.",
      "I was part of a task force to develop a new growth strategy.",
      "We analyzed market trends, identified new opportunities, and created a three-year strategic plan.",
      "The new strategy led to a 20% increase in market share over two years.")
  ]

  /** `get_example_star_story`: `examples.get(competency)`. */
  function ExampleStoryFor(competency: string): Option<ExampleStory> {
    if competency in ExampleStories then Some(ExampleStories[competency]) else None
  }

  /** There is an example exactly for the eight general competencies. */
  lemma ExamplesCoverGeneralCatalog(competency: string)
    ensures ExampleStoryFor(competency).Some? <==> competency in GeneralCompetencies
  {
    CatalogKeys();
    assert ExampleStories.Keys == CompetencyNameSet;
  }

  /** The tips of one competency, per STAR section. */
  datatype SectionTips = SectionTips(
    situation: seq<string>, task: seq<string>, action: seq<string>, result: seq<string>)

  const SectionTipTable: map<string, SectionTips> := map[
    "Action Oriented" := SectionTips(
      [
        "Describe a time when you faced a new or urgent challenge.",
        "What was at stake if you didn\'t act quickly?" ],
      [
        "What was your specific responsibility in taking action?",
        "Were you expected to lead or just participate?" ],
      [
        "How did you take initiative?",
        "What did you do differently from others?" ],
      [
        "What was the outcome of your quick action?",
        "Did you exceed expectations or set a new standard?" ]),
    "Customer Focus" := SectionTips(
      [
        "Describe a situation where customer needs were unclear or changing.",
        "What was the customer\'s main concern?" ],
      [
        "What was your responsibility in addressing the customer\'s needs?" ],
      [
        "How did you listen and adapt to the customer?",
        "What steps did you take to ensure satisfaction?" ],
      [
        "How did your actions impact the customer?",
        "Did you receive feedback or recognition?" ])
  ]

  /** `get_star_section_tips`: `tips.get(competency, {}).get(section, [])`. */
  function SectionTipsFor(section: string, competency: string): seq<string> {
    if competency !in SectionTipTable then []
    else
      var t := SectionTipTable[competency];
      if section == "situation" then t.situation
      else if section == "task" then t.task
      else if section == "action" then t.action
      else if section == "result" then t.result
      else []
  }

  /** Tips exist exactly for Action Oriented and Customer Focus, and there
      for each of the four sections. */
  lemma SectionTipsCoverage(section: string, competency: string)
    ensures SectionTipsFor(section, competency) != [] <==>
      (competency == "Action Oriented" || competency == "Customer Focus") && section in SectionNames
  {
    assert SectionTipTable.Keys == {"Action Oriented", "Customer Focus"};
  }

  /** `load_apple_competencies_fallback`. */
  const AppleFallback: RoleFramework := RoleFramework(
    map[
      "Technical Specialist" := [
        "Customer Focus",
        "Manages Ambiguity",
        "Tech Savvy",
        "Action Oriented",
        "Manages Conflict",
        "Manages Complexity" ],
      "Technical Expert" := [
        "Drives Results",
        "Communicates Effectively",
        "Tech Savvy",
        "Decision Quality",
        "Manages Complexity",
        "Collaborates" ],
      "Genius" := [
        "Being Resilient",
        "Decision Quality",
        "Tech Savvy",
        "Action Oriented",
        "Situational Adaptability",
        "Managing Complexity" ],
      "Software Engineer" := [
        "Technical Problem Solving",
        "Innovation",
        "Collaboration",
        "Communication",
        "Customer Focus" ],
      "Product Manager" := [
        "Strategic Thinking",
        "User-Centered Design",
        "Cross-Functional Leadership",
        "Business Acumen",
        "Execution Excellence" ],
      "UX Designer" := [
        "User Empathy",
        "Design Thinking",
        "Visual Communication",
        "Prototyping Skills",
        "Collaborative Problem Solving" ],
      "Data Scientist" := [
        "Analytical Thinking",
        "Statistical Modeling",
        "Programming Skills",
        "Business Impact",
        "Communication of Complex Ideas" ]
    ],
    map[
      "Customer Focus" := CompetencyDetails(
        "Building strong customer relationships and delivering customer-centric solutions.",
        "Look for situations where you identified customer needs or addressed customer issues.",
        "Focus on tasks where you were responsible for improving customer experience or satisfaction.",
        "Highlight actions that demonstrate how you listened to customers and tailored solutions.",
        "Emphasize measurable improvements in customer satisfaction, retention, or feedback."),
      "Tech Savvy" := CompetencyDetails(
        "Anticipating and adopting innovations in business-building digital and technology applications.",
        "Describe situations requiring technical innovation or digital solutions.",
        "Explain your responsibility to implement or leverage technology effectively.",
        "Detail how you researched, learned, or applied new technologies.",
        "Quantify the impact of your technical solution on efficiency, performance, or user experience."),
      "Technical Problem Solving" := CompetencyDetails(
        "Applying analytical thinking to break down complex technical problems and develop effective solutions.",
        "Describe complex technical challenges you faced.",
        "Explain the technical requirements and constraints you needed to work within.",
        "Detail your systematic approach to analyzing and solving the problem.",
        "Quantify improvements in performance, reliability, or other technical metrics."),
      "Innovation" := CompetencyDetails(
        "Developing breakthrough ideas and implementing them to create value.",
        "Describe situations requiring creative thinking or novel approaches.",
        "Explain why conventional solutions wouldn\'t work for your task.",
        "Detail your creative process and how you developed your innovative solution.",
        "Highlight how your innovation created value or solved problems in new ways.")
    ])


  /** "Tech Savvy" is a competency of the built-in role table, with details,
      for the Technical Specialist role. */
  lemma TechSavvyInRoleTable()
    ensures "Tech Savvy" in AppleFallback.rolesCompetencies["Technical Specialist"]
    ensures "Tech Savvy" in AppleFallback.competencyDetails
  {
    assert AppleFallback.rolesCompetencies["Technical Specialist"][2] == "Tech Savvy";
  }

  /** ... but not of the general catalog: a complete story about it cannot
      be scored, the sign lookup fails before any label is assigned. */
  lemma TechSavvyIsUnscorable(t: StarText)
    requires Complete(t, "Tech Savvy")
    ensures Assess(t, "Tech Savvy", GeneralCompetencies) == UnknownCompetency("Tech Savvy")
  {
    CatalogKeys();
    assert |"Tech Savvy"| == 10;
    assert "Tech Savvy" !in CompetencyNameSet;
  }

  // ---------------------------------------------------------------------
  // The coach and its dictionary story

  /** A story as the unified coach holds it: a dictionary of strings. */
  type Dict = map<string, string>

  /** `d.get(key)`, with a missing key read as the falsy empty string. */
  function Get(d: Dict, key: string): string {
    if key in d then d[key] else ""
  }

  function TextOf(d: Dict): StarText {
    StarText(Get(d, "situation"), Get(d, "task"), Get(d, "action"), Get(d, "result"))
  }

  /** What `score_story` decides for a dictionary story. */
  function AssessDict(d: Dict): Assessment {
    Assess(TextOf(d), Get(d, "competency"), GeneralCompetencies)
  }

  /** The guard of `save_story`: six fields present and non-empty; the score
      is not required. */
  predicate Savable(d: Dict) {
    Complete(TextOf(d), Get(d, "competency")) && Get(d, "question") != ""
  }

  function FileOf(d: Dict): string {
    StoryFileName(Get(d, "question"), Get(d, "competency"))
  }

  /** `answer.lower() in ['yes', 'y']`. */
  predicate IsYes(answer: string) {
    Lower(answer) == "yes" || Lower(answer) == "y"
  }

  /** The folder entry a numbered choice from the listing refers to:
      `int(answer) - 1` must index `files`. */
  predicate ValidChoice(files: seq<string>, choice: Option<int>) {
    choice.Some? && 1 <= choice.value <= |files|
  }

  /** The coach's story and folder once `score_story` has run with this
      answer to the save prompt: unchanged unless the story is assessed;
      otherwise its label is stored under "score" and, on a yes, the story
      is stamped and saved. */
  function AfterScoring(d: Dict, folder: map<string, Payload<Dict>>, saveAnswer: string, timestamp: string)
    : (Dict, map<string, Payload<Dict>>)
  {
    var a := AssessDict(d);
    if !a.Assessed? then (d, folder)
    else
      var scored := d["score" := LabelName(a.score)];
      if IsYes(saveAnswer) && Get(scored, "question") != "" then
        var s := scored["timestamp" := timestamp];
        (s, SavedFolder(folder, FileOf(s), s))
      else (scored, folder)
  }

  // ---------------------------------------------------------------------
  // craft_star_story

  /** How one section prompt of `craft_star_story` ends. */
  datatype PromptEnd =
    | Entered(text: string, rest: seq<string>)   // a non-blank answer, stripped
    | Back(rest: seq<string>)                    // "back"
    | Exit                                       // "exit": `exit()` ends the program
    | NoInput                                    // the answers ran out

  /** The `while True` loop of one section prompt: every answer is
      stripped; "exit" and "back" are recognised ignoring case; a blank
      answer is asked again; anything else is the section's text. */
  function ReadSection(script: seq<string>): (e: PromptEnd)
    ensures e.Entered? || e.Back? ==> |e.rest| < |script|
    decreases |script|
  {
    if script == [] then NoInput
    else
      var s := Strip(script[0]);
      if Lower(s) == "exit" then Exit
      else if Lower(s) == "back" then Back(script[1..])
      else if s != [] then Entered(s, script[1..])
      else ReadSection(script[1..])
  }

  /** A section's text is never blank, never carries surrounding
      whitespace, and is never one of the two commands. */
  lemma {:induction false} EnteredIsPlain(script: seq<string>)
    requires ReadSection(script).Entered?
    ensures var text := ReadSection(script).text;
      && text != [] && Strip(text) == text
      && Lower(text) != "exit" && Lower(text) != "back"
    decreases |script|
  {
    var s := Strip(script[0]);
    if Lower(s) != "exit" && Lower(s) != "back" && s != [] {
      StripStripped(s);
    } else {
      EnteredIsPlain(script[1..]);
    }
  }

  /** One step of the prompt loop at answer `i`. */
  lemma ReadSectionAt(script: seq<string>, i: nat)
    requires i < |script|
    ensures var s := Strip(script[i]);
      ReadSection(script[i..]) ==
        if Lower(s) == "exit" then Exit
        else if Lower(s) == "back" then Back(script[i + 1..])
        else if s != [] then Entered(s, script[i + 1..])
        else ReadSection(script[i + 1..])
  {
    assert script[i..][0] == script[i] && script[i..][1..] == script[i + 1..];
  }

  /** How `craft_star_story` ends. */
  datatype CraftEnd =
    | Returned(story: Dict)       // no competency or question, or "back" at the situation prompt
    | Exited(story: Dict)         // "exit" at any prompt
    | Stalled(story: Dict)        // the answers ran out
    | ReadyToScore(story: Dict)   // "done" in the refinement loop: the story is scored next

  /** The refinement loop of the unified coach. It differs from the shared
      loop of the other two tools: the new text is stripped, "back" keeps
      the section as it was, and "exit" ends the program. */
  function RefineDict(d: Dict, script: seq<string>): (e: CraftEnd)
    ensures !e.Returned?
    decreases |script|
  {
    if script == [] then Stalled(d)
    else
      var choice := Lower(script[0]);
      if choice == "done" then ReadyToScore(d)
      else if choice in SectionNames then
        if |script| == 1 then Stalled(d)
        else
          var updated := Strip(script[1]);
          if Lower(updated) == "exit" then Exited(d)
          else if Lower(updated) == "back" then RefineDict(d, script[2..])
          else RefineDict(d[choice := updated], script[2..])
      else RefineDict(d, script[1..])
  }

  /** `craft_star_story` from the prompt for section `k` on: each prompt
      stores its answer; "back" at the situation prompt returns to the
      menu, "back" at a later prompt starts `craft_star_story` again with
      the sections entered so far kept; after the result the refinement
      loop runs. */
  function CraftFrom(d: Dict, k: nat, script: seq<string>): CraftEnd
    requires k <= 4
    decreases |script|, 4 - k
  {
    if k == 4 then RefineDict(d, script)
    else
      match ReadSection(script)
      case NoInput => Stalled(d)
      case Exit => Exited(d)
      case Back(rest) => if k == 0 then Returned(d) else Craft(d, rest)
      case Entered(text, rest) => CraftFrom(d[SectionNames[k] := text], k + 1, rest)
  }

  /** `craft_star_story`: nothing without a selected competency and
      question; otherwise the four prompts, then the refinement loop. */
  function Craft(d: Dict, script: seq<string>): CraftEnd
    decreases |script|, 5
  {
    if Get(d, "competency") == "" || Get(d, "question") == "" then Returned(d)
    else CraftFrom(d, 0, script)
  }

  /** The refinement loop writes only the four section keys. */
  lemma {:induction false} RefineKeepsOtherFields(d: Dict, script: seq<string>, key: string)
    requires key !in SectionNames
    ensures Get(RefineDict(d, script).story, key) == Get(d, key)
    decreases |script|
  {
    if script != [] {
      var choice := Lower(script[0]);
      if choice == "done" {
      } else if choice in SectionNames {
        if |script| > 1 {
          var updated := Strip(script[1]);
          if Lower(updated) == "exit" {
          } else if Lower(updated) == "back" {
            RefineKeepsOtherFields(d, script[2..], key);
          } else {
            assert Get(d[choice := updated], key) == Get(d, key);
            RefineKeepsOtherFields(d[choice := updated], script[2..], key);
          }
        }
      } else {
        RefineKeepsOtherFields(d, script[1..], key);
      }
    }
  }

  /** However `craft_star_story` ends, it has written only the four section
      keys: the competency, question, score and timestamp are as they were. */
  lemma {:induction false} CraftKeepsOtherFields(d: Dict, script: seq<string>, key: string)
    requires key !in SectionNames
    ensures Get(Craft(d, script).story, key) == Get(d, key)
    decreases |script|, 5
  {
    if Get(d, "competency") != "" && Get(d, "question") != "" {
      CraftFromKeepsOtherFields(d, 0, script, key);
    }
  }

  lemma {:induction false} CraftFromKeepsOtherFields(d: Dict, k: nat, script: seq<string>, key: string)
    requires k <= 4 && key !in SectionNames
    ensures Get(CraftFrom(d, k, script).story, key) == Get(d, key)
    decreases |script|, 4 - k
  {
    if k == 4 {
      RefineKeepsOtherFields(d, script, key);
    } else {
      match ReadSection(script)
      case NoInput =>
      case Exit =>
      case Back(rest) =>
        if k > 0 {
          CraftKeepsOtherFields(d, rest, key);
        }
      case Entered(text, rest) =>
        CraftFromKeepsOtherFields(d[SectionNames[k] := text], k + 1, rest, key);
    }
  }

  /** An answer a section prompt takes as it is. */
  predicate PlainAnswer(x: string) {
    x != [] && !IsSpace(x[0]) && !IsSpace(x[|x| - 1]) && Lower(x) != "exit" && Lower(x) != "back"
  }

  lemma PlainAnswerRead(script: seq<string>)
    requires script != [] && PlainAnswer(script[0])
    ensures ReadSection(script) == Entered(script[0], script[1..])
  {
    StripStripped(script[0]);
  }

  /** The story after prompts `k` to 3 took `answers`, in order. */
  function Filled(d: Dict, k: nat, answers: seq<string>): (r: Dict)
    requires k + |answers| == 4
    ensures forall i :: k <= i < 4 ==> Get(r, SectionNames[i]) == answers[i - k]
    ensures forall key :: key !in SectionNames[k..] ==> Get(r, key) == Get(d, key)
    decreases |answers|
  {
    if answers == [] then d
    else
      var r := Filled(d[SectionNames[k] := answers[0]], k + 1, answers[1..]);
      assert SectionNames[k] !in SectionNames[k + 1..];
      r
  }

  /** Plain answers at the remaining prompts and then "done" give a story
      holding those answers, ready to be scored. */
  lemma {:induction false} PlainAnswersThenDone(d: Dict, k: nat, answers: seq<string>, done: string)
    requires k + |answers| == 4
    requires forall i :: 0 <= i < |answers| ==> PlainAnswer(answers[i])
    requires Lower(done) == "done"
    ensures CraftFrom(d, k, answers + [done]) == ReadyToScore(Filled(d, k, answers))
    decreases |answers|
  {
    var script := answers + [done];
    if answers == [] {
      DoneIsReady(d, script);
    } else {
      assert script[0] == answers[0] && script[1..] == answers[1..] + [done];
      PlainAnswerStep(d, k, SectionNames[k], script);
      PlainAnswersThenDone(d[SectionNames[k] := answers[0]], k + 1, answers[1..], done);
    }
  }

  /** Four plain answers and "done" fill the four sections with them, in
      order, and leave the story ready to be scored. */
  lemma CraftInOnePass(d: Dict, answers: seq<string>, done: string)
    requires Get(d, "competency") != "" && Get(d, "question") != ""
    requires |answers| == 4 && forall i :: 0 <= i < 4 ==> PlainAnswer(answers[i])
    requires Lower(done) == "done"
    ensures Craft(d, answers + [done]) == ReadyToScore(Filled(d, 0, answers))
  {
    CraftStarts(d, answers + [done]);
    PlainAnswersThenDone(d, 0, answers, done);
  }

  /** With a competency and a question selected, the prompts begin. */
  lemma CraftStarts(d: Dict, script: seq<string>)
    requires Get(d, "competency") != "" && Get(d, "question") != ""
    ensures Craft(d, script) == CraftFrom(d, 0, script)
  {
  }

  lemma DoneIsReady(d: Dict, script: seq<string>)
    requires script != [] && Lower(script[0]) == "done"
    ensures CraftFrom(d, 4, script) == ReadyToScore(d)
  {
  }

  /** A plain answer at prompt `k` is stored and the next prompt follows. */
  lemma PlainAnswerStep(d: Dict, k: nat, part: string, script: seq<string>)
    requires k < 4 && part == SectionNames[k] && script != [] && PlainAnswer(script[0])
    ensures CraftFrom(d, k, script) == CraftFrom(d[part := script[0]], k + 1, script[1..])
  {
    PlainAnswerRead(script);
  }

  /** "back" at the task prompt starts over with the situation just entered
      kept in the story. */
  lemma BackKeepsEnteredSections(d: Dict, s: string, back: string, rest: seq<string>)
    requires Get(d, "competency") != "" && Get(d, "question") != ""
    requires PlainAnswer(s) && Lower(Strip(back)) == "back"
    ensures Craft(d, [s, back] + rest) == Craft(d["situation" := s], rest)
  {
    var script := [s, back] + rest;
    assert script[0] == s && script[1..][0] == back && script[1..][1..] == rest;
    CraftStarts(d, script);
    PlainAnswerStep(d, 0, "situation", script);
    BackRestarts(d["situation" := s], script[1..]);
  }

  /** "back" at a later prompt starts `craft_star_story` over. */
  lemma BackRestarts(d: Dict, script: seq<string>)
    requires script != [] && Lower(Strip(script[0])) == "back"
    ensures CraftFrom(d, 1, script) == Craft(d, script[1..])
  {
  }

  /** How the four section prompts end: all entered, stopped for good, or
      "back" after the first prompt, which starts `craft_star_story` over. */
  datatype SectionsEnd =
    | AllEntered(rest: seq<string>)
    | Stopped(end: CraftEnd)
    | Restart(rest: seq<string>)

  class Coach {
    /** `self.story`, `{}` at start. */
    var story: Dict
    /** The `Stories` folder. */
    var folder: map<string, Payload<Dict>>

    constructor (folder: map<string, Payload<Dict>>)
      ensures story == map[] && this.folder == folder
    {
      story := map[];
      this.folder := folder;
    }

    /** `save_story()` on the coach's own story: refuse an incomplete one;
        otherwise set its timestamp and append it to its file. */
    method SaveStory(timestamp: string) returns (saved: Option<string>)
      modifies this
      ensures saved.Some? <==> Savable(old(story))
      ensures !Savable(old(story)) ==> story == old(story) && folder == old(folder)
      ensures Savable(old(story)) ==>
        && story == old(story)["timestamp" := timestamp]
        && saved == Some(FileOf(story))
        && folder == SavedFolder(old(folder), FileOf(story), story)
    {
      if !Savable(story) {
        return None;
      }
      story := story["timestamp" := timestamp];
      assert Get(story, "question") == Get(old(story), "question");
      assert Get(story, "competency") == Get(old(story), "competency");
      var name := FileOf(story);
      folder := folder[name := Appended(PayloadAt(folder, name), story)];
      saved := Some(name);
    }

    /** `score_story`: assess the story, write the label under "score", and
        save when the answer to the save prompt is yes. */
    method ScoreStory(saveAnswer: string, timestamp: string) returns (a: Assessment, lines: seq<string>)
      modifies this
      ensures a == AssessDict(old(story))
      ensures lines == AssessmentLines(a)
      ensures (story, folder) == AfterScoring(old(story), old(folder), saveAnswer, timestamp)
    {
      a := AssessDict(story);
      lines := AssessmentLines(a);
      if a.Assessed? {
        RecordScore(a.score, saveAnswer, timestamp);
      }
    }

    /** The tail of `score_story`: `story['score'] = score`, then the save
        prompt. */
    method RecordScore(l: Label, saveAnswer: string, timestamp: string)
      requires Complete(TextOf(story), Get(story, "competency"))
      modifies this
      ensures
        var scored := old(story)["score" := LabelName(l)];
        if IsYes(saveAnswer) && Get(scored, "question") != "" then
          story == scored["timestamp" := timestamp] && folder == SavedFolder(old(folder), FileOf(story), story)
        else
          story == scored && folder == old(folder)
    {
      var scored := story["score" := LabelName(l)];
      assert TextOf(scored) == TextOf(story) && Get(scored, "competency") == Get(story, "competency");
      story := scored;
      if IsYes(saveAnswer) {
        var _ := SaveStory(timestamp);
      }
    }

    /** `load_story`: pick a listed file by number and read its latest
        story; a bad number, an unreadable file or an empty list reads
        nothing. */
    method LoadStory(files: seq<string>, choice: Option<int>) returns (loaded: Option<Dict>)
      ensures loaded.Some? ==> ValidChoice(files, choice)
      ensures ValidChoice(files, choice) ==> loaded == Latest(PayloadAt(folder, files[choice.value - 1]))
      ensures !ValidChoice(files, choice) ==> loaded.None?
    {
      if |files| == 0 || choice.None? {
        return None;
      }
      var idx := choice.value - 1;
      if 0 <= idx < |files| {
        loaded := Latest(PayloadAt(folder, files[idx]));
      } else {
        loaded := None;
      }
    }

    /** `review_saved_stories`: load as above, make the loaded story the
        current one, and score it; any failure is caught and reported. */
    method ReviewSavedStory(files: seq<string>, choice: Option<int>, saveAnswer: string, timestamp: string)
      returns (a: Option<Assessment>)
      modifies this
      ensures a.Some? <==> ValidChoice(files, choice) && Latest(PayloadAt(old(folder), files[choice.value - 1])).Some?
      ensures a.None? ==> story == old(story) && folder == old(folder)
      ensures a.Some? ==>
        var d := Latest(PayloadAt(old(folder), files[choice.value - 1])).value;
        && a.value == AssessDict(d)
        && (story, folder) == AfterScoring(d, old(folder), saveAnswer, timestamp)
    {
      var loaded := LoadStory(files, choice);
      if loaded.None? {
        return None;
      }
      story := loaded.value;
      var assessment, _ := ScoreStory(saveAnswer, timestamp);
      a := Some(assessment);
    }

    /** One section prompt of `craft_star_story`: ask until the stripped
        answer is not blank, then store it under the section's key. */
    method PromptSection(part: string, script: seq<string>) returns (e: PromptEnd)
      requires part in SectionNames
      modifies this
      ensures e == ReadSection(script)
      ensures story == (if e.Entered? then old(story)[part := e.text] else old(story))
      ensures folder == old(folder)
    {
      var i := 0;
      while i < |script|
        invariant 0 <= i <= |script|
        invariant ReadSection(script[i..]) == ReadSection(script)
        invariant story == old(story) && folder == old(folder)
        decreases |script| - i
      {
        ReadSectionAt(script, i);
        var answer := Strip(script[i]);
        if Lower(answer) == "exit" {
          return Exit;
        }
        if Lower(answer) == "back" {
          return Back(script[i + 1..]);
        }
        if answer != [] {
          story := story[part := answer];
          return Entered(answer, script[i + 1..]);
        }
        i := i + 1;
      }
      return NoInput;
    }

    /** The refinement loop of `craft_star_story`. */
    method RefineLoop(script: seq<string>) returns (e: CraftEnd)
      modifies this
      ensures e == RefineDict(old(story), script)
      ensures story == e.story && folder == old(folder)
    {
      var i := 0;
      while i < |script|
        invariant 0 <= i <= |script|
        invariant RefineDict(story, script[i..]) == RefineDict(old(story), script)
        invariant folder == old(folder)
        decreases |script| - i
      {
        assert script[i..][0] == script[i];
        var choice := Lower(script[i]);
        if choice == "done" {
          return ReadyToScore(story);
        } else if choice in SectionNames {
          if i + 1 == |script| {
            return Stalled(story);
          }
          assert script[i..][1] == script[i + 1] && script[i..][2..] == script[i + 2..];
          var updated := Strip(script[i + 1]);
          if Lower(updated) == "exit" {
            return Exited(story);
          }
          if Lower(updated) != "back" {
            story := story[choice := updated];
          }
          i := i + 2;
        } else {
          assert script[i..][1..] == script[i + 1..];
          i := i + 1;
        }
      }
      return Stalled(story);
    }

    /** The four section prompts of `craft_star_story`, which differ only
        in the section they fill. */
    method EnterSections(script: seq<string>) returns (r: SectionsEnd)
      modifies this
      ensures folder == old(folder)
      ensures r.AllEntered? ==> CraftFrom(old(story), 0, script) == RefineDict(story, r.rest)
      ensures r.Restart? ==> CraftFrom(old(story), 0, script) == Craft(story, r.rest) && |r.rest| < |script|
      ensures r.Stopped? ==> CraftFrom(old(story), 0, script) == r.end && story == r.end.story && !r.end.ReadyToScore?
    {
      var rest := script;
      for k := 0 to 4
        invariant CraftFrom(story, k, rest) == CraftFrom(old(story), 0, script)
        invariant |rest| <= |script|
        invariant folder == old(folder)
      {
        var p := PromptSection(SectionNames[k], rest);
        if p.NoInput? {
          return Stopped(Stalled(story));
        } else if p.Exit? {
          return Stopped(Exited(story));
        } else if p.Back? {
          if k == 0 {
            return Stopped(Returned(story));
          }
          return Restart(p.rest);
        }
        rest := p.rest;
      }
      return AllEntered(rest);
    }

    /** The end of `craft_star_story`: the refinement loop, then, after
        "done", `display_story` and `score_story`. */
    method RefineAndScore(script: seq<string>, saveAnswer: string, timestamp: string)
      returns (e: CraftEnd, a: Option<Assessment>)
      modifies this
      ensures e == RefineDict(old(story), script)
      ensures e.ReadyToScore? ==>
        && a == Some(AssessDict(e.story))
        && (story, folder) == AfterScoring(e.story, old(folder), saveAnswer, timestamp)
      ensures !e.ReadyToScore? ==> a.None? && story == e.story && folder == old(folder)
    {
      e := RefineLoop(script);
      if e.ReadyToScore? {
        var assessment, _ := ScoreStory(saveAnswer, timestamp);
        a := Some(assessment);
      } else {
        a := None;
      }
    }

    /** `craft_star_story`, then `score_story` when the refinement loop
        ends with "done". A "back" after the first prompt starts over. */
    method CraftStory(script: seq<string>, saveAnswer: string, timestamp: string)
      returns (e: CraftEnd, a: Option<Assessment>)
      modifies this
      ensures e == Craft(old(story), script)
      ensures e.ReadyToScore? ==>
        && a == Some(AssessDict(e.story))
        && (story, folder) == AfterScoring(e.story, old(folder), saveAnswer, timestamp)
      ensures !e.ReadyToScore? ==> a.None? && story == e.story && folder == old(folder)
      decreases |script|, 5
    {
      if Get(story, "competency") == "" || Get(story, "question") == "" {
        return Returned(story), None;
      }
      var entered := EnterSections(script);
      match entered
      case Stopped(end) =>
        return end, None;
      case Restart(rest) =>
        e, a := CraftStory(rest, saveAnswer, timestamp);
      case AllEntered(rest) =>
        e, a := RefineAndScore(rest, saveAnswer, timestamp);
    }
  }

  /** A story saved by the coach is the one the next load of its file
      returns, and so the one a review scores. */
  lemma SavedStoryIsReviewed(folder: map<string, Payload<Dict>>, d: Dict, files: seq<string>, k: nat)
    requires k < |files| && files[k] == FileOf(d)
    ensures Latest(PayloadAt(SavedFolder(folder, FileOf(d), d), files[k])) == Some(d)
  {
  }
}
