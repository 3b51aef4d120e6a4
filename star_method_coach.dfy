/** `STARMethodCoach`: the original console coach. It holds one `Story`,
    scores it against the eight-competency catalog, and saves it into a
    folder of JSON story files, modelled here as a map from file name to
    `Payload`. Console answers and the clock are parameters. */
module StarMethodCoach {
  import opened Wrappers
  import opened Text
  import opened Catalog
  import opened Models
  import opened Scoring
  import opened Persistence
  import opened Refinement

  /** A saved record: the `to_dict` of a story. */
  type Record = map<string, Option<string>>

  function TextOf(s: Story): StarText {
    StarText(s.situation, s.task, s.action, s.result)
  }

  /** What `score_story` decides for the coach's current story. */
  function AssessStory(story: Option<Story>): Assessment {
    if story.None? then Incomplete
    else Assess(TextOf(story.value), story.value.competency, CoachCompetencies)
  }

  /** The story with its four sections replaced. */
  function WithText(s: Story, t: StarText): (r: Story)
    ensures TextOf(r) == t
    ensures r.competency == s.competency && r.question == s.question
    ensures r.score == s.score && r.timestamp == s.timestamp
  {
    s.(situation := t.situation, task := t.task, action := t.action, result := t.result)
  }

  /** The coach's story and folder once `score_story` has run with this
      answer to the save prompt: unchanged unless the story is assessed;
      otherwise its label is written into `score` and, on a yes, the story
      is stamped and saved. */
  function AfterScoring(story: Option<Story>, folder: map<string, Payload<Record>>,
                        saveAnswer: string, timestamp: string): (Option<Story>, map<string, Payload<Record>>)
  {
    var a := AssessStory(story);
    if !a.Assessed? then (story, folder)
    else
      var scored := story.value.(score := Some(LabelName(a.score)));
      if IsYes(saveAnswer) && scored.question != "" then
        var s := scored.(timestamp := Some(timestamp));
        (Some(s), SavedFolder(folder, StoryFileName(s.question, s.competency), ToDict(s)))
      else (Some(scored), folder)
  }

  /** `setattr(self.story, part, text)` for one of the four sections. */
  function SetSection(s: Story, part: string, text: string): (r: Story)
    requires part in SectionNames
    ensures TextOf(r) == WithSection(TextOf(s), part, text)
    ensures r.competency == s.competency && r.question == s.question
    ensures r.score == s.score && r.timestamp == s.timestamp
  {
    var t := WithSection(TextOf(s), part, text);
    s.(situation := t.situation, task := t.task, action := t.action, result := t.result)
  }

  /** The guard of `save_story`: every field, the score included, non-empty. */
  predicate Savable(story: Option<Story>) {
    && story.Some?
    && story.value.situation != "" && story.value.task != ""
    && story.value.action != "" && story.value.result != ""
    && story.value.competency != "" && story.value.question != ""
    && story.value.score.Some? && story.value.score.value != ""
  }

  /** `answer.lower() in ['yes', 'y']`. */
  predicate IsYes(answer: string) {
    Lower(answer) == "yes" || Lower(answer) == "y"
  }

  class Coach {
    /** `self.story`; `None` until a competency and question are chosen. */
    var story: Option<Story>
    /** The `Stories` folder. */
    var folder: map<string, Payload<Record>>

    constructor (folder: map<string, Payload<Record>>)
      ensures story == None && this.folder == folder
    {
      story := None;
      this.folder := folder;
    }

    /** `save_story`: refuse an incomplete story; otherwise stamp it, and
        append its record to the file named after its question and
        competency. */
    method SaveStory(timestamp: string) returns (saved: Option<string>)
      modifies this
      ensures saved.Some? <==> Savable(old(story))
      ensures !Savable(old(story)) ==> story == old(story) && folder == old(folder)
      ensures Savable(old(story)) ==>
        && story == Some(old(story).value.(timestamp := Some(timestamp)))
        && saved == Some(StoryFileName(story.value.question, story.value.competency))
        && folder == SavedFolder(old(folder), StoryFileName(story.value.question, story.value.competency), ToDict(story.value))
    {
      if !Savable(story) {
        saved := None;
        return;
      }
      var s := story.value.(timestamp := Some(timestamp));
      story := Some(s);
      var name := StoryFileName(s.question, s.competency);
      var data := PayloadAt(folder, name);
      folder := folder[name := Appended(data, ToDict(s))];
      saved := Some(name);
    }

    /** `score_story`: assess the story, write the label into its `score`,
        and save it when the answer to the save prompt is yes. The printed
        lines are returned. */
    method ScoreStory(saveAnswer: string, timestamp: string) returns (a: Assessment, lines: seq<string>)
      modifies this
      ensures a == AssessStory(old(story))
      ensures lines == AssessmentLines(a)
      ensures (story, folder) == AfterScoring(old(story), old(folder), saveAnswer, timestamp)
    {
      a := AssessStory(story);
      lines := AssessmentLines(a);
      if a.Assessed? {
        RecordScore(a.score, saveAnswer, timestamp);
      }
    }

    /** The tail of `score_story`: `self.story.score = score`, then the save
        prompt. */
    method RecordScore(l: Label, saveAnswer: string, timestamp: string)
      requires story.Some? && Complete(TextOf(story.value), story.value.competency)
      modifies this
      ensures
        var scored := old(story).value.(score := Some(LabelName(l)));
        if IsYes(saveAnswer) && scored.question != "" then
          story == Some(scored.(timestamp := Some(timestamp))) && folder == SavedFolder(old(folder), StoryFileName(story.value.question, story.value.competency), ToDict(story.value))
        else
          story == Some(scored) && folder == old(folder)
    {
      var scored := story.value.(score := Some(LabelName(l)));
      ScoredSavable(story.value, l);
      story := Some(scored);
      if IsYes(saveAnswer) {
        var _ := SaveStory(timestamp);
      }
    }

    /** The refinement loop of `craft_star_story`, over a scripted console. */
    method RefineSections(script: seq<string>)
      requires story.Some?
      modifies this
      ensures story.Some?
      ensures TextOf(story.value) == Refined(TextOf(old(story).value), script)
      ensures story.value.competency == old(story).value.competency
      ensures story.value.question == old(story).value.question
      ensures story.value.score == old(story).value.score
      ensures story.value.timestamp == old(story).value.timestamp
      ensures folder == old(folder)
    {
      var i := 0;
      while i < |script|
        invariant 0 <= i <= |script|
        invariant story.Some?
        invariant Refined(TextOf(story.value), script[i..]) == Refined(TextOf(old(story).value), script)
        invariant story.value.competency == old(story).value.competency
        invariant story.value.question == old(story).value.question
        invariant story.value.score == old(story).value.score
        invariant story.value.timestamp == old(story).value.timestamp
        invariant folder == old(folder)
        decreases |script| - i
      {
        var choice := Lower(script[i]);
        if choice == "done" {
          assert Refined(TextOf(story.value), script[i..]) == TextOf(story.value) by {
            assert script[i..][0] == script[i];
          }
          break;
        } else if choice in SectionNames {
          if i + 1 == |script| {
            assert script[i..] == [script[i]];
            break;
          }
          assert script[i..][1] == script[i + 1] && script[i..][2..] == script[i + 2..];
          story := Some(SetSection(story.value, choice, script[i + 1]));
          i := i + 2;
        } else {
          assert script[i..][1..] == script[i + 1..];
          i := i + 1;
        }
      }
    }

    /** `craft_star_story` once a story is selected: take the four sections,
        run the refinement loop, then score (and maybe save). Without a
        selected competency and question nothing happens. */
    method CraftStory(sections: StarText, script: seq<string>, saveAnswer: string, timestamp: string)
      returns (a: Option<Assessment>)
      modifies this
      ensures old(story).None? || old(story).value.competency == "" || old(story).value.question == ""
        ==> a.None? && story == old(story) && folder == old(folder)
      ensures old(story).Some? && old(story).value.competency != "" && old(story).value.question != "" ==>
        && a == Some(Assess(Refined(sections, script), old(story).value.competency, CoachCompetencies))
        && (story, folder) == AfterScoring(Some(WithText(old(story).value, Refined(sections, script))),
                                           old(folder), saveAnswer, timestamp)
    {
      if story.None? || story.value.competency == "" || story.value.question == "" {
        return None;
      }
      story := Some(WithText(story.value, sections));
      RefineSections(script);
      assert story == Some(WithText(old(story).value, Refined(sections, script)));
      var assessment, _ := ScoreStory(saveAnswer, timestamp);
      a := Some(assessment);
    }
  }

  /** A complete story, once scored, passes the save guard exactly when it
      has a question: no label has an empty name. */
  lemma ScoredSavable(s: Story, l: Label)
    requires Complete(TextOf(s), s.competency)
    ensures Savable(Some(s.(score := Some(LabelName(l))))) <==> s.question != ""
  {
    assert |LabelName(l)| > 0;
  }
}
