/** The `Story` record of the original coach (a dataclass) and its
    dictionary form. */
module Models {
  import opened Wrappers

  /** Six required text fields and two optional ones that stay unset until
      the story is scored and saved. */
  datatype Story = Story(
    competency: string,
    question: string,
    situation: string,
    task: string,
    action: string,
    result: string,
    score: Option<string>,
    timestamp: Option<string>)

  /** `Story(competency=..., question=..., situation=..., task=..., action=..., result=...)`:
      the keyword constructor with `score` and `timestamp` left at their
      default `None`. */
  function NewStory(competency: string, question: string, situation: string,
                    task: string, action: string, result: string): (s: Story)
    ensures s.score == None && s.timestamp == None
    ensures s.competency == competency && s.question == question
    ensures s.situation == situation && s.task == task
    ensures s.action == action && s.result == result
  {
    Story(competency, question, situation, task, action, result, None, None)
  }

  /** The eight field names, which are the keys of `to_dict`. */
  const StoryFieldNames: set<string> := {
    "competency", "question", "situation", "task", "action", "result", "score", "timestamp"
  }

  /** `to_dict` (`dataclasses.asdict`): every field under its own name;
      the optional fields map to `None` until set. */
  function ToDict(s: Story): (d: map<string, Option<string>>)
    ensures d.Keys == StoryFieldNames
  {
    map[
      "competency" := Some(s.competency),
      "question" := Some(s.question),
      "situation" := Some(s.situation),
      "task" := Some(s.task),
      "action" := Some(s.action),
      "result" := Some(s.result),
      "score" := s.score,
      "timestamp" := s.timestamp
    ]
  }

  /** The dictionary loses nothing: two stories with the same dictionary
      are the same story. */
  lemma ToDictInjective(a: Story, b: Story)
    requires ToDict(a) == ToDict(b)
    ensures a == b
  {
    assert ToDict(a)["competency"] == ToDict(b)["competency"];
    assert ToDict(a)["question"] == ToDict(b)["question"];
    assert ToDict(a)["situation"] == ToDict(b)["situation"];
    assert ToDict(a)["task"] == ToDict(b)["task"];
    assert ToDict(a)["action"] == ToDict(b)["action"];
    assert ToDict(a)["result"] == ToDict(b)["result"];
    assert ToDict(a)["score"] == ToDict(b)["score"];
    assert ToDict(a)["timestamp"] == ToDict(b)["timestamp"];
  }

  /** A freshly built story's dictionary holds its six texts and `None` for
      `score` and `timestamp`. */
  lemma FreshStoryDict(competency: string, question: string, situation: string,
                       task: string, action: string, result: string)
    ensures var d := ToDict(NewStory(competency, question, situation, task, action, result));
      && d["competency"] == Some(competency) && d["question"] == Some(question)
      && d["situation"] == Some(situation) && d["task"] == Some(task)
      && d["action"] == Some(action) && d["result"] == Some(result)
      && d["score"] == None && d["timestamp"] == None
  {
  }
}
