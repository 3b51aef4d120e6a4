/** The JSON story files of the `Stories` folder, shared by both coaches.
    The file contents are abstracted to what the save and load paths can
    tell apart: no file, a file that does not decode, a decoded list, or a
    decoded value that is not a list. */
module Persistence {
  import opened Wrappers
  import opened Text

  /** What `json.load` yields for one story file. */
  datatype Payload<T> =
    | Absent                // the file does not exist
    | Undecodable           // `json.JSONDecodeError`
    | ListOf(items: seq<T>)
    | NonList(value: T)     // legacy single record

  /** The list a save starts from: the decoded list, a legacy record
      wrapped into a list, or a fresh empty list. */
  function ExistingRecords<T>(p: Payload<T>): seq<T> {
    match p
    case Absent => []
    case Undecodable => []
    case ListOf(items) => items
    case NonList(v) => [v]
  }

  /** The file contents after `save_story` appends one record. */
  function Appended<T>(p: Payload<T>, rec: T): (r: Payload<T>)
    ensures r.ListOf? && |r.items| == |ExistingRecords(p)| + 1
    ensures r.items[|r.items| - 1] == rec
    ensures forall i :: 0 <= i < |ExistingRecords(p)| ==> r.items[i] == ExistingRecords(p)[i]
  {
    ListOf(ExistingRecords(p) + [rec])
  }

  /** `data[-1] if isinstance(data, list) else data`, with the failures the
      loaders catch (missing or undecodable file, empty list) as `None`. */
  function Latest<T>(p: Payload<T>): (r: Option<T>)
    ensures p.ListOf? ==> (r.Some? <==> |p.items| > 0)
    ensures p.ListOf? && r.Some? ==> r.value == p.items[|p.items| - 1]
    ensures p.NonList? ==> r == Some(p.value)
    ensures p.Absent? || p.Undecodable? ==> r.None?
  {
    match p
    case ListOf(items) => if |items| == 0 then None else Some(items[|items| - 1])
    case NonList(v) => Some(v)
    case _ => None
  }

  /** Saving and then loading a file gives back the record just saved,
      whatever the file held before. */
  lemma SaveThenLoad<T>(p: Payload<T>, rec: T)
    ensures Latest(Appended(p, rec)) == Some(rec)
  {
  }

  /** Two saves under the same name keep every earlier record, in order: a
      legacy record and all listed records survive; an undecodable file is
      the one case whose old contents are dropped. */
  lemma {:induction false} SavesAccumulate<T>(p: Payload<T>, a: T, b: T)
    ensures Appended(Appended(p, a), b).items == ExistingRecords(p) + [a, b]
    ensures p.Undecodable? ==> Appended(p, a).items == [a]
  {
    var once := Appended(p, a);
    assert once.items == ExistingRecords(p) + [a];
    assert ExistingRecords(once) == once.items;
  }

  /** The file of that name in a folder, `Absent` when there is none. */
  function PayloadAt<T>(folder: map<string, Payload<T>>, name: string): Payload<T> {
    if name in folder then folder[name] else Absent
  }

  /** The folder after one record is saved under `name`: that file now
      ends with the record, and no other file changes. */
  function SavedFolder<T>(folder: map<string, Payload<T>>, name: string, rec: T): (f: map<string, Payload<T>>)
    ensures f.Keys == folder.Keys + {name}
    ensures Latest(f[name]) == Some(rec)
    ensures forall n :: n in folder && n != name ==> f[n] == folder[n]
  {
    SaveThenLoad(PayloadAt(folder, name), rec);
    folder[name := Appended(PayloadAt(folder, name), rec)]
  }

  // ---------------------------------------------------------------------
  // File names

  /** `"_".join(question.split()).replace("?", "")`. */
  function SafeQuestion(question: string): (r: string)
    ensures NoSpace(r)
    ensures forall i :: 0 <= i < |r| ==> r[i] != '?'
  {
    var joined := Join("_", Words(question));
    JoinNoSpace("_", Words(question));
    var r := RemoveChar(joined, '?');
    assert forall i :: 0 <= i < |r| ==> r[i] in joined;
    r
  }

  /** `"_".join(competency.split())`. */
  function SafeCompetency(competency: string): (r: string)
    ensures NoSpace(r)
  {
    JoinNoSpace("_", Words(competency));
    Join("_", Words(competency))
  }

  /** `f"{safe_question}_{safe_comp}.json"`: one file per question and
      competency, whose name holds no whitespace. */
  function StoryFileName(question: string, competency: string): (name: string)
    ensures NoSpace(name)
    ensures |name| >= 6 && name[|name| - 5..] == ".json"
  {
    var q := SafeQuestion(question);
    var c := SafeCompetency(competency);
    var name := q + "_" + c + ".json";
    assert forall i :: 0 <= i < |name| ==>
      name[i] == (if i < |q| then q[i] else if i == |q| then '_'
                  else if i <= |q| + |c| then c[i - |q| - 1] else ".json"[i - |q| - |c| - 1]);
    name
  }

  /** Questions that differ only in spacing share one story file. */
  lemma SpacingDoesNotMatter(q1: string, q2: string, competency: string)
    requires Words(q1) == Words(q2)
    ensures StoryFileName(q1, competency) == StoryFileName(q2, competency)
  {
  }
}
