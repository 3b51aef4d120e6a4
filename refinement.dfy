/** The section refinement loop that both the original coach
    (`craft_star_story`) and the quick story builder (`refine_story`) run
    after the four STAR sections are entered: the user names a section and
    types its new text, until "done". The console is a scripted sequence of
    answers. */
module Refinement {
  import opened Text
  import opened Scoring

  /** `STAR_PARTS`, the names the loop accepts. */
  const SectionNames: seq<string> := ["situation", "task", "action", "result"]

  function Section(t: StarText, part: string): string
    requires part in SectionNames
  {
    if part == "situation" then t.situation
    else if part == "task" then t.task
    else if part == "action" then t.action
    else t.result
  }

  /** `setattr(story, part, text)` / `story[part] = text`. */
  function WithSection(t: StarText, part: string, text: string): (r: StarText)
    requires part in SectionNames
    ensures Section(r, part) == text
    ensures forall p :: p in SectionNames && p != part ==> Section(r, p) == Section(t, p)
  {
    if part == "situation" then t.(situation := text)
    else if part == "task" then t.(task := text)
    else if part == "action" then t.(action := text)
    else t.(result := text)
  }

  /** The story after the loop has read `script`: every answer is
      lower-cased; a section name takes the next answer, unchanged, as that
      section's new text; "done" stops; anything else is skipped. A script
      that runs out ends the loop where `input()` would raise `EOFError`. */
  function Refined(t: StarText, script: seq<string>): StarText
    decreases |script|
  {
    if script == [] then t
    else if Lower(script[0]) in SectionNames then
      if |script| == 1 then t
      else Refined(WithSection(t, Lower(script[0]), script[1]), script[2..])
    else if Lower(script[0]) == "done" then t
    else Refined(t, script[1..])
  }

  /** A section no answer names keeps its text, whatever else the loop
      rewrites. */
  lemma {:induction false} UnnamedSectionUnchanged(t: StarText, script: seq<string>, p: string)
    requires p in SectionNames
    requires forall i :: 0 <= i < |script| ==> Lower(script[i]) != p
    ensures Section(Refined(t, script), p) == Section(t, p)
    decreases |script|
  {
    if script == [] {
    } else if Lower(script[0]) in SectionNames {
      if |script| > 1 {
        var t' := WithSection(t, Lower(script[0]), script[1]);
        assert Lower(script[0]) != p;
        assert forall i :: 0 <= i < |script[2..]| ==> script[2..][i] == script[i + 2];
        UnnamedSectionUnchanged(t', script[2..], p);
      }
    } else if Lower(script[0]) == "done" {
    } else {
      assert forall i :: 0 <= i < |script[1..]| ==> script[1..][i] == script[i + 1];
      UnnamedSectionUnchanged(t, script[1..], p);
    }
  }

  /** After reading `script` the loop is waiting for a part name: every
      part name read so far has had its text, and no "done" was read. */
  predicate AtChoice(script: seq<string>)
    decreases |script|
  {
    if script == [] then true
    else if Lower(script[0]) in SectionNames then |script| >= 2 && AtChoice(script[2..])
    else if Lower(script[0]) == "done" then false
    else AtChoice(script[1..])
  }

  /** Answers after "done" are never read: whatever edits came first, once
      the loop reads "done" at a part-name prompt, anything typed later has
      no effect, and the story is the one the earlier answers made. */
  lemma {:induction false} DoneStopsReading(t: StarText, script: seq<string>, done: string, rest: seq<string>)
    requires AtChoice(script) && Lower(done) == "done"
    ensures Refined(t, script + [done] + rest) == Refined(t, script + [done])
    ensures Refined(t, script + [done]) == Refined(t, script)
    decreases |script|
  {
    var whole := script + [done] + rest;
    var cut := script + [done];
    if script == [] {
      assert whole[0] == done && cut[0] == done;
    } else {
      assert whole[0] == script[0] && cut[0] == script[0];
      if Lower(script[0]) in SectionNames {
        assert whole[1] == script[1] && cut[1] == script[1];
        assert whole[2..] == script[2..] + [done] + rest;
        assert cut[2..] == script[2..] + [done];
        DoneStopsReading(WithSection(t, Lower(script[0]), script[1]), script[2..], done, rest);
      } else {
        assert whole[1..] == script[1..] + [done] + rest;
        assert cut[1..] == script[1..] + [done];
        DoneStopsReading(t, script[1..], done, rest);
      }
    }
  }

  /** One valid edit followed by "done" replaces exactly the named section. */
  lemma SingleEdit(t: StarText, part: string, text: string, rest: seq<string>)
    requires part in SectionNames
    ensures Refined(t, [part, text, "done"] + rest) == WithSection(t, part, text)
  {
    var script := [part, text, "done"] + rest;
    assert Lower(part) == part by {
      assert part == "situation" || part == "task" || part == "action" || part == "result";
    }
    assert script[2..] == ["done"] + rest;
    assert Lower("done") == "done";
  }
}
