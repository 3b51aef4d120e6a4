/** `star_story_builder`: the quick console builder. It maps a sample
    number to its question, suggests tags from the question, runs the
    refinement loop over a dictionary story and names the text file the
    story is appended to. Console answers and the clock are parameters. */
module StarStoryBuilder {
  import opened Text
  import opened Scoring
  import opened Refinement

  // ---------------------------------------------------------------------
  // sanitize_filename

  /** The per-character part of `sanitize_filename`: letters, digits,
      spaces, `-` and `_` stay, anything else becomes `_`. */
  function SanitizeChar(c: char): char {
    if IsAlnum(c) || c == ' ' || c == '-' || c == '_' then c else '_'
  }

  function SanitizeChars(s: string): (m: string)
    ensures |m| == |s|
    ensures forall i :: 0 <= i < |s| ==> m[i] == SanitizeChar(s[i])
  {
    seq(|s|, i requires 0 <= i < |s| => SanitizeChar(s[i]))
  }

  /** How many spaces the text ends with. */
  function TrailingSpaces(s: string): (n: nat)
    ensures n <= |s|
  {
    if s != [] && s[|s| - 1] == ' ' then 1 + TrailingSpaces(s[..|s| - 1]) else 0
  }

  predicate FileNameChar(c: char) { IsAlnum(c) || c == '-' || c == '_' }

  /** `sanitize_filename`: every character is a letter, a digit, `-` or
      `_`, and only the trailing spaces are dropped. */
  function SanitizeFilename(s: string): (r: string)
    ensures forall i :: 0 <= i < |r| ==> FileNameChar(r[i])
    ensures |r| == |s| - TrailingSpaces(s)
  {
    var m := SanitizeChars(s);
    var stripped := RStrip(m);
    StripLength(s);
    var r := ReplaceChar(stripped, ' ', '_');
    forall i | 0 <= i < |r| ensures FileNameChar(r[i]) {
      assert stripped[i] == m[i];
    }
    r
  }

  /** Sanitising only turns spaces into spaces, so `rstrip` removes exactly
      the input's trailing spaces. */
  lemma {:induction false} StripLength(s: string)
    ensures |RStrip(SanitizeChars(s))| == |s| - TrailingSpaces(s)
    decreases |s|
  {
    var m := SanitizeChars(s);
    if s != [] && s[|s| - 1] == ' ' {
      var init := s[..|s| - 1];
      assert m[..|m| - 1] == SanitizeChars(init);
      StripLength(init);
    } else if s != [] {
      assert !IsSpace(m[|m| - 1]);
    }
  }

  /** A sanitised name is left as it is by a second sanitising. */
  lemma SanitizeIdempotent(s: string)
    ensures SanitizeFilename(SanitizeFilename(s)) == SanitizeFilename(s)
  {
    var r := SanitizeFilename(s);
    assert SanitizeChars(r) == r;
    assert RStrip(r) == r;
  }

  // ---------------------------------------------------------------------
  // File and tag names of handle_saving / save_story_to_file

  /** The `.txt` normalisation of `save_story_to_file`. */
  function NormaliseTxt(filename: string): (r: string)
    ensures IsSuffix(".txt", Lower(r))
    ensures IsPrefix(filename, r) && |r| <= |filename| + 4
    ensures IsSuffix(".txt", Lower(filename)) ==> r == filename
  {
    if IsSuffix(".txt", Lower(filename)) then filename
    else
      var r := filename + ".txt";
      LowerAppend(filename, ".txt");
      assert Lower(".txt") == ".txt";
      assert r[..|filename|] == filename;
      r
  }

  lemma NormaliseIdempotent(filename: string)
    ensures NormaliseTxt(NormaliseTxt(filename)) == NormaliseTxt(filename)
  {
  }

  /** `answer.lower() in ['yes', 'y']`. */
  predicate IsYes(answer: string) {
    Lower(answer) == "yes" || Lower(answer) == "y"
  }

  /** The proposed file name of `handle_saving`: the sanitised question,
      then `_` and the sanitised first suggested tag when that is not empty,
      then `_`, the timestamp and `.txt` when the user asks for one. */
  function ProposedFilename(question: string, suggested: seq<string>, timestampAnswer: string,
                            timestamp: string): (r: string)
    ensures IsPrefix(SanitizeFilename(question), r)
    ensures !IsYes(timestampAnswer) && (suggested == [] || SanitizeFilename(suggested[0]) == "")
      ==> r == SanitizeFilename(question)
    ensures IsYes(timestampAnswer) ==> IsSuffix("_" + timestamp + ".txt", r)
    ensures suggested != [] && SanitizeFilename(suggested[0]) != "" ==>
      IsPrefix(SanitizeFilename(question) + "_" + SanitizeFilename(suggested[0]), r)
    ensures
      var base := SanitizeFilename(question);
      var tag := if suggested != [] then SanitizeFilename(suggested[0]) else "";
      var proposed := if tag != "" then base + "_" + tag else base;
      r == (if IsYes(timestampAnswer) then proposed + "_" + timestamp + ".txt" else proposed)
  {
    var base := SanitizeFilename(question);
    var tag := if suggested != [] then SanitizeFilename(suggested[0]) else "";
    var proposed := WithTag(base, tag);
    var r := WithTimestamp(proposed, timestampAnswer, timestamp);
    PrefixTransitive(base, proposed, r);
    r
  }

  /** `f"{base}_{tag}" if tag else base`. */
  function WithTag(base: string, tag: string): (p: string)
    ensures IsPrefix(base, p)
    ensures p == (if tag != "" then base + "_" + tag else base)
  {
    PrefixOfAppend(base, "_" + tag);
    if tag != "" then base + "_" + tag else base
  }

  /** `f"{name}_{timestamp}.txt"` when the answer is yes. */
  function WithTimestamp(name: string, answer: string, timestamp: string): (r: string)
    ensures IsPrefix(name, r)
    ensures IsYes(answer) ==> IsSuffix("_" + timestamp + ".txt", r)
    ensures r == (if IsYes(answer) then name + "_" + timestamp + ".txt" else name)
  {
    PrefixOfAppend(name, "_" + timestamp + ".txt");
    SuffixOfAppend(name, "_" + timestamp + ".txt");
    if IsYes(answer) then name + ("_" + timestamp + ".txt") else name
  }

  lemma PrefixTransitive(a: string, b: string, c: string)
    requires IsPrefix(a, b) && IsPrefix(b, c)
    ensures IsPrefix(a, c)
  {
    assert c[..|a|] == c[..|b|][..|a|];
  }

  lemma PrefixOfAppend(a: string, b: string)
    ensures IsPrefix(a, a + b)
  {
    assert (a + b)[..|a|] == a;
  }

  lemma SuffixOfAppend(a: string, b: string)
    ensures IsSuffix(b, a + b)
  {
    assert (a + b)[|a + b| - |b|..] == b;
  }

  /** The name the story file is written under. With a timestamp it already
      ends in `.txt` and normalisation adds nothing; every saved name ends in
      `.txt` ignoring case. */
  lemma SavedNameEndsInTxt(question: string, suggested: seq<string>, timestampAnswer: string, timestamp: string)
    ensures var name := NormaliseTxt(ProposedFilename(question, suggested, timestampAnswer, timestamp));
      IsSuffix(".txt", Lower(name)) &&
      (IsYes(timestampAnswer) ==> name == ProposedFilename(question, suggested, timestampAnswer, timestamp))
  {
    var p := ProposedFilename(question, suggested, timestampAnswer, timestamp);
    if IsYes(timestampAnswer) {
      TxtSuffixSurvivesLower(p, "_" + timestamp);
    }
  }

  /** A name ending in `<stem>.txt` still ends in `.txt` once lower-cased. */
  lemma TxtSuffixSurvivesLower(p: string, stem: string)
    requires IsSuffix(stem + ".txt", p)
    ensures IsSuffix(".txt", Lower(p))
  {
    var n := |p| - 4;
    assert forall i :: 0 <= i < 4 ==> p[n + i] == ".txt"[i] by {
      forall i | 0 <= i < 4 ensures p[n + i] == ".txt"[i] {
        assert p[|p| - |stem + ".txt"|..][|stem| + i] == (stem + ".txt")[|stem| + i];
      }
    }
    var lp := Lower(p);
    assert lp[n..] == [LowerChar(p[n]), LowerChar(p[n + 1]), LowerChar(p[n + 2]), LowerChar(p[n + 3])];
  }

  /** `tags_input or ",".join(suggested_tags) if suggested_tags else
      tags_input`, which Python groups as a conditional around the `or`. */
  function ChooseTags(tagsInput: string, suggested: seq<string>): (tags: string)
    ensures tagsInput != "" ==> tags == tagsInput
    ensures suggested == [] ==> tags == tagsInput
    ensures suggested != [] && tagsInput == "" ==> tags == Join(",", suggested)
  {
    if suggested != [] then (if tagsInput != "" then tagsInput else Join(",", suggested))
    else tagsInput
  }

  // ---------------------------------------------------------------------
  // Tag suggestion

  /** `SUGGESTED_TAGS`, in declaration order. */
  const SuggestedTags: seq<(string, seq<string>)> := [
    ("leadership", ["Drives_Results", "Collaborates", "Communicates_Effectively"]),
    ("deal with a difficult customer", ["Customer_Focus", "Communicates_Effectively", "Being_Resilient"]),
    ("meet a tight deadline", ["Drives_Results", "Action_Oriented", "Plans_and_Aligns"]),
    ("solve a complex problem", ["Manages_Complexity", "Decision_Quality", "Tech_Savvy"]),
    ("failed", ["Nimble_Learning", "Being_Resilient", "Self_Development"])
  ]

  predicate KeyOccurs(lowerQuestion: string, k: nat)
    requires k < |SuggestedTags|
  {
    Contains(lowerQuestion, Lower(SuggestedTags[k].0))
  }

  /** The tags of the first key from index `k` on that occurs in the
      question. */
  function FirstMatchTags(lowerQuestion: string, k: nat): seq<string>
    requires k <= |SuggestedTags|
    decreases |SuggestedTags| - k
  {
    if k == |SuggestedTags| then []
    else if KeyOccurs(lowerQuestion, k) then SuggestedTags[k].1
    else FirstMatchTags(lowerQuestion, k + 1)
  }

  /** The suggestion is the tag list of the first occurring key, and empty
      exactly when no key occurs. */
  lemma {:induction false} FirstMatchMeaning(lowerQuestion: string, k: nat)
    requires k <= |SuggestedTags|
    ensures FirstMatchTags(lowerQuestion, k) == [] <==>
      forall j :: k <= j < |SuggestedTags| ==> !KeyOccurs(lowerQuestion, j)
    ensures FirstMatchTags(lowerQuestion, k) != [] ==>
      exists j :: k <= j < |SuggestedTags| && KeyOccurs(lowerQuestion, j)
        && FirstMatchTags(lowerQuestion, k) == SuggestedTags[j].1
        && forall i :: k <= i < j ==> !KeyOccurs(lowerQuestion, i)
    decreases |SuggestedTags| - k
  {
    if k < |SuggestedTags| {
      assert |SuggestedTags[k].1| == 3;
      if !KeyOccurs(lowerQuestion, k) {
        FirstMatchMeaning(lowerQuestion, k + 1);
      }
    }
  }

  /** The tag-search loop of `star_story_builder`, with its `break`. */
  method SuggestTags(question: string) returns (tags: seq<string>)
    ensures tags == FirstMatchTags(Lower(question), 0)
  {
    var lq := Lower(question);
    tags := [];
    var k := 0;
    while k < |SuggestedTags|
      invariant 0 <= k <= |SuggestedTags|
      invariant tags == [] && FirstMatchTags(lq, 0) == FirstMatchTags(lq, k)
    {
      if Contains(lq, Lower(SuggestedTags[k].0)) {
        tags := SuggestedTags[k].1;
        break;
      }
      k := k + 1;
    }
  }

  /** With a matching key the file always gets a tags line: the empty
      answer is replaced by the suggestions, which are never empty. */
  lemma SuggestedTagsAreWritten(question: string, tagsInput: string)
    requires FirstMatchTags(Lower(question), 0) != []
    ensures ChooseTags(tagsInput, FirstMatchTags(Lower(question), 0)) != ""
  {
    FirstMatchMeaning(Lower(question), 0);
    var j :| 0 <= j < |SuggestedTags| && FirstMatchTags(Lower(question), 0) == SuggestedTags[j].1;
    assert |SuggestedTags[j].1[0]| > 0;
  }

  // ---------------------------------------------------------------------
  // Sample questions

  /** `get_sample_questions()`. */
  const SampleQuestions: seq<string> := [
    "Tell me about a time you had to deal with a difficult customer or colleague.",
    "Describe a situation where you had to meet a tight deadline.",
    "Tell me about a time you showed leadership skills.",
    "Give an example of when you had to solve a complex problem.",
    "Tell me about a time you failed and what you learned from it."
  ]

  /** A question typed as a number from 1 to 5 becomes that sample
      question; anything else, other numbers included, stays as typed. */
  function MapNumericQuestion(question: string): (r: string)
    ensures r == question || r in SampleQuestions
    ensures !IsDigits(question) ==> r == question
    ensures IsDigits(question) && 1 <= DecimalValue(question) <= |SampleQuestions|
      ==> r == SampleQuestions[DecimalValue(question) - 1]
  {
    if IsDigits(question) && 1 <= DecimalValue(question) <= |SampleQuestions|
    then SampleQuestions[DecimalValue(question) - 1]
    else question
  }

  /** No sample question is itself a number (each ends with a full stop),
      so mapping twice changes nothing. */
  lemma MapNumericIdempotent(question: string)
    ensures MapNumericQuestion(MapNumericQuestion(question)) == MapNumericQuestion(question)
  {
    if IsDigits(question) && 1 <= DecimalValue(question) <= |SampleQuestions| {
      var r := SampleQuestions[DecimalValue(question) - 1];
      assert r[|r| - 1] == '.';
      assert !IsDigits(r);
    }
  }

  // ---------------------------------------------------------------------
  // refine_story

  /** `refine_story` over a scripted console: the dictionary story after the
      loop is the one `Refined` describes. */
  method RefineStory(story: StarText, script: seq<string>) returns (r: StarText)
    ensures r == Refined(story, script)
  {
    r := story;
    var i := 0;
    while i < |script|
      invariant 0 <= i <= |script|
      invariant Refined(r, script[i..]) == Refined(story, script)
      decreases |script| - i
    {
      var part := Lower(script[i]);
      if part in SectionNames {
        if i + 1 == |script| {
          assert script[i..] == [script[i]];
          break;
        }
        assert script[i..][1] == script[i + 1] && script[i..][2..] == script[i + 2..];
        r := WithSection(r, part, script[i + 1]);
        i := i + 2;
      } else if part == "done" {
        assert script[i..][0] == script[i];
        break;
      } else {
        assert script[i..][1..] == script[i + 1..];
        i := i + 1;
      }
    }
  }
}
