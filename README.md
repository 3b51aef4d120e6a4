# STAR story coach — a Dafny model

This project models STARMETHOD, a set of interview-practice tools built around
the STAR method (Situation, Task, Action, Result). At its core is one scoring
and feedback engine, which both console coaches use:

- `STARMethodCoach` holds a `Story` record.
- `UnifiedSTARCoach` holds a dictionary.

The engine measures four free-text sections against a competency from a fixed
catalog:

- word counts (whitespace split);
- whether the result holds a digit;
- whether the action is in the first person;
- how many of the competency's skilled and unskilled signs the text touches.

It then classifies the story with an ordered, first-match-wins decision list
into Talented, Skilled, Unskilled or Overused. It prints a verdict, seven
independent improvement suggestions and a closing block that depends on the
label. Around the engine sit:

- the JSON story files (append one record, read back the latest);
- the role-based builder's keyword matching, section prompts, clarification
  round and text enhancement;
- the quick builder's file names, tags, sample questions and refinement loop;
- the web front end's slugs, fallback prompts, progress bar and error check;
- the `Story` record itself.

Modules, one per source file plus shared parts:

| module | file | models |
|---|---|---|
| `Text` | text.dfy | ASCII versions of `split`, `lower`, `isdigit`, `isalnum`, `\w`, `in`, `join`, `replace`, `rstrip`, `lstrip`, `strip` |
| `Wrappers` | wrappers.dfy | `Option` |
| `Catalog` | catalog.dfy | the labels, `scoring_criteria`, both eight-competency catalogs, the role framework record |
| `Models` | models.dfy | `Story` and `to_dict` |
| `Scoring` | scoring.dfy | the engine: measures, classification, suggestions, closing block, assessment |
| `Persistence` | persistence.dfy | the JSON story files as `Payload` values, story file names |
| `Refinement` | refinement.dfy | the "which part do you want to refine" loop |
| `StarMethodCoach` | star_method_coach.dfy | the original coach as a class over `Option<Story>` and a folder |
| `UnifiedStarCoach` | unified_star_coach.dfy | the unified coach as a class over a dictionary story and a folder: crafting with its own prompts and refinement loop, scoring, saving, reviewing; example stories, section tips, the fallback role framework |
| `RoleBasedStarBuilder` | role_based_star_builder.dfy | keyword matching, competency choice, prompts, clarifying questions, text enhancement |
| `StarStoryBuilder` | star_story_builder.dfy | file names, tags, sample questions, refinement |
| `App` | app.dfy | slugs, fallback prompts, progress bar, the scoring request and the feedback error check |

Conventions used throughout:

- Strings are `seq<char>`. Python's Unicode-aware `split`, `lower`, `isdigit`,
  `isalnum` and `\w` are modelled on ASCII.
- Printed output becomes a returned sequence of lines.
- Console answers become a scripted sequence of answers.
- `exit()` inside a prompt ends the program; the model returns an `Exited` outcome instead.
- A JSON file is `Absent`, `Undecodable`, `ListOf(items)` or `NonList(value)`.
- The clock is a `timestamp` parameter.

Where the code and the documented scenarios of the system differ, the model
follows the code:

- A story whose result has fewer than 20 words is Unskilled even when its
  action is long. The length rule comes first, so such a story is never
  Overused.
- A competency with no closing tips gets the "To further strengthen" header
  and no tip lines. The code has no generic tip.
- An empty competency makes a story incomplete, exactly like an empty
  section.
- "Personal voice" is substring containment. For example,
  `"it was time to act"` counts as first person because it contains `"me "`.

## Model

| member | source | states |
|---|---|---|
| Text.WordCountZeroIffBlank | STARMETHOD/star_story_builder.py:158-160 | `word_count` is 0 exactly when the text is empty or all whitespace |
| Text.LStrip | STARMETHOD/unified_star_coach.py:889 | `lstrip` leaves a suffix that starts with a non-space, and only blanks were removed |
| Text.Strip | STARMETHOD/unified_star_coach.py:889 | `strip` leaves nothing exactly for blank text, and otherwise text that starts and ends with a non-space |
| Text.StripEmptyIffBlank | STARMETHOD/unified_star_coach.py:889 | stripping leaves nothing exactly when the text is blank |
| Text.StripStripped | STARMETHOD/unified_star_coach.py:889 | text without surrounding whitespace is its own `strip` |
| Catalog.LabelNameInjective | STARMETHOD/star_method_coach.py:498-512 | the four labels have four distinct names |
| Catalog.ScoreDescription | STARMETHOD/star_method_coach.py:518 | every label is a key of `scoring_criteria`, so the description lookup cannot fail |
| Catalog.ScoringCriteriaKeys | STARMETHOD/star_method_coach.py:18-59 | `scoring_criteria` has exactly the four label names as keys |
| Catalog.CatalogKeys | STARMETHOD/star_method_coach.py:61-268 | both coaches' catalogs have exactly the same eight competency names |
| Catalog.CatalogsAgree | STARMETHOD/unified_star_coach.py:101-283 | the unified catalog has the same descriptions and signs as the original one; its questions are the first five of the original eight |
| Catalog.EnoughSkilledSigns | STARMETHOD/star_method_coach.py:579-582 | every catalog competency has at least four skilled signs, so `[:2]` always yields two |
| Models.NewStory | STARMETHOD/models.py:4-13 | the constructor stores the six required fields; `score` and `timestamp` default to `None` |
| Models.ToDict | STARMETHOD/models.py:15-17 | `to_dict` has exactly the eight field names as keys, each mapped to its field |
| Models.ToDictInjective | STARMETHOD/models.py:15-17 | distinct stories give distinct dictionaries: `to_dict` loses nothing |
| Models.FreshStoryDict | STARMETHOD/models.py:12-17 | a fresh story's dictionary maps `score` and `timestamp` to `None` |
| Persistence.Appended | STARMETHOD/star_method_coach.py:700-711 | a save leaves a list one longer than the existing records: earlier records unchanged, the new one last; a non-list is wrapped, an undecodable file starts empty |
| Persistence.Latest | STARMETHOD/unified_star_coach.py:735 | `data[-1]` of a list, the object itself otherwise; nothing for a missing, undecodable or empty file |
| Persistence.SaveThenLoad | STARMETHOD/unified_star_coach.py:692-702 | loading right after a save returns the saved record, whatever the file held |
| Persistence.SavesAccumulate | STARMETHOD/star_method_coach.py:700-711 | two saves keep all earlier records in order; only an undecodable file loses its contents |
| Persistence.SavedFolder | STARMETHOD/star_method_coach.py:686-716 | a save touches only the file it names, and that file then ends with the record |
| Persistence.SafeQuestion | STARMETHOD/unified_star_coach.py:688 | the question part of a file name has no whitespace and no `?` |
| Persistence.SafeCompetency | STARMETHOD/unified_star_coach.py:689 | the competency part of a file name has no whitespace |
| Persistence.StoryFileName | STARMETHOD/unified_star_coach.py:688-690 | a story file name has no whitespace and ends in `.json` |
| Persistence.SpacingDoesNotMatter | STARMETHOD/star_method_coach.py:686-688 | questions that split into the same words share one file |
| Refinement.WithSection | STARMETHOD/star_method_coach.py:433 | setting a section replaces that section and no other |
| Refinement.UnnamedSectionUnchanged | STARMETHOD/star_story_builder.py:83-93 | a section no answer names keeps its text through the whole loop |
| Refinement.DoneStopsReading | STARMETHOD/star_story_builder.py:83-93 | after any answers that leave the loop waiting for a part name (edits included), a `done` ends it: nothing typed later has any effect, and the story is the one the earlier answers made |
| Refinement.SingleEdit | STARMETHOD/star_story_builder.py:85-87 | a valid part name followed by text and `done` replaces exactly that part |
| Scoring.Alignment | STARMETHOD/star_method_coach.py:491-495 | an alignment count lies between 0 and the number of signs; it is 0 exactly when no sign matches and maximal exactly when all do |
| Scoring.Measure | STARMETHOD/star_method_coach.py:474-495 | the measures are the word counts, digit-in-result, personal voice and the two bounded alignment counts |
| Scoring.Classify | STARMETHOD/star_method_coach.py:497-512 | the rule order: too short wins, then no first person, then no digit (Skilled), then action-heavy (Overused); Talented and Overused imply their conditions |
| Scoring.ClassifyCharacterised | STARMETHOD/star_method_coach.py:497-512 | each label holds exactly when its condition, with all earlier rules failing, holds |
| Scoring.QuantifyingMovesOnlyViaLaterRules | STARMETHOD/star_method_coach.py:503-508 | a long first-person story without digits is Skilled; adding a digit can move it only by the later rules |
| Scoring.BlankSectionIsTooShort | STARMETHOD/star_method_coach.py:501-502 | a blank situation, action or result always gives Unskilled |
| Scoring.PersonalVoiceFalsePositive | STARMETHOD/star_method_coach.py:483-485 | the first-person check is substring containment: `"it was time to act"` passes |
| Scoring.Suggestions | STARMETHOD/star_method_coach.py:555-574 | each of the seven suggestions appears exactly when its own condition holds, always in the fixed order |
| Scoring.ClosingTipsCoverFramework | STARMETHOD/star_method_coach.py:584-608 | the closing tips exist for exactly the eight catalog competencies, two lines each |
| Scoring.ClosingFor | STARMETHOD/star_method_coach.py:579-608 | Unskilled and Overused get the first two skilled signs of the competency, or fail on an unknown one; other labels get the fixed tips |
| Scoring.ClosingWithFrameworkCatalog | STARMETHOD/unified_star_coach.py:841-866 | both catalogs give the same closing block: two signs for weak stories, two tips otherwise |
| Scoring.Feedback | STARMETHOD/star_method_coach.py:528-608 | the feedback is the label's verdict, exactly the triggered suggestions in order, and the closing block |
| Scoring.Assess | STARMETHOD/star_method_coach.py:462-518 | incomplete exactly when a section or the competency is empty; an unknown competency fails; otherwise the label is the classification and the description its criteria entry |
| Scoring.AssessedClosing | STARMETHOD/star_method_coach.py:579-582 | an assessed weak story is shown the first two skilled signs of its competency |
| Scoring.AssessedSuggestions | STARMETHOD/star_method_coach.py:570-574 | "Include specific numbers" appears exactly when the result has no digit; "Balance your story" exactly when the action has over 200 words and the result under 50 |
| StarMethodCoach.SetSection | STARMETHOD/star_method_coach.py:433 | `setattr` of a section changes that section only and keeps the other fields |
| StarMethodCoach.WithText | STARMETHOD/star_method_coach.py:384-421 | the four `input()` answers replace the four sections and nothing else |
| StarMethodCoach.Coach.SaveStory | STARMETHOD/star_method_coach.py:666-716 | refuses unless all seven fields, including the score, are filled; otherwise stamps the story and appends its record to its file only |
| StarMethodCoach.Coach.ScoreStory | STARMETHOD/star_method_coach.py:462-526 | returns the assessment and the printed lines; the new story and folder are `AfterScoring`: unchanged unless assessed, otherwise the label written into `score` and, on a yes, the story stamped and saved |
| StarMethodCoach.Coach.RecordScore | STARMETHOD/star_method_coach.py:514-526 | writes the label into `score`; a yes answer saves, which then succeeds exactly when the question is not empty |
| StarMethodCoach.Coach.RefineSections | STARMETHOD/star_method_coach.py:426-435 | the loop leaves the sections as `Refined` describes and every other field as it was |
| StarMethodCoach.Coach.CraftStory | STARMETHOD/star_method_coach.py:371-441 | with no competency or question nothing happens; otherwise there is always an assessment, of the entered sections after the refinement loop, and the new story and folder are those sections scored and saved on a yes |
| StarMethodCoach.ScoredSavable | STARMETHOD/star_method_coach.py:668-674 | a scored complete story passes the save guard exactly when it has a question |
| UnifiedStarCoach.ExamplesCoverGeneralCatalog | STARMETHOD/unified_star_coach.py:975-1035 | there is an example story for exactly the eight general competencies |
| UnifiedStarCoach.SectionTipsCoverage | STARMETHOD/unified_star_coach.py:1050-1091 | tips are non-empty exactly for Action Oriented or Customer Focus and a STAR section |
| UnifiedStarCoach.TechSavvyInRoleTable | STARMETHOD/unified_star_coach.py:385-472 | "Tech Savvy" is a role competency of the fallback framework |
| UnifiedStarCoach.TechSavvyIsUnscorable | STARMETHOD/unified_star_coach.py:777-778 | a complete "Tech Savvy" story fails the general catalog lookup before any label is set |
| UnifiedStarCoach.Coach.SaveStory | STARMETHOD/unified_star_coach.py:676-705 | refuses unless six fields are filled (not the score); otherwise sets `timestamp` and appends the dictionary to its file only |
| UnifiedStarCoach.Coach.ScoreStory | STARMETHOD/unified_star_coach.py:763-800 | returns the assessment and printed lines; the new story and folder are `AfterScoring`: unchanged unless assessed, otherwise `score` written and, on a yes, the story stamped and saved |
| UnifiedStarCoach.Coach.RecordScore | STARMETHOD/unified_star_coach.py:794-800 | writes `score`, then saves on yes; the save succeeds exactly when the question is filled |
| UnifiedStarCoach.Coach.LoadStory | STARMETHOD/unified_star_coach.py:723-742 | a number in range reads the latest story of that file; anything else reads nothing |
| UnifiedStarCoach.Coach.ReviewSavedStory | STARMETHOD/unified_star_coach.py:744-761 | a valid choice of a readable file makes its latest story current and scores it, with the new story and folder as `AfterScoring` of that story; otherwise nothing changes |
| UnifiedStarCoach.SavedStoryIsReviewed | STARMETHOD/unified_star_coach.py:753-755 | the story a save appends is the one a later review of that file scores |
| UnifiedStarCoach.ReadSection | STARMETHOD/unified_star_coach.py:888-895 | a prompt that goes on reads a shorter script |
| UnifiedStarCoach.EnteredIsPlain | STARMETHOD/unified_star_coach.py:888-895 | the text a section prompt stores is not blank, has no surrounding whitespace and is neither `exit` nor `back` |
| UnifiedStarCoach.Coach.PromptSection | STARMETHOD/unified_star_coach.py:888-895 | the prompt loop ends as `ReadSection` says and stores the text under the section's key only when one was entered |
| UnifiedStarCoach.RefineDict | STARMETHOD/unified_star_coach.py:958-971 | the refinement loop never returns to the menu: it ends with `done`, `exit` or no more input |
| UnifiedStarCoach.Coach.RefineLoop | STARMETHOD/unified_star_coach.py:958-971 | the loop ends as `RefineDict` says, with the story it describes |
| UnifiedStarCoach.RefineKeepsOtherFields | STARMETHOD/unified_star_coach.py:958-971 | the refinement loop writes only the four section keys |
| UnifiedStarCoach.Coach.EnterSections | STARMETHOD/unified_star_coach.py:888-954 | the four prompts stop, restart or hand over to the refinement loop exactly as `CraftFrom` says |
| UnifiedStarCoach.Coach.RefineAndScore | STARMETHOD/unified_star_coach.py:956-973 | after `done` the refined story is assessed and scored as `AfterScoring` says; otherwise nothing is scored and the folder is kept |
| UnifiedStarCoach.Coach.CraftStory | STARMETHOD/unified_star_coach.py:868-973 | the session ends as `Craft` says; it is assessed and scored exactly when it reaches `done`, and otherwise the folder is kept |
| UnifiedStarCoach.CraftKeepsOtherFields | STARMETHOD/unified_star_coach.py:868-971 | however crafting ends, competency, question, score and timestamp are as they were |
| UnifiedStarCoach.CraftFromKeepsOtherFields | STARMETHOD/unified_star_coach.py:878-971 | from any prompt on, only the four section keys are written |
| UnifiedStarCoach.Filled | STARMETHOD/unified_star_coach.py:888-954 | the prompts from `k` on store their answers in order under the section keys, and nothing else |
| UnifiedStarCoach.PlainAnswersThenDone | STARMETHOD/unified_star_coach.py:888-961 | plain answers at the remaining prompts followed by `done` make the story ready to score, holding those answers |
| UnifiedStarCoach.CraftInOnePass | STARMETHOD/unified_star_coach.py:868-961 | with a competency and question, four plain answers and `done` fill the four sections in order, ready to score |
| UnifiedStarCoach.BackKeepsEnteredSections | STARMETHOD/unified_star_coach.py:907-913 | `back` at the task prompt starts crafting over, keeping the situation just entered |
| UnifiedStarCoach.BackRestarts | STARMETHOD/unified_star_coach.py:911-912 | `back` after the first prompt starts `craft_star_story` over |
| RoleBasedStarBuilder.FallbackHasNoGuidance | STARMETHOD/role_based_star_builder.py:708-1001 | every competency of the fallback framework has empty section guidance |
| RoleBasedStarBuilder.MatchedUpToMeaning | STARMETHOD/role_based_star_builder.py:243-250 | for any keyword table, after any number of its keywords, the matched set holds exactly the role competencies that an occurring keyword maps to |
| RoleBasedStarBuilder.MatchedMeaning | STARMETHOD/role_based_star_builder.py:243-250 | a competency is matched exactly when it belongs to the role and some keyword in the lower-cased question maps to it |
| RoleBasedStarBuilder.CollectMatches | STARMETHOD/role_based_star_builder.py:243-250 | the keyword loop, over any keyword table, ends with exactly the matched set the table defines |
| RoleBasedStarBuilder.TakeThree | STARMETHOD/role_based_star_builder.py:256 | min(3, n) distinct members of the matched set |
| RoleBasedStarBuilder.IdentifyRelevantCompetencies | STARMETHOD/role_based_star_builder.py:213-256 | at most three results; with no match, the first min(3, n) role competencies in order; otherwise min(3, matches) distinct matched competencies |
| RoleBasedStarBuilder.FirstPick | STARMETHOD/role_based_star_builder.py:268-277 | the first in-range numbered answer is picked, and there is one exactly when some answer is in range |
| RoleBasedStarBuilder.ChoosePrimaryCompetency | STARMETHOD/role_based_star_builder.py:258-277 | a single competency is returned without asking; otherwise the first valid numbered answer picks one from the list |
| RoleBasedStarBuilder.SectionPrompt | STARMETHOD/role_based_star_builder.py:355-434 | non-empty details guidance comes first, as "Suggested guidance for <competency> <section>s:" and a line break followed by the details field; then the competency's table entry; then the default |
| RoleBasedStarBuilder.FallbackPromptsAreTablePrompts | STARMETHOD/role_based_star_builder.py:357-358 | with the fallback details every prompt is the one given without details |
| RoleBasedStarBuilder.ClarifyingQuestions | STARMETHOD/role_based_star_builder.py:436-543 | the clarifying questions of every section and competency are non-empty |
| RoleBasedStarBuilder.AppendClarifications | STARMETHOD/role_based_star_builder.py:292-298 | the clarification loop computes `Clarified` |
| RoleBasedStarBuilder.ClarifiedExtends | STARMETHOD/role_based_star_builder.py:296-298 | the section text stays a prefix and grows by one space plus the answer for each non-empty answer |
| RoleBasedStarBuilder.ClarifiedUnchangedIffAllEmpty | STARMETHOD/role_based_star_builder.py:296-298 | the text is unchanged exactly when every answer is empty |
| RoleBasedStarBuilder.EnhanceText | STARMETHOD/role_based_star_builder.py:560-575 | text of 20 words or more is unchanged; shorter text gains " [Note:" … "]", which quotes at most 100 characters of guidance exactly when there is guidance |
| RoleBasedStarBuilder.GenerateTalentedResponse | STARMETHOD/role_based_star_builder.py:545-558 | each of the four sections is `enhance_text` of the matching input section |
| RoleBasedStarBuilder.TalentedResponseExtends | STARMETHOD/role_based_star_builder.py:545-575 | every input section is a prefix of its enhanced form; a story whose sections all have 20 or more words is returned unchanged |
| RoleBasedStarBuilder.EnhancePrefix | STARMETHOD/role_based_star_builder.py:574-575 | enhancement only appends to the text |
| StarStoryBuilder.SanitizeFilename | STARMETHOD/star_story_builder.py:126-127 | every character is a letter, digit, `-` or `_`; the length is the input's minus its trailing spaces |
| StarStoryBuilder.StripLength | STARMETHOD/star_story_builder.py:127 | `rstrip` after the character mapping removes exactly the input's trailing spaces |
| StarStoryBuilder.SanitizeIdempotent | STARMETHOD/star_story_builder.py:127 | sanitising twice is sanitising once |
| StarStoryBuilder.NormaliseTxt | STARMETHOD/star_story_builder.py:132-133 | the result ends in ".txt" ignoring case, extends the name by at most four characters, and leaves a name already ending so unchanged |
| StarStoryBuilder.NormaliseIdempotent | STARMETHOD/star_story_builder.py:132-133 | normalising twice is normalising once |
| StarStoryBuilder.ProposedFilename | STARMETHOD/star_story_builder.py:97-105 | the sanitised question, then `_` and the sanitised first tag when that is not empty, then `_<timestamp>.txt` on a yes; so it always starts with the sanitised question |
| StarStoryBuilder.WithTag | STARMETHOD/star_story_builder.py:99 | the base name, extended by `_` and the tag only when the tag is not empty |
| StarStoryBuilder.WithTimestamp | STARMETHOD/star_story_builder.py:102-105 | on a yes the name gains the suffix `_<timestamp>.txt`; otherwise it is unchanged |
| StarStoryBuilder.SavedNameEndsInTxt | STARMETHOD/star_story_builder.py:103-105 | every saved name ends in ".txt"; a timestamped name is not extended again |
| StarStoryBuilder.ChooseTags | STARMETHOD/star_story_builder.py:113 | a typed answer is kept; an empty answer with suggestions gives the comma-joined suggestions; without suggestions the raw answer is used |
| StarStoryBuilder.FirstMatchMeaning | STARMETHOD/star_story_builder.py:10-16 | the suggested tags are those of the first key, in declaration order, found in the question, and empty exactly when no key occurs |
| StarStoryBuilder.SuggestTags | STARMETHOD/star_story_builder.py:198-202 | the loop with `break` returns the first-match tags |
| StarStoryBuilder.SuggestedTagsAreWritten | STARMETHOD/star_story_builder.py:113 | with a matching key the tags are never empty, so the file gets a tags line |
| StarStoryBuilder.MapNumericQuestion | STARMETHOD/star_story_builder.py:177-182 | a number from 1 to 5 becomes that sample question; anything else stays as typed |
| StarStoryBuilder.MapNumericIdempotent | STARMETHOD/star_story_builder.py:148-156 | no sample question is a number, so mapping twice changes nothing |
| StarStoryBuilder.RefineStory | STARMETHOD/star_story_builder.py:81-93 | the refinement loop computes `Refined` |
| App.SlugFilter | STARMETHOD/app.py:36 | only word characters, `-`, `.` and spaces survive the filter |
| App.SlugFilterKeepsKept | STARMETHOD/app.py:36 | text made only of kept characters passes the filter unchanged |
| App.Slugify | STARMETHOD/app.py:34-38 | at most 80 characters, each a word character, `-` or `.`; a prefix of the filtered text with spaces turned into `_` |
| App.SlugifyIdempotent | STARMETHOD/app.py:34-38 | slugifying a slug changes nothing |
| App.ShortSlugUnchanged | STARMETHOD/app.py:34-38 | text of at most 80 slug characters is its own slug |
| App.BehavioralPrompts | STARMETHOD/app.py:160-170 | a listed competency gets its table entry; any other gets four prompts, each naming it |
| App.FilledCount | STARMETHOD/app.py:366-368 | the filled count lies in 0..4; it is 4 exactly when no section is blank, and 0 exactly when all are |
| App.ProgressColour | STARMETHOD/app.py:369-370 | green exactly when all four sections are filled, amber for two or three, red for none or one |
| App.ProgressPercent | STARMETHOD/app.py:374 | the percentage is at most 100; it is 100 only when all four sections are filled and 0 only when none is |
| App.ProgressAndScoring | STARMETHOD/app.py:900 | a full bar allows scoring; a scoring request with a competency is a complete story; blank-only sections are scored though the bar is empty |
| App.ErrorCheckIgnoresCase | STARMETHOD/app.py:927 | the error check ignores case |
| App.ErrorCheckSurvivesAppend | STARMETHOD/app.py:927 | text appended after an error keyword cannot hide it |
| App.DisplayFor | STARMETHOD/app.py:921-942 | plain feedback is shown exactly when there is a score and non-empty feedback with no error keyword; missing score always shows an error |

## Left out

- Console and Streamlit I/O: menus, prompts, colours, HTML and the `display_*` and `print_*` helpers. Only the decisions behind them are modelled.
- The remote model calls and everything built on them in app.py: grammar, tone, review, chat and the similarity search with its `float()` parsing.
- The PDF scraping of competency files in both the unified coach and the role builder. Only the hard-coded fallback tables are modelled.
- File-system effects: directories, JSON encoding, the text block `save_story_to_file` appends, and opening the file afterwards. A JSON file is an abstract `Payload`.
- `datetime.now()`: the timestamp is a parameter.
- `COMPETENCY_QUESTIONS` (competency_questions.py) is not part of this model. `App.BehavioralPrompts` takes it as a parameter.
- The tuple unpacking of `unified_coach.score_story()` at app.py:919. The method as written returns nothing and asks for input, so only the branches that follow are modelled, over an optional score and a feedback string.
- The API key and session-state plumbing in app.py.
- The console loops that only store answers: `get_star_input`, `select_competency_and_question`, `review_and_score_story`, and the `samples`/`exit` commands of the quick builder. Their effect on the story is plain assignment.
- Story files: a story file's records are taken to be objects whose values are strings. A file whose latest element is not such an object makes `review_saved_stories` fail inside its `try` (caught at unified_star_coach.py:760) after `self.story` has been overwritten; the model cannot express that record.
- RoleBasedStarBuilder.IdentifyRelevantCompetencies: does not fix which three matches are returned, nor their order, because the source takes them from a Python `set`.
- RoleBasedStarBuilder.TakeThree: does not fix which members are taken, nor their order, because Python does not fix the iteration order of a `set`.
- RoleBasedStarBuilder.ChoosePrimaryCompetency: an empty list keeps asking forever in the source. Here, as for any script without a valid number, the scripted answers run out and no competency is chosen.
- StarMethodCoach.Coach.RefineSections: a script that runs out ends the loop, where `input()` would raise `EOFError`.
- UnifiedStarCoach.Coach.CraftStory: a script that runs out ends crafting as `Stalled`, where `input()` would raise `EOFError`.
- StarStoryBuilder.RefineStory: a script that runs out ends the loop, where `input()` would raise `EOFError`.
- Unicode: `split`, `lower`, `isdigit`, `isalnum` and `\w` follow ASCII. `int(question)` on a digit string is its decimal value.
