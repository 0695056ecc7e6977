# Story session transcript engine of AIDungeon's `hosted.py`, in Dafny

`hosted.py` serves one interactive story over HTTP. It keeps one live story with three parts:
the opening text (`story_start`) and two parallel lists, the player's `actions` and the
generator's `results`. It also sets the generator's token budget (`generate_num`) per call.
This project models that engine:

- how a raw action is preprocessed (empty marker, quoted passthrough, strip, lower-case first
  character, terminal full stop, second-person conversion, wrapping);
- the per-turn budget (120 for dialogue, then back to the default);
- the generation step;
- the suppression of a turn whose result repeats the previous one;
- revert, retry and the rendered current chunk;
- the budget handling around the story opening;
- the composition of the opening context in `get_curated_exposition`.

Layout:

- `results.dfy` (module `Results`): `Option`, `Result` and the Python exceptions the code raises.
- `text.dfy` (module `Text`): the Python string operations used: `str.isspace`, `strip`,
  `lower` of one character, the substring test `p in s`, and `str.replace`, with their
  characterising lemmas.
- `exposition.dfy` (module `Exposition`): `get_curated_exposition`, both as written and corrected (see Findings).
- `engine.dfy` (module `Engine`): the transcript as a value. Each operation is a function from
  the old state to the new one, with the lemmas relating the operations.
- `hosted.dfy` (module `Hosted`): the objects the code mutates (`Story` with its lists,
  `Generator` with its budget, the `StoryManager` holding both). The handler bodies are
  methods whose postconditions equate the new state with the `Engine` function of the old
  one. `StoryManager.Valid` is the invariant between calls: one result per action, and the
  budget back at its default.

Collaborators the code calls but does not show are parameters:

- `act_with_timeout` is a `Backend`: given the transcript, the action and the budget in force,
  it returns a result (the pair is committed) or nothing (nothing is committed).
- `first_to_second_person` is an uninterpreted `string -> string`.
- `get_similarity(a, b) > 0.9` is an uninterpreted `(string, string) -> bool`.
- `grammars.generate` is an uninterpreted `(setting, character, slot) -> string`.
- The story manager's own `start_new_story` is a function of prompt, context and budget.

Because the budget is an argument of these functions, the postconditions show which budget
was in force during each generation call.

Python exceptions are modelled as results, not as preconditions:

- A non-empty, unquoted, all-whitespace action makes `action[0]` raise IndexError at line 113,
  with nothing changed (`Feed` returns `Err`, `FeedStoryData` returns `Raised(IndexError)`).
- `retry` on an empty history makes `pop()` raise IndexError at line 193, with nothing changed.

Four behaviours of the code that a reader might not expect, all modelled as written:

- a quoted action is passed on verbatim and is not wrapped in `"\n> "…"\n"`;
- `revert` on an empty history does nothing and raises nothing;
- `retry` calls the generation step directly: no preprocessing, no budget change, no
  repetition check, and a retry that produces nothing leaves the pair removed;
- the repetition check runs even when the generation step returned without committing
  anything. Such a turn can therefore drop an older turn whose result repeats the one before
  it (`Engine.EmptyGenerationCanDropOlderTurn`).

## Model

| member | source | states |
|---|---|---|
| `Text.IsSpace` | hosted.py:111 | the characters Python's `isspace()` accepts, which `strip()` removes |
| `Text.Strip` | hosted.py:111 | `strip()` is the slice of the action left after removing only whitespace from both ends; it is empty exactly when the action is all whitespace, and otherwise neither starts nor ends with whitespace |
| `Text.SkipSpace` | hosted.py:111 | the scan that `strip()` makes from the front stops at the first non-whitespace character and passes only whitespace |
| `Text.SkipSpaceBack` | hosted.py:111 | the scan that `strip()` makes from the back stops after the last non-whitespace character and passes only whitespace |
| `Text.StripUnchanged` | hosted.py:111 | stripping a string without whitespace at either end returns it unchanged |
| `Text.LowerFirst` | hosted.py:113 | only the first character is lower-cased (an ASCII capital becomes its lower-case letter); the remaining characters are kept |
| `Text.Contains` | hosted.py:122 | the `in` substring test; it can only hold when the pattern is no longer than the text |
| `Text.ContainsIff` | hosted.py:122 | the `in` test holds exactly when the pattern occurs at some index (both directions) |
| `Text.MissingFirstCharacter` | hosted.py:122 | a text lacking the pattern's first character does not contain the pattern |
| `Text.Replace` | hosted.py:55-57 | `str.replace`: every non-overlapping occurrence, leftmost first, is replaced |
| `Text.ReplaceRemovesAll` | hosted.py:55-57 | with a non-empty replacement made of characters foreign to the pattern, no occurrence of the pattern is left |
| `Text.ReplaceClearsFirstCharacter` | hosted.py:55-57 | if the pattern's first character occurs in the text only where the pattern begins, and not in the replacement, it is gone from the result |
| `Text.ReplaceAbsent` | hosted.py:55 | `replace` leaves a text without the pattern unchanged |
| `Text.ReplaceSelf` | hosted.py:55 | replacing the placeholder by itself is the identity |
| `Text.ReplaceForeign` | hosted.py:54-55 | text made of characters foreign to the pattern is left unchanged |
| `Text.ReplaceForeignSuffix` | hosted.py:54-55 | a suffix of characters foreign to the pattern (the appended blank line) passes through `replace` unchanged |
| `Exposition.ExpositionAsWritten` | hosted.py:43-75 | as written: an exposition is returned exactly for the five templated keys; every other key raises IndexError when the character has no prompts and TypeError otherwise |
| `Exposition.AsWrittenFailsForRanger` | hosted.py:73 | a concrete key outside the five ("ranger"), with one prompt, raises TypeError instead of returning the built context |
| `Exposition.CuratedExposition` | hosted.py:47-75 | corrected: templated keys as written; any other key gets context "You are " + name + ", a " + key + " " + description + "You have a " + item1 + " and a " + item2 + ". " and a prompt among the character's prompts; IndexError only when there are none |
| `Exposition.TemplateContextEndsWithBlankLine` | hosted.py:54-55 | the templated context is the template with the name filled in, followed by the blank line, whatever the name |
| `Exposition.TemplateWithoutPlaceholder` | hosted.py:54-57 | a template without `<NAME>` is used exactly as expanded |
| `Exposition.TemplateNameFilledIn` | hosted.py:54-57 | when every `<` of the templates begins a `<NAME>` placeholder and the name has no `<`, no placeholder is left in the context or the prompt |
| `Exposition.TemplateForeignNameFilledIn` | hosted.py:54-57 | a non-empty name with none of the placeholder's characters leaves no placeholder, whatever the templates |
| `Engine.Normalize` | hosted.py:111-116 | fails (IndexError) exactly on all-whitespace input; otherwise its result starts with a lower-case non-space and ends in `.`, `?` or `!` |
| `Engine.NormalizeKeepsText` | hosted.py:111-116 | an action with a non-space character normalises without error, to the stripped action with only its first character lower-cased, plus `.` exactly when it did not end in `.`, `?` or `!` |
| `Engine.NormalizeIdempotent` | hosted.py:111-116 | an action with a non-space character normalises, and normalising the result again changes nothing |
| `Engine.Preprocess` | hosted.py:107-120 | "" becomes exactly "\n> \n"; an action starting with `"` is passed on verbatim; any other action fails exactly when it is all whitespace, and otherwise becomes "\n> " + f(normalised) + "\n" |
| `Engine.HasDialogueMarker` | hosted.py:122 | the processed action contains "say", "ask" or `"` as plain substrings |
| `Engine.TurnBudget` | hosted.py:122-123 | the budget is 120 when the processed action contains "say", "ask" or `"`, and otherwise the budget in force |
| `Engine.QuotedActionGetsDialogueBudget` | hosted.py:110-123 | a quoted action is sent verbatim and always runs with budget 120 |
| `Engine.EmptyActionKeepsBudget` | hosted.py:107-123 | the empty-action marker contains no dialogue marker, so the budget in force is kept |
| `Engine.EssayCountsAsDialogue` | hosted.py:122 | the test is on substrings: an action containing "essay" runs with budget 120 |
| `Engine.ActWithTimeout` | hosted.py:126 | the generation step appends exactly one pair with the given action, or changes nothing exactly when the backend produces nothing |
| `Engine.SuppressRepeat` | hosted.py:128-136 | with two or more results whose newest two are similar, both lists lose their last element; otherwise nothing changes |
| `Engine.Feed` | hosted.py:105-138 | a turn fails exactly when preprocessing fails; a completed turn keeps the story start and one result per action |
| `Engine.FeedFailsOnBlankAction` | hosted.py:107-113 | a turn raises IndexError exactly when the action is non-empty, unquoted and all whitespace |
| `Engine.FeedCommitsFreshTurn` | hosted.py:126-136 | a newly generated result that does not repeat the previous one is committed with its processed action |
| `Engine.FeedDiscardsRepeat` | hosted.py:128-136 | a newly generated result similar to the previous one is discarded: the transcript is exactly as before the turn |
| `Engine.FeedWithoutResult` | hosted.py:126-136 | when nothing is generated, the repetition check still applies to the existing two newest results |
| `Engine.EmptyGenerationCanDropOlderTurn` | hosted.py:128-136 | a concrete transcript where a turn whose generation step commits nothing removes an older turn |
| `Engine.DropLast` | hosted.py:135-136 | Python's `[:-1]`: the list without its last element, and the empty list for an empty one |
| `Engine.Revert` | hosted.py:183-184 | both lists lose their last element; on empty lists nothing changes; the story start is kept |
| `Engine.RevertUndoesTurn` | hosted.py:183-184 | revert is the inverse of committing a pair |
| `Engine.FeedThenRevert` | hosted.py:105-138 | reverting a committed fresh turn gives back the transcript before it |
| `Engine.RevertPreservesWellFormed` | hosted.py:183-184 | revert keeps one result per action and removes exactly one turn when there is one |
| `Engine.Retry` | hosted.py:193-196 | retry leaves the last pair removed, or restores the same stored action with a new result; the story start is kept |
| `Engine.RetryPreservesWellFormed` | hosted.py:193-196 | retry keeps one result per action |
| `Engine.RetryReplacesResult` | hosted.py:193-196 | a retry that generates keeps all actions and earlier results, and replaces only the last result with the new one |
| `Engine.RetryWithoutResultReverts` | hosted.py:193-196 | a retry that generates nothing is a revert |
| `Engine.RetryScenario` | hosted.py:193-196 | retrying "you open the door." with a backend returning "The door is stuck." replaces only the result |
| `Engine.RepeatedResultIsDiscarded` | hosted.py:126-136 | two turns yielding the same similar result leave exactly one pair |
| `Engine.StoryChunk` | hosted.py:143-147 | the story start when there are no results; otherwise the last action, a newline, and the last result |
| `Engine.StoryChunkAfterTurn` | hosted.py:143-147 | after a committed pair the chunk is `action + "\n" + result` |
| `Engine.StoryChunkAfterRevertingFirstTurn` | hosted.py:143-147 | reverting the only turn brings the chunk back to the story start |
| `Hosted.StartNewStory` | hosted.py:96-100 | the opening is generated with budget 120; the new story has no turns; the budget is back at its default |
| `Hosted.PreprocessAction` | hosted.py:107-120 | the step-by-step reassignment of the action computes `Preprocess` |
| `Hosted.RunGeneration` | hosted.py:126 | the story's lists become the generation step of the old ones |
| `Hosted.CheckRepetition` | hosted.py:128-136 | the story's lists become the repetition check of the old ones |
| `Hosted.FeedStoryData` | hosted.py:105-138 | the story becomes `Feed` of the old story under the budget in force, or is unchanged when IndexError is raised; one result per action and the default budget hold afterwards |
| `Hosted.RevertAction` | hosted.py:183-184 | the story becomes `Revert` of the old one, keeping the invariant |
| `Hosted.RetryAction` | hosted.py:193-196 | on empty history IndexError is raised and nothing changes; otherwise the story becomes `Retry` of the old one under the budget in force |
| `Hosted.GetStoryChunk` | hosted.py:143-147 | reads the live story without changing it; the story start when there are no results, otherwise the rendered newest turn |

## Left out

- The Flask application, its routes and the JSON/`flask.Response` wrapping (hosted.py:152-216): HTTP plumbing. Only the handler bodies' effect on the story is modelled. A missing `action` form field (which would be `None`) belongs to that layer too.
- TensorFlow and GPU detection, generator construction, colorama and all `print` output (hosted.py:12-39, 102, 140): environment set-up and I/O.
- Reading `story/story_data.yaml`, `grammars.direct` for the name, and `random.choice` of the character key (hosted.py:79-91): file I/O and randomness. The setting, character and name are inputs, and the random prompt index is the input `pick` of `Exposition.CuratedExposition`.
- `Hosted.StartNewStory` takes the context and prompt as inputs rather than calling `get_curated_exposition`, because those inputs come from the file and the randomness above.
- The internals of `act_with_timeout`, including its 300-second deadline and thread behaviour (hosted.py:39, 126, 196): this is code that is not shown. It is a `Backend` argument that returns normally, committing one pair or nothing.
- A generation step that raises (a timeout or a backend error) is not modelled. Nothing in hosted.py:105-138 or 193-196 catches it. In `feed_story_data` it would skip the repetition check and the budget reset at lines 128-138, so after a dialogue turn `generate_num` would stay at 120 and `StoryManager.Valid` would not hold for the next call. In `retry_action` the popped pair would stay removed.
- Requests are modelled one at a time. `app.run` (hosted.py:216) may serve requests concurrently, and nothing in hosted.py locks the story, so interleaved turns, reverts and retries are not modelled.
- `get_similarity` returns a float, and `first_to_second_person`, `grammars.generate` and the story manager's `start_new_story` live in modules that are not part of this model. They are uninterpreted function parameters.
- `Hosted.StartNewStory` assumes that the story manager's unseen `start_new_story` builds a new story with no turns from the generated opening.
- `str(story_manager.story)` for `/transcript` (hosted.py:206): `Story.__str__` is not part of this model.
- `Text.ToLower` maps only the ASCII letters. Python's `lower()` also maps other Unicode letters, and some of them to two characters.
- Object identity and aliasing of the Python lists are not modelled. `.pop()` in place and reassignment by slicing are both modelled as reassigning a `seq` field.

## Findings

| source | as written | input that shows it | evidently intended | confidence | as-written member | corrected member |
|---|---|---|---|---|---|---|
| hosted.py:73 | `random.choice(character['prompts'].values())` passes a dict values view to `random.choice`. For a non-empty mapping it subscripts its argument, and a values view is not subscriptable in Python 3 (the file uses f-strings), so it raises TypeError. For an empty mapping it raises IndexError first. The context built at lines 59-71 is never returned. | any character key outside noble, knight, wizard, peasant, rogue with at least one prompt, e.g. "ranger" | a prompt chosen at random among the character's prompts, e.g. `random.choice(list(...values()))`, returned with the built context | high; not executed | `Exposition.ExpositionAsWritten` (with `Exposition.AsWrittenFailsForRanger`) | `Exposition.CuratedExposition` |
