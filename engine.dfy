/**
 * The story transcript engine of hosted.py as functions on values: the state is the story
 * start and the two parallel lists of actions and results; each handler body is a function
 * from the state before to the state after.
 */
module Engine {
  import opened Results
  import opened Text

  datatype Transcript = Transcript(storyStart: string, actions: seq<string>, results: seq<string>)

  /** The invariant every operation keeps: one result per action. */
  predicate WellFormed(t: Transcript) {
    |t.actions| == |t.results|
  }

  /**
   * `act_with_timeout` as seen from hosted.py: given the transcript, the action and the token
   * budget in force, the backend either produces a result (the pair is committed) or produces
   * nothing within its deadline (nothing is committed).
   */
  type Backend = (Transcript, string, nat) -> Option<string>

  /** `first_to_second_person`: rewrites first-person wording; its rules are not part of this model. */
  type Converter = string -> string

  /** The float test `get_similarity(a, b) > 0.9`, left uninterpreted. */
  type Similar = (string, string) -> bool

  /** The budget requested for dialogue turns and for the story opening. */
  const DialogueBudget: nat := 120

  /** What an empty action becomes: an empty prompt line, so the generator simply continues the story. */
  const EmptyActionMarker := "\n> \n"

  const ActionPrefix := "\n> "

  predicate EndsSentence(c: char) {
    c == '.' || c == '?' || c == '!'
  }

  /** The shape of a normalised action: starts with a lower-case non-space, ends in `.`, `?` or `!`. */
  predicate NormalForm(s: string) {
    |s| > 0 && !IsSpace(s[0]) && !IsUpper(s[0]) && EndsSentence(s[|s| - 1])
  }

  /** Python's `s[:-1]`, which is `[]` on an empty list. */
  function DropLast(s: seq<string>): (r: seq<string>)
    ensures |s| > 0 ==> r == s[..|s| - 1]
    ensures |s| == 0 ==> r == []
  {
    if |s| == 0 then [] else s[..|s| - 1]
  }

  /**
   * Lines 111-116 on an action that does not start with a quote: strip it, lower-case its first
   * character, end it with a full stop unless it already ends a sentence. An action that is all
   * whitespace strips to "" and `action[0]` raises IndexError.
   */
  function Normalize(raw: string): (r: Result<string>)
    ensures r.Err? <==> forall i :: 0 <= i < |raw| ==> IsSpace(raw[i])
    ensures r.Err? ==> r.error == IndexError
    ensures r.Ok? ==> NormalForm(r.value)
  {
    var t := Strip(raw);
    if |t| == 0 then Err(IndexError)
    else
      var lowered := LowerFirst(t);
      if EndsSentence(lowered[|lowered| - 1]) then Ok(lowered) else Ok(lowered + ".")
  }

  /**
   * What normalising keeps: the stripped action with its first character lower-cased and the
   * rest untouched, followed by a full stop exactly when it did not already end a sentence.
   */
  lemma NormalizeKeepsText(raw: string, k: nat)
    requires k < |raw| && !IsSpace(raw[k])
    ensures Normalize(raw).Ok?
    ensures var s := Normalize(raw).value;
            var t := Strip(raw);
            |t| > 0 && s[0] == ToLower(t[0]) && s[1..|t|] == t[1..]
            && (EndsSentence(t[|t| - 1]) ==> |s| == |t|)
            && (!EndsSentence(t[|t| - 1]) ==> |s| == |t| + 1 && s[|t|] == '.')
  {
    var t := Strip(raw);
    var lowered := LowerFirst(t);
    if |t| > 1 {
      assert lowered[|lowered| - 1] == t[|t| - 1];
    } else {
      assert EndsSentence(lowered[0]) <==> EndsSentence(t[0]);
    }
  }

  /** Normalising is idempotent: a normalised action is its own normal form. */
  lemma NormalizeIdempotent(raw: string, k: nat)
    requires k < |raw| && !IsSpace(raw[k])
    ensures Normalize(raw).Ok? && Normalize(Normalize(raw).value) == Normalize(raw)
  {
    var s := Normalize(raw).value;
    assert !IsSpace(s[|s| - 1]);
    StripUnchanged(s);
  }

  /**
   * Lines 107-120: the text handed to the generator for a raw action. The empty action is the
   * idle marker; an action starting with a quote is passed on verbatim; any other action is
   * normalised, converted to second person and wrapped as `"\n> " + ... + "\n"`.
   */
  function Preprocess(raw: string, toSecondPerson: Converter): (r: Result<string>)
    ensures raw == "" ==> r == Ok(EmptyActionMarker)
    ensures raw != "" && raw[0] == '"' ==> r == Ok(raw)
    ensures raw != "" && raw[0] != '"' ==>
              (r.Err? <==> forall i :: 0 <= i < |raw| ==> IsSpace(raw[i]))
              && (r.Ok? ==> exists s :: NormalForm(s) && Normalize(raw) == Ok(s)
                                    && r.value == ActionPrefix + toSecondPerson(s) + "\n")
  {
    if raw == "" then Ok(EmptyActionMarker)
    else if raw[0] == '"' then Ok(raw)
    else
      match Normalize(raw)
      case Err(e) => Err(e)
      case Ok(s) => Ok(ActionPrefix + toSecondPerson(s) + "\n")
  }

  /** Line 122: a plain substring test for `say`, `ask` or a double quote. */
  predicate HasDialogueMarker(action: string) {
    Contains(action, "say") || Contains(action, "ask") || Contains(action, "\"")
  }

  /** Lines 122-123: the budget in force for the generation step of a turn. */
  function TurnBudget(action: string, current: nat): (b: nat)
    ensures b == DialogueBudget <== HasDialogueMarker(action)
    ensures b == current <== !HasDialogueMarker(action)
  {
    if HasDialogueMarker(action) then DialogueBudget else current
  }

  /** A quoted action is dialogue: it always gets the dialogue budget. */
  lemma QuotedActionGetsDialogueBudget(raw: string, toSecondPerson: Converter, current: nat)
    requires raw != "" && raw[0] == '"'
    ensures Preprocess(raw, toSecondPerson) == Ok(raw)
    ensures TurnBudget(raw, current) == DialogueBudget
  {
    assert OccursAt(raw, "\"", 0);
    ContainsAt(raw, "\"", 0);
  }

  /** The idle marker contains no dialogue marker: the empty action keeps the budget in force. */
  lemma EmptyActionKeepsBudget(toSecondPerson: Converter, current: nat)
    ensures Preprocess("", toSecondPerson) == Ok(EmptyActionMarker)
    ensures TurnBudget(EmptyActionMarker, current) == current
  {
    MissingFirstCharacter(EmptyActionMarker, "say");
    MissingFirstCharacter(EmptyActionMarker, "ask");
    MissingFirstCharacter(EmptyActionMarker, "\"");
  }

  /** The test is on substrings, not words: "write an essay" is treated as dialogue. */
  lemma EssayCountsAsDialogue(current: nat)
    ensures TurnBudget("\n> you write an essay.\n", current) == DialogueBudget
  {
    assert OccursAt("\n> you write an essay.\n", "say", 18);
    ContainsAt("\n> you write an essay.\n", "say", 18);
  }

  /** The committed pair `(action, result)` appended to the transcript. */
  function AppendTurn(t: Transcript, action: string, result: string): (r: Transcript)
    ensures r.storyStart == t.storyStart
    ensures |r.actions| == |t.actions| + 1 && r.actions[|t.actions|] == action
    ensures |r.results| == |t.results| + 1 && r.results[|t.results|] == result
    ensures r.actions[..|t.actions|] == t.actions && r.results[..|t.results|] == t.results
  {
    Transcript(t.storyStart, t.actions + [action], t.results + [result])
  }

  /** The generation step (lines 126 and 196): appends exactly one pair, or changes nothing. */
  function ActWithTimeout(t: Transcript, action: string, budget: nat, backend: Backend): (r: Transcript)
    ensures r == t || exists result :: r == AppendTurn(t, action, result)
    ensures r == t <==> backend(t, action, budget).None?
  {
    match backend(t, action, budget)
    case None => t
    case Some(result) =>
      assert |AppendTurn(t, action, result).actions| != |t.actions|;
      AppendTurn(t, action, result)
  }

  /**
   * Lines 128-136: when the two newest results are too similar, the newest pair is dropped;
   * only those two are ever compared.
   */
  function SuppressRepeat(t: Transcript, similar: Similar): (r: Transcript)
    ensures r.storyStart == t.storyStart
    ensures |t.results| >= 2 && similar(t.results[|t.results| - 1], t.results[|t.results| - 2]) ==>
              r.actions == DropLast(t.actions) && r.results == DropLast(t.results)
    ensures !(|t.results| >= 2 && similar(t.results[|t.results| - 1], t.results[|t.results| - 2])) ==> r == t
  {
    var n := |t.results|;
    if n >= 2 && similar(t.results[n - 1], t.results[n - 2]) then
      Transcript(t.storyStart, DropLast(t.actions), DropLast(t.results))
    else
      t
  }

  /** `feed_story_data` (lines 105-138) on the transcript, with `budget` the budget in force on entry. */
  function Feed(t: Transcript, raw: string, budget: nat, toSecondPerson: Converter, backend: Backend, similar: Similar): (r: Result<Transcript>)
    ensures r.Err? <==> Preprocess(raw, toSecondPerson).Err?
    ensures r.Ok? ==> r.value.storyStart == t.storyStart && (WellFormed(t) ==> WellFormed(r.value))
  {
    match Preprocess(raw, toSecondPerson)
    case Err(e) => Err(e)
    case Ok(action) => Ok(SuppressRepeat(ActWithTimeout(t, action, TurnBudget(action, budget), backend), similar))
  }

  /** A turn whose action was preprocessed to `action` is the generation step followed by the repetition check. */
  lemma FeedUnfolds(t: Transcript, raw: string, budget: nat, toSecondPerson: Converter, backend: Backend, similar: Similar, action: string)
    requires Preprocess(raw, toSecondPerson) == Ok(action)
    ensures Feed(t, raw, budget, toSecondPerson, backend, similar)
            == Ok(SuppressRepeat(ActWithTimeout(t, action, TurnBudget(action, budget), backend), similar))
  {
  }

  /** Lines 183-184: both lists lose their last element; `[:-1]` of an empty list is empty. */
  function Revert(t: Transcript): (r: Transcript)
    ensures r.storyStart == t.storyStart
    ensures |t.actions| > 0 ==> r.actions == t.actions[..|t.actions| - 1]
    ensures |t.results| > 0 ==> r.results == t.results[..|t.results| - 1]
    ensures |t.actions| == 0 && |t.results| == 0 ==> r == t
  {
    Transcript(t.storyStart, DropLast(t.actions), DropLast(t.results))
  }

  /**
   * Lines 193-196: pop the last pair and run the generation step again on the popped action,
   * exactly as stored: no preprocessing, no budget change, no repetition check.
   */
  function Retry(t: Transcript, budget: nat, backend: Backend): (r: Transcript)
    requires |t.actions| > 0 && |t.results| > 0
    ensures r.storyStart == t.storyStart
    ensures r == Revert(t)
            || (|r.results| > 0 && r == AppendTurn(Revert(t), t.actions[|t.actions| - 1], r.results[|r.results| - 1]))
  {
    var popped := Transcript(t.storyStart, t.actions[..|t.actions| - 1], t.results[..|t.results| - 1]);
    ActWithTimeout(popped, t.actions[|t.actions| - 1], budget, backend)
  }

  /** Lines 143-147: the story start before any turn, otherwise the newest action and result. */
  function StoryChunk(t: Transcript): (r: string)
    requires |t.results| > 0 ==> |t.actions| > 0
    ensures |t.results| == 0 ==> r == t.storyStart
    ensures |t.results| > 0 ==>
              var action, result := t.actions[|t.actions| - 1], t.results[|t.results| - 1];
              |r| == |action| + 1 + |result| && r[..|action|] == action && r[|action|] == '\n' && r[|action| + 1..] == result
  {
    if |t.results| == 0 then t.storyStart
    else t.actions[|t.actions| - 1] + "\n" + t.results[|t.results| - 1]
  }

  // ---------------------------------------------------------------------------------------
  // Properties of the operations

  /** A turn fails exactly when the action is non-empty, unquoted and all whitespace; it then changes nothing. */
  lemma FeedFailsOnBlankAction(t: Transcript, raw: string, budget: nat, toSecondPerson: Converter, backend: Backend, similar: Similar)
    ensures Feed(t, raw, budget, toSecondPerson, backend, similar).Err?
            <==> raw != "" && raw[0] != '"' && forall i :: 0 <= i < |raw| ==> IsSpace(raw[i])
    ensures Feed(t, raw, budget, toSecondPerson, backend, similar).Err? ==>
              Feed(t, raw, budget, toSecondPerson, backend, similar).error == IndexError
  {
  }

  /** A newly generated result that is not a repeat of the previous one is committed with its action. */
  lemma FeedCommitsFreshTurn(t: Transcript, raw: string, budget: nat, toSecondPerson: Converter, backend: Backend, similar: Similar)
    requires WellFormed(t)
    requires Preprocess(raw, toSecondPerson).Ok?
    requires var action := Preprocess(raw, toSecondPerson).value;
             backend(t, action, TurnBudget(action, budget)).Some?
    requires var action := Preprocess(raw, toSecondPerson).value;
             var result := backend(t, action, TurnBudget(action, budget)).value;
             |t.results| == 0 || !similar(result, t.results[|t.results| - 1])
    ensures var action := Preprocess(raw, toSecondPerson).value;
            var result := backend(t, action, TurnBudget(action, budget)).value;
            Feed(t, raw, budget, toSecondPerson, backend, similar) == Ok(AppendTurn(t, action, result))
  {
  }

  /** A newly generated result too similar to the previous one is discarded: the transcript is as before the turn. */
  lemma {:induction false} FeedDiscardsRepeat(t: Transcript, raw: string, budget: nat, toSecondPerson: Converter, backend: Backend, similar: Similar)
    requires WellFormed(t) && |t.results| > 0
    requires Preprocess(raw, toSecondPerson).Ok?
    requires var action := Preprocess(raw, toSecondPerson).value;
             backend(t, action, TurnBudget(action, budget)).Some?
    requires var action := Preprocess(raw, toSecondPerson).value;
             var result := backend(t, action, TurnBudget(action, budget)).value;
             similar(result, t.results[|t.results| - 1])
    ensures Feed(t, raw, budget, toSecondPerson, backend, similar) == Ok(t)
  {
    var action := Preprocess(raw, toSecondPerson).value;
    var result := backend(t, action, TurnBudget(action, budget)).value;
    var u := AppendTurn(t, action, result);
    assert DropLast(u.actions) == t.actions;
    assert DropLast(u.results) == t.results;
  }

  /**
   * When the generation step commits nothing, the repetition check still runs on the two
   * newest results already in the transcript.
   */
  lemma FeedWithoutResult(t: Transcript, raw: string, budget: nat, toSecondPerson: Converter, backend: Backend, similar: Similar)
    requires Preprocess(raw, toSecondPerson).Ok?
    requires var action := Preprocess(raw, toSecondPerson).value;
             backend(t, action, TurnBudget(action, budget)).None?
    ensures Feed(t, raw, budget, toSecondPerson, backend, similar) == Ok(SuppressRepeat(t, similar))
  {
  }

  /**
   * So a turn whose generation step returns without committing can still remove an older
   * turn: here the two previous results are judged similar, and the second of them is dropped.
   */
  lemma EmptyGenerationCanDropOlderTurn(toSecondPerson: Converter, similar: Similar)
    requires similar("The door is stuck.", "The door is stuck.")
    ensures var t := Transcript("", ["\n> you push.\n", "\n> you push.\n"], ["The door is stuck.", "The door is stuck."]);
            var silent: Backend := (_, _, _) => None;
            Feed(t, "", 100, toSecondPerson, silent, similar)
              == Ok(Transcript("", ["\n> you push.\n"], ["The door is stuck."]))
  {
    var t := Transcript("", ["\n> you push.\n", "\n> you push.\n"], ["The door is stuck.", "The door is stuck."]);
    var silent: Backend := (_, _, _) => None;
    FeedWithoutResult(t, "", 100, toSecondPerson, silent, similar);
    assert DropLast(t.actions) == ["\n> you push.\n"];
    assert DropLast(t.results) == ["The door is stuck."];
  }

  /** Revert undoes a committed turn. */
  lemma {:induction false} RevertUndoesTurn(t: Transcript, action: string, result: string)
    ensures Revert(AppendTurn(t, action, result)) == t
  {
    assert (t.actions + [action])[..|t.actions|] == t.actions;
    assert (t.results + [result])[..|t.results|] == t.results;
  }

  /** A committed fresh turn is undone by revert: feed then revert is the identity. */
  lemma FeedThenRevert(t: Transcript, raw: string, budget: nat, toSecondPerson: Converter, backend: Backend, similar: Similar)
    requires WellFormed(t)
    requires Preprocess(raw, toSecondPerson).Ok?
    requires var action := Preprocess(raw, toSecondPerson).value;
             backend(t, action, TurnBudget(action, budget)).Some?
    requires var action := Preprocess(raw, toSecondPerson).value;
             var result := backend(t, action, TurnBudget(action, budget)).value;
             |t.results| == 0 || !similar(result, t.results[|t.results| - 1])
    ensures Revert(Feed(t, raw, budget, toSecondPerson, backend, similar).value) == t
  {
    var action := Preprocess(raw, toSecondPerson).value;
    FeedCommitsFreshTurn(t, raw, budget, toSecondPerson, backend, similar);
    RevertUndoesTurn(t, action, backend(t, action, TurnBudget(action, budget)).value);
  }

  /** Revert keeps one result per action; on an empty history it changes nothing. */
  lemma RevertPreservesWellFormed(t: Transcript)
    requires WellFormed(t)
    ensures WellFormed(Revert(t))
    ensures |t.actions| == 0 ==> Revert(t) == t
    ensures |t.actions| > 0 ==> |Revert(t).actions| == |t.actions| - 1
  {
  }

  /** Retry keeps one result per action and the story start. */
  lemma RetryPreservesWellFormed(t: Transcript, budget: nat, backend: Backend)
    requires WellFormed(t) && |t.actions| > 0
    ensures WellFormed(Retry(t, budget, backend)) && Retry(t, budget, backend).storyStart == t.storyStart
  {
  }

  /** A successful retry keeps the last action as stored and replaces only its result. */
  lemma {:induction false} RetryReplacesResult(t: Transcript, budget: nat, backend: Backend)
    requires WellFormed(t) && |t.actions| > 0
    requires backend(Revert(t), t.actions[|t.actions| - 1], budget).Some?
    ensures var r := Retry(t, budget, backend);
            var n := |t.actions|;
            r.storyStart == t.storyStart && r.actions == t.actions
            && |r.results| == n && r.results[..n - 1] == t.results[..n - 1]
            && r.results[n - 1] == backend(Revert(t), t.actions[n - 1], budget).value
  {
    var n := |t.actions|;
    assert t.actions[..n - 1] + [t.actions[n - 1]] == t.actions;
  }

  /** A retry whose generation commits nothing leaves the last pair removed: it acts as a revert. */
  lemma RetryWithoutResultReverts(t: Transcript, budget: nat, backend: Backend)
    requires WellFormed(t) && |t.actions| > 0
    requires backend(Revert(t), t.actions[|t.actions| - 1], budget).None?
    ensures Retry(t, budget, backend) == Revert(t)
  {
  }

  /** The rendered chunk of a transcript whose newest turn is `(action, result)`. */
  lemma StoryChunkAfterTurn(t: Transcript, action: string, result: string)
    ensures StoryChunk(AppendTurn(t, action, result)) == action + "\n" + result
  {
  }

  /** After a revert to an empty history the chunk is the story start again. */
  lemma StoryChunkAfterRevertingFirstTurn(storyStart: string, action: string, result: string)
    ensures StoryChunk(Revert(Transcript(storyStart, [action], [result]))) == storyStart
  {
  }

  /** The retry scenario: the same action with a new result, rendered as the new chunk. */
  lemma RetryScenario()
    ensures var t := Transcript("", ["you open the door."], ["The door creaks open."]);
            var stuck: Backend := (_, _, _) => Some("The door is stuck.");
            var r := Retry(t, 60, stuck);
            r == Transcript("", ["you open the door."], ["The door is stuck."])
            && StoryChunk(r) == "you open the door.\nThe door is stuck."
  {
  }

  /** Two turns whose results are judged similar: the second turn is discarded and one pair remains. */
  lemma {:induction false} RepeatedResultIsDiscarded(start: string, raw: string, toSecondPerson: Converter, similar: Similar)
    requires Preprocess(raw, toSecondPerson).Ok?
    requires similar("The cave is dark.", "The cave is dark.")
    ensures var echo: Backend := (_, _, _) => Some("The cave is dark.");
            var t0 := Transcript(start, [], []);
            var t1 := Feed(t0, raw, 60, toSecondPerson, echo, similar).value;
            Feed(t1, raw, 60, toSecondPerson, echo, similar) == Ok(t1) && |t1.actions| == 1 && |t1.results| == 1
  {
    var echo: Backend := (_, _, _) => Some("The cave is dark.");
    var t0 := Transcript(start, [], []);
    FeedCommitsFreshTurn(t0, raw, 60, toSecondPerson, echo, similar);
    var t1 := Feed(t0, raw, 60, toSecondPerson, echo, similar).value;
    FeedDiscardsRepeat(t1, raw, 60, toSecondPerson, echo, similar);
  }
}
