/**
 * The module-level functions of hosted.py that change the live story: they work on the one
 * story manager, whose story object holds the transcript and whose generator holds the
 * token budget. Each method is proved against the Engine function of the same operation.
 */
module Hosted {
  import opened Results
  import opened Text
  import opened Engine

  /** The story object: its fields are reassigned in place by the handlers. */
  class Story {
    var storyStart: string
    var actions: seq<string>
    var results: seq<string>

    constructor (storyStart: string)
      ensures View() == Transcript(storyStart, [], [])
    {
      this.storyStart := storyStart;
      actions := [];
      results := [];
    }

    function View(): Transcript
      reads this
    {
      Transcript(storyStart, actions, results)
    }
  }

  /** The part of the generator that hosted.py touches: the current and the default token budget. */
  class Generator {
    var generateNum: nat
    const defaultGenNum: nat

    constructor (defaultGenNum: nat)
      ensures this.defaultGenNum == defaultGenNum && generateNum == defaultGenNum
    {
      this.defaultGenNum := defaultGenNum;
      generateNum := defaultGenNum;
    }
  }

  class StoryManager {
    var story: Story
    const generator: Generator

    constructor (generator: Generator, story: Story)
      requires generator.generateNum == generator.defaultGenNum && WellFormed(story.View())
      ensures this.generator == generator && this.story == story && Valid()
    {
      this.generator := generator;
      this.story := story;
    }

    /** Between handler calls: one result per action, and the budget back at its default. */
    ghost predicate Valid()
      reads this, story, generator
    {
      WellFormed(story.View()) && generator.generateNum == generator.defaultGenNum
    }
  }

  /**
   * `start_new_story` (lines 96-100): the opening is generated with the dialogue budget, the
   * story is replaced by a fresh one with no turns, and the budget is restored. `opening` is
   * the story manager's own start routine, given prompt, context and the budget in force.
   */
  method StartNewStory(sm: StoryManager, prompt: string, context: string, opening: (string, string, nat) -> string)
    modifies sm, sm.generator
    ensures fresh(sm.story)
    ensures sm.story.View() == Transcript(opening(prompt, context, DialogueBudget), [], [])
    ensures sm.Valid()
  {
    sm.generator.generateNum := DialogueBudget;
    var start := opening(prompt, context, sm.generator.generateNum);
    sm.story := new Story(start);
    sm.generator.generateNum := sm.generator.defaultGenNum;
  }

  /**
   * `story_manager.act_with_timeout(action)` (lines 126 and 196) with the budget in force:
   * the backend's result, if any, is committed together with the action.
   */
  method RunGeneration(story: Story, action: string, budget: nat, backend: Backend)
    modifies story
    ensures story.View() == ActWithTimeout(old(story.View()), action, budget, backend)
  {
    var produced := backend(story.View(), action, budget);
    if produced.Some? {
      story.actions := story.actions + [action];
      story.results := story.results + [produced.value];
    }
  }

  /** Lines 128-136: the newest pair is dropped when the two newest results are too similar. */
  method CheckRepetition(story: Story, similar: Similar)
    modifies story
    ensures story.View() == SuppressRepeat(old(story.View()), similar)
  {
    var n := |story.results|;
    if n >= 2 && similar(story.results[n - 1], story.results[n - 2]) {
      story.actions := DropLast(story.actions);
      story.results := story.results[..n - 1];
    }
  }

  /**
   * Lines 107-120: the action reassigned step by step into the text sent to the generator.
   * A blank unquoted action leaves nothing to index at line 113 and raises IndexError.
   */
  method PreprocessAction(raw: string, toSecondPerson: Converter) returns (r: Result<string>)
    ensures r == Preprocess(raw, toSecondPerson)
  {
    var action := raw;
    if action == "" {
      action := EmptyActionMarker;
    } else if action[0] != '"' {
      action := Strip(action);
      if |action| == 0 {
        return Err(IndexError);
      }
      action := [ToLower(action[0])] + action[1..];
      if !EndsSentence(action[|action| - 1]) {
        action := action + ".";
      }
      action := toSecondPerson(action);
      action := ActionPrefix + action + "\n";
    }
    r := Ok(action);
  }

  /**
   * `feed_story_data` (lines 105-138). A blank unquoted action raises IndexError at line 113
   * and leaves everything as it was; otherwise the transcript becomes `Feed` of the old one
   * and the budget ends at its default.
   */
  method FeedStoryData(sm: StoryManager, raw: string, toSecondPerson: Converter, backend: Backend, similar: Similar)
    returns (outcome: Outcome)
    requires sm.Valid()
    modifies sm.story, sm.generator
    ensures sm.story == old(sm.story) && sm.Valid()
    ensures var r := Feed(old(sm.story.View()), raw, old(sm.generator.generateNum), toSecondPerson, backend, similar);
            (r.Ok? ==> outcome == Completed && sm.story.View() == r.value)
            && (r.Err? ==> outcome == Raised(r.error) && sm.story.View() == old(sm.story.View()))
  {
    var story, generator := sm.story, sm.generator;
    ghost var before := story.View();
    var processed := PreprocessAction(raw, toSecondPerson);
    if processed.Err? {
      return Raised(processed.error);
    }
    var action := processed.value;

    if HasDialogueMarker(action) {
      generator.generateNum := DialogueBudget;
    }
    assert generator.generateNum == TurnBudget(action, old(generator.generateNum));

    RunGeneration(story, action, generator.generateNum, backend);
    CheckRepetition(story, similar);
    FeedUnfolds(before, raw, old(generator.generateNum), toSecondPerson, backend, similar, action);

    generator.generateNum := generator.defaultGenNum;
    outcome := Completed;
  }

  /** The body of `revert_action` (lines 183-184): both lists lose their last element, if any. */
  method RevertAction(sm: StoryManager)
    requires sm.Valid()
    modifies sm.story
    ensures sm.story == old(sm.story) && sm.Valid()
    ensures sm.story.View() == Revert(old(sm.story.View()))
  {
    sm.story.actions := DropLast(sm.story.actions);
    sm.story.results := DropLast(sm.story.results);
  }

  /**
   * The body of `retry_action` (lines 193-196). With no turn to pop, `pop()` raises IndexError
   * and nothing changes; otherwise the transcript becomes `Retry` of the old one, generated
   * with the budget in force.
   */
  method RetryAction(sm: StoryManager, backend: Backend) returns (outcome: Outcome)
    requires sm.Valid()
    modifies sm.story
    ensures sm.story == old(sm.story) && sm.Valid()
    ensures old(|sm.story.actions|) == 0 ==> outcome == Raised(IndexError) && sm.story.View() == old(sm.story.View())
    ensures old(|sm.story.actions|) > 0 ==>
              outcome == Completed && sm.story.View() == Retry(old(sm.story.View()), sm.generator.generateNum, backend)
  {
    var story := sm.story;
    if |story.actions| == 0 {
      return Raised(IndexError);
    }
    var lastAction := story.actions[|story.actions| - 1];
    story.actions := story.actions[..|story.actions| - 1];
    story.results := story.results[..|story.results| - 1];

    RunGeneration(story, lastAction, sm.generator.generateNum, backend);
    outcome := Completed;
  }

  /** `get_story_chunk` (lines 143-147) on the live story; it reads and changes nothing. */
  function GetStoryChunk(sm: StoryManager): (chunk: string)
    reads sm, sm.story
    requires |sm.story.results| > 0 ==> |sm.story.actions| > 0
    ensures |sm.story.results| == 0 ==> chunk == sm.story.storyStart
    ensures |sm.story.results| > 0 ==> chunk == StoryChunk(sm.story.View())
  {
    StoryChunk(sm.story.View())
  }
}
