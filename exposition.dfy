/** `get_curated_exposition` (hosted.py:43-75): the context and prompt a new story starts from. */
module Exposition {
  import opened Results
  import opened Text

  /** The placeholder that the grammar templates use for the character's name. */
  const NameToken := "<NAME>"

  /** `grammars.generate(setting_key, character_key, slot)`: expands a template; its rules are not part of this model. */
  type Grammar = (string, string, string) -> string

  /** One character entry of the story data: its two items and the values of its `prompts` mapping, in order. */
  datatype Character = Character(item1: string, item2: string, prompts: seq<string>)

  datatype Exposition = Exposition(context: string, prompt: string)

  /** The character keys whose context and prompt come from the grammar templates. */
  predicate HasTemplates(characterKey: string) {
    characterKey == "noble" || characterKey == "knight" || characterKey == "wizard"
    || characterKey == "peasant" || characterKey == "rogue"
  }

  /** The templated branch: both templates expanded, the context followed by a blank line, the name filled in. */
  function TemplateExposition(settingKey: string, characterKey: string, name: string, grammar: Grammar): Exposition {
    Exposition(
      Replace(grammar(settingKey, characterKey, "context") + "\n\n", NameToken, name),
      Replace(grammar(settingKey, characterKey, "prompt"), NameToken, name))
  }

  /** The context the other branch builds from the character's record. */
  function PlainContext(characterKey: string, name: string, character: Character, settingDescription: string): string {
    "You are " + name + ", a " + characterKey + " " + settingDescription
    + "You have a " + character.item1 + " and a " + character.item2 + ". "
  }

  /**
   * The function as written. For a key without templates, line 73 passes `dict.values()` to
   * `random.choice`. That raises IndexError when the mapping is empty; otherwise it subscripts
   * its argument, and a values view is not subscriptable in Python 3, so it raises TypeError.
   * Either way no exposition is returned.
   */
  function ExpositionAsWritten(
    settingKey: string, characterKey: string, name: string, character: Character,
    settingDescription: string, grammar: Grammar): (r: Result<Exposition>)
    ensures r.Ok? <==> HasTemplates(characterKey)
    ensures !HasTemplates(characterKey) ==> r == Err(if |character.prompts| == 0 then IndexError else TypeError)
  {
    if HasTemplates(characterKey) then
      Ok(TemplateExposition(settingKey, characterKey, name, grammar))
    // lines 59-71 build the plain context, then line 73 raises before it is returned:
    // `random.choice` first rejects an empty argument, then fails to subscript the values view
    else if |character.prompts| == 0 then
      Err(IndexError)
    else
      Err(TypeError)
  }

  /** A character outside the five templated ones never gets an exposition from the code as written. */
  lemma AsWrittenFailsForRanger(grammar: Grammar)
    ensures ExpositionAsWritten("fantasy", "ranger", "Aria", Character("bow", "map", ["You wake."]), "", grammar)
            == Err(TypeError)
  {
  }

  /**
   * The evident intent of line 73: one of the character's prompts, chosen at random. The random
   * index is the input `pick`; an empty `prompts` makes `random.choice` raise IndexError.
   */
  function CuratedExposition(
    settingKey: string, characterKey: string, name: string, character: Character,
    settingDescription: string, grammar: Grammar, pick: nat): (r: Result<Exposition>)
    requires !HasTemplates(characterKey) && |character.prompts| > 0 ==> pick < |character.prompts|
    ensures HasTemplates(characterKey) ==> r == ExpositionAsWritten(settingKey, characterKey, name, character, settingDescription, grammar)
    ensures !HasTemplates(characterKey) ==> (r.Err? <==> |character.prompts| == 0)
    ensures r.Err? ==> r.error == IndexError
    ensures !HasTemplates(characterKey) && r.Ok? ==>
              r.value.prompt in character.prompts
              && r.value.context == "You are " + name + ", a " + characterKey + " " + settingDescription
                                   + "You have a " + character.item1 + " and a " + character.item2 + ". "
  {
    if HasTemplates(characterKey) then
      Ok(TemplateExposition(settingKey, characterKey, name, grammar))
    else if |character.prompts| == 0 then
      Err(IndexError)
    else
      Ok(Exposition(PlainContext(characterKey, name, character, settingDescription), character.prompts[pick]))
  }

  /** The templated context always ends in the blank line added after the template, whatever the name. */
  lemma TemplateContextEndsWithBlankLine(settingKey: string, characterKey: string, name: string, grammar: Grammar)
    ensures var template := grammar(settingKey, characterKey, "context");
            TemplateExposition(settingKey, characterKey, name, grammar).context
              == Replace(template, NameToken, name) + "\n\n"
  {
    ReplaceForeignSuffix(grammar(settingKey, characterKey, "context"), "\n\n", NameToken, name);
  }

  /** A template without the placeholder is used exactly as expanded. */
  lemma TemplateWithoutPlaceholder(settingKey: string, characterKey: string, name: string, grammar: Grammar)
    requires !Contains(grammar(settingKey, characterKey, "context"), NameToken)
    requires !Contains(grammar(settingKey, characterKey, "prompt"), NameToken)
    ensures TemplateExposition(settingKey, characterKey, name, grammar)
            == Exposition(grammar(settingKey, characterKey, "context") + "\n\n", grammar(settingKey, characterKey, "prompt"))
  {
    TemplateContextEndsWithBlankLine(settingKey, characterKey, name, grammar);
    ReplaceAbsent(grammar(settingKey, characterKey, "context"), NameToken, name);
    ReplaceAbsent(grammar(settingKey, characterKey, "prompt"), NameToken, name);
  }

  /**
   * The name is filled in everywhere: when the name has no `<` and every `<` of a template
   * begins a `<NAME>` placeholder, no placeholder is left in the context or the prompt.
   */
  lemma TemplateNameFilledIn(settingKey: string, characterKey: string, name: string, grammar: Grammar)
    requires '<' !in name
    requires OnlyStartsPattern(grammar(settingKey, characterKey, "context"), '<', NameToken)
    requires OnlyStartsPattern(grammar(settingKey, characterKey, "prompt"), '<', NameToken)
    ensures !Contains(TemplateExposition(settingKey, characterKey, name, grammar).context, NameToken)
    ensures !Contains(TemplateExposition(settingKey, characterKey, name, grammar).prompt, NameToken)
  {
    var template := grammar(settingKey, characterKey, "context");
    ReplaceClearsFirstCharacter(template, NameToken, name);
    ReplaceClearsFirstCharacter(grammar(settingKey, characterKey, "prompt"), NameToken, name);
    TemplateContextEndsWithBlankLine(settingKey, characterKey, name, grammar);
    MissingFirstCharacter(Replace(template, NameToken, name) + "\n\n", NameToken);
    MissingFirstCharacter(Replace(grammar(settingKey, characterKey, "prompt"), NameToken, name), NameToken);
  }

  /** A non-empty name made of characters outside `<NAME>` leaves no placeholder, whatever the templates. */
  lemma TemplateForeignNameFilledIn(settingKey: string, characterKey: string, name: string, grammar: Grammar)
    requires |name| > 0 && Disjoint(name, NameToken)
    ensures !Contains(TemplateExposition(settingKey, characterKey, name, grammar).context, NameToken)
    ensures !Contains(TemplateExposition(settingKey, characterKey, name, grammar).prompt, NameToken)
  {
    ReplaceRemovesAll(grammar(settingKey, characterKey, "context") + "\n\n", NameToken, name);
    ReplaceRemovesAll(grammar(settingKey, characterKey, "prompt"), NameToken, name);
  }
}
