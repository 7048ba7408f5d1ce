/**
 * Hover text for a word in a CMake file (src/intellisensedata.ts, getToolTipForText):
 * the word is looked up among the documented commands, then among the documented
 * variables; an entry with a name and a description yields its description, and a
 * description that is a localisation key ("loc_...") is replaced by its entry in the
 * extension's localised strings when those are loaded.
 */
module Intellisense {
  import opened Wrappers
  import opened JsStrings

  /** A value read by `JSON.parse`. */
  datatype Json =
    | JNull
    | JBool(b: bool)
    | JNumber(n: real)
    | JString(s: string)
    | JArray(elements: seq<Json>)
    | JObject(members: map<string, Json>)

  /** JavaScript truthiness of a JSON value; `None` stands for `undefined`. */
  predicate Truthy(v: Option<Json>) {
    match v
    case None => false
    case Some(JNull) => false
    case Some(JBool(b)) => b
    case Some(JNumber(n)) => n != 0.0
    case Some(JString(s)) => s != []
    case Some(JArray(_)) => true
    case Some(JObject(_)) => true
  }

  /** `undefined` or `null`: what `??` skips. */
  predicate Nullish(v: Option<Json>) {
    v == None || v == Some(JNull)
  }

  /** `table[key]`, `undefined` when the key is absent. */
  function Lookup<V>(table: map<string, V>, key: string): Option<V> {
    if key in table then Some(table[key]) else None
  }

  /** `value[key]`: a member of an object; any other JSON value has no such property. */
  function Member(value: Json, key: string): Option<Json> {
    if value.JObject? then Lookup(value.members, key) else None
  }

  /** `commands[word] ?? variables[word]`. */
  function SearchToken(word: string, commands: map<string, Json>, variables: map<string, Json>): Option<Json> {
    var command := Lookup(commands, word);
    if Nullish(command) then Lookup(variables, word) else command
  }

  /** `description.startsWith` on a description that is not a string. */
  datatype ToolTipError = DescriptionNotString

  /** The prefix that marks a description as a key into the localised strings. */
  const LocPrefix: string := "loc_"

  /**
   * getToolTipForText. `localized` is what `getExtensionLocalizedStrings` returns
   * (`None` when it is `undefined`); a success of `None` is the `undefined` the
   * function returns when a localisation key has no entry.
   */
  function ToolTipForText(word: string, commands: map<string, Json>, variables: map<string, Json>,
                          localized: Option<map<string, string>>): Result<Option<string>, ToolTipError>
  {
    var token := SearchToken(word, commands, variables);
    if !Truthy(token) then Success(Some(""))
    else
      var name := Member(token.value, "name");
      var description := Member(token.value, "description");
      if !Truthy(name) || !Truthy(description) then Success(Some(""))
      else if !description.value.JString? then Failure(DescriptionNotString)
      else
        var d := description.value.s;
        if StartsWith(d, LocPrefix) && localized.Some? then Success(Lookup(localized.value, d))
        else Success(Some(d))
  }

  /** The entry documented for `word` has a name and a string description `d`. */
  predicate Documented(word: string, commands: map<string, Json>, variables: map<string, Json>, d: string) {
    var token := SearchToken(word, commands, variables);
    && Truthy(token)
    && Truthy(Member(token.value, "name"))
    && Member(token.value, "description") == Some(JString(d))
  }

  /** A command entry that is present and not null hides a variable of the same name. */
  lemma CommandShadowsVariable(word: string, commands: map<string, Json>, variables: map<string, Json>,
                               otherVariables: map<string, Json>, localized: Option<map<string, string>>)
    requires word in commands && commands[word] != JNull
    ensures ToolTipForText(word, commands, variables, localized) == ToolTipForText(word, commands, otherVariables, localized)
    ensures SearchToken(word, commands, variables) == Some(commands[word])
  {
  }

  /** Without a command entry, or with a null one, the variables alone decide. */
  lemma VariableWhenNoCommand(word: string, commands: map<string, Json>, variables: map<string, Json>,
                              localized: Option<map<string, string>>)
    requires word !in commands || commands[word] == JNull
    ensures ToolTipForText(word, commands, variables, localized) == ToolTipForText(word, map[], variables, localized)
  {
  }

  /** A word documented nowhere has the empty tooltip. */
  lemma UnknownWordIsEmpty(word: string, commands: map<string, Json>, variables: map<string, Json>,
                           localized: Option<map<string, string>>)
    requires word !in commands && word !in variables
    ensures ToolTipForText(word, commands, variables, localized) == Success(Some(""))
  {
  }

  /** An entry without a truthy name or description has the empty tooltip. */
  lemma UnnamedEntryIsEmpty(word: string, commands: map<string, Json>, variables: map<string, Json>,
                            localized: Option<map<string, string>>)
    requires Truthy(SearchToken(word, commands, variables))
    requires var token := SearchToken(word, commands, variables).value;
             !Truthy(Member(token, "name")) || !Truthy(Member(token, "description"))
    ensures ToolTipForText(word, commands, variables, localized) == Success(Some(""))
  {
  }

  /** Looking up the tooltip fails exactly when the entry has a name and a truthy
      description that is not a string. */
  lemma ToolTipFailsIff(word: string, commands: map<string, Json>, variables: map<string, Json>,
                        localized: Option<map<string, string>>)
    ensures var token := SearchToken(word, commands, variables);
            ToolTipForText(word, commands, variables, localized).Failure? <==>
              && Truthy(token)
              && Truthy(Member(token.value, "name"))
              && Truthy(Member(token.value, "description"))
              && !Member(token.value, "description").value.JString?
  {
  }

  /** A description that is not a localisation key is shown unchanged. */
  lemma PlainDescriptionShown(word: string, commands: map<string, Json>, variables: map<string, Json>,
                              localized: Option<map<string, string>>, d: string)
    requires Documented(word, commands, variables, d) && !StartsWith(d, LocPrefix)
    ensures ToolTipForText(word, commands, variables, localized) == Success(Some(d))
  {
  }

  /** A localisation key is replaced by its localised string when the strings are
      loaded (and by `undefined` when they lack it), and shown as is otherwise. */
  lemma LocalizedDescriptionShown(word: string, commands: map<string, Json>, variables: map<string, Json>,
                                  localized: Option<map<string, string>>, d: string)
    requires Documented(word, commands, variables, d) && StartsWith(d, LocPrefix)
    ensures localized.None? ==> ToolTipForText(word, commands, variables, localized) == Success(Some(d))
    ensures localized.Some? && d in localized.value ==>
              ToolTipForText(word, commands, variables, localized) == Success(Some(localized.value[d]))
    ensures localized.Some? && d !in localized.value ==>
              ToolTipForText(word, commands, variables, localized) == Success(None)
  {
  }

  /** A non-empty tooltip is the entry's description or that description's
      localised string. */
  lemma NonEmptyToolTipIsDescription(word: string, commands: map<string, Json>, variables: map<string, Json>,
                                     localized: Option<map<string, string>>, t: string)
    requires ToolTipForText(word, commands, variables, localized) == Success(Some(t)) && t != []
    ensures var token := SearchToken(word, commands, variables);
            && Truthy(token)
            && Truthy(Member(token.value, "name"))
            && var description := Member(token.value, "description");
               && description.Some? && description.value.JString?
               && var d := description.value.s;
                  || (t == d && (!StartsWith(d, LocPrefix) || localized.None?))
                  || (StartsWith(d, LocPrefix) && localized.Some? && d in localized.value && localized.value[d] == t)
  {
  }
}
