/** The `/hey` command of src/commands/hey.rs: a greeting and a fixed autocomplete list. */
module Hey {
  import opened Wrappers
  import opened Interactions

  const NAME: string := "hey"
  const DESCRIPTION: string := "Say Hey to the user!"
  const FALLBACK_NAME: string := "Someone"

  /**
   * The name to greet: the value of the first option, whatever that option
   * is called; "Someone" when there is no option list, an empty one, or a
   * first option without a value.
   */
  function GreetName(options: Option<seq<DataOption>>): (name: string)
    ensures options.Some? && |options.value| > 0 && options.value[0].value.Some? ==>
              name == options.value[0].value.value
    ensures options.None? || |options.value| == 0 || options.value[0].value.None? ==>
              name == FALLBACK_NAME
  {
    var opts := options.GetOr([]);
    var first := if |opts| > 0 then opts[0] else DataOption("name", String, Some(FALLBACK_NAME), Some(false));
    first.value.GetOr(FALLBACK_NAME)
  }

  /** "Hey, ", the name and "!"; the name can be read back out of the greeting. */
  function Greeting(name: string): (g: string)
    ensures |g| == |name| + 6
    ensures g[..5] == "Hey, " && g[|g| - 1] == '!'
    ensures g[5..|g| - 1] == name
  {
    var g := "Hey, " + name + "!";
    assert g[5..|g| - 1] == name by {
      assert forall i :: 0 <= i < |name| ==> g[5 + i] == name[i];
    }
    g
  }

  /** Two greetings are equal exactly when they greet the same name. */
  lemma GreetingInjective(a: string, b: string)
    ensures Greeting(a) == Greeting(b) <==> a == b
  {
    if Greeting(a) == Greeting(b) {
      assert a == Greeting(a)[5..|Greeting(a)| - 1];
    }
  }

  /** `respond`: always succeeds with only a text reply. */
  function Respond(member: Option<Member>, options: Option<seq<DataOption>>): (r: Result<CallbackData, InteractionError>)
    ensures r.Success?
    ensures r.value.content == Some(Greeting(GreetName(options)))
    ensures r.value.choices.None? && r.value.embeds.None?
  {
    Success(CallbackData(Some(Greeting(GreetName(options))), None, None))
  }

  /** Options after the first, and the first option's name, never change the reply. */
  lemma LaterOptionsIgnored(member: Option<Member>, first: DataOption, rest: seq<DataOption>, name: string)
    ensures Respond(member, Some([first] + rest)) == Respond(member, Some([first]))
    ensures Respond(member, Some([first])) == Respond(member, Some([first.(name := name)]))
  {
    assert ([first] + rest)[0] == first;
  }

  /** The option list `/hey` registers: one required `name` string with autocomplete. */
  function Options(): (r: Option<seq<CommandOption>>)
    ensures r.Some? && |r.value| == 1
    ensures r.value[0].name == "name" && r.value[0].ty == String
    ensures r.value[0].required == Some(true) && r.value[0].autocomplete == Some(true)
    ensures r.value[0].choices.None?
  {
    Some([CommandOption("name", "The user you want to say hey to", String, None, Some(true), Some(true))])
  }

  const SUGGESTIONS: seq<Choice> := [Choice("loki", "Loki"), Choice("icecream", "IceCream"), Choice("yoroshi", "Yoroshi")]

  /** `autocomplete`: the three fixed suggestions, in order, and nothing else. */
  function Autocomplete(options: Option<seq<DataOption>>): (r: Result<CallbackData, InteractionError>)
    ensures r.Success? && r.value.content.None? && r.value.embeds.None?
    ensures r.value.choices == Some(SUGGESTIONS)
  {
    Success(CallbackData(None, Some(SUGGESTIONS), None))
  }

  /** There are three suggestions, with distinct names. */
  lemma SuggestionsDistinct()
    ensures |SUGGESTIONS| == 3
    ensures forall i, j :: 0 <= i < j < |SUGGESTIONS| ==> SUGGESTIONS[i].name != SUGGESTIONS[j].name
  {
  }

  /** The registry entry routing hands `/hey` interactions to. */
  function Registration(): (c: Interactions.Command)
    ensures c.name == NAME
  {
    Interactions.Command(NAME, Respond, Autocomplete)
  }

  /**
   * A `/hey` slash command routed through `perform` with `/hey` first in the
   * registry is answered in the channel with the greeting.
   */
  lemma RoutedGreeting(i: Interaction, others: seq<Interactions.Command>)
    requires i.ty == ApplicationCommand && i.data.Some? && i.data.value.name == NAME
    ensures Perform(i, [Registration()] + others) ==
            Success(InteractionResponse(ChannelMessageWithSource,
                                        Some(CallbackData(Some(Greeting(GreetName(i.data.value.options))), None, None))))
  {
    var commands := [Registration()] + others;
    assert IsFirstNamed(commands, NAME, 0);
  }

  /** A `/hey` autocomplete request routed through `perform` gets the three suggestions. */
  lemma RoutedSuggestions(i: Interaction, others: seq<Interactions.Command>)
    requires i.ty == ApplicationCommandAutoComplete && i.data.Some? && i.data.value.name == NAME
    ensures Perform(i, [Registration()] + others) ==
            Success(InteractionResponse(AutoCompleteResult, Some(CallbackData(None, Some(SUGGESTIONS), None))))
  {
    var commands := [Registration()] + others;
    assert IsFirstNamed(commands, NAME, 0);
  }
}
