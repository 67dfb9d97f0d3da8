/**
 * src/interaction.rs: the payload and response records, their numeric wire
 * codes, and the dispatch of an interaction to the first command whose name
 * matches.
 */
module Interactions {
  import opened Wrappers
  import opened Embeds

  // ---------------------------------------------------------------- wire codes

  datatype InteractionType =
    Ping | ApplicationCommand | MessageComponent | ApplicationCommandAutoComplete | ModalSubmit

  /** The `repr(u8)` discriminant sent on the wire. */
  function InteractionTypeCode(t: InteractionType): (n: nat)
    ensures 1 <= n <= 5
  {
    match t
    case Ping => 1
    case ApplicationCommand => 2
    case MessageComponent => 3
    case ApplicationCommandAutoComplete => 4
    case ModalSubmit => 5
  }

  /** `Deserialize_repr`: a known discriminant names its variant; any other number is rejected. */
  function InteractionTypeFromCode(n: int): (t: Option<InteractionType>)
    ensures t.Some? <==> 1 <= n <= 5
    ensures t.Some? ==> InteractionTypeCode(t.value) == n
  {
    if n == 1 then Some(Ping)
    else if n == 2 then Some(ApplicationCommand)
    else if n == 3 then Some(MessageComponent)
    else if n == 4 then Some(ApplicationCommandAutoComplete)
    else if n == 5 then Some(ModalSubmit)
    else None
  }

  lemma InteractionTypeRoundTrip(t: InteractionType)
    ensures InteractionTypeFromCode(InteractionTypeCode(t)) == Some(t)
  {
  }

  datatype InteractionResponseType = Pong | ChannelMessageWithSource | ACKWithSource | AutoCompleteResult

  function ResponseTypeCode(t: InteractionResponseType): (n: nat)
    ensures n in {1, 4, 5, 8}
  {
    match t
    case Pong => 1
    case ChannelMessageWithSource => 4
    case ACKWithSource => 5
    case AutoCompleteResult => 8
  }

  function ResponseTypeFromCode(n: int): (t: Option<InteractionResponseType>)
    ensures t.Some? <==> n in {1, 4, 5, 8}
    ensures t.Some? ==> ResponseTypeCode(t.value) == n
  {
    if n == 1 then Some(Pong)
    else if n == 4 then Some(ChannelMessageWithSource)
    else if n == 5 then Some(ACKWithSource)
    else if n == 8 then Some(AutoCompleteResult)
    else None
  }

  lemma ResponseTypeRoundTrip(t: InteractionResponseType)
    ensures ResponseTypeFromCode(ResponseTypeCode(t)) == Some(t)
  {
  }

  datatype ApplicationCommandOptionType = SubCommand | SubCommandGroup | String | Boolean

  function OptionTypeCode(t: ApplicationCommandOptionType): (n: nat)
    ensures n in {1, 2, 3, 5}
  {
    match t
    case SubCommand => 1
    case SubCommandGroup => 2
    case String => 3
    case Boolean => 5
  }

  function OptionTypeFromCode(n: int): (t: Option<ApplicationCommandOptionType>)
    ensures t.Some? <==> n in {1, 2, 3, 5}
    ensures t.Some? ==> OptionTypeCode(t.value) == n
  {
    if n == 1 then Some(SubCommand)
    else if n == 2 then Some(SubCommandGroup)
    else if n == 3 then Some(String)
    else if n == 5 then Some(Boolean)
    else None
  }

  lemma OptionTypeRoundTrip(t: ApplicationCommandOptionType)
    ensures OptionTypeFromCode(OptionTypeCode(t)) == Some(t)
  {
  }

  /** Distinct interaction and response types have distinct codes, so each table is a bijection onto its codes. */
  lemma CodesAreInjective()
    ensures forall a, b :: InteractionTypeCode(a) == InteractionTypeCode(b) ==> a == b
    ensures forall a, b :: ResponseTypeCode(a) == ResponseTypeCode(b) ==> a == b
  {
    forall a, b | InteractionTypeCode(a) == InteractionTypeCode(b) ensures a == b {
      InteractionTypeRoundTrip(a);
      InteractionTypeRoundTrip(b);
    }
    forall a, b | ResponseTypeCode(a) == ResponseTypeCode(b) ensures a == b {
      ResponseTypeRoundTrip(a);
      ResponseTypeRoundTrip(b);
    }
  }

  /** Distinct option types have distinct codes. */
  lemma OptionCodesAreInjective()
    ensures forall a, b :: OptionTypeCode(a) == OptionTypeCode(b) ==> a == b
  {
    forall a, b | OptionTypeCode(a) == OptionTypeCode(b) ensures a == b {
      OptionTypeRoundTrip(a);
      OptionTypeRoundTrip(b);
    }
  }

  // ---------------------------------------------------------------- records

  datatype DataOption = DataOption(
    name: string,
    ty: ApplicationCommandOptionType,
    value: Option<string>,
    focused: Option<bool>)

  datatype CommandData = CommandData(name: string, options: Option<seq<DataOption>>)

  datatype Choice = Choice(name: string, value: string)

  /** What a command hands back: text, autocomplete choices and embeds, each optional. */
  datatype CallbackData = CallbackData(
    content: Option<string>,
    choices: Option<seq<Choice>>,
    embeds: Option<seq<Embed>>)

  datatype CommandOption = CommandOption(
    name: string,
    description: string,
    ty: ApplicationCommandOptionType,
    choices: Option<seq<Choice>>,
    autocomplete: Option<bool>,
    required: Option<bool>)

  datatype User = User(
    avatar: string,
    avatarDecoration: Option<string>,
    discriminator: string,
    id: string,
    publicFlags: nat,
    username: string)

  datatype Member = Member(
    user: User,
    roles: seq<string>,
    premiumSince: Option<string>,
    permissions: string,
    pending: bool,
    nick: Option<string>,
    mute: bool,
    joinedAt: string,
    isPending: bool,
    deaf: bool)

  datatype Interaction = Interaction(
    id: Option<string>,
    ty: InteractionType,
    data: Option<CommandData>,
    token: string,
    guildId: Option<string>,
    channelId: Option<string>,
    applicationId: Option<string>,
    member: Option<Member>,
    user: Option<User>,
    version: Option<nat>)

  datatype InteractionResponse = InteractionResponse(ty: InteractionResponseType, data: Option<CallbackData>)

  datatype InteractionError = GenericError | UnknownCommand(name: string)

  datatype Error = InvalidPayload(message: string) | InteractionFailed(cause: InteractionError)

  /**
   * One entry of the command registry: its name and its two handlers. The
   * handlers' own effects (store, network) belong to the command; routing
   * only sees their answers.
   */
  datatype Command = Command(
    name: string,
    respond: (Option<Member>, Option<seq<DataOption>>) -> Result<CallbackData, InteractionError>,
    autocomplete: Option<seq<DataOption>> -> Result<CallbackData, InteractionError>)

  // ---------------------------------------------------------------- dispatch

  /** `Interaction::data`: the command data, or an invalid-payload error when it is absent. */
  function GetData(i: Interaction): (r: Result<CommandData, Error>)
    ensures r.Success? <==> i.data.Some?
    ensures r.Success? ==> r.value == i.data.value
    ensures r.Failure? ==> r.error == InvalidPayload("data not found")
  {
    match i.data
    case Some(d) => Success(d)
    case None => Failure(InvalidPayload("data not found"))
  }

  /** `handle_ping`: always a Pong without data. */
  function HandlePing(i: Interaction): (r: InteractionResponse)
    ensures ResponseTypeCode(r.ty) == 1 && r.data.None?
  {
    InteractionResponse(Pong, None)
  }

  /** `k` is the position of the first command named `name`. */
  predicate IsFirstNamed(commands: seq<Command>, name: string, k: int) {
    0 <= k < |commands| && commands[k].name == name &&
    forall j :: 0 <= j < k ==> commands[j].name != name
  }

  /** The index of the first command named `name`, scanning in registry order. */
  function FirstMatch(commands: seq<Command>, name: string): (r: Option<nat>)
    ensures r.Some? ==> IsFirstNamed(commands, name, r.value)
    ensures r.None? <==> forall j :: 0 <= j < |commands| ==> commands[j].name != name
  {
    if commands == [] then None
    else if commands[0].name == name then Some(0)
    else
      match FirstMatch(commands[1..], name)
      case Some(k) => Some(k + 1)
      case None => None
  }

  /** There is only one first match, and FirstMatch finds it. */
  lemma FirstMatchUnique(commands: seq<Command>, name: string, k: int)
    requires IsFirstNamed(commands, name, k)
    ensures FirstMatch(commands, name) == Some(k)
  {
  }

  /** The response a command's handler result becomes: its data wrapped under `ty`, or its error. */
  function Wrap(ty: InteractionResponseType, reply: Result<CallbackData, InteractionError>): Result<InteractionResponse, InteractionError> {
    match reply
    case Success(data) => Success(InteractionResponse(ty, Some(data)))
    case Failure(e) => Failure(e)
  }

  /** `handle_command`: run `respond` of the first command named like the data. */
  function HandleCommand(i: Interaction, commands: seq<Command>): (r: Result<InteractionResponse, InteractionError>)
    ensures i.data.None? ==> r == Failure(GenericError)
    ensures i.data.Some? && (forall j :: 0 <= j < |commands| ==> commands[j].name != i.data.value.name) ==>
              r == Failure(UnknownCommand(i.data.value.name))
    ensures i.data.Some? ==>
              forall k :: IsFirstNamed(commands, i.data.value.name, k) ==>
                r == Wrap(ChannelMessageWithSource, commands[k].respond(i.member, i.data.value.options))
    ensures r.Success? ==> r.value.ty == ChannelMessageWithSource && r.value.data.Some?
  {
    match GetData(i)
    case Failure(_) => Failure(GenericError)
    case Success(data) =>
      assert forall k :: IsFirstNamed(commands, data.name, k) ==> FirstMatch(commands, data.name) == Some(k) by {
        forall k | IsFirstNamed(commands, data.name, k) ensures FirstMatch(commands, data.name) == Some(k) {
          FirstMatchUnique(commands, data.name, k);
        }
      }
      match FirstMatch(commands, data.name)
      case None => Failure(UnknownCommand(data.name))
      case Some(k) => Wrap(ChannelMessageWithSource, commands[k].respond(i.member, data.options))
  }

  /** `handle_autocomplete`: run `autocomplete` of the first command named like the data. */
  function HandleAutocomplete(i: Interaction, commands: seq<Command>): (r: Result<InteractionResponse, InteractionError>)
    ensures i.data.None? ==> r == Failure(GenericError)
    ensures i.data.Some? && (forall j :: 0 <= j < |commands| ==> commands[j].name != i.data.value.name) ==>
              r == Failure(UnknownCommand(i.data.value.name))
    ensures i.data.Some? ==>
              forall k :: IsFirstNamed(commands, i.data.value.name, k) ==>
                r == Wrap(AutoCompleteResult, commands[k].autocomplete(i.data.value.options))
    ensures r.Success? ==> r.value.ty == AutoCompleteResult && r.value.data.Some?
  {
    match GetData(i)
    case Failure(_) => Failure(GenericError)
    case Success(data) =>
      assert forall k :: IsFirstNamed(commands, data.name, k) ==> FirstMatch(commands, data.name) == Some(k) by {
        forall k | IsFirstNamed(commands, data.name, k) ensures FirstMatch(commands, data.name) == Some(k) {
          FirstMatchUnique(commands, data.name, k);
        }
      }
      match FirstMatch(commands, data.name)
      case None => Failure(UnknownCommand(data.name))
      case Some(k) => Wrap(AutoCompleteResult, commands[k].autocomplete(data.options))
  }

  function MapErr(r: Result<InteractionResponse, InteractionError>): Result<InteractionResponse, Error> {
    match r
    case Success(v) => Success(v)
    case Failure(e) => Failure(InteractionFailed(e))
  }

  /** `perform`: the case split on the interaction's type. */
  function Perform(i: Interaction, commands: seq<Command>): (r: Result<InteractionResponse, Error>)
    ensures i.ty == Ping ==> r == Success(InteractionResponse(Pong, None))
    ensures i.ty == ApplicationCommand ==> r == MapErr(HandleCommand(i, commands))
    ensures i.ty == ApplicationCommandAutoComplete ==> r == MapErr(HandleAutocomplete(i, commands))
    ensures i.ty == MessageComponent || i.ty == ModalSubmit ==> r == Failure(InvalidPayload("Not implemented"))
  {
    match i.ty
    case Ping => Success(HandlePing(i))
    case ApplicationCommand => MapErr(HandleCommand(i, commands))
    case ApplicationCommandAutoComplete => MapErr(HandleAutocomplete(i, commands))
    case _ => Failure(InvalidPayload("Not implemented"))
  }

  /** Commands listed after the first one with the requested name are never consulted. */
  lemma {:induction false} LaterCommandsIgnored(i: Interaction, commands: seq<Command>, later: seq<Command>)
    requires i.data.Some?
    requires exists k :: 0 <= k < |commands| && commands[k].name == i.data.value.name
    ensures HandleCommand(i, commands + later) == HandleCommand(i, commands)
    ensures HandleAutocomplete(i, commands + later) == HandleAutocomplete(i, commands)
  {
    var name := i.data.value.name;
    var k := FirstMatch(commands, name).value;
    assert IsFirstNamed(commands + later, name, k) by {
      assert (commands + later)[k] == commands[k];
      assert forall j :: 0 <= j < k ==> (commands + later)[j] == commands[j];
    }
    FirstMatchUnique(commands + later, name, k);
  }
}
