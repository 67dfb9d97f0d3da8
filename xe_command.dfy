/**
 * src/commands/xe.rs: the `xe` command. It collects the options into a
 * name-to-value map, decides between storing defaults, a time series and a
 * rate lookup (in that priority), and drives an `XeClient` accordingly.
 */
module XeCommand {
  import opened Wrappers
  import opened Strings
  import opened KeyValue
  import opened Embeds
  import opened Interactions
  import Xe

  // ---------------------------------------------------------------- currency codes

  datatype CurrencyCode =
    USD | EUR | JPY | BGN | BTC | CZK | DKK | GBP | SEK | CHF | AUD |
    BRL | CAD | CNY | HKD | INR | KRW | MXN | MYR | NZD | PHP | SGD

  /** The derived `Display`: the variant's own name. */
  function CodeName(c: CurrencyCode): string {
    match c
    case USD => "USD" case EUR => "EUR" case JPY => "JPY" case BGN => "BGN"
    case BTC => "BTC" case CZK => "CZK" case DKK => "DKK" case GBP => "GBP"
    case SEK => "SEK" case CHF => "CHF" case AUD => "AUD" case BRL => "BRL"
    case CAD => "CAD" case CNY => "CNY" case HKD => "HKD" case INR => "INR"
    case KRW => "KRW" case MXN => "MXN" case MYR => "MYR" case NZD => "NZD"
    case PHP => "PHP" case SGD => "SGD"
  }

  /** The variant's position in the declaration. */
  function Discriminant(c: CurrencyCode): nat {
    match c
    case USD => 0 case EUR => 1 case JPY => 2 case BGN => 3
    case BTC => 4 case CZK => 5 case DKK => 6 case GBP => 7
    case SEK => 8 case CHF => 9 case AUD => 10 case BRL => 11
    case CAD => 12 case CNY => 13 case HKD => 14 case INR => 15
    case KRW => 16 case MXN => 17 case MYR => 18 case NZD => 19
    case PHP => 20 case SGD => 21
  }

  /** `CurrencyCodes::iter()`: the variants in declaration order. */
  const ALL_CODES: seq<CurrencyCode> :=
    [USD, EUR, JPY, BGN, BTC, CZK, DKK, GBP, SEK, CHF, AUD,
     BRL, CAD, CNY, HKD, INR, KRW, MXN, MYR, NZD, PHP, SGD]

  /** The iteration visits each of the 22 variants exactly once, each at its declared position. */
  lemma AllCodesEnumerates()
    ensures |ALL_CODES| == 22
    ensures forall c :: Discriminant(c) < 22 && ALL_CODES[Discriminant(c)] == c
    ensures forall i, j :: 0 <= i < j < |ALL_CODES| ==> ALL_CODES[i] != ALL_CODES[j]
  {
    forall c ensures Discriminant(c) < 22 && ALL_CODES[Discriminant(c)] == c {
      match c {
        case USD => case EUR => case JPY => case BGN =>
        case BTC => case CZK => case DKK => case GBP =>
        case SEK => case CHF => case AUD => case BRL =>
        case CAD => case CNY => case HKD => case INR =>
        case KRW => case MXN => case MYR => case NZD =>
        case PHP => case SGD =>
      }
    }
    forall i, j | 0 <= i < j < |ALL_CODES| ensures ALL_CODES[i] != ALL_CODES[j] {
      assert Discriminant(ALL_CODES[i]) == i && Discriminant(ALL_CODES[j]) == j;
    }
  }

  /** Every name is three letters, and no two variants share one. */
  lemma CodeNamesDistinct()
    ensures forall c :: |CodeName(c)| == 3
    ensures forall a, b :: CodeName(a) == CodeName(b) ==> a == b
  {
  }

  /** The choice list built from `codes`, each code offered under its own name. */
  function ChoicesOf(codes: seq<CurrencyCode>): (r: seq<Choice>)
    ensures |r| == |codes|
    ensures forall i :: 0 <= i < |codes| ==> r[i].name == CodeName(codes[i]) && r[i].value == r[i].name
  {
    seq(|codes|, i requires 0 <= i < |codes| => Choice(CodeName(codes[i]), CodeName(codes[i])))
  }

  // ---------------------------------------------------------------- fixed tables

  /** The name the command is registered under. */
  function Name(): (n: string)
    ensures n == "xe"
  {
    "xe"
  }

  function Description(): (d: string)
    ensures d == "Convert from one currency to another"
  {
    "Convert from one currency to another"
  }

  function StringOption(name: string, description: string, choices: Option<seq<Choice>>): CommandOption {
    CommandOption(name, description, String, choices, Some(false), Some(false))
  }

  /** `options()`: six optional string options, from and to offering the currency codes. */
  function Options(): (r: Option<seq<CommandOption>>)
    ensures r.Some? && |r.value| == 6
    ensures forall i :: 0 <= i < 6 ==>
              r.value[i].ty == String && r.value[i].required == Some(false) && r.value[i].autocomplete == Some(false)
    ensures [r.value[0].name, r.value[1].name, r.value[2].name, r.value[3].name, r.value[4].name, r.value[5].name] ==
            ["from", "to", "amount", "precision", "timeseries", "set_defaults"]
    ensures r.value[0].choices == Some(ChoicesOf(ALL_CODES)) && r.value[1].choices == Some(ChoicesOf(ALL_CODES))
    ensures r.value[2].choices.None? && r.value[3].choices.None? && r.value[4].choices.None?
    ensures r.value[5].choices == Some([Choice("True", "True"), Choice("False", "False")])
  {
    var codes := ChoicesOf(ALL_CODES);
    Some([
      StringOption("from", "The currency to convert from (Default AUD)", Some(codes)),
      StringOption("to", "The currency to convert to (Default JPY)", Some(codes)),
      StringOption("amount", "The amount of the currency (Number)", None),
      StringOption("precision", "Precision of the decimal points (u8, max 12, default: 4)", None),
      StringOption("timeseries", "Get a timeseries graph of historical data (format: YYYY-MM-DD_YYYY_MM_DD)", None),
      StringOption("set_defaults", "Set the default currencies for this user", Some([Choice("True", "True"), Choice("False", "False")]))
    ])
  }

  /** The from and to options offer exactly the 22 codes, in declaration order, named by themselves. */
  lemma CurrencyChoicesAreTheCodes()
    ensures |ChoicesOf(ALL_CODES)| == 22
    ensures forall i :: 0 <= i < 22 ==>
              ChoicesOf(ALL_CODES)[i] == Choice(CodeName(ALL_CODES[i]), CodeName(ALL_CODES[i]))
  {
  }

  /** `autocomplete`: nothing to suggest. */
  function Autocomplete(options: Option<seq<DataOption>>): (r: Result<CallbackData, InteractionError>)
    ensures r == Success(CallbackData(None, None, None))
  {
    Success(CallbackData(None, None, None))
  }

  // ---------------------------------------------------------------- option map

  function ValueOrEmpty(o: DataOption): string {
    o.value.GetOr("")
  }

  /** Collecting (name, value) pairs into a HashMap: a later pair with the same name overwrites. */
  function CollectOptions(options: seq<DataOption>): (m: map<string, string>)
    ensures options == [] ==> m == map[]
    ensures options != [] ==>
              var last := options[|options| - 1];
              last.name in m && m[last.name] == ValueOrEmpty(last)
    decreases |options|
  {
    if options == [] then map[]
    else
      var last := options[|options| - 1];
      CollectOptions(options[..|options| - 1])[last.name := ValueOrEmpty(last)]
  }

  /** Some option in `options` is called `name`. */
  predicate Named(options: seq<DataOption>, name: string) {
    exists i :: 0 <= i < |options| && options[i].name == name
  }

  /** The map's keys are exactly the option names. */
  lemma {:induction false} CollectedKeys(options: seq<DataOption>, name: string)
    ensures name in CollectOptions(options) <==> Named(options, name)
    decreases |options|
  {
    if options != [] {
      var n := |options| - 1;
      var front := options[..n];
      CollectedKeys(front, name);
      if Named(front, name) {
        var i :| 0 <= i < n && front[i].name == name;
        assert options[i].name == name;
      }
      if Named(options, name) && options[n].name != name {
        var i :| 0 <= i < |options| && options[i].name == name;
        assert front[i].name == name;
      }
    }
  }

  /** An option that no later option shares a name with supplies that name's value. */
  lemma {:induction false} CollectedValue(options: seq<DataOption>, i: nat)
    requires i < |options|
    requires forall j :: i < j < |options| ==> options[j].name != options[i].name
    ensures options[i].name in CollectOptions(options)
    ensures CollectOptions(options)[options[i].name] == ValueOrEmpty(options[i])
    decreases |options|
  {
    var n := |options| - 1;
    if i < n {
      var front := options[..n];
      assert front[i] == options[i];
      forall j | i < j < n ensures front[j].name != front[i].name {
        assert front[j] == options[j];
      }
      CollectedValue(front, i);
    }
  }

  /** The option map of `respond`; no options at all is an empty map. */
  function OptionMap(options: Option<seq<DataOption>>): (m: map<string, string>)
    ensures options.None? ==> m == map[]
    ensures options.Some? ==> m == CollectOptions(options.value)
  {
    CollectOptions(options.GetOr([]))
  }

  /** `HashMap::get`. */
  function Lookup(m: map<string, string>, key: string): (r: Option<string>)
    ensures r.Some? <==> key in m
    ensures r.Some? ==> r.value == m[key]
  {
    if key in m then Some(m[key]) else None
  }

  // ---------------------------------------------------------------- mode

  /** A `set_defaults` option is present and its value contains "True". */
  function IsSettingDefaults(m: map<string, string>): (b: bool)
    ensures b <==> "set_defaults" in m && exists i :: OccursAt(m["set_defaults"], "True", i)
  {
    match Lookup(m, "set_defaults")
    case Some(value) => Contains(value, "True")
    case None => false
  }

  /** A `timeseries` option is present, whatever its value. */
  function IsGettingTimeseries(m: map<string, string>): (b: bool)
    ensures b <==> "timeseries" in m
  {
    Lookup(m, "timeseries").Some?
  }

  datatype Mode = SettingDefaults | GettingTimeseries | GettingRate

  /** The branch `respond` takes: defaults before time series before a rate. */
  function SelectMode(m: map<string, string>): (mode: Mode)
    ensures mode == SettingDefaults <==> IsSettingDefaults(m)
    ensures mode == GettingTimeseries <==> !IsSettingDefaults(m) && IsGettingTimeseries(m)
    ensures mode == GettingRate <==> !IsSettingDefaults(m) && !IsGettingTimeseries(m)
  {
    if IsSettingDefaults(m) then SettingDefaults
    else if IsGettingTimeseries(m) then GettingTimeseries
    else GettingRate
  }

  /** A string option as the chat platform sends it. */
  function Given(name: string, value: Option<string>): DataOption {
    DataOption(name, String, value, None)
  }

  /** Only a value containing "True" stores defaults; "False", "" and a missing value do not. */
  lemma SetDefaultsValues(value: Option<string>)
    ensures IsSettingDefaults(OptionMap(Some([Given("set_defaults", value)])))
            <==> value.Some? && Contains(value.value, "True")
    ensures IsSettingDefaults(OptionMap(Some([Given("set_defaults", Some("True"))])))
    ensures !IsSettingDefaults(OptionMap(Some([Given("set_defaults", Some("False"))])))
    ensures !IsSettingDefaults(OptionMap(Some([Given("set_defaults", Some(""))])))
  {
    assert OccursAt("True", "True", 0);
    assert !Contains("False", "True") by {
      assert "False"[..4][0] != "True"[0];
      assert "False"[1..] == "alse";
      assert "alse"[..4][0] != "True"[0];
      assert !Contains("alse"[1..], "True");
    }
  }

  /** A time-series option with an empty or missing value still selects the time series. */
  lemma TimeseriesPresence(value: Option<string>, others: seq<DataOption>)
    requires forall i :: 0 <= i < |others| ==> others[i].name != "set_defaults"
    ensures SelectMode(OptionMap(Some(others + [Given("timeseries", value)]))) == GettingTimeseries
  {
    var opts := others + [Given("timeseries", value)];
    CollectedKeys(opts, "timeseries");
    CollectedKeys(opts, "set_defaults");
    assert opts[|opts| - 1].name == "timeseries";
    forall i | 0 <= i < |opts| ensures opts[i].name != "set_defaults" {
      if i < |others| {
        assert opts[i] == others[i];
      }
    }
  }

  // ---------------------------------------------------------------- respond

  /** The request `XEClient::new` resolves from the option map. */
  function RequestOf(m: map<string, string>, kv: map<string, string>, username: string,
                     fromReachable: bool, toReachable: bool): Xe.Request
  {
    Xe.NewRequest(Lookup(m, "from"), Lookup(m, "to"), Lookup(m, "amount"), kv, username, fromReachable, toReachable)
  }

  /** Everything outside the bot that `respond` consults. */
  datatype Environment = Environment(
    fromReadReachable: bool,
    toReadReachable: bool,
    toWriteReachable: bool,
    fromWriteReachable: bool,
    cacheReadReachable: bool,
    cacheWriteReachable: bool,
    now: Xe.U64,
    upstream: Result<Option<real>, Xe.UpstreamError>,
    codec: Xe.JsonCodec,
    display: real -> string)

  /**
   * How `respond` ends: with a reply, by handing the request to the
   * time-series code (not part of this model), or in a panic from `expect`.
   */
  datatype Reply = Replied(data: CallbackData) | TimeseriesRequested(request: Xe.Request) | Panicked(message: string)

  const DEFAULTS_PANIC: string := "Unable to set defaults"
  const RATE_PANIC: string := "Unable to get exchange rate from api"
  /** The message of `Option::unwrap` on `None`: no member, or a cached field missing. */
  const UNWRAP_PANIC: string := "called `Option::unwrap()` on a `None` value"

  /** The confirmation: one "Exchange Rate" embed saying the defaults were updated, and nothing else. */
  function DefaultsUpdated(): (c: CallbackData)
    ensures c.content.None? && c.choices.None? && c.embeds.Some? && |c.embeds.value| == 1
    ensures var e := c.embeds.value[0];
            && e.title == "Exchange Rate" && e.description == "Defaults have been updated"
            && e.fields == [] && e.color == Some(Xe.RATE_COLOR)
            && e.url.None? && e.thumbnail.None? && e.footer.None?
  {
    CallbackData(None, None, Some([Embed("Exchange Rate", "Defaults have been updated", None, None, None, [], Some(Xe.RATE_COLOR))]))
  }

  function RateReply(request: Xe.Request, rate: Option<real>, display: real -> string): CallbackData {
    CallbackData(None, None, Some([Xe.RateEmbed(request, rate, display)]))
  }

  /** `respond`: build the option map and the client, then take the first branch that applies. */
  method Respond(member: Option<Member>, options: Option<seq<DataOption>>, kv: KvStore, env: Environment) returns (reply: Reply)
    modifies kv
    ensures member.None? ==> reply == Panicked(UNWRAP_PANIC) && kv.entries == old(kv.entries)
    ensures member.Some? ==>
            var m := OptionMap(options);
            var username := member.value.user.username;
            var request := RequestOf(m, old(kv.entries), username, env.fromReadReachable, env.toReadReachable);
            && (SelectMode(m) == SettingDefaults ==>
                  && (env.toWriteReachable && env.fromWriteReachable ==>
                        reply == Replied(DefaultsUpdated()) &&
                        kv.entries == Xe.StoredDefaults(old(kv.entries), username, request))
                  && (!env.toWriteReachable ==> reply == Panicked(DEFAULTS_PANIC) && kv.entries == old(kv.entries))
                  && (env.toWriteReachable && !env.fromWriteReachable ==>
                        reply == Panicked(DEFAULTS_PANIC) &&
                        kv.entries == old(kv.entries)[Xe.ToKey(username) := request.to]))
            && (SelectMode(m) == GettingTimeseries ==>
                  reply == TimeseriesRequested(request) && kv.entries == old(kv.entries))
    ensures member.Some? ==>
            var m := OptionMap(options);
            var request := RequestOf(m, old(kv.entries), member.value.user.username, env.fromReadReachable, env.toReadReachable);
            var look := Xe.LookupCache(old(kv.entries), env.codec, request.from, request.to, env.now, env.cacheReadReachable);
            SelectMode(m) == GettingRate ==>
              && (look.Hit? ==>
                    reply == Replied(RateReply(request, Some(look.rate), env.display)) && kv.entries == old(kv.entries))
              && (look.Broken? && look.error == Xe.CacheFieldMissing ==>
                    reply == Panicked(UNWRAP_PANIC) && kv.entries == old(kv.entries))
              && (look.Broken? && look.error != Xe.CacheFieldMissing ==>
                    reply == Panicked(RATE_PANIC) && kv.entries == old(kv.entries))
              && (look.Miss? && env.upstream.Failure? ==> reply == Panicked(RATE_PANIC) && kv.entries == old(kv.entries))
              && (look.Miss? && env.upstream == Success(None) ==>
                    reply == Replied(RateReply(request, None, env.display)) && kv.entries == old(kv.entries))
              && (look.Miss? && env.upstream.Success? && env.upstream.value.Some? && env.cacheWriteReachable ==>
                    reply == Replied(RateReply(request, env.upstream.value, env.display)) &&
                    kv.entries == Xe.StoreRate(old(kv.entries), env.codec, request.from, request.to, env.upstream.value.value, env.now))
              && (look.Miss? && env.upstream.Success? && env.upstream.value.Some? && !env.cacheWriteReachable ==>
                    reply == Panicked(RATE_PANIC) && kv.entries == old(kv.entries))
  {
    var m := OptionMap(options);
    if member.None? {
      reply := Panicked(UNWRAP_PANIC);
      return;
    }
    var username := member.value.user.username;
    var settingDefaults := IsSettingDefaults(m);
    var gettingTimeseries := IsGettingTimeseries(m);
    var client := new Xe.XeClient(Lookup(m, "from"), Lookup(m, "to"), Lookup(m, "amount"), kv, username,
                                  env.fromReadReachable, env.toReadReachable);
    if settingDefaults {
      var o := client.SetDefault(kv, username, env.toWriteReachable, env.fromWriteReachable);
      if o.Fail? {
        reply := Panicked(DEFAULTS_PANIC);
        return;
      }
      reply := Replied(DefaultsUpdated());
      return;
    }
    if gettingTimeseries {
      reply := TimeseriesRequested(client.request);
      return;
    }
    var o := client.GetRate(kv, env.codec, env.now, env.cacheReadReachable, env.upstream, env.cacheWriteReachable);
    if o.Fail? {
      // A missing cache field is an `unwrap()` panic inside `get_rate`, not an error it returns.
      reply := Panicked(if o.error == Xe.CacheFieldMissing then UNWRAP_PANIC else RATE_PANIC);
      return;
    }
    reply := Replied(RateReply(client.request, client.rate, env.display));
  }

  /** The options of `/xe set_defaults:True from:GBP to:CAD`. */
  function DefaultsOptions(): seq<DataOption> {
    [Given("set_defaults", Some("True")), Given("from", Some("GBP")), Given("to", Some("CAD"))]
  }

  /** Those options collect into exactly three entries. */
  lemma DefaultsOptionMap()
    ensures OptionMap(Some(DefaultsOptions())) == map["set_defaults" := "True", "from" := "GBP", "to" := "CAD"]
  {
    var opts := DefaultsOptions();
    var two := opts[..2];
    var one := two[..1];
    assert two == [Given("set_defaults", Some("True")), Given("from", Some("GBP"))];
    assert one == [Given("set_defaults", Some("True"))];
    assert one[..0] == [];
    assert CollectOptions(one) == map["set_defaults" := "True"];
    assert CollectOptions(two) == map["set_defaults" := "True", "from" := "GBP"];
    assert CollectOptions(opts) == CollectOptions(two)["to" := "CAD"];
  }

  /**
   * Storing GBP and CAD as defaults, then asking with no currencies, resolves
   * to GBP and CAD again.
   */
  lemma SetDefaultsScenario(kv: map<string, string>, username: string, fromReachable: bool, toReachable: bool)
    ensures var m := OptionMap(Some(DefaultsOptions()));
            && SelectMode(m) == SettingDefaults
            && RequestOf(m, kv, username, fromReachable, toReachable) == Xe.Request("GBP", "CAD", 1.0)
            && RequestOf(OptionMap(None), Xe.StoredDefaults(kv, username, Xe.Request("GBP", "CAD", 1.0)), username, true, true) ==
               Xe.Request("GBP", "CAD", 1.0)
  {
    DefaultsOptionMap();
    var m := OptionMap(Some(DefaultsOptions()));
    assert OccursAt("True", "True", 0);
    assert Lookup(m, "from") == Some("GBP") && Lookup(m, "to") == Some("CAD") && Lookup(m, "amount") == None;
    assert OptionMap(None) == map[];
    Xe.DefaultsRoundTrip(kv, username, Xe.Request("GBP", "CAD", 1.0), None);
  }
}
