# nuko: a Dafny model of the bot's command core

nuko is a chat bot that runs as a serverless worker. It receives the chat
platform's interaction payloads and answers slash commands. This project
models and proves properties of these parts:

- **Routing** (`Interactions`): the wire codes of interaction, response and option types, the `data` accessor, `ping`, and the first-match search for the command named in an interaction.
- **The `xe` exchange-rate client** (`Xe`): how `from`, `to` and `amount` are resolved from explicit options, the user's stored defaults and the hard defaults USD, JPY and 1. Also the four-hour rate cache under `cache:{from}_{to}` with u64 timestamps, the two writes of `set_default`, and the rendered embed.
- **The `xe` command** (`XeCommand`): the option map, where a later option with the same name wins; the priority set-defaults, then time series, then rate; the 22 currency choices; and `respond`, which drives an `XeClient` over a key-value store.
- **The `hey` command** (`Hey`): the greeting, its fallback name, and the fixed autocomplete list.
- **The dictionary client** (`Jisho`): the embed built from the first search result, with one fallback per missing part.

Supporting modules:

- `Wrappers`: `Option`, `Result` and `Outcome`.
- `Strings`: the Rust standard-library behaviour the core relies on. This covers `str::contains`, `{:4}` right-aligned padding and `parse::<f64>` on finite decimal literals.
- `KeyValue`: the key-value namespace, as a class over a `map<string, string>`.
- `Embeds`: the embed records.

The environment enters as inputs:

- whether each store call reaches the store (`reachable` flags);
- the clock (`now`, a u64);
- the upstream rate service's answer (`upstream`);
- the JSON text of a cache entry and how text is read back (`codec`);
- Rust's `Display` for f64 (`display`).

The client and the store are classes whose methods change them in place. Their contracts tie every outcome to pure specification functions: `LookupCache`, `StoreRate`, `StoredDefaults` and `NewRequest`. The lemmas about the model are proved over those functions.

Behaviour of the source that is easy to misread:

- A `None` rate renders the amount itself, because `unwrap_or(1.)` multiplies the amount by 1 (`src/helpers/xe_client.rs:183`).
- `{:4}` is a minimum width of four characters: a shorter number is right-aligned with spaces (`src/helpers/xe_client.rs:183`).
- The client in `src/helpers/xe_client.rs` has no precision handling and no time-series code.
- The `from` option's description says "Default AUD" (`src/commands/xe.rs:157`), while the client's default is USD (`src/helpers/xe_client.rs:52`). The model keeps both strings as written.

## Model

| member | source | states |
|---|---|---|
| Interactions.InteractionTypeFromCode | src/interaction.rs:8-16 | codes 1–5 decode to Ping, ApplicationCommand, MessageComponent, ApplicationCommandAutoComplete and ModalSubmit; every other number is rejected |
| Interactions.InteractionTypeRoundTrip | src/interaction.rs:8-16 | decoding a type's code gives back the type |
| Interactions.ResponseTypeFromCode | src/interaction.rs:19-28 | exactly 1, 4, 5 and 8 decode, to Pong, ChannelMessageWithSource, ACKWithSource and AutoCompleteResult |
| Interactions.ResponseTypeRoundTrip | src/interaction.rs:19-28 | decoding a response type's code gives back the type |
| Interactions.OptionTypeFromCode | src/interaction.rs:92-100 | exactly 1, 2, 3 and 5 decode, to SubCommand, SubCommandGroup, String and Boolean |
| Interactions.OptionTypeRoundTrip | src/interaction.rs:92-100 | decoding an option type's code gives back the type |
| Interactions.CodesAreInjective | src/interaction.rs:8-28 | distinct interaction types, and distinct response types, have distinct codes |
| Interactions.OptionCodesAreInjective | src/interaction.rs:92-100 | distinct option types have distinct codes |
| Interactions.GetData | src/interaction.rs:120-127 | succeeds exactly when the payload has data, and then returns that data |
| Interactions.HandlePing | src/interaction.rs:137-142 | a Pong response without data |
| Interactions.FirstMatch | src/interaction.rs:151-153 | the index found is the first command with that name; nothing is found exactly when no command has the name |
| Interactions.HandleCommand | src/interaction.rs:144-163 | no data gives GenericError; no matching name gives UnknownCommand(name); otherwise the first matching command's `respond` answer, or its error, under ChannelMessageWithSource |
| Interactions.HandleAutocomplete | src/interaction.rs:165-184 | the same search, running `autocomplete` and answering under AutoCompleteResult |
| Interactions.Perform | src/interaction.rs:186-202 | Ping gives Pong; a command or an autocomplete is routed, and its error is wrapped as InteractionFailed; the other two types are InvalidPayload("Not implemented") |
| Interactions.LaterCommandsIgnored | src/interaction.rs:151-161 | commands appended after the first one with the requested name never change the answer |
| KeyValue.Get | src/helpers/xe_client.rs:72-75 | fails exactly when the store is unreachable; otherwise the stored text, present exactly when the key is |
| KeyValue.KvStore.constructor | src/helpers/xe_client.rs:44 | the store starts with the given entries |
| KeyValue.KvStore.Put | src/helpers/xe_client.rs:150-155 | a reachable store overwrites the key; an unreachable one fails and changes nothing |
| Strings.Contains | src/commands/xe.rs:69 | true exactly when the pattern occurs at some index |
| Strings.PadLeft | src/helpers/xe_client.rs:183 | the length is the larger of the text's length and the width; the text ends the result, preceded only by spaces |
| Strings.ParseNatToString | src/helpers/xe_client.rs:99 | the decimal text of any natural number parses to that number |
| Strings.ParseWholeNumbers | src/helpers/xe_client.rs:99 | "1" parses to 1 and "250" to 250 |
| Strings.ParseSignedFraction | src/helpers/xe_client.rs:99 | "-2.5" parses to -2.5 |
| Strings.ParseWithExponent | src/helpers/xe_client.rs:99 | "25e-1" parses to 2.5 |
| Strings.ParseRejects | src/helpers/xe_client.rs:99 | "", ".", "1.2.3" and "abc" do not parse |
| Xe.PreferenceKeysDistinct | src/helpers/xe_client.rs:169-170 | a user's from-key is never anyone's to-key, and different users have different keys |
| Xe.CacheKeyAvoidsPreferences | src/helpers/xe_client.rs:107-112 | with three-letter codes, a cache key is never a preference key |
| Xe.ResolveFrom | src/helpers/xe_client.rs:62-78 | an explicit `from` is returned without reading the store; otherwise the stored value, else "USD"; the call fails exactly when the store is unreachable |
| Xe.ResolveTo | src/helpers/xe_client.rs:80-96 | the same for `to`, with key `{user}:currency_to` and default "JPY" |
| Xe.ResolveAmount | src/helpers/xe_client.rs:98-100 | a missing or unparseable amount is 1; a parseable one is its value |
| Xe.NewRequest | src/helpers/xe_client.rs:47-57 | explicit currencies are taken as given; otherwise the stored value, else USD or JPY, and a failed store read also gives USD or JPY; the amount is the resolved amount |
| Xe.ExplicitCurrenciesWin | src/helpers/xe_client.rs:47-57 | explicit currencies are used whatever the store holds and whether or not it answers |
| Xe.FallbackDefaults | src/helpers/xe_client.rs:47-57 | a user with nothing stored, or a store that fails, gets USD to JPY for 1 |
| Xe.WholeAmountParsed | src/helpers/xe_client.rs:98-100 | any whole number typed as the amount is taken exactly |
| Xe.WrappingSub | src/helpers/xe_client.rs:120 | u64 subtraction: the difference when no underflow occurs, otherwise the difference plus 2^64 |
| Xe.IsFresh | src/helpers/xe_client.rs:120 | for a past timestamp, fresh exactly when fewer than 14400 s have passed; for a future one, exactly when the wrapped difference is below 14400 |
| Xe.FutureStampIsStale | src/helpers/xe_client.rs:119-120 | an entry stamped in the future, by at most 2^64 - 14400 s, wraps around and is stale |
| Xe.LookupCache | src/helpers/xe_client.rs:107-124 | an absent key is a miss; the store error comes exactly from an unreachable store; a present entry that is not JSON is CacheNotJson; a missing timestamp, or a missing rate in a fresh entry, is CacheFieldMissing; a stale entry is a miss; a fresh entry with a rate is a hit with that rate |
| Xe.StoreRate | src/helpers/xe_client.rs:144-155 | writes the rate stamped `now` under the cache key and leaves every other key as it was |
| Xe.StoreThenLookupHits | src/helpers/xe_client.rs:107-157 | when the written entry reads back as its own timestamp and rate, the rate is served from the cache for the next four hours |
| Xe.StoreThenExpires | src/helpers/xe_client.rs:107-157 | under the same read-back condition, four hours after it was written the entry is a miss |
| Xe.StaleEntryMisses | src/helpers/xe_client.rs:115-124 | a stale entry is a miss even when its rate field is missing |
| Xe.StoredDefaults | src/helpers/xe_client.rs:164-180 | both preference keys are set to the request's currencies and no other key changes |
| Xe.DefaultsRoundTrip | src/helpers/xe_client.rs:164-180 | after storing defaults, a request naming no currencies resolves to the stored pair |
| Xe.DefaultsArePerUser | src/helpers/xe_client.rs:164-180 | storing one user's defaults never changes another user's resolution |
| Xe.PartialDefaults | src/helpers/xe_client.rs:172-177 | when only the first write lands, `to` is updated and `from` resolves as before |
| Xe.CacheWriteKeepsPreferences | src/helpers/xe_client.rs:150-155 | caching a rate between two three-letter codes never changes how a request resolves |
| Xe.Convert | src/helpers/xe_client.rs:183 | a missing rate leaves the amount as it is; otherwise amount times rate |
| Xe.GetXe | src/helpers/xe_client.rs:182-184 | the converted value's text, right-aligned with spaces; the length is exactly the larger of four and the text's length |
| Xe.RateEmbed | src/helpers/xe_client.rs:186-202 | the "Exchange Rate" embed, colour 0xfdc835, no fields, description "{amount} {from} --> {xe} {to}" |
| Xe.RateEmbedExample | src/helpers/xe_client.rs:182-184 | 250 EUR at a rate of 1.6 converts to 400, rendered padded to four characters |
| Xe.XeClient.constructor | src/helpers/xe_client.rs:40-60 | the resolved request, with a failed store read falling back to USD or JPY, and no rate |
| Xe.XeClient.GetRate | src/helpers/xe_client.rs:102-162 | a cache hit sets the rate and writes nothing; a miss asks upstream and, for a found rate, caches it stamped `now`; an absent rate leaves `rate` empty; every failure is reported, and a failure before the write changes nothing |
| Xe.XeClient.SetDefault | src/helpers/xe_client.rs:164-180 | writes `to` and then `from`; the first failure stops there |
| XeCommand.AllCodesEnumerates | src/commands/xe.rs:14-38 | the iteration lists each of the 22 codes once, in declaration order |
| XeCommand.CodeNamesDistinct | src/commands/xe.rs:14-38 | every code's name has three letters and no two codes share one |
| XeCommand.ChoicesOf | src/commands/xe.rs:146-151 | one choice per code, in order, each named and valued by the code |
| XeCommand.Options | src/commands/xe.rs:145-214 | six optional, non-autocompleted string options: from, to, amount, precision, timeseries, set_defaults; from and to offer the codes, set_defaults offers True and False |
| XeCommand.CurrencyChoicesAreTheCodes | src/commands/xe.rs:146-168 | from and to offer exactly the 22 codes by name |
| XeCommand.Name | src/commands/xe.rs:137-139 | the command is registered as "xe" |
| XeCommand.Description | src/commands/xe.rs:141-143 | the registered description |
| XeCommand.Autocomplete | src/commands/xe.rs:216-226 | an empty answer |
| XeCommand.CollectOptions | src/commands/xe.rs:54-64 | no options give an empty map; the last option is always a key, with its value or "" |
| XeCommand.OptionMap | src/commands/xe.rs:54-56 | no option list gives an empty map; otherwise the collected options |
| XeCommand.CollectedKeys | src/commands/xe.rs:54-64 | a name is a key of the option map exactly when some option has that name |
| XeCommand.CollectedValue | src/commands/xe.rs:54-64 | each name maps to the value of its last occurrence, with a missing value as "" |
| XeCommand.Lookup | src/commands/xe.rs:68-81 | present exactly when the key is, with its value |
| XeCommand.IsSettingDefaults | src/commands/xe.rs:68-71 | a `set_defaults` value containing "True" |
| XeCommand.IsGettingTimeseries | src/commands/xe.rs:73-76 | a `timeseries` option is present, whatever its value |
| XeCommand.SelectMode | src/commands/xe.rs:89-134 | set-defaults takes priority, then time series, then rate |
| XeCommand.SetDefaultsValues | src/commands/xe.rs:68-71 | defaults are stored exactly for a value containing "True": "True" does, "False" and "" do not |
| XeCommand.TimeseriesPresence | src/commands/xe.rs:73-76 | a time-series option with an empty or missing value still selects the time series |
| XeCommand.DefaultsUpdated | src/commands/xe.rs:95-107 | no content and no choices; one "Exchange Rate" embed saying "Defaults have been updated", colour 0xfdc835, without fields |
| XeCommand.Respond | src/commands/xe.rs:46-135 | no member panics with the unwrap message before any store call; setting defaults answers "Defaults have been updated" or panics with "Unable to set defaults", with the store as the writes left it; the time-series branch hands the resolved request on with the store untouched, since the time-series code it calls is not part of this model; in the rate branch a missing cache field panics with the unwrap message, any other failure panics with "Unable to get exchange rate from api", and success answers with the rate embed |
| XeCommand.DefaultsOptionMap | src/commands/xe.rs:54-64 | `set_defaults:True from:GBP to:CAD` collects into exactly those three entries |
| XeCommand.SetDefaultsScenario | src/commands/xe.rs:54-93 | storing GBP and CAD as defaults, then asking with no currencies, gives GBP to CAD for 1 |
| Hey.GreetName | src/commands/hey.rs:21-34 | the first option's value; "Someone" without options, with none, or when the first has no value |
| Hey.Greeting | src/commands/hey.rs:37 | the greeting is "Hey, " + name + "!", six characters longer than the name, and the name can be read back out of it |
| Hey.GreetingInjective | src/commands/hey.rs:37 | different names give different greetings |
| Hey.Respond | src/commands/hey.rs:15-41 | always succeeds, with the greeting as content and no choices or embeds |
| Hey.LaterOptionsIgnored | src/commands/hey.rs:25-34 | options after the first, and the first option's name, never change the reply |
| Hey.Options | src/commands/hey.rs:51-60 | one required `name` string option with autocomplete and no choices |
| Hey.Autocomplete | src/commands/hey.rs:62-85 | exactly the choices loki/Loki, icecream/IceCream and yoroshi/Yoroshi, in that order |
| Hey.SuggestionsDistinct | src/commands/hey.rs:70-83 | three suggestions with distinct names |
| Hey.Registration | src/commands/hey.rs:43-45 | registered under the name "hey" |
| Hey.RoutedGreeting | src/commands/hey.rs:15-45 | a `/hey` command routed with `/hey` first in the registry is answered in the channel with the greeting |
| Hey.RoutedSuggestions | src/commands/hey.rs:62-85 | a `/hey` autocomplete routed the same way gets the three suggestions |
| Jisho.New | src/helpers/jisho_client.rs:80-86 | stores the word, with nothing fetched |
| Jisho.FirstOf | src/helpers/jisho_client.rs:107 | the first element, present exactly when the sequence is non-empty |
| Jisho.English | src/helpers/jisho_client.rs:109-116 | the first definition of the first sense, else "Unknown English Translation" |
| Jisho.Kana | src/helpers/jisho_client.rs:118-121 | the first entry's word, else "No Kana" |
| Jisho.Reading | src/helpers/jisho_client.rs:123-126 | the first entry's reading, else "No Reading" |
| Jisho.ExtrasRecoversParts | src/helpers/jisho_client.rs:128-131 | the slug and the searched word can be read back out of the two links |
| Jisho.Extras | src/helpers/jisho_client.rs:128-131 | the links start with the word-page link and end with ")"; the length is that of the two link texts, the slug, the word and the closing bracket |
| Jisho.ErrorEmbed | src/helpers/jisho_client.rs:169-187 | the "Error" embed, "No data found for that word", colour 0xFF0000, without fields, url, thumbnail or footer |
| Jisho.WordEmbed | src/helpers/jisho_client.rs:133-167 | five fields in order: Word searched with the word (not inline), English, Japanese and Reading (inline), and Extras with the links (not inline); colour 0x00FF00 and an empty title and description |
| Jisho.ConstructEmbed | src/helpers/jisho_client.rs:105-189 | without a response or a result: the red "Error" embed "No data found for that word" without fields; otherwise the green embed: Word searched (not inline), then English, Japanese and Reading (inline), then Extras (not inline) |
| Jisho.ErrorExactlyWithoutData | src/helpers/jisho_client.rs:106-188 | the embed is the error embed exactly when there is no first result, and so is its colour |
| Jisho.NewShowsError | src/helpers/jisho_client.rs:80-86 | before any fetch, a new client shows the error embed |
| Jisho.OnlyFirstResultUsed | src/helpers/jisho_client.rs:107 | results after the first never change the embed |
| Jisho.OnlyFirstEntriesUsed | src/helpers/jisho_client.rs:109-126 | later senses, definitions and Japanese entries never change the embed |
| Jisho.EmptyResultFallbacks | src/helpers/jisho_client.rs:109-126 | a result without senses or Japanese entries shows all three fallbacks |

## Left out

- HTTP: the upstream rate request and the dictionary request (`api_get_word`). The answer is an input, `upstream` or the `response` field.
- JSON decoding of those answers is not modelled. The cache entry's JSON is the `codec` input. The cache lemmas require only that the entry just written reads back as its own timestamp and rate; nothing is assumed about other entries.
- The upstream token `CURR_CONV_TOKEN` is not modelled. A missing token is one of the upstream failures.
- The clock: both reads of the current time in `get_rate` are the same `now` input.
- Xe.XeClient.GetRate: the `unwrap()` of a missing cached timestamp or rate panics in the source. The model reports it as the error CacheFieldMissing, and `respond` turns it into the unwrap panic.
- XeCommand.Respond: a panic is modelled by its message only. The error that `expect` appends after the message is not modelled.
- Xe.WrappingSub: models a release build, where `now - timestamp` wraps around. A debug build panics instead.
- Strings.ParseF64: `parse::<f64>` is modelled on finite decimal literals with exact real results. It leaves out "inf", "nan" and f64 rounding.
- Xe.GetXe: Rust's f64 `Display` is the `display` input, not a definition. f64 rounding in `rate * amount` is not modelled; the product is exact.
- XeCommand.Respond: `src/commands/xe.rs` calls a seven-argument `XEClient::new` and `get_timeseries`, `construct_timeseries_embed` and `construct_rate_embed`. `src/helpers/xe_client.rs` does not define them. The model uses the five-argument `new`, renders the rate with `construct_embed`, and ends the time-series branch by handing the request on. Precision is not modelled.
- XeCommand.Respond: the four `ctx.kv("exchange_defaults")?` bindings (src/commands/xe.rs lines 84, 91, 112 and 125) are assumed to succeed.
- `src/commands/jisho.rs`, the command registry `init_commands` and the HTTP entry point are not part of this model. Routing takes the registry as a sequence of commands.
- Logging, async machinery and concurrent requests sharing the store are not modelled.
- Fields of the payload, the user, the member and the dictionary response that the core never reads are not modelled. Examples: `meta`, `is_common`, `tags`, `jlpt`, parts of speech and `attribution`.
