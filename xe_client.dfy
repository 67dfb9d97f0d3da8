/**
 * src/helpers/xe_client.rs: the currency-exchange client. It resolves the
 * effective request (explicit option, else the user's stored default, else a
 * hard default), keeps a four-hour rate cache in the key-value store, writes
 * the user's defaults, and renders the result.
 *
 * The environment is supplied as inputs: `reachable` flags for each store
 * call, the clock as `now`, the upstream answer as `upstream`, the JSON
 * codec of a cache entry as `codec`, and Rust's `Display` for f64 as `display`.
 */
module Xe {
  import opened Wrappers
  import opened Strings
  import opened KeyValue
  import opened Embeds

  const DEFAULT_FROM: string := "USD"
  const DEFAULT_TO: string := "JPY"
  const DEFAULT_AMOUNT: real := 1.0
  /** Four hours, in seconds. */
  const CACHE_TTL: nat := 14400
  const RATE_COLOR: nat := 0xfdc835
  const TWO_TO_64: int := 0x1_0000_0000_0000_0000

  type U64 = x: int | 0 <= x < 0x1_0000_0000_0000_0000

  datatype Request = Request(from: string, to: string, amount: real)

  // ---------------------------------------------------------------- key layout

  function FromKey(username: string): string {
    username + ":currency_from"
  }

  function ToKey(username: string): string {
    username + ":currency_to"
  }

  function CacheKey(from: string, to: string): string {
    "cache:" + from + "_" + to
  }

  /** A user's two preference keys never coincide, and different users have different keys. */
  lemma PreferenceKeysDistinct(u: string, v: string)
    ensures FromKey(u) != ToKey(v)
    ensures FromKey(u) == FromKey(v) ==> u == v
    ensures ToKey(u) == ToKey(v) ==> u == v
  {
    var fu, tv := FromKey(u), ToKey(v);
    assert fu[|fu| - 1] == 'm' && tv[|tv| - 1] == 'o';
    if FromKey(u) == FromKey(v) {
      assert u == FromKey(u)[..|u|] == FromKey(v)[..|v|] == v;
    }
    if ToKey(u) == ToKey(v) {
      assert u == ToKey(u)[..|u|] == ToKey(v)[..|v|] == v;
    }
  }

  /** For three-letter codes, a cache key is never a preference key. */
  lemma CacheKeyAvoidsPreferences(from: string, to: string, u: string)
    requires |from| == 3 && |to| == 3
    ensures CacheKey(from, to) != FromKey(u)
    ensures CacheKey(from, to) != ToKey(u)
  {
    var c := CacheKey(from, to);
    assert |c| == 13 && c[1] == 'a';
    if |u| == 1 {
      assert ToKey(u)[1] == ':';
    }
  }

  // ---------------------------------------------------------------- resolution

  /** `resolve_from`: the explicit value, else the stored default, else "USD"; a failed read is an error. */
  function ResolveFrom(from: Option<string>, kv: map<string, string>, username: string, reachable: bool): (r: Result<string, StoreError>)
    ensures from.Some? ==> r == Success(from.value)
    ensures from.None? ==> (r.Failure? <==> !reachable)
    ensures from.None? && r.Success? ==>
              r.value == if FromKey(username) in kv then kv[FromKey(username)] else DEFAULT_FROM
  {
    if from.Some? then Success(from.value)
    else
      var stored :- Get(kv, FromKey(username), reachable);
      Success(stored.GetOr(DEFAULT_FROM))
  }

  /** `resolve_to`: the explicit value, else the stored default, else "JPY"; a failed read is an error. */
  function ResolveTo(to: Option<string>, kv: map<string, string>, username: string, reachable: bool): (r: Result<string, StoreError>)
    ensures to.Some? ==> r == Success(to.value)
    ensures to.None? ==> (r.Failure? <==> !reachable)
    ensures to.None? && r.Success? ==>
              r.value == if ToKey(username) in kv then kv[ToKey(username)] else DEFAULT_TO
  {
    if to.Some? then Success(to.value)
    else
      var stored :- Get(kv, ToKey(username), reachable);
      Success(stored.GetOr(DEFAULT_TO))
  }

  /** `resolve_amount`: the parsed amount; a missing or unparseable one is 1. */
  function ResolveAmount(amount: Option<string>): (r: real)
    ensures amount.None? ==> r == DEFAULT_AMOUNT
    ensures amount.Some? && ParseF64(amount.value).None? ==> r == DEFAULT_AMOUNT
    ensures amount.Some? && ParseF64(amount.value).Some? ==> r == ParseF64(amount.value).value
  {
    ParseWholeNumbers();
    ParseF64(amount.GetOr("1")).GetOr(DEFAULT_AMOUNT)
  }

  /** The request `XEClient::new` builds; a failed store read falls back to the hard default. */
  function NewRequest(from: Option<string>, to: Option<string>, amount: Option<string>, kv: map<string, string>,
                      username: string, fromReachable: bool, toReachable: bool): (r: Request)
    ensures from.Some? ==> r.from == from.value
    ensures from.None? && fromReachable ==>
              r.from == if FromKey(username) in kv then kv[FromKey(username)] else DEFAULT_FROM
    ensures from.None? && !fromReachable ==> r.from == DEFAULT_FROM
    ensures to.Some? ==> r.to == to.value
    ensures to.None? && toReachable ==>
              r.to == if ToKey(username) in kv then kv[ToKey(username)] else DEFAULT_TO
    ensures to.None? && !toReachable ==> r.to == DEFAULT_TO
    ensures r.amount == ResolveAmount(amount)
  {
    Request(ResolveFrom(from, kv, username, fromReachable).GetOr(DEFAULT_FROM),
            ResolveTo(to, kv, username, toReachable).GetOr(DEFAULT_TO),
            ResolveAmount(amount))
  }

  /** Explicit currencies are taken as given, whatever the store holds or whether it answers. */
  lemma ExplicitCurrenciesWin(from: string, to: string, amount: Option<string>, kv: map<string, string>,
                              username: string, fromReachable: bool, toReachable: bool)
    ensures NewRequest(Some(from), Some(to), amount, kv, username, fromReachable, toReachable) ==
            Request(from, to, ResolveAmount(amount))
  {
  }

  /** A user with nothing stored, or a store that does not answer, gets USD to JPY for 1. */
  lemma FallbackDefaults(kv: map<string, string>, username: string, fromReachable: bool, toReachable: bool)
    requires fromReachable ==> FromKey(username) !in kv
    requires toReachable ==> ToKey(username) !in kv
    ensures NewRequest(None, None, None, kv, username, fromReachable, toReachable) == Request("USD", "JPY", 1.0)
  {
  }

  /** Any whole number typed as the amount is converted exactly. */
  lemma WholeAmountParsed(n: nat)
    ensures ResolveAmount(Some(NatToString(n))) == n as real
  {
    ParseNatToString(n);
  }

  // ---------------------------------------------------------------- rate cache

  datatype CacheEntry = CacheEntry(rate: real, timestamp: U64)

  /** What serde_json finds in a cached text: not JSON, or an object whose fields may be missing. */
  datatype CacheJson = NotJson | CacheObject(timestamp: Option<U64>, rate: Option<real>)

  /** The JSON text a cache entry is written as, and how a text is read back. */
  datatype JsonCodec = JsonCodec(write: CacheEntry -> string, read: string -> CacheJson)

  /** Reading back the text written for `e` gives `e`'s two fields. */
  predicate ReadsBack(codec: JsonCodec, e: CacheEntry) {
    codec.read(codec.write(e)) == CacheObject(Some(e.timestamp), Some(e.rate))
  }

  /** u64 subtraction as a release build performs it: modulo 2^64. */
  function WrappingSub(a: U64, b: U64): (d: U64)
    ensures b <= a ==> d == a - b
    ensures a < b ==> d == a - b + TWO_TO_64
  {
    (a - b) % TWO_TO_64
  }

  /** `now - timestamp < 14400` on u64 values. */
  function IsFresh(timestamp: U64, now: U64): (b: bool)
    ensures timestamp <= now ==> (b <==> now - timestamp < CACHE_TTL)
    ensures now < timestamp ==> (b <==> now + TWO_TO_64 - timestamp < CACHE_TTL)
  {
    WrappingSub(now, timestamp) < CACHE_TTL
  }

  /**
   * An entry stamped in the future (within any realistic range) has
   * wrapped around and counts as stale.
   */
  lemma FutureStampIsStale(timestamp: U64, now: U64)
    ensures now < timestamp <= now + (TWO_TO_64 - CACHE_TTL) ==> !IsFresh(timestamp, now)
  {
  }

  datatype RateError =
    | StoreUnavailable   // a `?` on a store call
    | CacheNotJson       // `serde_json::from_str(..)?` on the cached text
    | CacheFieldMissing  // the `unwrap()` of the cached timestamp or rate, a panic in the source
    | UpstreamFailed     // the token lookup, the request or the body decoding failed

  datatype UpstreamError = TokenMissing | RequestFailed | BodyNotFixerJson

  datatype CacheLookup = Hit(rate: real) | Miss | Broken(error: RateError)

  /** Reading `cache:{from}_{to}` at time `now`: a fresh, well-formed entry is a hit. */
  function LookupCache(kv: map<string, string>, codec: JsonCodec, from: string, to: string, now: U64, reachable: bool): (r: CacheLookup)
    ensures reachable && CacheKey(from, to) !in kv ==> r == Miss
    ensures !reachable <==> r == Broken(StoreUnavailable)
    ensures reachable && CacheKey(from, to) in kv ==>
              var json := codec.read(kv[CacheKey(from, to)]);
              && (json.NotJson? ==> r == Broken(CacheNotJson))
              && (json.CacheObject? && json.timestamp.None? ==> r == Broken(CacheFieldMissing))
              && (json.CacheObject? && json.timestamp.Some? && !IsFresh(json.timestamp.value, now) ==> r == Miss)
              && (json.CacheObject? && json.timestamp.Some? && IsFresh(json.timestamp.value, now) ==>
                    r == if json.rate.Some? then Hit(json.rate.value) else Broken(CacheFieldMissing))
    ensures r.Hit? ==> CacheKey(from, to) in kv &&
                       var json := codec.read(kv[CacheKey(from, to)]);
                       json.CacheObject? && json.timestamp.Some? && IsFresh(json.timestamp.value, now) &&
                       json.rate == Some(r.rate)
  {
    match Get(kv, CacheKey(from, to), reachable)
    case Failure(_) => Broken(StoreUnavailable)
    case Success(None) => Miss
    case Success(Some(text)) =>
      match codec.read(text)
      case NotJson => Broken(CacheNotJson)
      case CacheObject(timestamp, rate) =>
        if timestamp.None? then Broken(CacheFieldMissing)
        else if !IsFresh(timestamp.value, now) then Miss
        else if rate.None? then Broken(CacheFieldMissing)
        else Hit(rate.value)
  }

  /** Writing a found rate back under `cache:{from}_{to}`, stamped `now`; no other key changes. */
  function StoreRate(kv: map<string, string>, codec: JsonCodec, from: string, to: string, rate: real, now: U64): (kv': map<string, string>)
    ensures kv'.Keys == kv.Keys + {CacheKey(from, to)}
    ensures kv'[CacheKey(from, to)] == codec.write(CacheEntry(rate, now))
    ensures forall k :: k in kv && k != CacheKey(from, to) ==> kv'[k] == kv[k]
  {
    kv[CacheKey(from, to) := codec.write(CacheEntry(rate, now))]
  }

  /** A rate just written is served from the cache for the next four hours. */
  lemma StoreThenLookupHits(kv: map<string, string>, codec: JsonCodec, from: string, to: string, rate: real, written: U64, now: U64)
    requires ReadsBack(codec, CacheEntry(rate, written))
    requires written <= now < written + CACHE_TTL
    ensures LookupCache(StoreRate(kv, codec, from, to, rate, written), codec, from, to, now, true) == Hit(rate)
  {
    assert codec.read(codec.write(CacheEntry(rate, written))) == CacheObject(Some(written), Some(rate));
  }

  /** Four hours after it was written, the same entry is a miss whatever rate it holds. */
  lemma StoreThenExpires(kv: map<string, string>, codec: JsonCodec, from: string, to: string, rate: real, written: U64, now: U64)
    requires ReadsBack(codec, CacheEntry(rate, written))
    requires written + CACHE_TTL <= now
    ensures LookupCache(StoreRate(kv, codec, from, to, rate, written), codec, from, to, now, true) == Miss
  {
    assert codec.read(codec.write(CacheEntry(rate, written))) == CacheObject(Some(written), Some(rate));
  }

  /** A stale entry reads as a miss even when its rate field is missing. */
  lemma StaleEntryMisses(kv: map<string, string>, codec: JsonCodec, from: string, to: string, timestamp: U64, now: U64)
    requires CacheKey(from, to) in kv
    requires codec.read(kv[CacheKey(from, to)]).CacheObject?
    requires codec.read(kv[CacheKey(from, to)]).timestamp == Some(timestamp)
    requires timestamp <= now && now - timestamp >= CACHE_TTL
    ensures LookupCache(kv, codec, from, to, now, true) == Miss
  {
  }

  // ---------------------------------------------------------------- user defaults

  /** What `set_default` leaves in the store when both writes succeed: `to` first, then `from`. */
  function StoredDefaults(kv: map<string, string>, username: string, request: Request): (kv': map<string, string>)
    ensures kv'.Keys == kv.Keys + {ToKey(username), FromKey(username)}
    ensures kv'[ToKey(username)] == request.to && kv'[FromKey(username)] == request.from
    ensures forall k :: k in kv && k != ToKey(username) && k != FromKey(username) ==> kv'[k] == kv[k]
  {
    PreferenceKeysDistinct(username, username);
    kv[ToKey(username) := request.to][FromKey(username) := request.from]
  }

  /** After storing defaults, a request naming no currencies resolves to the stored pair. */
  lemma DefaultsRoundTrip(kv: map<string, string>, username: string, request: Request, amount: Option<string>)
    ensures NewRequest(None, None, amount, StoredDefaults(kv, username, request), username, true, true) ==
            Request(request.from, request.to, ResolveAmount(amount))
  {
  }

  /** Storing one user's defaults does not change how any other user's request resolves. */
  lemma DefaultsArePerUser(kv: map<string, string>, username: string, request: Request, other: string,
                           from: Option<string>, to: Option<string>, amount: Option<string>, fromReachable: bool, toReachable: bool)
    requires other != username
    ensures NewRequest(from, to, amount, StoredDefaults(kv, username, request), other, fromReachable, toReachable) ==
            NewRequest(from, to, amount, kv, other, fromReachable, toReachable)
  {
    PreferenceKeysDistinct(other, username);
    PreferenceKeysDistinct(username, other);
  }

  /** When only the first write of `set_default` lands, `to` is updated and `from` still resolves as before. */
  lemma PartialDefaults(kv: map<string, string>, username: string, request: Request, amount: Option<string>)
    ensures NewRequest(None, None, amount, kv[ToKey(username) := request.to], username, true, true) ==
            Request(NewRequest(None, None, amount, kv, username, true, true).from, request.to, ResolveAmount(amount))
  {
    PreferenceKeysDistinct(username, username);
  }

  /** Caching a rate between three-letter codes never changes how a request resolves. */
  lemma CacheWriteKeepsPreferences(kv: map<string, string>, codec: JsonCodec, code1: string, code2: string, rate: real, now: U64,
                                   from: Option<string>, to: Option<string>, amount: Option<string>,
                                   username: string, fromReachable: bool, toReachable: bool)
    requires |code1| == 3 && |code2| == 3
    ensures NewRequest(from, to, amount, StoreRate(kv, codec, code1, code2, rate, now), username, fromReachable, toReachable) ==
            NewRequest(from, to, amount, kv, username, fromReachable, toReachable)
  {
    CacheKeyAvoidsPreferences(code1, code2, username);
  }

  // ---------------------------------------------------------------- rendering

  /** `rate.unwrap_or(1.) * amount`: a missing rate leaves the amount as it is. */
  function Convert(amount: real, rate: Option<real>): (x: real)
    ensures rate.None? ==> x == amount
    ensures rate.Some? ==> x == amount * rate.value
  {
    rate.GetOr(1.0) * amount
  }

  /** `get_xe`: the converted value's text, right-aligned to a width of four characters. */
  function GetXe(request: Request, rate: Option<real>, display: real -> string): (s: string)
    ensures |s| == if |display(Convert(request.amount, rate))| < 4 then 4 else |display(Convert(request.amount, rate))|
    ensures s[|s| - |display(Convert(request.amount, rate))|..] == display(Convert(request.amount, rate))
    ensures forall i :: 0 <= i < |s| - |display(Convert(request.amount, rate))| ==> s[i] == ' '
  {
    PadLeft(display(Convert(request.amount, rate)), 4)
  }

  /** `construct_embed`: the "Exchange Rate" embed, "{amount} {from} --> {xe} {to}", without fields. */
  function RateEmbed(request: Request, rate: Option<real>, display: real -> string): (e: Embed)
    ensures e.title == "Exchange Rate" && e.color == Some(RATE_COLOR)
    ensures e.fields == [] && e.url.None? && e.thumbnail.None? && e.footer.None?
    ensures e.description ==
            display(request.amount) + " " + request.from + " --> " + GetXe(request, rate, display) + " " + request.to
  {
    Embed("Exchange Rate",
          display(request.amount) + " " + request.from + " --> " + GetXe(request, rate, display) + " " + request.to,
          None, None, None, [], Some(RATE_COLOR))
  }

  /** 250 EUR at a rate of 1.6 converts to 400, rendered padded to four characters. */
  lemma RateEmbedExample(display: real -> string)
    ensures GetXe(Request("EUR", "AUD", 250.0), Some(1.6), display) == PadLeft(display(400.0), 4)
  {
    assert Convert(250.0, Some(1.6)) == 400.0;
  }

  // ---------------------------------------------------------------- the client

  class XeClient {
    var request: Request
    var rate: Option<real>

    /** `XEClient::new`: resolve the request; no rate is known yet. */
    constructor (from: Option<string>, to: Option<string>, amount: Option<string>, kv: KvStore,
                 username: string, fromReachable: bool, toReachable: bool)
      ensures request == NewRequest(from, to, amount, kv.entries, username, fromReachable, toReachable)
      ensures rate == None
    {
      request := NewRequest(from, to, amount, kv.entries, username, fromReachable, toReachable);
      rate := None;
    }

    /**
     * `get_rate`: serve a fresh cached rate; otherwise ask upstream and, when
     * it names a rate, write it back stamped `now`.
     */
    method GetRate(kv: KvStore, codec: JsonCodec, now: U64, readReachable: bool,
                   upstream: Result<Option<real>, UpstreamError>, writeReachable: bool) returns (o: Outcome<RateError>)
      modifies this`rate, kv
      ensures request == old(request)
      ensures var look := LookupCache(old(kv.entries), codec, request.from, request.to, now, readReachable);
              && (look.Hit? ==> o == Pass && rate == Some(look.rate) && kv.entries == old(kv.entries))
              && (look.Broken? ==> o == Fail(look.error) && rate == old(rate) && kv.entries == old(kv.entries))
              && (look.Miss? && upstream.Failure? ==>
                    o == Fail(UpstreamFailed) && rate == old(rate) && kv.entries == old(kv.entries))
              && (look.Miss? && upstream == Success(None) ==>
                    o == Pass && rate == None && kv.entries == old(kv.entries))
              && (look.Miss? && upstream.Success? && upstream.value.Some? && writeReachable ==>
                    o == Pass && rate == upstream.value &&
                    kv.entries == StoreRate(old(kv.entries), codec, request.from, request.to, upstream.value.value, now))
              && (look.Miss? && upstream.Success? && upstream.value.Some? && !writeReachable ==>
                    o == Fail(StoreUnavailable) && rate == old(rate) && kv.entries == old(kv.entries))
    {
      var look := LookupCache(kv.entries, codec, request.from, request.to, now, readReachable);
      match look {
        case Broken(e) =>
          o := Fail(e);
          return;
        case Hit(cached) =>
          rate := Some(cached);
          o := Pass;
          return;
        case Miss =>
      }
      if upstream.Failure? {
        o := Fail(UpstreamFailed);
        return;
      }
      var found := upstream.value;
      if found.Some? {
        var put := kv.Put(CacheKey(request.from, request.to), codec.write(CacheEntry(found.value, now)), writeReachable);
        if put.Fail? {
          o := Fail(StoreUnavailable);
          return;
        }
        rate := Some(found.value);
      }
      rate := found;
      o := Pass;
    }

    /** `set_default`: write the user's `to`, then their `from`; a failed write stops there. */
    method SetDefault(kv: KvStore, username: string, toReachable: bool, fromReachable: bool) returns (o: Outcome<StoreError>)
      modifies kv
      ensures toReachable && fromReachable ==> o == Pass && kv.entries == StoredDefaults(old(kv.entries), username, request)
      ensures !toReachable ==> o == Fail(StoreError) && kv.entries == old(kv.entries)
      ensures toReachable && !fromReachable ==>
                o == Fail(StoreError) && kv.entries == old(kv.entries)[ToKey(username) := request.to]
    {
      o := kv.Put(ToKey(username), request.to, toReachable);
      if o.Fail? {
        return;
      }
      o := kv.Put(FromKey(username), request.from, fromReachable);
    }
  }
}
