/** MetalpriceApiClient: fetch the latest gold and silver rates, validate them, turn them into
    prices per troy ounce and cache the quote for a configured number of seconds. */
module Services {
  import opened Wrappers
  import opened Text
  import opened Rounding
  import opened UriEscape
  import opened Options
  import opened Models

  const PrimaryKeyVariable: string := "METALPRICE_API_KEY"
  const LegacyKeyVariable: string := "METALS_API_KEY"
  const Placeholder: string := "REPLACE_ME"
  const CacheKeyPrefix: string := "metalprice-latest:"
  const Gold: string := "XAU"
  const Silver: string := "XAG"

  const MissingKeyMessage: string :=
    "Missing API key. Set METALPRICE_API_KEY (recommended) or configure MetalpriceApi:ApiKey in appsettings."
  const EmptyBodyMessage: string := "MetalpriceAPI response was empty or invalid JSON."
  const UnknownErrorMessage: string := "Unknown MetalpriceAPI error."
  const MissingRatesMessage: string := "MetalpriceAPI response missing XAU/XAG rates."
  const NonPositiveRatesMessage: string := "MetalpriceAPI returned non-positive rates."

  /** The range of Unix seconds DateTimeOffset.FromUnixTimeSeconds accepts
      (0001-01-01T00:00:00Z to 9999-12-31T23:59:59Z). */
  const MinUnixSeconds: int := -62135596800
  const MaxUnixSeconds: int := 253402300799

  /** The exceptions the operation can end with. */
  datatype Exception =
    | InvalidOperation(message: string)
    | HttpRequest(message: string)
    | ArgumentOutOfRange(paramName: string)
    | Json(message: string)

  /** How a call ends: with a value, or with an exception. */
  datatype Outcome<+T> = Returned(value: T) | Thrown(exception: Exception)

  /** MetalpriceApiError, the `error` object of the upstream body. */
  datatype MetalpriceApiError = MetalpriceApiError(code: Option<int>, info: Option<string>)

  /** MetalpriceLatestResponse, the upstream body as deserialised: every field optional. */
  datatype MetalpriceLatestResponse = MetalpriceLatestResponse(
    success: Option<bool>,
    timestamp: Option<int>,
    baseCode: Option<string>,
    rates: Option<map<string, real>>,
    error: Option<MetalpriceApiError>)

  /** What deserialising the body yields: a record, the JSON literal null, or a JsonException. */
  datatype ParsedBody = Parsed(response: MetalpriceLatestResponse) | JsonNull | Malformed(message: string)

  /** What the upstream request produces: a response with its status, reason phrase, body
      and parsed body, or a transport failure (an HttpRequestException from GetAsync). */
  datatype HttpReply =
    | Response(statusCode: nat, reasonPhrase: Option<string>, body: string, parsed: ParsedBody)
    | TransportFailure(message: string)

  /** A cached quote and the instant at which it stops being served. */
  datatype CacheEntry = CacheEntry(value: MetalsLatestDto, expiresAt: int)

  // ---------------------------------------------------------------------------------------
  // API key

  /** The first present value of an ordered list of optional sources (the `??` chain). */
  function FirstPresent<T>(candidates: seq<Option<T>>): (r: Option<T>)
    ensures r.None? <==> forall i :: 0 <= i < |candidates| ==> candidates[i].None?
    ensures forall k :: (0 <= k < |candidates| && candidates[k].Some?
              && (forall j :: 0 <= j < k ==> candidates[j].None?)) ==> r == candidates[k]
  {
    if candidates == [] then None
    else if candidates[0].Some? then candidates[0]
    else FirstPresent(candidates[1..])
  }

  /** `s?.Trim()`. */
  function TrimOrNull(s: Option<string>): (r: Option<string>)
    ensures r.Some? <==> s.Some?
    ensures r.Some? ==> r.value == Trim(s.value)
  {
    match s
    case None => None
    case Some(v) => Some(Trim(v))
  }

  /** The API key: the trimmed primary environment variable, else the trimmed legacy one,
      else the trimmed configured key. A variable that is set but blank still wins. */
  function ResolveApiKey(env: string -> Option<string>, configured: Option<string>): (k: Option<string>)
    ensures env(PrimaryKeyVariable).Some? ==> k == Some(Trim(env(PrimaryKeyVariable).value))
    ensures env(PrimaryKeyVariable).None? && env(LegacyKeyVariable).Some? ==>
              k == Some(Trim(env(LegacyKeyVariable).value))
    ensures env(PrimaryKeyVariable).None? && env(LegacyKeyVariable).None? ==> k == TrimOrNull(configured)
  {
    var candidates := [TrimOrNull(env(PrimaryKeyVariable)), TrimOrNull(env(LegacyKeyVariable)), TrimOrNull(configured)];
    assert candidates[0] == TrimOrNull(env(PrimaryKeyVariable));
    assert candidates[1] == TrimOrNull(env(LegacyKeyVariable));
    assert candidates[2] == TrimOrNull(configured);
    FirstPresent(candidates)
  }

  /** The key is present, not blank and not the placeholder REPLACE_ME in any letter case; a
      usable key is in particular non-empty and not the placeholder itself. */
  predicate IsUsableApiKey(k: Option<string>)
    ensures IsUsableApiKey(k) ==> k.Some? && k.value != [] && k.value != Placeholder
  {
    !IsNullOrWhiteSpace(k) && !EqualsOrdinalIgnoreCase(k.value, Placeholder)
  }

  // ---------------------------------------------------------------------------------------
  // Base currency and cache key

  /** The base currency the call prices in: the configured default, unchanged, when the
      caller gives none or only white space; otherwise the caller's value trimmed and
      upper-cased. */
  function EffectiveBase(requested: Option<string>, configured: string): (b: string)
    ensures IsNullOrWhiteSpace(requested) ==> b == configured
  {
    if IsNullOrWhiteSpace(requested) then configured else ToUpperInvariant(Trim(requested.value))
  }

  /** A base currency the caller gives is not blank, has no white space at either end and no
      lower-case letter, and equals the caller's trimmed value ignoring case; these determine
      it. */
  lemma RequestedBaseIsNormalised(requested: string, configured: string)
    requires !IsBlank(requested)
    ensures var b := EffectiveBase(Some(requested), configured);
            && !IsBlank(b)
            && IsTrimmed(b)
            && (forall i :: 0 <= i < |b| ==> !('a' <= b[i] <= 'z'))
            && EqualsOrdinalIgnoreCase(b, Trim(requested))
            && |b| <= |requested|
  {
    var t := Trim(requested);
    assert EffectiveBase(Some(requested), configured) == ToUpperInvariant(t);
    TrimProperties(requested);
    UpperOfTrimmed(t);
  }

  /** The key the quote for a base currency is cached under. */
  function CacheKey(effectiveBase: string): (key: string)
    ensures |key| == |CacheKeyPrefix| + |effectiveBase|
    ensures key[..|CacheKeyPrefix|] == CacheKeyPrefix && key[|CacheKeyPrefix|..] == effectiveBase
  {
    CacheKeyPrefix + effectiveBase
  }

  /** The live quote cached under key at instant now, if any: an entry is served until,
      but not at, its expiry instant. */
  function Lookup(entries: map<string, CacheEntry>, key: string, now: int): (found: Option<MetalsLatestDto>)
    ensures found.Some? <==> key in entries && now < entries[key].expiresAt
    ensures found.Some? ==> found.value == entries[key].value
  {
    if key in entries && now < entries[key].expiresAt then Some(entries[key].value) else None
  }

  // ---------------------------------------------------------------------------------------
  // The upstream request

  /** The query parameters of the request, in order. */
  function QueryParameters(apiKey: string, effectiveBase: string): seq<string> {
    ["api_key=" + EscapeDataString(apiKey), "base=" + EscapeDataString(effectiveBase), "currencies=XAU,XAG"]
  }

  /** The query string: the parameters joined with '&'. Escaped text never contains '&', so
      whatever the key and the base currency hold, the query splits back into exactly the
      three parameters. */
  function Query(apiKey: string, effectiveBase: string): (query: string)
    ensures SplitOn(query, '&') == QueryParameters(apiKey, effectiveBase)
  {
    var q := QueryParameters(apiKey, effectiveBase);
    EscapedHasNoSeparator("api_key=", apiKey, '&');
    EscapedHasNoSeparator("base=", effectiveBase, '&');
    assert '&' !in q[2];
    SplitOnConcat(q[0], '&', q[1] + ['&'] + q[2]);
    SplitOnConcat(q[1], '&', q[2]);
    q[0] + ['&'] + (q[1] + ['&'] + q[2])
  }

  /** The relative URI requested, resolved by the HTTP client against its base address: the
      `latest` endpoint followed by the three query parameters. */
  function LatestRequestUri(apiKey: string, effectiveBase: string): (uri: string)
    ensures |uri| > 7 && uri[..7] == "latest?"
    ensures SplitOn(uri[7..], '&') == QueryParameters(apiKey, effectiveBase)
  {
    var uri := "latest?" + Query(apiKey, effectiveBase);
    assert uri[7..] == Query(apiKey, effectiveBase);
    uri
  }

  /** The upstream receives the key and the base currency intact: the request's query holds
      their escaped forms, and each escaped value decodes to the UTF-8 bytes of the value that
      was sent. */
  lemma QueryCarriesKeyAndBase(apiKey: string, effectiveBase: string)
    ensures var parameters := SplitOn(LatestRequestUri(apiKey, effectiveBase)[7..], '&');
            && parameters[0] == "api_key=" + EscapeDataString(apiKey)
            && parameters[1] == "base=" + EscapeDataString(effectiveBase)
    ensures PercentDecode(EscapeDataString(apiKey)) == Some(Utf8Encode(apiKey))
    ensures PercentDecode(EscapeDataString(effectiveBase)) == Some(Utf8Encode(effectiveBase))
  {
    PercentDecodeEncode(Utf8Encode(apiKey));
    PercentDecodeEncode(Utf8Encode(effectiveBase));
  }

  // ---------------------------------------------------------------------------------------
  // Validating and normalising the reply

  /** The message of the HttpRequestException for a status other than 200 OK: the numeric
      status, the reason phrase (empty when absent) and the body. */
  function StatusMessage(statusCode: nat, reasonPhrase: Option<string>, body: string): (m: string)
    ensures var code := NatToString(statusCode);
            && |m| > 23 + |code| && m[..23] == "MetalpriceAPI returned "
            && m[23..23 + |code|] == code && m[23 + |code|] == ' '
    ensures |m| >= |body| && m[|m| - |body|..] == body
  {
    var reason := match reasonPhrase case Some(p) => p case None => "";
    var code := NatToString(statusCode);
    var m := "MetalpriceAPI returned " + code + " " + reason + ". Body: " + body;
    assert m[..23] == "MetalpriceAPI returned ";
    assert m[23..23 + |code|] == code;
    assert m[|m| - |body|..] == body;
    m
  }

  /** The message of the InvalidOperationException for `success: false`. */
  function ErrorInfo(error: Option<MetalpriceApiError>): (m: string)
    ensures error.Some? && error.value.info.Some? ==> m == error.value.info.value
    ensures error.None? || error.value.info.None? ==> m == UnknownErrorMessage
  {
    match error
    case Some(MetalpriceApiError(_, Some(info))) => info
    case _ => UnknownErrorMessage
  }

  /** Both rates are present: the record has a rates map whose keys include XAU and XAG. */
  predicate HasRates(p: MetalpriceLatestResponse)
    ensures HasRates(p) <==> p.rates.Some? && {Gold, Silver} <= p.rates.value.Keys
  {
    p.rates.Some? && Gold in p.rates.value && Silver in p.rates.value
  }

  /** The price in the base currency of one troy ounce, from a rate in ounces per unit of the
      base currency: 1 / rate rounded to cents, ties to even. It is a whole number of cents,
      never negative, within half a cent of 1 / rate, on the even cent when 1 / rate lies exactly
      half-way between two cents, and 0.00 exactly when rate >= 200. */
  function PerOunce(rate: real): (p: real)
    requires rate > 0.0
    ensures IsCents(p) && p >= 0.0
    ensures -0.005 <= p - 1.0 / rate <= 0.005
    ensures (p - 1.0 / rate == 0.005 || 1.0 / rate - p == 0.005) ==> (p * 100.0).Floor % 2 == 0
    ensures p == 0.0 <==> rate >= 200.0
  {
    var x := 1.0 / rate;
    Round2ZeroIff(x);
    assert x <= 0.005 <==> rate >= 200.0 by {
      assert x * rate == 1.0;
      if rate >= 200.0 {
        assert x * rate >= x * 200.0;
      } else {
        assert x * rate < x * 200.0;
      }
    }
    Round2(x)
  }

  /** DateTimeOffset.FromUnixTimeSeconds: the instant itself, or ArgumentOutOfRangeException
      outside the representable years 0001 to 9999. */
  function FromUnixTimeSeconds(seconds: int): (r: Outcome<int>)
    ensures r.Returned? <==> MinUnixSeconds <= seconds <= MaxUnixSeconds
    ensures r.Returned? ==> r.value == seconds
    ensures r.Thrown? ==> r.exception == ArgumentOutOfRange("seconds")
  {
    if MinUnixSeconds <= seconds <= MaxUnixSeconds then Returned(seconds)
    else Thrown(ArgumentOutOfRange("seconds"))
  }

  /** The upstream record passes every check of the operation; then both rates can be
      inverted into prices. */
  predicate Acceptable(p: MetalpriceLatestResponse)
    ensures Acceptable(p) ==> p.rates.Some? && Gold in p.rates.value && p.rates.value[Gold] > 0.0
                              && Silver in p.rates.value && p.rates.value[Silver] > 0.0
  {
    && p.success != Some(false)
    && HasRates(p)
    && p.rates.value[Gold] > 0.0
    && p.rates.value[Silver] > 0.0
    && (p.timestamp.Some? ==> MinUnixSeconds <= p.timestamp.value <= MaxUnixSeconds)
  }

  /** The checks on a deserialised record, in the order the operation makes them, and the quote. */
  function Validate(p: MetalpriceLatestResponse, effectiveBase: string, now: int): (r: Outcome<MetalsLatestDto>)
    ensures r.Returned? <==> Acceptable(p)
    ensures p.success == Some(false) ==> r == Thrown(InvalidOperation(ErrorInfo(p.error)))
    ensures p.success != Some(false) && !HasRates(p) ==> r == Thrown(InvalidOperation(MissingRatesMessage))
    ensures (p.success != Some(false) && HasRates(p) && (p.rates.value[Gold] <= 0.0 || p.rates.value[Silver] <= 0.0))
              ==> r == Thrown(InvalidOperation(NonPositiveRatesMessage))
    ensures (p.success != Some(false) && HasRates(p) && p.rates.value[Gold] > 0.0 && p.rates.value[Silver] > 0.0
             && p.timestamp.Some? && !(MinUnixSeconds <= p.timestamp.value <= MaxUnixSeconds))
              ==> r == Thrown(ArgumentOutOfRange("seconds"))
    ensures r.Thrown? ==> r.exception.InvalidOperation? || r.exception.ArgumentOutOfRange?
    ensures r.Returned? ==>
              var q := r.value;
              && q.baseCurrency == effectiveBase
              && q.unit == effectiveBase + " per oz"
              && q.goldPerOunce == PerOunce(p.rates.value[Gold])
              && q.silverPerOunce == PerOunce(p.rates.value[Silver])
              && q.timestampUtc == (if p.timestamp.Some? then p.timestamp.value else now)
  {
    if p.success == Some(false) then Thrown(InvalidOperation(ErrorInfo(p.error)))
    else if !HasRates(p) then Thrown(InvalidOperation(MissingRatesMessage))
    else
      var xau, xag := p.rates.value[Gold], p.rates.value[Silver];
      if xau <= 0.0 || xag <= 0.0 then Thrown(InvalidOperation(NonPositiveRatesMessage))
      else
        var gold, silver := PerOunce(xau), PerOunce(xag);
        var timestamp := if p.timestamp.Some? then FromUnixTimeSeconds(p.timestamp.value) else Returned(now);
        match timestamp
        case Thrown(e) => Thrown(e)
        case Returned(t) =>
          Returned(MetalsLatestDto(effectiveBase, t, gold, silver, effectiveBase + " per oz"))
  }

  /** Everything after the request: the status check, deserialisation, validation and the quote. */
  function InterpretReply(reply: HttpReply, effectiveBase: string, now: int): (r: Outcome<MetalsLatestDto>)
    ensures (r.Thrown? && r.exception.HttpRequest?) <==> (reply.TransportFailure? || reply.statusCode != 200)
    ensures reply.TransportFailure? ==> r == Thrown(HttpRequest(reply.message))
    ensures reply.Response? && reply.statusCode != 200 ==>
              r == Thrown(HttpRequest(StatusMessage(reply.statusCode, reply.reasonPhrase, reply.body)))
    ensures reply.Response? && reply.statusCode == 200 && reply.parsed.JsonNull? ==>
              r == Thrown(InvalidOperation(EmptyBodyMessage))
    ensures reply.Response? && reply.statusCode == 200 && reply.parsed.Malformed? ==>
              r == Thrown(Json(reply.parsed.message))
    ensures reply.Response? && reply.statusCode == 200 && reply.parsed.Parsed? ==>
              r == Validate(reply.parsed.response, effectiveBase, now)
    ensures r.Returned? <==>
              reply.Response? && reply.statusCode == 200 && reply.parsed.Parsed? && Acceptable(reply.parsed.response)
    ensures r.Returned? ==>
              && r.value.baseCurrency == effectiveBase
              && IsCents(r.value.goldPerOunce) && r.value.goldPerOunce >= 0.0
              && IsCents(r.value.silverPerOunce) && r.value.silverPerOunce >= 0.0
              && r.value.unit == effectiveBase + " per oz"
  {
    match reply
    case TransportFailure(message) => Thrown(HttpRequest(message))
    case Response(statusCode, reasonPhrase, body, parsed) =>
      if statusCode != 200 then Thrown(HttpRequest(StatusMessage(statusCode, reasonPhrase, body)))
      else
        match parsed
        case Malformed(message) => Thrown(Json(message))
        case JsonNull => Thrown(InvalidOperation(EmptyBodyMessage))
        case Parsed(p) => Validate(p, effectiveBase, now)
  }

  // ---------------------------------------------------------------------------------------
  // The whole operation

  /** A quote as the operation builds it: prices in whole cents, never negative, and the
      unit named after the base currency. */
  predicate WellFormedQuote(q: MetalsLatestDto) {
    && IsCents(q.goldPerOunce) && q.goldPerOunce >= 0.0
    && IsCents(q.silverPerOunce) && q.silverPerOunce >= 0.0
    && q.unit == q.baseCurrency + " per oz"
  }

  /** What the operation keeps true of the cache: every entry is a well-formed quote stored
      under the key of its own base currency. */
  predicate CacheInvariant(entries: map<string, CacheEntry>) {
    forall key :: key in entries ==>
      key == CacheKey(entries[key].value.baseCurrency) && WellFormedQuote(entries[key].value)
  }

  /** The cache after a fetch: the quote stored under key for ttl seconds from now when there
      is one, the cache unchanged after an exception. */
  function Store(entries: map<string, CacheEntry>, key: string, outcome: Outcome<MetalsLatestDto>, ttl: int, now: int)
    : (r: map<string, CacheEntry>)
    ensures outcome.Thrown? ==> r == entries
    ensures outcome.Returned? ==> r.Keys == entries.Keys + {key} && r[key] == CacheEntry(outcome.value, now + ttl)
    ensures forall k :: k in entries && k != key ==> k in r && r[k] == entries[k]
  {
    if outcome.Returned? then entries[key := CacheEntry(outcome.value, now + ttl)] else entries
  }

  /** What one call does: its outcome, the requests it sends upstream and the cache afterwards. */
  datatype Call = Call(outcome: Outcome<MetalsLatestDto>, requests: seq<string>, entries: map<string, CacheEntry>)

  /** GetGoldAndSilverPricesAsync as a function of the options, the environment, the argument,
      the cache, the reply the upstream would give and the clock. */
  function LatestPrices(
    options: MetalpriceApiOptions, env: string -> Option<string>, baseCurrency: Option<string>,
    entries: map<string, CacheEntry>, reply: HttpReply, now: int): (c: Call)
    requires Valid(options)
    ensures |c.requests| <= 1
    ensures c.outcome.Thrown? ==> c.entries == entries
    ensures !IsUsableApiKey(ResolveApiKey(env, options.apiKey)) ==>
              c == Call(Thrown(InvalidOperation(MissingKeyMessage)), [], entries)
    ensures c.requests == [] ==> c.entries == entries
    ensures c.outcome.Returned? && c.requests != [] ==>
              Lookup(c.entries, CacheKey(EffectiveBase(baseCurrency, options.baseCurrency)), now) == Some(c.outcome.value)
  {
    var apiKey := ResolveApiKey(env, options.apiKey);
    if !IsUsableApiKey(apiKey) then Call(Thrown(InvalidOperation(MissingKeyMessage)), [], entries)
    else
      var effectiveBase := EffectiveBase(baseCurrency, options.baseCurrency);
      var cacheKey := CacheKey(effectiveBase);
      match Lookup(entries, cacheKey, now)
      case Some(cached) => Call(Returned(cached), [], entries)
      case None =>
        var outcome := InterpretReply(reply, effectiveBase, now);
        Call(outcome, [LatestRequestUri(apiKey.value, effectiveBase)],
             Store(entries, cacheKey, outcome, options.cacheSeconds, now))
  }

  /** The operation keeps the cache invariant, so every quote it returns, served from the
      cache or fresh, is well formed and priced in the base currency the call asked for. */
  lemma LatestPricesKeepsCacheInvariant(
    options: MetalpriceApiOptions, env: string -> Option<string>, baseCurrency: Option<string>,
    entries: map<string, CacheEntry>, reply: HttpReply, now: int)
    requires Valid(options)
    requires CacheInvariant(entries)
    ensures var c := LatestPrices(options, env, baseCurrency, entries, reply, now);
            && CacheInvariant(c.entries)
            && (c.outcome.Returned? ==>
                  && c.outcome.value.baseCurrency == EffectiveBase(baseCurrency, options.baseCurrency)
                  && WellFormedQuote(c.outcome.value))
  {
    var c := LatestPrices(options, env, baseCurrency, entries, reply, now);
    var b := EffectiveBase(baseCurrency, options.baseCurrency);
    if IsUsableApiKey(ResolveApiKey(env, options.apiKey)) {
      var found := Lookup(entries, CacheKey(b), now);
      if found.Some? {
        assert c == Call(Returned(found.value), [], entries);
        CachedQuoteMatchesKey(entries, CacheKey(b), b, now);
      } else {
        LatestPricesOnMiss(options, env, baseCurrency, entries, reply, now);
        var outcome := InterpretReply(reply, b, now);
        StoreKeepsCacheInvariant(entries, b, outcome, options.cacheSeconds, now);
      }
    }
  }

  /** A quote found under the key of a base currency is priced in that currency. */
  lemma CachedQuoteMatchesKey(entries: map<string, CacheEntry>, key: string, b: string, now: int)
    requires CacheInvariant(entries)
    requires key == CacheKey(b)
    ensures Lookup(entries, key, now).Some? ==>
              Lookup(entries, key, now).value.baseCurrency == b && WellFormedQuote(Lookup(entries, key, now).value)
  {
    if Lookup(entries, key, now).Some? {
      CacheKeyInjective(entries[key].value.baseCurrency, b);
    }
  }

  /** Storing the outcome of a fetch for base currency b under b's key keeps the invariant. */
  lemma StoreKeepsCacheInvariant(
    entries: map<string, CacheEntry>, b: string, outcome: Outcome<MetalsLatestDto>, ttl: int, now: int)
    requires CacheInvariant(entries)
    requires outcome.Returned? ==> outcome.value.baseCurrency == b && WellFormedQuote(outcome.value)
    ensures CacheInvariant(Store(entries, CacheKey(b), outcome, ttl, now))
  {
  }

  /** On a cache miss with a usable key the call sends one request, ends as the reply
      dictates, and caches the quote only when there is one. */
  lemma LatestPricesOnMiss(
    options: MetalpriceApiOptions, env: string -> Option<string>, baseCurrency: Option<string>,
    entries: map<string, CacheEntry>, reply: HttpReply, now: int)
    requires Valid(options)
    requires IsUsableApiKey(ResolveApiKey(env, options.apiKey))
    requires Lookup(entries, CacheKey(EffectiveBase(baseCurrency, options.baseCurrency)), now).None?
    ensures var b := EffectiveBase(baseCurrency, options.baseCurrency);
            var outcome := InterpretReply(reply, b, now);
            LatestPrices(options, env, baseCurrency, entries, reply, now) ==
              Call(outcome, [LatestRequestUri(ResolveApiKey(env, options.apiKey).value, b)],
                   Store(entries, CacheKey(b), outcome, options.cacheSeconds, now))
  {
  }

  // ---------------------------------------------------------------------------------------
  // Properties of the operation

  /** A primary variable that is set but blank yields the key "", which shadows the legacy
      variable and the configured key: the call fails without a request. */
  lemma BlankPrimaryShadowsFallbacks(
    options: MetalpriceApiOptions, env: string -> Option<string>, baseCurrency: Option<string>,
    entries: map<string, CacheEntry>, reply: HttpReply, now: int)
    requires Valid(options)
    requires env(PrimaryKeyVariable).Some? && IsBlank(env(PrimaryKeyVariable).value)
    ensures ResolveApiKey(env, options.apiKey) == Some("")
    ensures LatestPrices(options, env, baseCurrency, entries, reply, now)
              == Call(Thrown(InvalidOperation(MissingKeyMessage)), [], entries)
  {
  }

  /** The placeholder is refused in any letter case and with surrounding white space. */
  lemma PlaceholderKeyIsRefused(
    options: MetalpriceApiOptions, env: string -> Option<string>, baseCurrency: Option<string>,
    entries: map<string, CacheEntry>, reply: HttpReply, now: int)
    requires Valid(options)
    requires env(PrimaryKeyVariable) == Some(" Replace_Me ")
    ensures LatestPrices(options, env, baseCurrency, entries, reply, now)
              == Call(Thrown(InvalidOperation(MissingKeyMessage)), [], entries)
  {
    PlaceholderVariantIsRefused();
  }

  /** " Replace_Me " trims to a case variant of the placeholder. */
  lemma PlaceholderVariantIsRefused()
    ensures !IsUsableApiKey(Some(Trim(" Replace_Me ")))
  {
    PaddedPlaceholderTrims();
    PlaceholderCaseVariant();
  }

  lemma PaddedPlaceholderTrims()
    ensures Trim(" Replace_Me ") == "Replace_Me"
  {
    PaddedPlaceholderLiteral();
    TrimPadded("Replace_Me");
  }

  lemma PaddedPlaceholderLiteral()
    ensures " Replace_Me " == [' '] + "Replace_Me" + [' '] && IsTrimmed("Replace_Me")
  {
  }

  lemma PlaceholderCaseVariant()
    ensures EqualsOrdinalIgnoreCase("Replace_Me", Placeholder)
  {
    assert ToUpperInvariant("Replace_Me") == Placeholder;
    ToUpperInvariantOfUpper(Placeholder);
  }

  /** Normalising a base currency that is already normalised changes nothing. */
  lemma EffectiveBaseIdempotent(requested: string, configured: string, otherDefault: string)
    requires !IsBlank(requested)
    ensures var b := EffectiveBase(Some(requested), configured);
            EffectiveBase(Some(b), otherDefault) == b
  {
    var b := EffectiveBase(Some(requested), configured);
    RequestedBaseIsNormalised(requested, configured);
    NormalisedIsFixed(b);
  }

  /** A trimmed string without lower-case letters is its own trimmed upper-case form. */
  lemma NormalisedIsFixed(b: string)
    requires IsTrimmed(b)
    requires forall i :: 0 <= i < |b| ==> !('a' <= b[i] <= 'z')
    ensures ToUpperInvariant(Trim(b)) == b
  {
    TrimOfTrimmed(b);
    ToUpperInvariantOfUpper(b);
  }

  lemma PaddedUsdTrims()
    ensures Trim(" usd ") == "usd"
  {
    PaddedUsdLiteral();
    TrimPadded("usd");
  }

  lemma PaddedUsdLiteral()
    ensures " usd " == [' '] + "usd" + [' '] && IsTrimmed("usd")
  {
  }

  lemma UsdUpper()
    ensures ToUpperInvariant("usd") == "USD"
  {
  }

  /** The caller's " usd " is trimmed and upper-cased to "USD"; the configured default is
      used as written, so a default of "usd" is cached apart from a request for "usd". */
  lemma BaseCurrencyExamples()
    ensures EffectiveBase(Some(" usd "), "EUR") == "USD"
    ensures EffectiveBase(None, "usd") == "usd"
    ensures EffectiveBase(Some("usd"), "usd") == "USD"
    ensures CacheKey(EffectiveBase(None, "usd")) != CacheKey(EffectiveBase(Some("usd"), "usd"))
  {
    PaddedUsdIsNormalised();
    RequestedUsdIsUpperCased();
    UsdKeysDiffer();
  }

  lemma PaddedUsdIsNormalised()
    ensures EffectiveBase(Some(" usd "), "EUR") == "USD"
  {
    assert !IsBlank(" usd ") by {
      assert !IsWhiteSpace(" usd "[1]);
    }
    PaddedUsdTrims();
    UsdUpper();
  }

  lemma RequestedUsdIsUpperCased()
    ensures EffectiveBase(Some("usd"), "usd") == "USD"
  {
    assert !IsBlank("usd") by {
      assert !IsWhiteSpace("usd"[0]);
    }
    TrimOfTrimmed("usd");
    UsdUpper();
  }

  lemma UsdKeysDiffer()
    ensures CacheKey("usd") != CacheKey("USD")
  {
    assert CacheKey("usd")[|CacheKeyPrefix|] != CacheKey("USD")[|CacheKeyPrefix|];
  }

  /** Different base currencies never share a cache entry. */
  lemma CacheKeyInjective(a: string, b: string)
    requires CacheKey(a) == CacheKey(b)
    ensures a == b
  {
    assert a == CacheKey(a)[|CacheKeyPrefix|..];
  }

  /** A live cached quote is returned as stored, whatever the upstream would have replied:
      no request, no change to the cache. */
  lemma CacheHitServesStoredQuote(
    options: MetalpriceApiOptions, env: string -> Option<string>, baseCurrency: Option<string>,
    entries: map<string, CacheEntry>, reply: HttpReply, now: int)
    requires Valid(options)
    requires IsUsableApiKey(ResolveApiKey(env, options.apiKey))
    requires var key := CacheKey(EffectiveBase(baseCurrency, options.baseCurrency));
             key in entries && now < entries[key].expiresAt
    ensures var key := CacheKey(EffectiveBase(baseCurrency, options.baseCurrency));
            LatestPrices(options, env, baseCurrency, entries, reply, now) == Call(Returned(entries[key].value), [], entries)
  {
  }

  /** Without a live entry a usable key always leads to exactly one upstream request. */
  lemma MissSendsOneRequest(
    options: MetalpriceApiOptions, env: string -> Option<string>, baseCurrency: Option<string>,
    entries: map<string, CacheEntry>, reply: HttpReply, now: int)
    requires Valid(options)
    requires IsUsableApiKey(ResolveApiKey(env, options.apiKey))
    requires var key := CacheKey(EffectiveBase(baseCurrency, options.baseCurrency));
             key !in entries || entries[key].expiresAt <= now
    ensures LatestPrices(options, env, baseCurrency, entries, reply, now).requests
              == [LatestRequestUri(ResolveApiKey(env, options.apiKey).value, EffectiveBase(baseCurrency, options.baseCurrency))]
  {
  }

  /** A quote fetched upstream is stored under the key of its base currency, to expire
      CacheSeconds after the call. */
  lemma FetchedQuoteIsStored(
    options: MetalpriceApiOptions, env: string -> Option<string>, baseCurrency: Option<string>,
    entries: map<string, CacheEntry>, reply: HttpReply, now: int)
    requires Valid(options)
    requires var c := LatestPrices(options, env, baseCurrency, entries, reply, now);
             c.outcome.Returned? && c.requests != []
    ensures var c := LatestPrices(options, env, baseCurrency, entries, reply, now);
            var key := CacheKey(EffectiveBase(baseCurrency, options.baseCurrency));
            key in c.entries && c.entries[key] == CacheEntry(c.outcome.value, now + options.cacheSeconds)
  {
    LatestPricesOnMiss(options, env, baseCurrency, entries, reply, now);
  }

  /** Within the lifetime of a freshly fetched quote, a second call for the same base currency
      returns that same quote, whatever the upstream would now reply, with no request and no
      change to the cache. */
  lemma {:induction false} RepeatWithinTtlIsServedFromCache(
    options: MetalpriceApiOptions, env: string -> Option<string>, baseCurrency: Option<string>,
    entries: map<string, CacheEntry>, reply1: HttpReply, t1: int, reply2: HttpReply, t2: int)
    requires Valid(options)
    requires var c1 := LatestPrices(options, env, baseCurrency, entries, reply1, t1);
             c1.outcome.Returned? && c1.requests != []
    requires t1 <= t2 < t1 + options.cacheSeconds
    ensures var c1 := LatestPrices(options, env, baseCurrency, entries, reply1, t1);
            LatestPrices(options, env, baseCurrency, c1.entries, reply2, t2) == Call(c1.outcome, [], c1.entries)
  {
    FetchedQuoteIsStored(options, env, baseCurrency, entries, reply1, t1);
    var c1 := LatestPrices(options, env, baseCurrency, entries, reply1, t1);
    CacheHitServesStoredQuote(options, env, baseCurrency, c1.entries, reply2, t2);
  }

  /** Once the lifetime of a freshly fetched quote has passed, the next call for the same base
      currency sends exactly one new request. */
  lemma {:induction false} AfterTtlFetchesAgain(
    options: MetalpriceApiOptions, env: string -> Option<string>, baseCurrency: Option<string>,
    entries: map<string, CacheEntry>, reply1: HttpReply, t1: int, reply2: HttpReply, t2: int)
    requires Valid(options)
    requires var c1 := LatestPrices(options, env, baseCurrency, entries, reply1, t1);
             c1.outcome.Returned? && c1.requests != []
    requires t2 >= t1 + options.cacheSeconds
    ensures var c1 := LatestPrices(options, env, baseCurrency, entries, reply1, t1);
            |LatestPrices(options, env, baseCurrency, c1.entries, reply2, t2).requests| == 1
  {
    FetchedQuoteIsStored(options, env, baseCurrency, entries, reply1, t1);
    var c1 := LatestPrices(options, env, baseCurrency, entries, reply1, t1);
    MissSendsOneRequest(options, env, baseCurrency, c1.entries, reply2, t2);
  }

  /** A successful reply for the given rates. */
  function OkReply(rates: map<string, real>, timestamp: Option<int>): HttpReply {
    Response(200, Some("OK"), "", Parsed(MetalpriceLatestResponse(Some(true), timestamp, Some("USD"), Some(rates), None)))
  }

  /** Prices from the rates of the examples below. */
  lemma PerOunceExamples()
    ensures PerOunce(0.0005) == 2000.0
    ensures PerOunce(0.04) == 25.0
    ensures PerOunce(250.0) == 0.0
  {
    assert 1.0 / 0.0005 == 2000.0;
    Round2OfCents(2000.0);
    assert 1.0 / 0.04 == 25.0;
    Round2OfCents(25.0);
  }

  /** XAU = 0.0005 and XAG = 0.04 give 2000.00 and 25.00 per ounce. */
  lemma QuoteExample()
    ensures InterpretReply(OkReply(map[Gold := 0.0005, Silver := 0.04], Some(1704067200)), "USD", 0)
              == Returned(MetalsLatestDto("USD", 1704067200, 2000.0, 25.0, "USD per oz"))
  {
    var rates := map[Gold := 0.0005, Silver := 0.04];
    assert rates[Gold] == 0.0005 && rates[Silver] == 0.04;
    PerOunceExamples();
    var p := MetalpriceLatestResponse(Some(true), Some(1704067200), Some("USD"), Some(rates), None);
    assert HasRates(p);
    assert FromUnixTimeSeconds(1704067200) == Returned(1704067200);
    assert "USD" + " per oz" == "USD per oz";
    assert Validate(p, "USD", 0) == Returned(MetalsLatestDto("USD", 1704067200, 2000.0, 25.0, "USD per oz"));
  }

  /** A rate of 250 ounces per unit is accepted and gives a price of 0.00: a successful quote
      is not necessarily strictly positive. Without a timestamp the quote is stamped with the
      clock. */
  lemma HighRateRoundsToZeroExample()
    ensures InterpretReply(OkReply(map[Gold := 250.0, Silver := 0.04], None), "USD", 42)
              == Returned(MetalsLatestDto("USD", 42, 0.0, 25.0, "USD per oz"))
  {
    var rates := map[Gold := 250.0, Silver := 0.04];
    assert rates[Gold] == 250.0 && rates[Silver] == 0.04;
    PerOunceExamples();
    var p := MetalpriceLatestResponse(Some(true), None, Some("USD"), Some(rates), None);
    assert HasRates(p);
    assert "USD" + " per oz" == "USD per oz";
    assert Validate(p, "USD", 42) == Returned(MetalsLatestDto("USD", 42, 0.0, 25.0, "USD per oz"));
  }

  /** The reply's rejection of the key is passed on as an InvalidOperationException carrying the
      upstream's message. */
  lemma UpstreamRejectionExample()
    ensures InterpretReply(Response(200, Some("OK"), "", Parsed(MetalpriceLatestResponse(Some(false), None, None, None,
              Some(MetalpriceApiError(Some(101), Some("Invalid API key")))))), "USD", 0)
            == Thrown(InvalidOperation("Invalid API key"))
  {
  }

  /** A 503 becomes an HttpRequestException whose message shows the status code. */
  lemma ServiceUnavailableExample()
    ensures var r := InterpretReply(Response(503, Some("Service Unavailable"), "down", JsonNull), "USD", 0);
            && r.Thrown? && r.exception.HttpRequest?
            && r.exception.message[23..26] == "503"
  {
    assert NatToString(503) == "503" by {
      assert NatToString(5) == "5";
      assert NatToString(50) == "50";
    }
  }

  /** A missing silver rate alone is an error, and a zero gold rate is refused before any
      division. */
  lemma RateErrorExamples()
    ensures InterpretReply(OkReply(map[Gold := 0.0005], None), "USD", 0) == Thrown(InvalidOperation(MissingRatesMessage))
    ensures InterpretReply(OkReply(map[Gold := 0.0, Silver := 0.04], None), "USD", 0)
              == Thrown(InvalidOperation(NonPositiveRatesMessage))
  {
    assert Silver !in map[Gold := 0.0005];
  }

  // ---------------------------------------------------------------------------------------
  // The cache, the HTTP client and the service object

  /** IMemoryCache: quotes with absolute expiry instants, shared by every client object. */
  class MemoryCache {
    var entries: map<string, CacheEntry>

    constructor ()
      ensures entries == map[]
    {
      entries := map[];
    }

    /** TryGetValue: the live value under key. */
    method TryGetValue(key: string, now: int) returns (found: Option<MetalsLatestDto>)
      ensures found == Lookup(entries, key, now)
    {
      found := None;
      if key in entries && now < entries[key].expiresAt {
        found := Some(entries[key].value);
      }
    }

    /** Set with a lifetime relative to now; the lifetime must be positive. */
    method Set(key: string, value: MetalsLatestDto, ttlSeconds: int, now: int)
      requires ttlSeconds > 0
      modifies this
      ensures entries == old(entries)[key := CacheEntry(value, now + ttlSeconds)]
    {
      entries := entries[key := CacheEntry(value, now + ttlSeconds)];
    }
  }

  /** HttpClient: its base address and the relative URIs of the GET requests it has sent. */
  class HttpClient {
    var baseAddress: Option<string>
    var sent: seq<string>

    constructor ()
      ensures baseAddress.None? && sent == []
    {
      baseAddress := None;
      sent := [];
    }

    /** GetAsync: sends the request and hands back the reply the upstream gives to it. */
    method GetAsync(requestUri: string, reply: HttpReply) returns (r: HttpReply)
      modifies this
      ensures sent == old(sent) + [requestUri] && baseAddress == old(baseAddress)
      ensures r == reply
    {
      sent := sent + [requestUri];
      r := reply;
    }
  }

  /** The base address the client sets: BaseUrl without its trailing slashes, then one slash. */
  function BaseAddress(baseUrl: string): (a: string)
    ensures |a| >= 1 && a[|a| - 1] == '/'
    ensures |a| == 1 || a[|a| - 2] != '/'
    ensures |a| - 1 <= |baseUrl| && a[..|a| - 1] == baseUrl[..|a| - 1]
    ensures forall i :: |a| - 1 <= i < |baseUrl| ==> baseUrl[i] == '/'
  {
    var t := TrimEnd(baseUrl, Only('/'));
    var a := t + "/";
    assert a[..|a| - 1] == t;
    a
  }

  /** The default endpoint, and a URL with several trailing slashes. */
  lemma BaseAddressExamples()
    ensures BaseAddress(DefaultBaseUrl) == "https://api.metalpriceapi.com/v1/"
    ensures BaseAddress("https://example.test/v1///") == "https://example.test/v1/"
  {
    var u := "https://example.test/v1///";
    assert TrimEnd(u, Only('/')) == TrimEnd(u[..|u| - 1], Only('/'));
    assert TrimEnd(u[..|u| - 1], Only('/')) == TrimEnd(u[..|u| - 2], Only('/'));
    assert TrimEnd(u[..|u| - 2], Only('/')) == TrimEnd(u[..|u| - 3], Only('/'));
    assert TrimEnd(u[..|u| - 3], Only('/')) == u[..|u| - 3];
    assert TrimEnd(DefaultBaseUrl, Only('/')) == DefaultBaseUrl;
  }

  /** Setting the base address again from an address it produced changes nothing. */
  lemma BaseAddressIdempotent(baseUrl: string)
    ensures BaseAddress(BaseAddress(baseUrl)) == BaseAddress(baseUrl)
  {
    var a := BaseAddress(baseUrl);
    var t := TrimEnd(baseUrl, Only('/'));
    assert a == t + "/";
    assert TrimEnd(a, Only('/')) == t by {
      assert a[..|a| - 1] == t;
    }
  }

  /** MetalpriceApiClient with the injected HTTP client, cache and validated options. */
  class MetalpriceApiClient {
    const http: HttpClient
    const cache: MemoryCache
    const options: MetalpriceApiOptions

    /** The options the client was built with passed validation. */
    predicate Configured() {
      Valid(options)
    }

    constructor (http: HttpClient, cache: MemoryCache, options: MetalpriceApiOptions)
      requires Valid(options)
      modifies http
      ensures this.http == http && this.cache == cache && this.options == options
      ensures Configured()
      ensures http.baseAddress == Some(BaseAddress(options.baseUrl)) && http.sent == old(http.sent)
    {
      this.http := http;
      this.cache := cache;
      this.options := options;
      new;
      http.baseAddress := Some(BaseAddress(options.baseUrl));
    }

    /** GetGoldAndSilverPricesAsync. The environment, the upstream's reply and the clock are
        parameters; the requests sent show in http.sent and the cache in cache.entries. */
    method GetGoldAndSilverPrices(baseCurrency: Option<string>, env: string -> Option<string>, reply: HttpReply, now: int)
      returns (result: Outcome<MetalsLatestDto>)
      requires Configured()
      modifies http, cache
      ensures var c := LatestPrices(options, env, baseCurrency, old(cache.entries), reply, now);
              && result == c.outcome
              && cache.entries == c.entries
              && http.sent == old(http.sent) + c.requests
      ensures http.baseAddress == old(http.baseAddress)
    {
      var apiKey := ResolveApiKey(env, options.apiKey);
      if !IsUsableApiKey(apiKey) {
        return Thrown(InvalidOperation(MissingKeyMessage));
      }
      var effectiveBase := EffectiveBase(baseCurrency, options.baseCurrency);
      var cacheKey := CacheKey(effectiveBase);
      var cached := cache.TryGetValue(cacheKey, now);
      if cached.Some? {
        return Returned(cached.value);
      }
      LatestPricesOnMiss(options, env, baseCurrency, cache.entries, reply, now);
      result := FetchAndCache(apiKey.value, effectiveBase, reply, now);
    }

    /** The part of the operation after a cache miss: one request, the checks on the reply,
        and on success the cache write with the configured lifetime. */
    method FetchAndCache(apiKey: string, effectiveBase: string, reply: HttpReply, now: int)
      returns (result: Outcome<MetalsLatestDto>)
      requires Configured()
      modifies http, cache
      ensures result == InterpretReply(reply, effectiveBase, now)
      ensures http.sent == old(http.sent) + [LatestRequestUri(apiKey, effectiveBase)]
      ensures http.baseAddress == old(http.baseAddress)
      ensures cache.entries == Store(old(cache.entries), CacheKey(effectiveBase), result, options.cacheSeconds, now)
    {
      var url := LatestRequestUri(apiKey, effectiveBase);
      var response := http.GetAsync(url, reply);
      result := InterpretReply(response, effectiveBase, now);
      if result.Returned? {
        cache.Set(CacheKey(effectiveBase), result.value, options.cacheSeconds, now);
      }
    }
  }
}
