/** The web host: the origins of the "ui" CORS policy, and the GET /api/metals/latest
    endpoint that turns the client's outcome into an HTTP result. */
module Program {
  import opened Wrappers
  import opened Text
  import opened Options
  import opened Models
  import opened Services

  /** The Vite dev server, the only origin allowed by default, and only in Development. */
  const DevelopmentOrigin: string := "http://localhost:5173"

  const ConfigurationErrorTitle: string := "Configuration error"
  const UpstreamErrorTitle: string := "Upstream API error"
  const InternalServerError: nat := 500
  const BadGateway: nat := 502

  // ---------------------------------------------------------------------------------------
  // CORS origins

  /** The configured origins without the null and white-space entries, each one trimmed,
      in their configured order (the Where and Select over Cors:AllowedOrigins). */
  function Filtered(xs: seq<Option<string>>): (r: seq<string>)
    ensures |r| <= |xs|
  {
    if xs == [] then [] else Kept(xs[0]) + Filtered(xs[1..])
  }

  /** What one configured entry contributes: nothing when null or blank, else its trimmed text. */
  function Kept(entry: Option<string>): (r: seq<string>)
    ensures |r| <= 1
  {
    if IsNullOrWhiteSpace(entry) then [] else [Trim(entry.value)]
  }

  /** The origins of a configuration section: a missing section counts as an empty array. */
  function ConfiguredOrigins(configured: Option<seq<Option<string>>>): (r: seq<string>)
    ensures configured.None? ==> r == []
  {
    Filtered(if configured.Some? then configured.value else [])
  }

  /** The argument of policy.WithOrigins, or None when WithOrigins is not called. */
  function CorsOrigins(configured: Option<seq<Option<string>>>, isDevelopment: bool): (r: Option<seq<string>>)
    ensures r.Some? ==> r.value != []
  {
    var origins := ConfiguredOrigins(configured);
    var origins := if |origins| == 0 && isDevelopment then [DevelopmentOrigin] else origins;
    if |origins| > 0 then Some(origins) else None
  }

  /** A trimmed origin is not blank and trimming it changes nothing. */
  lemma TrimmedOriginIsFixed(o: string)
    requires IsTrimmed(o)
    ensures !IsBlank(o) && Trim(o) == o
  {
    TrimOfTrimmed(o);
  }

  /** Every origin kept is non-blank and already trimmed. */
  lemma {:induction false} FilteredOriginsAreTrimmed(xs: seq<Option<string>>)
    ensures forall i :: 0 <= i < |Filtered(xs)| ==> IsTrimmed(Filtered(xs)[i])
  {
    if xs != [] {
      FilteredOriginsAreTrimmed(xs[1..]);
      var head, rest := Kept(xs[0]), Filtered(xs[1..]);
      assert Filtered(xs) == head + rest;
      KeptIsTrimmed(xs[0]);
      forall i | 0 <= i < |head + rest|
        ensures IsTrimmed((head + rest)[i])
      {
        if i >= |head| {
          assert (head + rest)[i] == rest[i - |head|];
        }
      }
    }
  }

  /** The origin an entry contributes, if any, is non-blank and trimmed. */
  lemma KeptIsTrimmed(entry: Option<string>)
    ensures forall i :: 0 <= i < |Kept(entry)| ==> IsTrimmed(Kept(entry)[i])
  {
    if !IsNullOrWhiteSpace(entry) {
      TrimProperties(entry.value);
    }
  }

  /** A configured entry that is kept and trims to o. */
  predicate Yields(entry: Option<string>, o: string) {
    !IsNullOrWhiteSpace(entry) && Trim(entry.value) == o
  }

  /** An origin is kept exactly when some configured entry is non-blank and trims to it. */
  lemma FilteredMembership(xs: seq<Option<string>>, o: string)
    ensures o in Filtered(xs) <==> exists i :: 0 <= i < |xs| && Yields(xs[i], o)
  {
    if o in Filtered(xs) {
      var i := FilteredSource(xs, o);
    }
    if exists i :: 0 <= i < |xs| && Yields(xs[i], o) {
      var i :| 0 <= i < |xs| && Yields(xs[i], o);
      FilteredKeeps(xs, i);
    }
  }

  /** Every kept origin has an entry it comes from. */
  lemma {:induction false} FilteredSource(xs: seq<Option<string>>, o: string) returns (i: nat)
    requires o in Filtered(xs)
    ensures i < |xs| && Yields(xs[i], o)
  {
    assert xs != [];
    assert Filtered(xs) == Kept(xs[0]) + Filtered(xs[1..]);
    if o in Kept(xs[0]) {
      i := 0;
    } else {
      var j := FilteredSource(xs[1..], o);
      i := j + 1;
    }
  }

  /** Every non-blank entry's trimmed text is kept. */
  lemma {:induction false} FilteredKeeps(xs: seq<Option<string>>, i: nat)
    requires i < |xs| && !IsNullOrWhiteSpace(xs[i])
    ensures Trim(xs[i].value) in Filtered(xs)
  {
    var rest := Filtered(xs[1..]);
    assert Filtered(xs) == Kept(xs[0]) + rest;
    if i == 0 {
      KeptNonBlank(xs[0]);
    } else {
      assert xs[1..][i - 1] == xs[i];
      FilteredKeeps(xs[1..], i - 1);
      assert Trim(xs[i].value) in rest;
    }
  }

  /** A non-blank entry contributes its trimmed text. */
  lemma KeptNonBlank(entry: Option<string>)
    requires !IsNullOrWhiteSpace(entry)
    ensures Kept(entry) == [Trim(entry.value)]
  {
  }

  /** Filtering works entry by entry: the origins of two lists one after the other are the
      origins of each, in the same order. */
  lemma {:induction false} FilteredConcat(xs: seq<Option<string>>, ys: seq<Option<string>>)
    ensures Filtered(xs + ys) == Filtered(xs) + Filtered(ys)
  {
    if xs == [] {
      assert xs + ys == ys;
    } else {
      assert (xs + ys)[1..] == xs[1..] + ys;
      FilteredConcat(xs[1..], ys);
    }
  }

  /** Lifts a list of origins to configuration entries. */
  function AsEntries(origins: seq<string>): (r: seq<Option<string>>)
    ensures |r| == |origins|
    ensures forall i :: 0 <= i < |origins| ==> r[i] == Some(origins[i])
  {
    seq(|origins|, i requires 0 <= i < |origins| => Some(origins[i]))
  }

  /** Configuring the filtered origins again yields the same origins. */
  lemma {:induction false} FilteredIdempotent(xs: seq<Option<string>>)
    ensures Filtered(AsEntries(Filtered(xs))) == Filtered(xs)
  {
    FilteredOriginsAreTrimmed(xs);
    KeptOriginsSurvive(Filtered(xs));
  }

  /** A list of non-blank trimmed origins passes the filter unchanged. */
  lemma {:induction false} KeptOriginsSurvive(origins: seq<string>)
    requires forall i :: 0 <= i < |origins| ==> IsTrimmed(origins[i])
    ensures Filtered(AsEntries(origins)) == origins
  {
    if origins != [] {
      var xs := AsEntries(origins);
      assert xs[0] == Some(origins[0]);
      assert IsTrimmed(origins[0]);
      KeptTrimmedOrigin(origins[0]);
      assert xs[1..] == AsEntries(origins[1..]);
      KeptOriginsSurvive(origins[1..]);
      assert Filtered(xs) == Kept(xs[0]) + Filtered(xs[1..]);
    }
  }

  /** An origin that is already trimmed passes the filter as it is. */
  lemma KeptTrimmedOrigin(o: string)
    requires IsTrimmed(o)
    ensures Kept(Some(o)) == [o]
  {
    TrimmedOriginIsFixed(o);
  }

  /** The policy's origins: the configured ones when there are any, even in Development;
      otherwise the dev server in Development and no WithOrigins call elsewhere. */
  lemma CorsOriginsPolicy(configured: Option<seq<Option<string>>>, isDevelopment: bool)
    ensures ConfiguredOrigins(configured) != [] ==> CorsOrigins(configured, isDevelopment) == Some(ConfiguredOrigins(configured))
    ensures ConfiguredOrigins(configured) == [] && isDevelopment ==> CorsOrigins(configured, isDevelopment) == Some([DevelopmentOrigin])
    ensures CorsOrigins(configured, isDevelopment).None? <==> ConfiguredOrigins(configured) == [] && !isDevelopment
  {
  }

  /** Outside Development every allowed origin comes from the configuration: the dev server
      is never added there. */
  lemma ProductionOriginsAreConfigured(configured: Option<seq<Option<string>>>, o: string)
    requires CorsOrigins(configured, false).Some? && o in CorsOrigins(configured, false).value
    ensures configured.Some?
    ensures exists i :: 0 <= i < |configured.value| && Yields(configured.value[i], o)
  {
    FilteredMembership(configured.value, o);
  }

  /** A missing section and an array of blanks alike leave the dev server in Development. */
  lemma DevelopmentDefaultExamples()
    ensures CorsOrigins(None, true) == Some([DevelopmentOrigin])
    ensures CorsOrigins(Some([None, Some("  ")]), true) == Some([DevelopmentOrigin])
    ensures CorsOrigins(Some([None, Some("  ")]), false) == None
  {
    var xs: seq<Option<string>> := [None, Some("  ")];
    assert IsBlank("  ");
    assert Filtered(xs[1..]) == [] by {
      assert xs[1..][1..] == [];
    }
  }

  // ---------------------------------------------------------------------------------------
  // The endpoint

  /** What the endpoint hands back: Results.Ok, Results.Problem, or an exception it does not
      catch, which the framework turns into its own error response. */
  datatype EndpointResult =
    | Ok(dto: MetalsLatestDto)
    | Problem(title: string, detail: string, statusCode: nat)
    | Unhandled(exception: Exception)

  /** The try/catch of the endpoint. */
  function HandleOutcome(outcome: Outcome<MetalsLatestDto>): (r: EndpointResult)
    ensures r.Ok? <==> outcome.Returned?
    ensures r.Ok? ==> r.dto == outcome.value
    ensures r.Problem? <==> outcome.Thrown? && (outcome.exception.InvalidOperation? || outcome.exception.HttpRequest?)
    ensures r.Problem? ==> r.detail == outcome.exception.message
    ensures r.Problem? ==>
              ((r.statusCode == InternalServerError && r.title == ConfigurationErrorTitle) <==> outcome.exception.InvalidOperation?)
    ensures r.Problem? ==>
              ((r.statusCode == BadGateway && r.title == UpstreamErrorTitle) <==> outcome.exception.HttpRequest?)
    ensures r.Unhandled? ==> r.exception == outcome.exception
  {
    match outcome
    case Returned(dto) => Ok(dto)
    case Thrown(e) =>
      match e
      case InvalidOperation(message) => Problem(ConfigurationErrorTitle, message, InternalServerError)
      case HttpRequest(message) => Problem(UpstreamErrorTitle, message, BadGateway)
      case _ => Unhandled(e)
  }

  /** GET /api/metals/latest. */
  method GetLatestMetals(
    metalsApi: MetalpriceApiClient, baseCurrency: Option<string>, env: string -> Option<string>,
    reply: HttpReply, now: int)
    returns (r: EndpointResult)
    requires metalsApi.Configured()
    modifies metalsApi.http, metalsApi.cache
    ensures var c := LatestPrices(metalsApi.options, env, baseCurrency, old(metalsApi.cache.entries), reply, now);
            && r == HandleOutcome(c.outcome)
            && metalsApi.cache.entries == c.entries
            && metalsApi.http.sent == old(metalsApi.http.sent) + c.requests
    ensures metalsApi.http.baseAddress == old(metalsApi.http.baseAddress)
  {
    var result := metalsApi.GetGoldAndSilverPrices(baseCurrency, env, reply, now);
    r := HandleOutcome(result);
  }

  /** Without a usable key the endpoint answers 500 "Configuration error" with the key's
      message, and sends nothing upstream. */
  lemma MissingKeyIsConfigurationError(
    options: MetalpriceApiOptions, env: string -> Option<string>, baseCurrency: Option<string>,
    entries: map<string, CacheEntry>, reply: HttpReply, now: int)
    requires Valid(options)
    requires !IsUsableApiKey(ResolveApiKey(env, options.apiKey))
    ensures var c := LatestPrices(options, env, baseCurrency, entries, reply, now);
            && HandleOutcome(c.outcome) == Problem(ConfigurationErrorTitle, MissingKeyMessage, InternalServerError)
            && c.requests == []
  {
  }

  /** On a cache miss, a non-200 answer from the upstream becomes 502 "Upstream API error"
      whose detail quotes the status, the reason and the body. */
  lemma UpstreamStatusIsBadGateway(
    options: MetalpriceApiOptions, env: string -> Option<string>, baseCurrency: Option<string>,
    entries: map<string, CacheEntry>, statusCode: nat, reason: Option<string>, body: string,
    parsed: ParsedBody, now: int)
    requires Valid(options)
    requires IsUsableApiKey(ResolveApiKey(env, options.apiKey))
    requires Lookup(entries, CacheKey(EffectiveBase(baseCurrency, options.baseCurrency)), now).None?
    requires statusCode != 200
    ensures var c := LatestPrices(options, env, baseCurrency, entries, Response(statusCode, reason, body, parsed), now);
            HandleOutcome(c.outcome) == Problem(UpstreamErrorTitle, StatusMessage(statusCode, reason, body), BadGateway)
  {
    LatestPricesOnMiss(options, env, baseCurrency, entries, Response(statusCode, reason, body, parsed), now);
  }

  /** The endpoint answers 200 only with a well-formed quote in the base currency the call
      resolved to. */
  lemma OkCarriesWellFormedQuote(
    options: MetalpriceApiOptions, env: string -> Option<string>, baseCurrency: Option<string>,
    entries: map<string, CacheEntry>, reply: HttpReply, now: int)
    requires Valid(options)
    requires CacheInvariant(entries)
    ensures var r := HandleOutcome(LatestPrices(options, env, baseCurrency, entries, reply, now).outcome);
            r.Ok? ==> r.dto.baseCurrency == EffectiveBase(baseCurrency, options.baseCurrency) && WellFormedQuote(r.dto)
  {
    LatestPricesKeepsCacheInvariant(options, env, baseCurrency, entries, reply, now);
  }

  /** A timestamp outside the years 0001 to 9999 and a malformed body are not caught. */
  lemma UncaughtExceptionExamples()
    ensures HandleOutcome(Thrown(ArgumentOutOfRange("seconds"))) == Unhandled(ArgumentOutOfRange("seconds"))
    ensures HandleOutcome(InterpretReply(Response(200, Some("OK"), "{", Malformed("bad")), "USD", 0)).Unhandled?
  {
  }
}
