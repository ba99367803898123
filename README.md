# MetalPrice API core, modelled in Dafny

MetalPrice is a small ASP.NET Core service that reports the current price of one troy ounce of
gold and of silver in a base currency. It fetches the latest XAU and XAG rates from
MetalpriceAPI, inverts them, rounds them to cents and caches the quote for a configured number
of seconds. The UI calls `GET /api/metals/latest`. This project models the service's core:

- `MetalpriceApiClient` (module `Services`, `client.dfy`):
  - the base address set in the constructor;
  - every step of `GetGoldAndSilverPricesAsync`: key resolution, the base currency and cache key, the cache hit, the request URI, the status check, validation of the parsed body, the inversion with banker's rounding, and the cache write.
- The operation has two forms:
  - `LatestPrices` is a function of the options, the environment, the argument, the cache contents, the upstream's reply and the clock. It returns the outcome, the requests sent and the new cache.
  - The class `MetalpriceApiClient` holds an `HttpClient` and a `MemoryCache` object, whose fields its methods update. `GetGoldAndSilverPrices` is proved to do exactly what `LatestPrices` says.
- `MetalpriceApiOptions` (module `Options`): the defaults and the data-annotation validation.
- `Program.cs` (module `Program`): the origins of the "ui" CORS policy, and the endpoint's mapping from the client's outcome to an HTTP result.
- Supporting modules:
  - `Text`: .NET `char.IsWhiteSpace`, `Trim`, `TrimEnd(char)`, `ToUpperInvariant` and `OrdinalIgnoreCase`, plus integer formatting.
  - `Rounding`: `decimal.Round(x, 2)` with the default `MidpointRounding.ToEven`.
  - `UriEscape`: UTF-8 and `Uri.EscapeDataString`.

Modelling choices:
- Exceptions are values: `Outcome = Returned(value) | Thrown(exception)`.
- The environment (`string -> Option<string>`), the upstream's reply (`HttpReply`) and the clock (`now`, whole Unix seconds) are parameters.
- Decimals are exact reals.

Details where the code behaves otherwise than a reader of its comments or its documentation might expect (the model follows the code):
- The cache key is `metalprice-latest:<base>`.
- The call fails when either rate is missing, not only when both are.
- Prices are rounded half to even.
- An environment variable that is set but blank yields the key "". That key shadows the fallbacks, so the call fails (`BlankPrimaryShadowsFallbacks`).
- A rate of 200 or more yields a price of 0.00 and is accepted (`PerOunce`, `HighRateRoundsToZeroExample`).
- The configured default base currency is used as written, not trimmed or upper-cased (`BaseCurrencyExamples`).
- A malformed body is a `JsonException`. The endpoint does not catch it; only a JSON `null` body is a configuration error.

## Model

| member | source | states |
|---|---|---|
| Services.BaseAddress | MetalPrice.Api/Services/MetalpriceApiClient.cs:24 | the base address ends in exactly one '/', agrees with BaseUrl before it, and only '/' characters of BaseUrl were dropped |
| Services.BaseAddressIdempotent | MetalPrice.Api/Services/MetalpriceApiClient.cs:24 | normalising a base address it produced changes nothing |
| Services.BaseAddressExamples | MetalPrice.Api/Services/MetalpriceApiClient.cs:24 | the default endpoint gains one slash; "…/v1///" becomes "…/v1/" |
| Services.MetalpriceApiClient.constructor | MetalPrice.Api/Services/MetalpriceApiClient.cs:18-25 | keeps the injected client, cache and options and sets the client's base address to BaseAddress(BaseUrl); the client records that its options passed validation |
| Services.FirstPresent | MetalPrice.Api/Services/MetalpriceApiClient.cs:29-32 | the `??` chain: None iff every source is null, otherwise the first non-null one |
| Services.TrimOrNull | MetalPrice.Api/Services/MetalpriceApiClient.cs:30-32 | `?.Trim()`: null stays null, otherwise the trimmed text |
| Services.ResolveApiKey | MetalPrice.Api/Services/MetalpriceApiClient.cs:29-32 | the trimmed METALPRICE_API_KEY when set, else the trimmed METALS_API_KEY when set, else the trimmed configured key |
| Services.BlankPrimaryShadowsFallbacks | MetalPrice.Api/Services/MetalpriceApiClient.cs:29-38 | a set but blank primary variable gives the key "" and the call throws the missing-key error without a request |
| Services.IsUsableApiKey | MetalPrice.Api/Services/MetalpriceApiClient.cs:34 | a usable key is present, non-empty and not the placeholder REPLACE_ME |
| Services.PlaceholderKeyIsRefused | MetalPrice.Api/Services/MetalpriceApiClient.cs:34-38 | " Replace_Me " is refused like REPLACE_ME: the missing-key exception, no request, cache unchanged |
| Services.PlaceholderVariantIsRefused | MetalPrice.Api/Services/MetalpriceApiClient.cs:34 | the trimmed " Replace_Me " fails the key check (OrdinalIgnoreCase comparison with REPLACE_ME) |
| Services.EffectiveBase | MetalPrice.Api/Services/MetalpriceApiClient.cs:40 | a null or blank argument selects the configured base currency unchanged |
| Services.RequestedBaseIsNormalised | MetalPrice.Api/Services/MetalpriceApiClient.cs:40 | a non-blank argument becomes a non-blank, trimmed string with no lower-case letter, no longer than the argument, equal to the trimmed argument ignoring case |
| Services.EffectiveBaseIdempotent | MetalPrice.Api/Services/MetalpriceApiClient.cs:40 | passing a normalised base currency back in returns it unchanged |
| Services.BaseCurrencyExamples | MetalPrice.Api/Services/MetalpriceApiClient.cs:40-41 | " usd " becomes "USD"; a default of "usd" is used as is and gets a different cache key from a request for "usd" |
| Services.CacheKey | MetalPrice.Api/Services/MetalpriceApiClient.cs:41 | the key is the prefix "metalprice-latest:" followed by the base currency |
| Services.CacheKeyInjective | MetalPrice.Api/Services/MetalpriceApiClient.cs:41 | different base currencies never share a cache key |
| Services.Lookup | MetalPrice.Api/Services/MetalpriceApiClient.cs:43-46 | a quote is found iff an entry exists under the key and its expiry instant is still ahead; then it is the stored quote |
| Services.MemoryCache.TryGetValue | MetalPrice.Api/Services/MetalpriceApiClient.cs:43 | finds exactly what Lookup finds: the stored value iff the key is present and not expired |
| Services.MemoryCache.Set | MetalPrice.Api/Services/MetalpriceApiClient.cs:96 | stores the value under the key with expiry now + lifetime, leaving other keys alone |
| Services.Query | MetalPrice.Api/Services/MetalpriceApiClient.cs:50 | whatever the key and base hold, the query splits on '&' back into exactly its three parameters api_key, base and currencies |
| Services.LatestRequestUri | MetalPrice.Api/Services/MetalpriceApiClient.cs:50 | the relative URI is "latest?" followed by a query that splits on '&' into the three parameters |
| Services.QueryCarriesKeyAndBase | MetalPrice.Api/Services/MetalpriceApiClient.cs:50 | the URI's first two parameters are api_key and base with the escaped values, and each escaped value decodes to the UTF-8 bytes of the original |
| UriEscape.EscapeDataString | MetalPrice.Api/Services/MetalpriceApiClient.cs:50 | escaped text holds only unreserved characters and '%' |
| UriEscape.PercentDecodeEncode | MetalPrice.Api/Services/MetalpriceApiClient.cs:50 | percent-decoding undoes percent-encoding for every byte string |
| UriEscape.EscapeUnreserved | MetalPrice.Api/Services/MetalpriceApiClient.cs:50 | a value made of unreserved ASCII characters (a currency code such as USD) is sent unchanged |
| UriEscape.Utf8 | MetalPrice.Api/Services/MetalpriceApiClient.cs:50 | a character becomes 1 to 4 bytes: one ASCII byte, or a lead byte of the right range followed by continuation bytes |
| UriEscape.Utf8RoundTrip | MetalPrice.Api/Services/MetalpriceApiClient.cs:50 | the UTF-8 bytes of a character decode back to its scalar value |
| UriEscape.EscapedHasNoSeparator | MetalPrice.Api/Services/MetalpriceApiClient.cs:50 | a parameter name followed by an escaped value contains no '&' |
| UriEscape.SplitOnConcat | MetalPrice.Api/Services/MetalpriceApiClient.cs:50 | a separator after a piece without it ends that piece |
| Services.HttpClient.GetAsync | MetalPrice.Api/Services/MetalpriceApiClient.cs:52 | records the request URI after the earlier ones and returns the upstream's reply |
| Text.ParseNatToString | MetalPrice.Api/Services/MetalpriceApiClient.cs:58 | the decimal rendering of the status code reads back as that code |
| Services.StatusMessage | MetalPrice.Api/Services/MetalpriceApiClient.cs:57-58 | the message starts "MetalpriceAPI returned ", then the decimal status code and a space, and ends with the body |
| Services.ServiceUnavailableExample | MetalPrice.Api/Services/MetalpriceApiClient.cs:55-59 | a 503 reply becomes an HttpRequestException whose message shows "503" |
| Services.ErrorInfo | MetalPrice.Api/Services/MetalpriceApiClient.cs:66 | the upstream's error info when present, otherwise the fixed unknown-error message |
| Services.UpstreamRejectionExample | MetalPrice.Api/Services/MetalpriceApiClient.cs:64-68 | success = false with info "Invalid API key" throws InvalidOperationException with that message |
| Services.HasRates | MetalPrice.Api/Services/MetalpriceApiClient.cs:70-72 | the record has a rates map whose keys include both XAU and XAG |
| Services.RateErrorExamples | MetalPrice.Api/Services/MetalpriceApiClient.cs:70-80 | a missing XAG rate and a zero XAU rate throw the two rate errors |
| Services.PerOunce | MetalPrice.Api/Services/MetalpriceApiClient.cs:82-83 | the price is whole cents, never negative, within half a cent of 1 / rate, on the even cent when 1 / rate lies exactly half-way between two cents, and 0.00 exactly when the rate is at least 200 |
| Services.PerOunceExamples | MetalPrice.Api/Services/MetalpriceApiClient.cs:82-83 | rates 0.0005, 0.04 and 250 give 2000.00, 25.00 and 0.00 |
| Services.FromUnixTimeSeconds | MetalPrice.Api/Services/MetalpriceApiClient.cs:85-87 | the instant itself inside years 0001 to 9999, otherwise ArgumentOutOfRangeException |
| Services.Acceptable | MetalPrice.Api/Services/MetalpriceApiClient.cs:64-87 | an acceptable record has both rates, each positive, so both can be inverted |
| Services.Validate | MetalPrice.Api/Services/MetalpriceApiClient.cs:64-94 | a quote iff the record is acceptable; the checks run in the source's order, each with its own exception: success = false gives InvalidOperation with the error info, a missing rate and a non-positive rate give InvalidOperation with their messages, and an out-of-range timestamp gives ArgumentOutOfRange("seconds"); the quote carries the base, the rounded inverses, the timestamp or the clock, and "<base> per oz" |
| Services.InterpretReply | MetalPrice.Api/Services/MetalpriceApiClient.cs:52-94 | HttpRequestException iff transport failure or status other than 200, carrying the transport failure's message or the source's status message; on 200 a JSON null body gives InvalidOperation("MetalpriceAPI response was empty or invalid JSON."), a malformed body gives the JsonException, and a parsed record gives exactly what Validate gives; a quote iff 200, a parsed body and an acceptable record, in the base currency, whole non-negative cents, with the matching unit |
| Services.QuoteExample | MetalPrice.Api/Services/MetalpriceApiClient.cs:82-94 | rates 0.0005 and 0.04 with a timestamp give a USD quote of 2000.00 and 25.00 stamped with it |
| Services.HighRateRoundsToZeroExample | MetalPrice.Api/Services/MetalpriceApiClient.cs:82-94 | a rate of 250 is accepted with price 0.00; without a timestamp the quote carries the clock |
| Rounding.Round2 | MetalPrice.Api/Services/MetalpriceApiClient.cs:92-93 | the result is whole cents within half a cent of the input, and an exact tie goes to the even cent |
| Rounding.RoundHalfEven | MetalPrice.Api/Services/MetalpriceApiClient.cs:92-93 | the nearest integer, a tie going to the even one |
| Rounding.Round2Monotonic | MetalPrice.Api/Services/MetalpriceApiClient.cs:92-93 | rounding never reverses the order of two prices |
| Rounding.Round2Idempotent | MetalPrice.Api/Services/MetalpriceApiClient.cs:92-93 | rounding a rounded price changes nothing |
| Rounding.Round2ZeroIff | MetalPrice.Api/Services/MetalpriceApiClient.cs:92-93 | a non-negative value rounds to a non-negative price, and to 0.00 exactly when it is at most 0.005 |
| Rounding.Round2TiesToEven | MetalPrice.Api/Services/MetalpriceApiClient.cs:92-93 | 0.125 rounds to 0.12 and 0.135 to 0.14 |
| Services.Store | MetalPrice.Api/Services/MetalpriceApiClient.cs:96 | after a quote, the key maps to it with expiry now + lifetime and other entries stay; after an exception the cache is unchanged |
| Services.LatestPrices | MetalPrice.Api/Services/MetalpriceApiClient.cs:27-98 | at most one request; an unusable key throws the missing-key error with no request; an exception or a call without a request leaves the cache unchanged; a fetched quote is then found in the cache under its key |
| Services.LatestPricesOnMiss | MetalPrice.Api/Services/MetalpriceApiClient.cs:50-97 | on a miss with a usable key the call sends the one URI, ends as the reply dictates and stores only a quote |
| Services.CacheHitServesStoredQuote | MetalPrice.Api/Services/MetalpriceApiClient.cs:43-46 | a live entry is returned as stored, with no request and the cache unchanged, whatever the upstream would reply |
| Services.MissSendsOneRequest | MetalPrice.Api/Services/MetalpriceApiClient.cs:43-52 | without a live entry a usable key leads to exactly the one request for that key and base |
| Services.FetchedQuoteIsStored | MetalPrice.Api/Services/MetalpriceApiClient.cs:96 | a quote fetched upstream is stored under its base currency's key with expiry now + CacheSeconds |
| Services.RepeatWithinTtlIsServedFromCache | MetalPrice.Api/Services/MetalpriceApiClient.cs:43-46 | within CacheSeconds of a fetched quote, the next call for the same base returns it with no request |
| Services.AfterTtlFetchesAgain | MetalPrice.Api/Services/MetalpriceApiClient.cs:96 | once CacheSeconds have passed, the next call for the same base sends one request |
| Services.LatestPricesKeepsCacheInvariant | MetalPrice.Api/Services/MetalpriceApiClient.cs:40-97 | every cached entry stays a well-formed quote under its own base currency's key, and every returned quote is well formed and priced in the requested base |
| Services.StoreKeepsCacheInvariant | MetalPrice.Api/Services/MetalpriceApiClient.cs:96 | storing a well-formed quote for base b under b's key keeps the cache invariant |
| Services.CachedQuoteMatchesKey | MetalPrice.Api/Services/MetalpriceApiClient.cs:41-45 | a quote found under b's key is priced in b |
| Services.MetalpriceApiClient.GetGoldAndSilverPrices | MetalPrice.Api/Services/MetalpriceApiClient.cs:27-98 | the outcome, the new cache and the requests appended to the HTTP client's log are those of LatestPrices; the base address is untouched |
| Services.MetalpriceApiClient.FetchAndCache | MetalPrice.Api/Services/MetalpriceApiClient.cs:50-97 | one request for the URI, the outcome InterpretReply gives, and the cache updated by Store |
| Text.TrimStart | MetalPrice.Api/Services/MetalpriceApiClient.cs:30 | removes exactly the longest prefix of characters of the class: the result is a suffix, and what is left starts outside the class |
| Text.TrimEnd | MetalPrice.Api/Services/MetalpriceApiClient.cs:24 | removes exactly the longest suffix of characters of the class |
| Text.TrimProperties | MetalPrice.Api/Services/MetalpriceApiClient.cs:30-32 | Trim gives "" exactly for a blank string, and otherwise a string with non-white-space ends |
| Text.TrimOfTrimmed | MetalPrice.Api/Services/MetalpriceApiClient.cs:30-32 | trimming a string that is empty or has non-white-space ends changes nothing |
| Text.TrimPadded | MetalPrice.Api/Services/MetalpriceApiClient.cs:30-32 | one space on either side of a trimmed string is removed and nothing more |
| Text.IsWhiteSpace | MetalPrice.Api/Services/MetalpriceApiClient.cs:34 | no white-space character is an ASCII letter or digit |
| Text.TrimIdempotent | MetalPrice.Api/Services/MetalpriceApiClient.cs:40 | trimming twice is trimming once |
| Text.ToUpperInvariant | MetalPrice.Api/Services/MetalpriceApiClient.cs:40 | same length, each character upper-cased |
| Text.UpperOfTrimmed | MetalPrice.Api/Services/MetalpriceApiClient.cs:40 | upper-casing a trimmed string keeps it trimmed and non-blank, leaves no lower-case letter and keeps it equal ignoring case |
| Text.ToUpperInvariantOfUpper | MetalPrice.Api/Services/MetalpriceApiClient.cs:34 | a string without lower-case letters is its own upper-case form |
| Text.EqualsOrdinalIgnoreCase | MetalPrice.Api/Services/MetalpriceApiClient.cs:34 | strings equal ignoring case have the same length |
| Text.EqualsOrdinalIgnoreCaseByChar | MetalPrice.Api/Services/MetalpriceApiClient.cs:34 | two strings are equal ignoring case iff they have the same length and agree character by character once upper-cased |
| Options.Valid | MetalPrice.Api/Options/MetalpriceApiOptions.cs:18-32 | valid options have a non-empty base URL and base currency and a positive cache lifetime |
| Options.Default | MetalPrice.Api/Options/MetalpriceApiOptions.cs:7-32 | the options with nothing configured have no key, the public endpoint, USD and 10 seconds, and pass validation |
| Program.Filtered | MetalPrice.Api/Program.cs:24-27 | never more origins than entries |
| Program.Kept | MetalPrice.Api/Program.cs:25-26 | one entry contributes at most one origin |
| Program.KeptNonBlank | MetalPrice.Api/Program.cs:25-26 | a non-null, non-blank entry contributes exactly its trimmed text |
| Program.KeptIsTrimmed | MetalPrice.Api/Program.cs:25-26 | whatever an entry contributes is non-blank and trimmed |
| Program.FilteredOriginsAreTrimmed | MetalPrice.Api/Program.cs:24-27 | every origin kept is non-blank and trimmed |
| Program.FilteredMembership | MetalPrice.Api/Program.cs:24-27 | an origin is kept iff some configured entry is non-null, non-blank and trims to it |
| Program.FilteredConcat | MetalPrice.Api/Program.cs:24-27 | filtering two lists one after the other gives their origins in the same order |
| Program.FilteredIdempotent | MetalPrice.Api/Program.cs:24-27 | configuring the filtered origins again yields them unchanged |
| Program.ConfiguredOrigins | MetalPrice.Api/Program.cs:20-24 | a missing section counts as no origins |
| Program.CorsOrigins | MetalPrice.Api/Program.cs:30-38 | WithOrigins is never called with an empty list |
| Program.CorsOriginsPolicy | MetalPrice.Api/Program.cs:30-38 | configured origins are used unchanged even in Development; with none, Development gets exactly ["http://localhost:5173"] and WithOrigins is not called elsewhere |
| Program.ProductionOriginsAreConfigured | MetalPrice.Api/Program.cs:30-38 | outside Development every allowed origin comes from a configured entry |
| Program.DevelopmentDefaultExamples | MetalPrice.Api/Program.cs:24-38 | a missing section or an array of blanks gives the dev server in Development and no WithOrigins call elsewhere |
| Program.HandleOutcome | MetalPrice.Api/Program.cs:66-78 | 200 with the DTO unchanged iff the call returned; 500 "Configuration error" iff InvalidOperationException; 502 "Upstream API error" iff HttpRequestException; the detail is the message; any other exception escapes |
| Program.GetLatestMetals | MetalPrice.Api/Program.cs:61-79 | the endpoint's result is the mapping of the client's outcome, the cache and requests are those of the call, and the client's base address is unchanged |
| Program.MissingKeyIsConfigurationError | MetalPrice.Api/Program.cs:71-74 | without a usable key the endpoint answers 500 "Configuration error" with the key message and sends nothing upstream |
| Program.UpstreamStatusIsBadGateway | MetalPrice.Api/Program.cs:75-78 | on a miss, a non-200 upstream answer becomes 502 "Upstream API error" quoting status, reason and body |
| Program.OkCarriesWellFormedQuote | MetalPrice.Api/Program.cs:68-69 | a 200 answer carries a well-formed quote in the base currency the call resolved to |
| Program.UncaughtExceptionExamples | MetalPrice.Api/Program.cs:66-78 | an out-of-range timestamp and a malformed body are not caught by the endpoint |

## Left out

- HTTP transport, `async`, cancellation tokens and timeouts. The upstream's answer is a parameter: a response with status, reason phrase, body and parsed body, or a transport failure.
- JSON deserialisation itself. The parsed record is an input. Only a JSON `null` body (an error the code handles) and a malformed body (a `JsonException`) are distinguished.
- Decimal arithmetic is modelled on exact reals. The 28-digit precision of `1m / rate` is not modelled, so neither is the rare double rounding when that quotient is inexact. The model also accepts positive rates below 1e-28, which no decimal can hold.
- `DateTimeOffset` is whole Unix seconds. One clock reading `now` serves the cache lookup, the timestamp fallback and the expiry. Sub-second time and the clock advancing during the call are not modelled.
- Program.Kept: its own contract states only that an entry contributes at most one origin. Stating which origin on the function itself makes the filter's proofs too costly, so KeptNonBlank and KeptIsTrimmed state it.
- `ToUpperInvariant` and `OrdinalIgnoreCase` map ASCII letters only. Non-ASCII case mappings are not modelled.
- Strings are sequences of Unicode scalar values, so lone UTF-16 surrogates (which .NET escapes as the bytes of U+FFFD) cannot occur.
- `new Uri(...)` validation and resolution of the relative URI against the base address. The model records the relative URI sent.
- `MemoryCache` internals: eviction, size limits, and the physical removal of expired entries. An expired entry is kept but never served. This cannot be observed through lookups.
- Concurrency. Two simultaneous calls may both miss and both fetch; the model is sequential.
- What ASP.NET Core does with a policy without origins, and with an exception the endpoint does not catch. The model stops at "WithOrigins not called" and `Unhandled`.
- Service registration, OpenAPI, HTTPS redirection, the `AllowAnyHeader`/`AllowAnyMethod` calls, the UI (`MetalPrice.Ui/src/App.tsx`) and the Vite configuration: framework wiring and front end outside the core.
- `Options` binding from configuration files: the options record is given. Validation failure is a precondition of the client and of `LatestPrices` (`Valid`), as the host refuses to resolve invalid options. The non-positive cache lifetime that `MemoryCache.Set` would refuse therefore never arises.
