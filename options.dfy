/** The bound configuration section of the service and its data-annotation validation. */
module Options {
  import opened Wrappers
  import opened Text

  /** The configuration section the options are bound from. */
  const SectionName: string := "MetalpriceApi"

  const DefaultBaseUrl: string := "https://api.metalpriceapi.com/v1"
  const DefaultBaseCurrency: string := "USD"
  const DefaultCacheSeconds: int := 10

  /** MetalpriceApiOptions. ApiKey is optional; the other three carry validation attributes. */
  datatype MetalpriceApiOptions = MetalpriceApiOptions(
    apiKey: Option<string>,
    baseUrl: string,
    baseCurrency: string,
    cacheSeconds: int)

  /** [Required] on a string property: present and not only white space. */
  predicate Required(s: string) {
    !IsBlank(s)
  }

  /** What ValidateDataAnnotations demands before the options can be resolved:
      [Required] BaseUrl; [Required, MinLength(3)] BaseCurrency; [Range(1, 3600)] CacheSeconds.
      Valid options have a non-empty base URL and base currency and a positive cache lifetime,
      the only kind IMemoryCache accepts. */
  predicate Valid(o: MetalpriceApiOptions)
    ensures Valid(o) ==> o.baseUrl != [] && o.baseCurrency != [] && o.cacheSeconds > 0
  {
    && Required(o.baseUrl)
    && Required(o.baseCurrency)
    && |o.baseCurrency| >= 3
    && 1 <= o.cacheSeconds <= 3600
  }

  /** The options as constructed when the configuration sets nothing: no key, the public
      endpoint, USD and a ten-second cache. They pass validation. */
  function Default(): (o: MetalpriceApiOptions)
    ensures Valid(o)
    ensures o.apiKey.None?
  {
    assert !IsWhiteSpace(DefaultBaseUrl[0]) && !IsWhiteSpace(DefaultBaseCurrency[0]);
    MetalpriceApiOptions(None, DefaultBaseUrl, DefaultBaseCurrency, DefaultCacheSeconds)
  }
}
