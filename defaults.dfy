/**
 * The documented defaults of the client and the setters that write a default into a
 * parameter only while that parameter is unset.
 *
 * A setter that writes through a pointer (`*pages = 1`) is a method that receives the
 * pointee's value and returns the value it holds afterwards; the caller stores the result
 * back into the field the pointer designated. A setter on a context map changes the shared
 * `ContextOption` object itself.
 */
module Internal {
  import opened Oxylabs

  const DefaultUserAgent: UserAgent := UA_DESKTOP
  const DefaultDomain: Domain := DOMAIN_COM

  const DefaultStartPage: int := 1
  const DefaultPages: int := 1

  /** Result limits of the two target classes: search engine results and e-commerce. */
  const DefaultLimitSerp: int := 10
  const DefaultLimitEcommerce: int := 48

  /** Endpoints of the synchronous and the asynchronous runtime models. */
  const SyncBaseUrl: string := "https://realtime.oxylabs.io/v1/queries"
  const AsyncBaseUrl: string := "https://data.oxylabs.io/v1/queries"

  /** Durations in nanoseconds, as Go's `time.Duration` counts them. */
  const Second: int := 1_000_000_000
  const DefaultTimeout: int := 50 * Second
  const DefaultPollInterval: int := 2 * Second

  /** Defaults written into a context map, and the value of an unset content encoding. */
  const DefaultSortBy: string := "r"
  const DefaultHotelOccupancy: int := 2
  const DefaultHttpMethod: string := "get"
  const DefaultContentEncoding: string := "base64"

  /** The value a "set if unset" write leaves behind, where `unset` is the zero value. */
  function Filled<T(==)>(value: T, unset: T, default: T): (r: T)
    ensures value != unset ==> r == value
    ensures default != unset ==> r != unset
  {
    if value == unset then default else value
  }

  /** A context map after its `key` received `default` in case it read as nil. */
  function FilledKey(m: map<string, Value>, key: string, default: Value): (r: map<string, Value>)
    ensures Lookup(m, key) != Null ==> r == m
    ensures Lookup(m, key) == Null ==> Lookup(r, key) == default
    ensures r - {key} == m - {key}
  {
    if Lookup(m, key) == Null then m[key := default] else m
  }

  /** Writing a default a second time changes nothing. */
  lemma FilledIdempotent<T>(value: T, unset: T, default: T)
    ensures Filled(Filled(value, unset, default), unset, default) == Filled(value, unset, default)
  {
  }

  /** Writing a default into a context map a second time changes nothing. */
  lemma FilledKeyIdempotent(m: map<string, Value>, key: string, default: Value)
    ensures FilledKey(FilledKey(m, key, default), key, default) == FilledKey(m, key, default)
  {
  }

  /** The default constants keep their documented values. */
  lemma DefaultConstants()
    ensures DefaultUserAgent == UA_DESKTOP && DefaultDomain == DOMAIN_COM
    ensures DefaultStartPage == 1 && DefaultPages == 1
    ensures DefaultLimitSerp == 10 && DefaultLimitEcommerce == 48
    ensures SyncBaseUrl != AsyncBaseUrl
    ensures DefaultTimeout == 50 * Second && DefaultPollInterval == 2 * Second
  {
  }

  method SetDefaultDomain(domain: Domain) returns (r: Domain)
    ensures r == Filled(domain, "", DefaultDomain)
    ensures r != ""
    ensures domain != "" ==> r == domain
    ensures domain == "" ==> r == DOMAIN_COM
  {
    r := domain;
    if r == "" {
      r := DOMAIN_COM;
    }
  }

  method SetDefaultStartPage(startPage: int) returns (r: int)
    ensures r == Filled(startPage, 0, DefaultStartPage)
    ensures r != 0
    ensures startPage != 0 ==> r == startPage
    ensures startPage == 0 ==> r == 1
  {
    r := startPage;
    if r == 0 {
      r := 1;
    }
  }

  method SetDefaultPages(pages: int) returns (r: int)
    ensures r == Filled(pages, 0, DefaultPages)
    ensures r != 0
    ensures pages != 0 ==> r == pages
    ensures pages == 0 ==> r == 1
  {
    r := pages;
    if r == 0 {
      r := 1;
    }
  }

  method SetDefaultLimit(limit: int, defaultLimit: int) returns (r: int)
    ensures r == Filled(limit, 0, defaultLimit)
    ensures limit != 0 ==> r == limit
    ensures limit == 0 ==> r == defaultLimit
    ensures defaultLimit != 0 ==> r != 0
  {
    r := limit;
    if r == 0 {
      r := defaultLimit;
    }
  }

  method SetDefaultUserAgent(userAgent: UserAgent) returns (r: UserAgent)
    ensures r == Filled(userAgent, "", DefaultUserAgent)
    ensures r != ""
    ensures userAgent != "" ==> r == userAgent
    ensures userAgent == "" ==> r == UA_DESKTOP
  {
    r := userAgent;
    if r == "" {
      r := UA_DESKTOP;
    }
  }

  method SetDefaultHotelOccupancy(ctx: ContextOption)
    modifies ctx
    ensures ctx.entries == FilledKey(old(ctx.entries), "hotel_occupancy", Int(DefaultHotelOccupancy))
    ensures Lookup(ctx.entries, "hotel_occupancy") != Null
  {
    if Lookup(ctx.entries, "hotel_occupancy") == Null {
      ctx.Put("hotel_occupancy", Int(2));
    }
  }

  method SetDefaultSortBy(ctx: ContextOption)
    modifies ctx
    ensures ctx.entries == FilledKey(old(ctx.entries), "sort_by", Str(DefaultSortBy))
    ensures Lookup(ctx.entries, "sort_by") != Null
  {
    if Lookup(ctx.entries, "sort_by") == Null {
      ctx.Put("sort_by", Str("r"));
    }
  }

  method SetDefaultHttpMethod(ctx: ContextOption)
    modifies ctx
    ensures ctx.entries == FilledKey(old(ctx.entries), "http_method", Str(DefaultHttpMethod))
    ensures Lookup(ctx.entries, "http_method") != Null
  {
    if Lookup(ctx.entries, "http_method") == Null {
      ctx.Put("http_method", Str("get"));
    }
  }

  method SetDefaultContentEncoding(contentEncoding: string) returns (r: string)
    ensures r == Filled(contentEncoding, "", DefaultContentEncoding)
    ensures r != ""
    ensures contentEncoding != "" ==> r == contentEncoding
    ensures contentEncoding == "" ==> r == "base64"
  {
    r := contentEncoding;
    if r == "" {
      r := "base64";
    }
  }
}
