/**
 * The Google Shopping targets of the e-commerce client: Url, Search, Product and Pricing.
 *
 * Every target runs the same steps: the Url target first rejects an invalid URL; then
 * the caller's options are picked (the last element of the variadic `opts`, when it is
 * not nil); the Search target runs the caller's modifiers on a fresh context map and
 * then writes the `sort_by` default into it; defaults are written into the
 * caller-owned struct; the options are validated; and the payload that is handed to the
 * request engine is built. The request engine is not part of this model: an outcome
 * `Dispatched(request)` is the point where the engine is called with `request`, and
 * every other outcome returns before that call.
 */
module Ecommerce {
  import opened Oxylabs
  import Internal

  /** Sort keys accepted in the Search context. */
  const AcceptedSortByParameters: seq<string> := ["r", "p", "rv", "pd"]

  /** The host a Url target must point to. */
  const UrlHost: string := "shopping.google"

  // ---------------------------------------------------------------------------------
  // Options
  // ---------------------------------------------------------------------------------

  /** The value of a `GoogleShoppingUrlOpts` struct. */
  datatype UrlOptions = UrlOptions(
    userAgent: UserAgent,
    render: Render,
    callbackUrl: string,
    geoLocation: string,
    parse: bool,
    parseInstructions: Option<Instructions>,
    pollInterval: int)

  /** The value of a `GoogleShoppingSearchOpts` struct. */
  datatype SearchOptions = SearchOptions(
    domain: Domain,
    startPage: int,
    pages: int,
    locale: Locale,
    resultsLanguage: string,
    geoLocation: string,
    userAgent: UserAgent,
    render: Render,
    callbackUrl: string,
    parse: bool,
    parseInstructions: Option<Instructions>,
    pollInterval: int,
    context: seq<Modifier>)

  /** The value of a `GoogleShoppingProductOpts` struct. */
  datatype ProductOptions = ProductOptions(
    domain: Domain,
    locale: Locale,
    resultsLanguage: string,
    geoLocation: string,
    userAgent: UserAgent,
    render: Render,
    callbackUrl: string,
    parse: bool,
    parseInstructions: Option<Instructions>,
    pollInterval: int)

  /** The value of a `GoogleShoppingPricingOpts` struct. */
  datatype PricingOptions = PricingOptions(
    domain: Domain,
    startPage: int,
    pages: int,
    locale: Locale,
    resultsLanguage: string,
    geoLocation: string,
    userAgent: UserAgent,
    render: Render,
    callbackUrl: string,
    parse: bool,
    parseInstructions: Option<Instructions>,
    pollInterval: int)

  /** Zero-valued structs, used when the caller passes no options or a nil last one. */
  const ZeroUrlOptions: UrlOptions := UrlOptions("", "", "", "", false, None, 0)
  const ZeroSearchOptions: SearchOptions :=
    SearchOptions("", 0, 0, "", "", "", "", "", "", false, None, 0, [])
  const ZeroProductOptions: ProductOptions :=
    ProductOptions("", "", "", "", "", "", "", false, None, 0)
  const ZeroPricingOptions: PricingOptions :=
    PricingOptions("", 0, 0, "", "", "", "", "", "", false, None, 0)

  /** The Url options after their defaults are written: only the user agent has one. */
  function UrlDefaults(opt: UrlOptions): (r: UrlOptions)
    ensures r.userAgent == (if opt.userAgent == "" then Internal.DefaultUserAgent else opt.userAgent)
    ensures r.userAgent != ""
    ensures opt.userAgent != "" ==> r == opt
    ensures r.(userAgent := opt.userAgent) == opt
  {
    opt.(userAgent := Internal.Filled(opt.userAgent, "", Internal.DefaultUserAgent))
  }

  /** The Search options after their defaults: pages, domain, start page and user agent. */
  function SearchDefaults(opt: SearchOptions): (r: SearchOptions)
    ensures r.pages == (if opt.pages == 0 then Internal.DefaultPages else opt.pages)
    ensures r.startPage == (if opt.startPage == 0 then Internal.DefaultStartPage else opt.startPage)
    ensures r.domain == (if opt.domain == "" then Internal.DefaultDomain else opt.domain)
    ensures r.userAgent == (if opt.userAgent == "" then Internal.DefaultUserAgent else opt.userAgent)
    ensures r.pages != 0 && r.startPage != 0 && r.domain != "" && r.userAgent != ""
    ensures r.(pages := opt.pages, startPage := opt.startPage, domain := opt.domain,
               userAgent := opt.userAgent) == opt
  {
    opt.(pages := Internal.Filled(opt.pages, 0, Internal.DefaultPages),
         domain := Internal.Filled(opt.domain, "", Internal.DefaultDomain),
         startPage := Internal.Filled(opt.startPage, 0, Internal.DefaultStartPage),
         userAgent := Internal.Filled(opt.userAgent, "", Internal.DefaultUserAgent))
  }

  /** The Product options after their defaults: domain and user agent. */
  function ProductDefaults(opt: ProductOptions): (r: ProductOptions)
    ensures r.domain == (if opt.domain == "" then Internal.DefaultDomain else opt.domain)
    ensures r.userAgent == (if opt.userAgent == "" then Internal.DefaultUserAgent else opt.userAgent)
    ensures r.domain != "" && r.userAgent != ""
    ensures r.(domain := opt.domain, userAgent := opt.userAgent) == opt
  {
    opt.(domain := Internal.Filled(opt.domain, "", Internal.DefaultDomain),
         userAgent := Internal.Filled(opt.userAgent, "", Internal.DefaultUserAgent))
  }

  /** The Pricing options after their defaults: pages, domain, start page and user agent. */
  function PricingDefaults(opt: PricingOptions): (r: PricingOptions)
    ensures r.pages == (if opt.pages == 0 then Internal.DefaultPages else opt.pages)
    ensures r.startPage == (if opt.startPage == 0 then Internal.DefaultStartPage else opt.startPage)
    ensures r.domain == (if opt.domain == "" then Internal.DefaultDomain else opt.domain)
    ensures r.userAgent == (if opt.userAgent == "" then Internal.DefaultUserAgent else opt.userAgent)
    ensures r.pages != 0 && r.startPage != 0 && r.domain != "" && r.userAgent != ""
    ensures r.(pages := opt.pages, startPage := opt.startPage, domain := opt.domain,
               userAgent := opt.userAgent) == opt
  {
    opt.(pages := Internal.Filled(opt.pages, 0, Internal.DefaultPages),
         domain := Internal.Filled(opt.domain, "", Internal.DefaultDomain),
         startPage := Internal.Filled(opt.startPage, 0, Internal.DefaultStartPage),
         userAgent := Internal.Filled(opt.userAgent, "", Internal.DefaultUserAgent))
  }

  // ---------------------------------------------------------------------------------
  // The Search context map
  // ---------------------------------------------------------------------------------

  /** The map that `mods` leave behind when they run on `m` from first to last. */
  function ApplyModifiers(m: map<string, Value>, mods: seq<Modifier>): (r: map<string, Value>)
    ensures r.Keys == m.Keys + (set i | 0 <= i < |mods| :: mods[i].key)
    decreases |mods|
  {
    if mods == [] then m
    else
      var last, init := mods[|mods| - 1], mods[..|mods| - 1];
      assert (set i | 0 <= i < |mods| :: mods[i].key) ==
             (set i | 0 <= i < |init| :: init[i].key) + {last.key};
      ApplyModifiers(m, init)[last.key := last.value]
  }

  /** Of several modifiers writing one key, the last one decides its value. */
  lemma {:induction false} LastModifierWins(m: map<string, Value>, mods: seq<Modifier>, j: int)
    requires 0 <= j < |mods|
    requires forall i :: j < i < |mods| ==> mods[i].key != mods[j].key
    ensures Lookup(ApplyModifiers(m, mods), mods[j].key) == mods[j].value
  {
    if j < |mods| - 1 {
      LastModifierWins(m, mods[..|mods| - 1], j);
    }
  }

  /** A key that no modifier writes keeps the value it had. */
  lemma {:induction false} UnmodifiedKeyKept(m: map<string, Value>, mods: seq<Modifier>, key: string)
    requires forall i :: 0 <= i < |mods| ==> mods[i].key != key
    ensures Lookup(ApplyModifiers(m, mods), key) == Lookup(m, key)
  {
    if mods != [] {
      UnmodifiedKeyKept(m, mods[..|mods| - 1], key);
    }
  }

  /** The Search context: a fresh map, the caller's modifiers, then the sort_by default. */
  function SearchContext(mods: seq<Modifier>): (ctx: map<string, Value>)
    ensures Lookup(ctx, "sort_by") ==
              (if Lookup(ApplyModifiers(map[], mods), "sort_by") == Null then Str(Internal.DefaultSortBy)
               else Lookup(ApplyModifiers(map[], mods), "sort_by"))
    ensures Lookup(ctx, "sort_by") != Null
    ensures ctx - {"sort_by"} == ApplyModifiers(map[], mods) - {"sort_by"}
  {
    Internal.FilledKey(ApplyModifiers(map[], mods), "sort_by", Str(Internal.DefaultSortBy))
  }

  /** Outside "sort_by", the Search context reads as the caller's modifiers wrote it. */
  lemma SearchContextElsewhere(mods: seq<Modifier>, key: string)
    requires key != "sort_by"
    ensures Lookup(SearchContext(mods), key) == Lookup(ApplyModifiers(map[], mods), key)
  {
    var ctx, m := SearchContext(mods), ApplyModifiers(map[], mods);
    assert key in ctx <==> key in ctx - {"sort_by"};
    assert key in m <==> key in m - {"sort_by"};
    if key in ctx {
      assert ctx[key] == (ctx - {"sort_by"})[key];
      assert m[key] == (m - {"sort_by"})[key];
    }
  }

  /**
   * Writing the sort_by default changes neither verdict: the Search context passes the sort
   * and price checks exactly when the caller's modifiers' map does.
   */
  lemma SearchContextChecks(mods: seq<Modifier>)
    ensures SortByAccepted(SearchContext(mods)) == SortByAccepted(ApplyModifiers(map[], mods))
    ensures PricesAccepted(SearchContext(mods)) == PricesAccepted(ApplyModifiers(map[], mods))
  {
    SearchContextElsewhere(mods, "min_price");
    SearchContextElsewhere(mods, "max_price");
  }

  /** When no modifier sets sort_by, it becomes "r", which the Search check accepts. */
  lemma {:induction false} SortByDefaultAccepted(mods: seq<Modifier>)
    requires forall i :: 0 <= i < |mods| ==> mods[i].key != "sort_by"
    ensures Lookup(SearchContext(mods), "sort_by") == Str("r")
    ensures CheckSortBy(SearchContext(mods)) == Pass
  {
    UnmodifiedKeyKept(map[], mods, "sort_by");
  }

  /** A sort_by string is accepted exactly when it is one of the four sort keys. */
  lemma AcceptedSortKeys(ctx: map<string, Value>, key: string)
    requires Lookup(ctx, "sort_by") == Str(key)
    ensures CheckSortBy(ctx) == Pass <==> key == "r" || key == "p" || key == "rv" || key == "pd"
    ensures CheckSortBy(ctx) != Pass ==> CheckSortBy(ctx) == Fail(InvalidSortBy(key))
  {
  }

  // ---------------------------------------------------------------------------------
  // Validation
  // ---------------------------------------------------------------------------------

  /** The errors that `checkParameterValidity` and the URL check return. */
  datatype ParamError =
    | InvalidUrl
    | InvalidUserAgent(userAgent: UserAgent)
    | InvalidRender(render: Render)
    | NonPositivePages
    | InvalidSortBy(sortBy: string)
    | NegativePrice
    | InvalidParseInstructions

  /**
   * The result of a validation: it passes, returns an error, or panics because a context
   * value is not of the type that a Go type assertion demands (`key` names the value).
   */
  datatype Check = Pass | Fail(error: ParamError) | Panic(key: string)
  {
    /** Runs `next` only when this check passed, so the first failure is the one reported. */
    function AndThen(next: Check): Check
    {
      if Pass? then next else this
    }
  }

  predicate RenderAccepted(render: Render, v: Validators)
  {
    render == "" || v.renderValid(render)
  }

  predicate InstructionsAccepted(instructions: Option<Instructions>, v: Validators)
  {
    instructions.Some? ==> v.instructionsValid(instructions.value)
  }

  /** sort_by is unset, or a string among the accepted sort keys. */
  predicate SortByAccepted(ctx: map<string, Value>)
  {
    var s := Lookup(ctx, "sort_by");
    s == Null || (s.Str? && s.s in AcceptedSortByParameters)
  }

  /** Neither price bound is set, or both are integers and neither is negative. */
  predicate PricesAccepted(ctx: map<string, Value>)
  {
    var lo, hi := Lookup(ctx, "min_price"), Lookup(ctx, "max_price");
    (lo == Null && hi == Null) || (lo.Int? && hi.Int? && lo.i >= 0 && hi.i >= 0)
  }

  /** The user-agent stage: an agent the validator refuses is reported as such. */
  function CheckUserAgent(userAgent: UserAgent, v: Validators): (c: Check)
    ensures c.Pass? <==> v.userAgentValid(userAgent)
    ensures !c.Pass? ==> c == Fail(InvalidUserAgent(userAgent))
  {
    if v.userAgentValid(userAgent) then Pass else Fail(InvalidUserAgent(userAgent))
  }

  /** The render stage: only a non-empty render is validated. */
  function CheckRender(render: Render, v: Validators): (c: Check)
    ensures c.Pass? <==> RenderAccepted(render, v)
    ensures !c.Pass? ==> c == Fail(InvalidRender(render))
  {
    if render != "" && !v.renderValid(render) then Fail(InvalidRender(render)) else Pass
  }

  /** The paging stage: both the page count and the start page must be positive. */
  function CheckPages(pages: int, startPage: int): (c: Check)
    ensures c.Pass? <==> pages > 0 && startPage > 0
    ensures !c.Pass? ==> c == Fail(NonPositivePages)
  {
    if pages <= 0 || startPage <= 0 then Fail(NonPositivePages) else Pass
  }

  /** The parse-instruction stage: only instructions that are present are validated. */
  function CheckInstructions(instructions: Option<Instructions>, v: Validators): (c: Check)
    ensures c.Pass? <==> InstructionsAccepted(instructions, v)
    ensures !c.Pass? ==> c == Fail(InvalidParseInstructions)
  {
    if instructions.Some? && !v.instructionsValid(instructions.value) then
      Fail(InvalidParseInstructions)
    else
      Pass
  }

  /** The sort_by check; a value that is not a string fails the `.(string)` assertion. */
  function CheckSortBy(ctx: map<string, Value>): (c: Check)
    ensures c.Pass? <==> SortByAccepted(ctx)
    ensures c.Panic? <==> Lookup(ctx, "sort_by") != Null && !Lookup(ctx, "sort_by").Str?
    ensures c.Panic? ==> c.key == "sort_by"
    ensures c.Fail? <==> Lookup(ctx, "sort_by").Str? && Lookup(ctx, "sort_by").s !in AcceptedSortByParameters
    ensures c.Fail? ==> c.error == InvalidSortBy(Lookup(ctx, "sort_by").s)
  {
    match Lookup(ctx, "sort_by")
    case Null => Pass
    case Str(s) => if s in AcceptedSortByParameters then Pass else Fail(InvalidSortBy(s))
    case _ => Panic("sort_by")
  }

  /**
   * The price check, with Go's order of evaluation: once either bound is set, min_price is
   * asserted to be an int first, and max_price is asserted only when min_price is not
   * negative. A bound that is unset (nil) fails its assertion like any non-int value.
   */
  function CheckPrices(ctx: map<string, Value>): (c: Check)
    ensures c.Pass? <==> PricesAccepted(ctx)
    ensures c.Fail? ==> c.error == NegativePrice
    ensures (Lookup(ctx, "min_price") == Null) != (Lookup(ctx, "max_price") == Null) ==> !c.Pass?
    ensures Lookup(ctx, "min_price") == Null && Lookup(ctx, "max_price") != Null ==>
              c == Panic("min_price")
    ensures Lookup(ctx, "min_price").Int? && Lookup(ctx, "min_price").i < 0 ==>
              c == Fail(NegativePrice)
    ensures Lookup(ctx, "min_price") != Null && !Lookup(ctx, "min_price").Int? ==>
              c == Panic("min_price")
    ensures (Lookup(ctx, "min_price").Int? && Lookup(ctx, "min_price").i >= 0 &&
             !Lookup(ctx, "max_price").Int?) ==> c == Panic("max_price")
    ensures (Lookup(ctx, "min_price").Int? && Lookup(ctx, "min_price").i >= 0 &&
             Lookup(ctx, "max_price").Int? && Lookup(ctx, "max_price").i < 0) ==> c == Fail(NegativePrice)
  {
    var lo, hi := Lookup(ctx, "min_price"), Lookup(ctx, "max_price");
    if lo == Null && hi == Null then Pass
    else if !lo.Int? then Panic("min_price")
    else if lo.i < 0 then Fail(NegativePrice)
    else if !hi.Int? then Panic("max_price")
    else if hi.i < 0 then Fail(NegativePrice)
    else Pass
  }

  /** `GoogleShoppingUrlOpts.checkParameterValidity` */
  function CheckUrlParameters(opt: UrlOptions, v: Validators): (c: Check)
    ensures c.Pass? <==>
              && v.userAgentValid(opt.userAgent)
              && RenderAccepted(opt.render, v)
              && InstructionsAccepted(opt.parseInstructions, v)
    ensures !c.Panic?
    ensures !v.userAgentValid(opt.userAgent) ==> c == Fail(InvalidUserAgent(opt.userAgent))
    ensures (v.userAgentValid(opt.userAgent) && !RenderAccepted(opt.render, v)) ==>
              c == Fail(InvalidRender(opt.render))
    ensures (v.userAgentValid(opt.userAgent) && RenderAccepted(opt.render, v) &&
             !InstructionsAccepted(opt.parseInstructions, v)) ==> c == Fail(InvalidParseInstructions)
  {
    CheckUserAgent(opt.userAgent, v)
      .AndThen(CheckRender(opt.render, v))
      .AndThen(CheckInstructions(opt.parseInstructions, v))
  }

  /** `GoogleShoppingSearchOpts.checkParameterValidity`, given the context map. */
  function CheckSearchParameters(opt: SearchOptions, ctx: map<string, Value>, v: Validators): (c: Check)
    ensures c.Pass? <==>
              && v.userAgentValid(opt.userAgent)
              && RenderAccepted(opt.render, v)
              && opt.pages > 0 && opt.startPage > 0
              && SortByAccepted(ctx)
              && PricesAccepted(ctx)
              && InstructionsAccepted(opt.parseInstructions, v)
    ensures c.Panic? ==> c.key == "sort_by" || c.key == "min_price" || c.key == "max_price"
    ensures !v.userAgentValid(opt.userAgent) ==> c == Fail(InvalidUserAgent(opt.userAgent))
    ensures (v.userAgentValid(opt.userAgent) && RenderAccepted(opt.render, v) &&
             (opt.pages <= 0 || opt.startPage <= 0)) ==> c == Fail(NonPositivePages)
    ensures (v.userAgentValid(opt.userAgent) && !RenderAccepted(opt.render, v)) ==>
              c == Fail(InvalidRender(opt.render))
    ensures (v.userAgentValid(opt.userAgent) && RenderAccepted(opt.render, v) &&
             opt.pages > 0 && opt.startPage > 0 && !SortByAccepted(ctx)) ==> c == CheckSortBy(ctx)
    ensures (v.userAgentValid(opt.userAgent) && RenderAccepted(opt.render, v) &&
             opt.pages > 0 && opt.startPage > 0 && SortByAccepted(ctx) && !PricesAccepted(ctx)) ==>
              c == CheckPrices(ctx)
    ensures (v.userAgentValid(opt.userAgent) && RenderAccepted(opt.render, v) &&
             opt.pages > 0 && opt.startPage > 0 && SortByAccepted(ctx) && PricesAccepted(ctx) &&
             !InstructionsAccepted(opt.parseInstructions, v)) ==> c == Fail(InvalidParseInstructions)
    ensures c.Panic? <==>
              && v.userAgentValid(opt.userAgent) && RenderAccepted(opt.render, v)
              && opt.pages > 0 && opt.startPage > 0
              && (CheckSortBy(ctx).Panic? || (SortByAccepted(ctx) && CheckPrices(ctx).Panic?))
  {
    CheckUserAgent(opt.userAgent, v)
      .AndThen(CheckRender(opt.render, v))
      .AndThen(CheckPages(opt.pages, opt.startPage))
      .AndThen(CheckSortBy(ctx))
      .AndThen(CheckPrices(ctx))
      .AndThen(CheckInstructions(opt.parseInstructions, v))
  }

  /** `GoogleShoppingProductOpts.checkParameterValidity` */
  function CheckProductParameters(opt: ProductOptions, v: Validators): (c: Check)
    ensures c.Pass? <==>
              && v.userAgentValid(opt.userAgent)
              && RenderAccepted(opt.render, v)
              && InstructionsAccepted(opt.parseInstructions, v)
    ensures !c.Panic?
    ensures !v.userAgentValid(opt.userAgent) ==> c == Fail(InvalidUserAgent(opt.userAgent))
    ensures (v.userAgentValid(opt.userAgent) && !RenderAccepted(opt.render, v)) ==>
              c == Fail(InvalidRender(opt.render))
    ensures (v.userAgentValid(opt.userAgent) && RenderAccepted(opt.render, v) &&
             !InstructionsAccepted(opt.parseInstructions, v)) ==> c == Fail(InvalidParseInstructions)
  {
    CheckUserAgent(opt.userAgent, v)
      .AndThen(CheckRender(opt.render, v))
      .AndThen(CheckInstructions(opt.parseInstructions, v))
  }

  /** `GoogleShoppingPricingOpts.checkParameterValidity` */
  function CheckPricingParameters(opt: PricingOptions, v: Validators): (c: Check)
    ensures c.Pass? <==>
              && v.userAgentValid(opt.userAgent)
              && RenderAccepted(opt.render, v)
              && opt.pages > 0 && opt.startPage > 0
              && InstructionsAccepted(opt.parseInstructions, v)
    ensures !c.Panic?
    ensures !v.userAgentValid(opt.userAgent) ==> c == Fail(InvalidUserAgent(opt.userAgent))
    ensures (v.userAgentValid(opt.userAgent) && RenderAccepted(opt.render, v) &&
             (opt.pages <= 0 || opt.startPage <= 0)) ==> c == Fail(NonPositivePages)
    ensures (v.userAgentValid(opt.userAgent) && !RenderAccepted(opt.render, v)) ==>
              c == Fail(InvalidRender(opt.render))
    ensures (v.userAgentValid(opt.userAgent) && RenderAccepted(opt.render, v) &&
             opt.pages > 0 && opt.startPage > 0 && !InstructionsAccepted(opt.parseInstructions, v)) ==>
              c == Fail(InvalidParseInstructions)
  {
    CheckUserAgent(opt.userAgent, v)
      .AndThen(CheckRender(opt.render, v))
      .AndThen(CheckPages(opt.pages, opt.startPage))
      .AndThen(CheckInstructions(opt.parseInstructions, v))
  }

  // ---------------------------------------------------------------------------------
  // Payloads and outcomes
  // ---------------------------------------------------------------------------------

  /** The top-level keys of a request payload; `Name` is the key as it appears in the JSON. */
  datatype Field =
    | SourceKey | UrlKey | DomainKey | QueryKey | StartPageKey | PagesKey | LocaleKey
    | ResultsLanguageKey | GeoLocationKey | UserAgentTypeKey | RenderKey | CallbackUrlKey
    | ParseKey | ContextKey | ParsingInstructionsKey
  {
    function Name(): string
    {
      match this
      case SourceKey => "source"
      case UrlKey => "url"
      case DomainKey => "domain"
      case QueryKey => "query"
      case StartPageKey => "start_page"
      case PagesKey => "pages"
      case LocaleKey => "locale"
      case ResultsLanguageKey => "results_language"
      case GeoLocationKey => "geo_location"
      case UserAgentTypeKey => "user_agent_type"
      case RenderKey => "render"
      case CallbackUrlKey => "callback_url"
      case ParseKey => "parse"
      case ContextKey => "context"
      case ParsingInstructionsKey => "parsing_instructions"
    }
  }

  /** Distinct fields have distinct JSON keys, so a payload keyed by fields loses nothing. */
  lemma FieldNamesDistinct(f: Field, g: Field)
    requires f != g
    ensures f.Name() != g.Name()
  {
  }

  /** A request payload: Go's `map[string]interface{}`, keyed by the fields above. */
  type Payload = map<Field, Value>

  /** What the request engine is called with: the payload and the two flags its result uses. */
  datatype Request = Request(payload: Payload, parse: bool, customParser: bool)

  /** How a `Scrape…Ctx` call ends, up to the call into the request engine. */
  datatype Outcome =
    | Rejected(error: ParamError)
    | Panicked(key: string)
    | Dispatched(request: Request)

  /** The request for a payload, with the caller's parsing instructions added when present. */
  function Submission(base: Payload, parse: bool, instructions: Option<Instructions>): (r: Request)
    requires ParsingInstructionsKey !in base
    ensures ParsingInstructionsKey in r.payload <==> instructions.Some?
    ensures instructions.Some? ==> r.payload[ParsingInstructionsKey] == Obj(instructions.value)
    ensures r.payload - {ParsingInstructionsKey} == base
    ensures r.customParser == instructions.Some? && r.parse == parse
  {
    var payload := if instructions.Some? then base[ParsingInstructionsKey := Obj(instructions.value)] else base;
    Request(payload, parse, instructions.Some?)
  }

  /** The outcome of a validation: the request is made only when every check passed. */
  function Conclude(c: Check, request: Request): (out: Outcome)
    ensures out.Dispatched? <==> c.Pass?
    ensures c.Fail? ==> out == Rejected(c.error)
    ensures c.Panic? ==> out == Panicked(c.key)
    ensures out.Dispatched? ==> out.request == request
  {
    match c
    case Pass => Dispatched(request)
    case Fail(e) => Rejected(e)
    case Panic(k) => Panicked(k)
  }

  function UrlPayload(url: string, opt: UrlOptions): Payload
  {
    map[
      SourceKey := Str(GoogleShoppingUrl),
      UrlKey := Str(url),
      UserAgentTypeKey := Str(opt.userAgent),
      RenderKey := Str(opt.render),
      CallbackUrlKey := Str(opt.callbackUrl),
      GeoLocationKey := Str(opt.geoLocation),
      ParseKey := Bool(opt.parse)
    ]
  }

  /** One `{key, value}` entry of the Search context list; a missing key gives nil. */
  function ContextEntry(ctx: map<string, Value>, key: string): Value
  {
    Obj(map["key" := Str(key), "value" := Lookup(ctx, key)])
  }

  /** A context entry has exactly a "key" and a "value"; the value is nil when the map has none. */
  lemma ContextEntryShape(ctx: map<string, Value>, key: string)
    ensures var e := ContextEntry(ctx, key);
      && e.Obj? && e.fields.Keys == {"key", "value"}
      && e.fields["key"] == Str(key)
      && (e.fields["value"] == Null <==> key !in ctx || ctx[key] == Null)
      && (key in ctx ==> e.fields["value"] == ctx[key])
  {
  }

  function SearchPayload(query: string, opt: SearchOptions, ctx: map<string, Value>): Payload
  {
    map[
      SourceKey := Str(GoogleShoppingSearch),
      DomainKey := Str(opt.domain),
      QueryKey := Str(query),
      StartPageKey := Int(opt.startPage),
      PagesKey := Int(opt.pages),
      LocaleKey := Str(opt.locale),
      ResultsLanguageKey := Str(opt.resultsLanguage),
      GeoLocationKey := Str(opt.geoLocation),
      UserAgentTypeKey := Str(opt.userAgent),
      RenderKey := Str(opt.render),
      CallbackUrlKey := Str(opt.callbackUrl),
      ParseKey := Bool(opt.parse),
      ContextKey := List([
        ContextEntry(ctx, "nfpr"),
        ContextEntry(ctx, "sort_by"),
        ContextEntry(ctx, "min_price"),
        ContextEntry(ctx, "max_price")
      ])
    ]
  }

  function ProductPayload(query: string, opt: ProductOptions): Payload
  {
    map[
      SourceKey := Str(GoogleShoppingProduct),
      DomainKey := Str(opt.domain),
      QueryKey := Str(query),
      LocaleKey := Str(opt.locale),
      ResultsLanguageKey := Str(opt.resultsLanguage),
      GeoLocationKey := Str(opt.geoLocation),
      UserAgentTypeKey := Str(opt.userAgent),
      RenderKey := Str(opt.render),
      CallbackUrlKey := Str(opt.callbackUrl),
      ParseKey := Bool(opt.parse)
    ]
  }

  function PricingPayload(query: string, opt: PricingOptions): Payload
  {
    map[
      SourceKey := Str(GoogleShoppingPricing),
      DomainKey := Str(opt.domain),
      QueryKey := Str(query),
      StartPageKey := Int(opt.startPage),
      PagesKey := Int(opt.pages),
      LocaleKey := Str(opt.locale),
      ResultsLanguageKey := Str(opt.resultsLanguage),
      GeoLocationKey := Str(opt.geoLocation),
      UserAgentTypeKey := Str(opt.userAgent),
      RenderKey := Str(opt.render),
      CallbackUrlKey := Str(opt.callbackUrl),
      ParseKey := Bool(opt.parse)
    ]
  }

  /**
   * `ScrapeGoogleShoppingUrlCtx` on the options it selected: the URL is checked before
   * anything else, then the user agent is defaulted and the options validated.
   */
  function UrlOutcome(url: string, opt: UrlOptions, v: Validators): (out: Outcome)
    ensures !v.urlValid(url, UrlHost) ==> out == Rejected(InvalidUrl)
    ensures out.Dispatched? <==>
              && v.urlValid(url, UrlHost)
              && v.userAgentValid(if opt.userAgent == "" then UA_DESKTOP else opt.userAgent)
              && RenderAccepted(opt.render, v)
              && InstructionsAccepted(opt.parseInstructions, v)
    ensures !out.Panicked?
    ensures out.Dispatched? ==>
              && out.request.customParser == opt.parseInstructions.Some?
              && out.request.parse == opt.parse
              && (ParsingInstructionsKey in out.request.payload <==> opt.parseInstructions.Some?)
  {
    if !v.urlValid(url, UrlHost) then Rejected(InvalidUrl)
    else
      var o := UrlDefaults(opt);
      Conclude(CheckUrlParameters(o, v), Submission(UrlPayload(url, o), o.parse, o.parseInstructions))
  }

  /** The Search check on the defaulted options, stated on the options the caller gave. */
  lemma SearchCheckOnDefaults(opt: SearchOptions, v: Validators)
    ensures CheckSearchParameters(SearchDefaults(opt), SearchContext(opt.context), v).Pass? <==>
              && v.userAgentValid(if opt.userAgent == "" then UA_DESKTOP else opt.userAgent)
              && RenderAccepted(opt.render, v)
              && opt.pages >= 0 && opt.startPage >= 0
              && SortByAccepted(ApplyModifiers(map[], opt.context))
              && PricesAccepted(ApplyModifiers(map[], opt.context))
              && InstructionsAccepted(opt.parseInstructions, v)
  {
    SearchContextChecks(opt.context);
  }

  /** `ScrapeGoogleShoppingSearchCtx` on the options it selected. */
  function SearchOutcome(query: string, opt: SearchOptions, v: Validators): (out: Outcome)
    ensures out.Dispatched? <==>
              && v.userAgentValid(if opt.userAgent == "" then UA_DESKTOP else opt.userAgent)
              && RenderAccepted(opt.render, v)
              && opt.pages >= 0 && opt.startPage >= 0
              && SortByAccepted(ApplyModifiers(map[], opt.context))
              && PricesAccepted(ApplyModifiers(map[], opt.context))
              && InstructionsAccepted(opt.parseInstructions, v)
    ensures out.Dispatched? ==>
              && out.request.customParser == opt.parseInstructions.Some?
              && out.request.parse == opt.parse
              && (ParsingInstructionsKey in out.request.payload <==> opt.parseInstructions.Some?)
  {
    var o := SearchDefaults(opt);
    var ctx := SearchContext(opt.context);
    SearchCheckOnDefaults(opt, v);
    Conclude(CheckSearchParameters(o, ctx, v),
             Submission(SearchPayload(query, o, ctx), o.parse, o.parseInstructions))
  }

  /** `ScrapeGoogleShoppingProductCtx` on the options it selected. */
  function ProductOutcome(query: string, opt: ProductOptions, v: Validators): (out: Outcome)
    ensures out.Dispatched? <==>
              && v.userAgentValid(if opt.userAgent == "" then UA_DESKTOP else opt.userAgent)
              && RenderAccepted(opt.render, v)
              && InstructionsAccepted(opt.parseInstructions, v)
    ensures !out.Panicked?
    ensures out.Dispatched? ==>
              && out.request.customParser == opt.parseInstructions.Some?
              && out.request.parse == opt.parse
              && (ParsingInstructionsKey in out.request.payload <==> opt.parseInstructions.Some?)
  {
    var o := ProductDefaults(opt);
    Conclude(CheckProductParameters(o, v),
             Submission(ProductPayload(query, o), o.parse, o.parseInstructions))
  }

  /** `ScrapeGoogleShoppingPricingCtx` on the options it selected. */
  function PricingOutcome(query: string, opt: PricingOptions, v: Validators): (out: Outcome)
    ensures out.Dispatched? <==>
              && v.userAgentValid(if opt.userAgent == "" then UA_DESKTOP else opt.userAgent)
              && RenderAccepted(opt.render, v)
              && opt.pages >= 0 && opt.startPage >= 0
              && InstructionsAccepted(opt.parseInstructions, v)
    ensures !out.Panicked?
    ensures out.Dispatched? ==>
              && out.request.customParser == opt.parseInstructions.Some?
              && out.request.parse == opt.parse
              && (ParsingInstructionsKey in out.request.payload <==> opt.parseInstructions.Some?)
  {
    var o := PricingDefaults(opt);
    Conclude(CheckPricingParameters(o, v),
             Submission(PricingPayload(query, o), o.parse, o.parseInstructions))
  }

  /** The shape of a Search payload: its source, its context list, no URL and no instructions. */
  lemma SearchPayloadShape(query: string, o: SearchOptions, ctx: map<string, Value>)
    ensures var p := SearchPayload(query, o, ctx);
      && ParsingInstructionsKey !in p && ContextKey in p && UrlKey !in p
      && p[SourceKey] == Str(GoogleShoppingSearch)
  {
  }

  /** The entries of a Search payload that the defaults concern. */
  lemma SearchPayloadFields(query: string, o: SearchOptions, ctx: map<string, Value>)
    ensures var p := SearchPayload(query, o, ctx);
      && p[PagesKey] == Int(o.pages) && p[StartPageKey] == Int(o.startPage)
      && p[DomainKey] == Str(o.domain) && p[UserAgentTypeKey] == Str(o.userAgent)
      && p[QueryKey] == Str(query)
  {
  }

  /** The context list of a Search payload, one `{key, value}` entry per context key. */
  lemma SearchPayloadContext(query: string, o: SearchOptions, ctx: map<string, Value>)
    ensures SearchPayload(query, o, ctx)[ContextKey] ==
      List([ContextEntry(ctx, "nfpr"), ContextEntry(ctx, "sort_by"),
            ContextEntry(ctx, "min_price"), ContextEntry(ctx, "max_price")])
  {
  }

  /** The entries of a Pricing payload that the defaults and the paging checks concern. */
  lemma PricingPayloadFields(query: string, o: PricingOptions)
    ensures var p := PricingPayload(query, o);
      && ParsingInstructionsKey !in p && ContextKey !in p && UrlKey !in p
      && p[SourceKey] == Str(GoogleShoppingPricing)
      && p[PagesKey] == Int(o.pages) && p[StartPageKey] == Int(o.startPage)
      && p[DomainKey] == Str(o.domain) && p[UserAgentTypeKey] == Str(o.userAgent)
      && p[QueryKey] == Str(query)
  {
  }

  /** The entries of a Product payload: the Search entries without paging and context. */
  lemma ProductPayloadFields(query: string, o: ProductOptions)
    ensures var p := ProductPayload(query, o);
      && ParsingInstructionsKey !in p && StartPageKey !in p && PagesKey !in p
      && ContextKey !in p && UrlKey !in p
      && p[SourceKey] == Str(GoogleShoppingProduct)
      && p[DomainKey] == Str(o.domain) && p[UserAgentTypeKey] == Str(o.userAgent)
      && p[QueryKey] == Str(query)
  {
  }

  /** The entries of a Url payload: the URL itself and no query, domain or paging. */
  lemma UrlPayloadFields(url: string, o: UrlOptions)
    ensures var p := UrlPayload(url, o);
      && ParsingInstructionsKey !in p && QueryKey !in p && DomainKey !in p
      && StartPageKey !in p && PagesKey !in p && ContextKey !in p
      && p[SourceKey] == Str(GoogleShoppingUrl)
      && p[UrlKey] == Str(url) && p[UserAgentTypeKey] == Str(o.userAgent)
      && p[RenderKey] == Str(o.render)
  {
  }

  /** A dispatched Url request is the submission of the defaulted options' payload. */
  lemma UrlRequest(url: string, opt: UrlOptions, v: Validators)
    requires UrlOutcome(url, opt, v).Dispatched?
    ensures var o := UrlDefaults(opt);
      UrlOutcome(url, opt, v).request == Submission(UrlPayload(url, o), o.parse, o.parseInstructions)
  {
  }

  /** A dispatched Search request is the submission of the defaulted options' payload. */
  lemma SearchRequest(query: string, opt: SearchOptions, v: Validators)
    requires SearchOutcome(query, opt, v).Dispatched?
    ensures var o := SearchDefaults(opt);
      SearchOutcome(query, opt, v).request ==
        Submission(SearchPayload(query, o, SearchContext(opt.context)), o.parse, o.parseInstructions)
  {
  }

  /** A dispatched Pricing request is the submission of the defaulted options' payload. */
  lemma PricingRequest(query: string, opt: PricingOptions, v: Validators)
    requires PricingOutcome(query, opt, v).Dispatched?
    ensures var o := PricingDefaults(opt);
      PricingOutcome(query, opt, v).request ==
        Submission(PricingPayload(query, o), o.parse, o.parseInstructions)
  {
  }

  /** A dispatched Product request is the submission of the defaulted options' payload. */
  lemma ProductRequest(query: string, opt: ProductOptions, v: Validators)
    requires ProductOutcome(query, opt, v).Dispatched?
    ensures var o := ProductDefaults(opt);
      ProductOutcome(query, opt, v).request ==
        Submission(ProductPayload(query, o), o.parse, o.parseInstructions)
  {
  }

  // ---------------------------------------------------------------------------------
  // Properties of the pipeline
  // ---------------------------------------------------------------------------------

  /** An invalid URL is rejected whatever options accompany it: they are not even read. */
  lemma UrlCheckedFirst(url: string, a: UrlOptions, b: UrlOptions, v: Validators)
    requires !v.urlValid(url, UrlHost)
    ensures UrlOutcome(url, a, v) == UrlOutcome(url, b, v) == Rejected(InvalidUrl)
  {
  }

  /**
   * Omitted Search options reach the payload as their documented defaults, and options
   * that were set reach it unchanged.
   */
  lemma SearchDefaultsInPayload(query: string, opt: SearchOptions, v: Validators)
    requires SearchOutcome(query, opt, v).Dispatched?
    ensures var p := SearchOutcome(query, opt, v).request.payload;
      && p[PagesKey] == Int(if opt.pages == 0 then 1 else opt.pages)
      && p[StartPageKey] == Int(if opt.startPage == 0 then 1 else opt.startPage)
      && p[DomainKey] == Str(if opt.domain == "" then DOMAIN_COM else opt.domain)
      && p[UserAgentTypeKey] == Str(if opt.userAgent == "" then UA_DESKTOP else opt.userAgent)
      && p[PagesKey].i >= 1 && p[StartPageKey].i >= 1
      && p[QueryKey] == Str(query)
      && p[SourceKey] == Str(GoogleShoppingSearch)
  {
    SearchRequest(query, opt, v);
    SearchPayloadShape(query, SearchDefaults(opt), SearchContext(opt.context));
    SearchPayloadFields(query, SearchDefaults(opt), SearchContext(opt.context));
  }

  /**
   * A dispatched Url payload names the Url source, carries the URL, and carries the desktop
   * class for an omitted user agent; render goes through unchanged.
   */
  lemma UrlDefaultsInPayload(url: string, opt: UrlOptions, v: Validators)
    requires UrlOutcome(url, opt, v).Dispatched?
    ensures var p := UrlOutcome(url, opt, v).request.payload;
      && p[SourceKey] == Str(GoogleShoppingUrl)
      && p[UrlKey] == Str(url)
      && p[UserAgentTypeKey] == Str(if opt.userAgent == "" then UA_DESKTOP else opt.userAgent)
      && p[RenderKey] == Str(opt.render)
      && StartPageKey !in p && PagesKey !in p && QueryKey !in p
  {
    UrlRequest(url, opt, v);
    UrlPayloadFields(url, UrlDefaults(opt));
  }

  /** Omitted Product options reach the payload as their documented defaults. */
  lemma ProductDefaultsInPayload(query: string, opt: ProductOptions, v: Validators)
    requires ProductOutcome(query, opt, v).Dispatched?
    ensures var p := ProductOutcome(query, opt, v).request.payload;
      && p[DomainKey] == Str(if opt.domain == "" then DOMAIN_COM else opt.domain)
      && p[UserAgentTypeKey] == Str(if opt.userAgent == "" then UA_DESKTOP else opt.userAgent)
      && p[QueryKey] == Str(query)
      && p[SourceKey] == Str(GoogleShoppingProduct)
  {
    ProductRequest(query, opt, v);
    ProductPayloadFields(query, ProductDefaults(opt));
  }

  /** A negative page count or start page is rejected once user agent and render passed. */
  lemma SearchNegativePagesRejected(query: string, opt: SearchOptions, v: Validators)
    requires opt.pages < 0 || opt.startPage < 0
    requires v.userAgentValid(if opt.userAgent == "" then UA_DESKTOP else opt.userAgent)
    requires RenderAccepted(opt.render, v)
    ensures SearchOutcome(query, opt, v) == Rejected(NonPositivePages)
  {
  }

  /** The same for Pricing. */
  lemma PricingNegativePagesRejected(query: string, opt: PricingOptions, v: Validators)
    requires opt.pages < 0 || opt.startPage < 0
    requires v.userAgentValid(if opt.userAgent == "" then UA_DESKTOP else opt.userAgent)
    requires RenderAccepted(opt.render, v)
    ensures PricingOutcome(query, opt, v) == Rejected(NonPositivePages)
  {
  }

  /** Omitted Pricing options reach the payload as their documented defaults. */
  lemma PricingDefaultsInPayload(query: string, opt: PricingOptions, v: Validators)
    requires PricingOutcome(query, opt, v).Dispatched?
    ensures var p := PricingOutcome(query, opt, v).request.payload;
      && p[PagesKey] == Int(if opt.pages == 0 then 1 else opt.pages)
      && p[StartPageKey] == Int(if opt.startPage == 0 then 1 else opt.startPage)
      && p[DomainKey] == Str(if opt.domain == "" then DOMAIN_COM else opt.domain)
      && p[UserAgentTypeKey] == Str(if opt.userAgent == "" then UA_DESKTOP else opt.userAgent)
      && p[PagesKey].i >= 1 && p[StartPageKey].i >= 1
      && p[QueryKey] == Str(query)
      && p[SourceKey] == Str(GoogleShoppingPricing)
  {
    PricingRequest(query, opt, v);
    PricingPayloadFields(query, PricingDefaults(opt));
  }

  /**
   * The Search payload's "context" is four `{key, value}` entries, keyed nfpr, sort_by,
   * min_price and max_price in that order, each carrying the value the caller's modifiers
   * gave that key (nil when none did), except that an unset sort_by carries "r".
   */
  lemma SearchContextPayload(query: string, opt: SearchOptions, v: Validators)
    requires SearchOutcome(query, opt, v).Dispatched?
    ensures var m := ApplyModifiers(map[], opt.context);
      var sortBy := if Lookup(m, "sort_by") == Null then Str("r") else Lookup(m, "sort_by");
      SearchOutcome(query, opt, v).request.payload[ContextKey] ==
        List([ContextEntry(m, "nfpr"),
              Obj(map["key" := Str("sort_by"), "value" := sortBy]),
              ContextEntry(m, "min_price"),
              ContextEntry(m, "max_price")])
  {
    var o, ctx := SearchDefaults(opt), SearchContext(opt.context);
    SearchRequest(query, opt, v);
    SearchPayloadContext(query, o, ctx);
    SearchContextElsewhere(opt.context, "nfpr");
    SearchContextElsewhere(opt.context, "min_price");
    SearchContextElsewhere(opt.context, "max_price");
  }

  /** A Product payload carries no paging entries. */
  lemma ProductPagingAbsent(query: string, opt: ProductOptions, v: Validators)
    requires ProductOutcome(query, opt, v).Dispatched?
    ensures var p := ProductOutcome(query, opt, v).request.payload;
      StartPageKey !in p && PagesKey !in p
  {
    ProductRequest(query, opt, v);
    ProductPayloadFields(query, ProductDefaults(opt));
  }

  /** A Pricing payload carries both paging entries. */
  lemma PricingPagingPresent(query: string, opt: PricingOptions, v: Validators)
    requires PricingOutcome(query, opt, v).Dispatched?
    ensures var p := PricingOutcome(query, opt, v).request.payload;
      StartPageKey in p && PagesKey in p
  {
    PricingRequest(query, opt, v);
    PricingPayloadFields(query, PricingDefaults(opt));
  }

  /** A Search payload carries both paging entries and the context list. */
  lemma SearchPagingPresent(query: string, opt: SearchOptions, v: Validators)
    requires SearchOutcome(query, opt, v).Dispatched?
    ensures var p := SearchOutcome(query, opt, v).request.payload;
      StartPageKey in p && PagesKey in p && ContextKey in p
  {
    SearchRequest(query, opt, v);
    SearchPayloadShape(query, SearchDefaults(opt), SearchContext(opt.context));
    SearchPayloadFields(query, SearchDefaults(opt), SearchContext(opt.context));
  }

  /**
   * In every target an empty user agent becomes the desktop class, so the user-agent check
   * passes it whenever that class is valid.
   */
  lemma EmptyUserAgentDefaulted(
      u: UrlOptions, s: SearchOptions, pd: ProductOptions, pr: PricingOptions, v: Validators)
    ensures u.userAgent == "" ==> UrlDefaults(u).userAgent == UA_DESKTOP
    ensures s.userAgent == "" ==> SearchDefaults(s).userAgent == UA_DESKTOP
    ensures pd.userAgent == "" ==> ProductDefaults(pd).userAgent == UA_DESKTOP
    ensures pr.userAgent == "" ==> PricingDefaults(pr).userAgent == UA_DESKTOP
    ensures (v.userAgentValid(UA_DESKTOP) && u.userAgent == "") ==>
              CheckUserAgent(UrlDefaults(u).userAgent, v) == Pass
    ensures (v.userAgentValid(UA_DESKTOP) && s.userAgent == "") ==>
              CheckUserAgent(SearchDefaults(s).userAgent, v) == Pass
    ensures (v.userAgentValid(UA_DESKTOP) && pd.userAgent == "") ==>
              CheckUserAgent(ProductDefaults(pd).userAgent, v) == Pass
    ensures (v.userAgentValid(UA_DESKTOP) && pr.userAgent == "") ==>
              CheckUserAgent(PricingDefaults(pr).userAgent, v) == Pass
  {
  }

  /**
   * A struct that went through a call already holds its defaults, so passing it again
   * gives the same outcome: writing the defaults is idempotent.
   */
  lemma {:induction false} ResubmissionStable(
      url: string, query: string, v: Validators,
      u: UrlOptions, s: SearchOptions, pd: ProductOptions, pr: PricingOptions)
    ensures UrlDefaults(UrlDefaults(u)) == UrlDefaults(u)
    ensures SearchDefaults(SearchDefaults(s)) == SearchDefaults(s)
    ensures ProductDefaults(ProductDefaults(pd)) == ProductDefaults(pd)
    ensures PricingDefaults(PricingDefaults(pr)) == PricingDefaults(pr)
    ensures UrlOutcome(url, UrlDefaults(u), v) == UrlOutcome(url, u, v)
    ensures SearchOutcome(query, SearchDefaults(s), v) == SearchOutcome(query, s, v)
    ensures ProductOutcome(query, ProductDefaults(pd), v) == ProductOutcome(query, pd, v)
    ensures PricingOutcome(query, PricingDefaults(pr), v) == PricingOutcome(query, pr, v)
  {
  }

  // ---------------------------------------------------------------------------------
  // The option structs and the Scrape…Ctx calls
  // ---------------------------------------------------------------------------------

  class GoogleShoppingUrlOpts {
    var userAgent: UserAgent
    var render: Render
    var callbackUrl: string
    var geoLocation: string
    var parse: bool
    var parseInstructions: Option<Instructions>
    var pollInterval: int

    /** `&GoogleShoppingUrlOpts{}` */
    constructor ()
      ensures Value() == ZeroUrlOptions
    {
      userAgent, render, callbackUrl, geoLocation := "", "", "", "";
      parse, parseInstructions, pollInterval := false, None, 0;
    }

    function Value(): UrlOptions
      reads this
    {
      UrlOptions(userAgent, render, callbackUrl, geoLocation, parse, parseInstructions, pollInterval)
    }

    /** Writes the defaults into this struct, as the `Scrape…Ctx` call does. */
    method SetDefaults()
      modifies this
      ensures Value() == UrlDefaults(old(Value()))
    {
      userAgent := Internal.SetDefaultUserAgent(userAgent);
    }
  }

  class GoogleShoppingSearchOpts {
    var domain: Domain
    var startPage: int
    var pages: int
    var locale: Locale
    var resultsLanguage: string
    var geoLocation: string
    var userAgent: UserAgent
    var render: Render
    var callbackUrl: string
    var parse: bool
    var parseInstructions: Option<Instructions>
    var pollInterval: int
    var context: seq<Modifier>

    /** `&GoogleShoppingSearchOpts{}` */
    constructor ()
      ensures Value() == ZeroSearchOptions
    {
      domain, startPage, pages, locale, resultsLanguage := "", 0, 0, "", "";
      geoLocation, userAgent, render, callbackUrl := "", "", "", "";
      parse, parseInstructions, pollInterval, context := false, None, 0, [];
    }

    function Value(): SearchOptions
      reads this
    {
      SearchOptions(domain, startPage, pages, locale, resultsLanguage, geoLocation, userAgent,
                    render, callbackUrl, parse, parseInstructions, pollInterval, context)
    }

    /** Writes the defaults into this struct, as the `Scrape…Ctx` call does. */
    method SetDefaults()
      modifies this
      ensures Value() == SearchDefaults(old(Value()))
    {
      pages := Internal.SetDefaultPages(pages);
      domain := Internal.SetDefaultDomain(domain);
      startPage := Internal.SetDefaultStartPage(startPage);
      userAgent := Internal.SetDefaultUserAgent(userAgent);
    }
  }

  class GoogleShoppingProductOpts {
    var domain: Domain
    var locale: Locale
    var resultsLanguage: string
    var geoLocation: string
    var userAgent: UserAgent
    var render: Render
    var callbackUrl: string
    var parse: bool
    var parseInstructions: Option<Instructions>
    var pollInterval: int

    /** `&GoogleShoppingProductOpts{}` */
    constructor ()
      ensures Value() == ZeroProductOptions
    {
      domain, locale, resultsLanguage, geoLocation := "", "", "", "";
      userAgent, render, callbackUrl := "", "", "";
      parse, parseInstructions, pollInterval := false, None, 0;
    }

    function Value(): ProductOptions
      reads this
    {
      ProductOptions(domain, locale, resultsLanguage, geoLocation, userAgent, render,
                     callbackUrl, parse, parseInstructions, pollInterval)
    }

    /** Writes the defaults into this struct, as the `Scrape…Ctx` call does. */
    method SetDefaults()
      modifies this
      ensures Value() == ProductDefaults(old(Value()))
    {
      domain := Internal.SetDefaultDomain(domain);
      userAgent := Internal.SetDefaultUserAgent(userAgent);
    }
  }

  class GoogleShoppingPricingOpts {
    var domain: Domain
    var startPage: int
    var pages: int
    var locale: Locale
    var resultsLanguage: string
    var geoLocation: string
    var userAgent: UserAgent
    var render: Render
    var callbackUrl: string
    var parse: bool
    var parseInstructions: Option<Instructions>
    var pollInterval: int

    /** `&GoogleShoppingPricingOpts{}` */
    constructor ()
      ensures Value() == ZeroPricingOptions
    {
      domain, startPage, pages, locale, resultsLanguage := "", 0, 0, "", "";
      geoLocation, userAgent, render, callbackUrl := "", "", "", "";
      parse, parseInstructions, pollInterval := false, None, 0;
    }

    function Value(): PricingOptions
      reads this
    {
      PricingOptions(domain, startPage, pages, locale, resultsLanguage, geoLocation, userAgent,
                     render, callbackUrl, parse, parseInstructions, pollInterval)
    }

    /** Writes the defaults into this struct, as the `Scrape…Ctx` call does. */
    method SetDefaults()
      modifies this
      ensures Value() == PricingDefaults(old(Value()))
    {
      pages := Internal.SetDefaultPages(pages);
      domain := Internal.SetDefaultDomain(domain);
      startPage := Internal.SetDefaultStartPage(startPage);
      userAgent := Internal.SetDefaultUserAgent(userAgent);
    }
  }

  /**
   * The option handling of `ScrapeGoogleShoppingUrlCtx`. Only the last element of `opts`
   * is used, and only when it is not nil; the URL is checked before it is even looked at.
   */
  method ScrapeGoogleShoppingUrlCtx(url: string, opts: seq<GoogleShoppingUrlOpts?>, v: Validators)
    returns (out: Outcome)
    modifies if |opts| > 0 && opts[|opts| - 1] != null then {opts[|opts| - 1]} else {}
    ensures out == UrlOutcome(url,
      if |opts| > 0 && opts[|opts| - 1] != null then old(opts[|opts| - 1].Value()) else ZeroUrlOptions, v)
    ensures |opts| > 0 && opts[|opts| - 1] != null ==>
      opts[|opts| - 1].Value() ==
        if v.urlValid(url, UrlHost) then UrlDefaults(old(opts[|opts| - 1].Value()))
        else old(opts[|opts| - 1].Value())
  {
    // The URL is validated before the options are even selected.
    if !v.urlValid(url, UrlHost) {
      return Rejected(InvalidUrl);
    }

    // Only the last option struct is used, and only when it is not nil.
    var opt := new GoogleShoppingUrlOpts();
    if |opts| > 0 && opts[|opts| - 1] != null {
      opt := opts[|opts| - 1];
    }

    // Defaults are written into the caller's struct itself.
    opt.SetDefaults();

    // Validation returns before any payload is built.
    var check := CheckUrlParameters(opt.Value(), v);
    if check.Fail? {
      return Rejected(check.error);
    }

    // The payload, with the caller's parsing instructions added when there are any.
    var payload := UrlPayload(url, opt.Value());
    var customParserFlag := false;
    if opt.parseInstructions.Some? {
      payload := payload[ParsingInstructionsKey := Obj(opt.parseInstructions.value)];
      customParserFlag := true;
    }
    out := Dispatched(Request(payload, opt.parse, customParserFlag));
  }

  /** A fresh context map with the caller's modifiers applied to it in order. */
  method NewContext(mods: seq<Modifier>) returns (context: ContextOption)
    ensures fresh(context)
    ensures context.entries == ApplyModifiers(map[], mods)
  {
    context := new ContextOption();
    for i := 0 to |mods|
      invariant context.entries == ApplyModifiers(map[], mods[..i])
      modifies context
    {
      context.Apply(mods[i]);
      assert mods[..i + 1][..i] == mods[..i];
    }
    assert mods[..|mods|] == mods;
  }

  /**
   * The option handling of `ScrapeGoogleShoppingSearchCtx`: select the options, build the
   * context map from the caller's modifiers, write the defaults, validate, build the payload.
   */
  method ScrapeGoogleShoppingSearchCtx(query: string, opts: seq<GoogleShoppingSearchOpts?>, v: Validators)
    returns (out: Outcome)
    modifies if |opts| > 0 && opts[|opts| - 1] != null then {opts[|opts| - 1]} else {}
    ensures out == SearchOutcome(query,
      if |opts| > 0 && opts[|opts| - 1] != null then old(opts[|opts| - 1].Value()) else ZeroSearchOptions, v)
    ensures |opts| > 0 && opts[|opts| - 1] != null ==>
      opts[|opts| - 1].Value() == SearchDefaults(old(opts[|opts| - 1].Value()))
  {
    // Only the last option struct is used, and only when it is not nil.
    var opt := new GoogleShoppingSearchOpts();
    if |opts| > 0 && opts[|opts| - 1] != null {
      opt := opts[|opts| - 1];
    }
    ghost var selected := opt.Value();
    assert selected ==
      if |opts| > 0 && opts[|opts| - 1] != null then old(opts[|opts| - 1].Value()) else ZeroSearchOptions;

    // The context map starts empty and receives the caller's modifiers in order.
    var context := NewContext(opt.context);

    // Defaults go into the context map and into the caller's struct itself.
    Internal.SetDefaultSortBy(context);
    opt.SetDefaults();
    assert opt.Value() == SearchDefaults(selected);
    assert context.entries == SearchContext(selected.context);

    out := ValidateAndBuildSearch(query, opt.Value(), context.entries, v);
  }

  /**
   * The validation and payload steps of `ScrapeGoogleShoppingSearchCtx`, on the defaulted
   * options `o` and the defaulted context map `ctx`.
   */
  method ValidateAndBuildSearch(query: string, o: SearchOptions, ctx: map<string, Value>, v: Validators)
    returns (out: Outcome)
    ensures out == Conclude(CheckSearchParameters(o, ctx, v),
                            Submission(SearchPayload(query, o, ctx), o.parse, o.parseInstructions))
  {
    // Validation returns before any payload is built.
    var check := CheckSearchParameters(o, ctx, v);
    match check {
      case Fail(e) => return Rejected(e);
      case Panic(k) => return Panicked(k);
      case Pass =>
    }

    // The payload, with the caller's parsing instructions added when there are any.
    var payload := SearchPayload(query, o, ctx);
    var customParserFlag := false;
    if o.parseInstructions.Some? {
      payload := payload[ParsingInstructionsKey := Obj(o.parseInstructions.value)];
      customParserFlag := true;
    }
    out := Dispatched(Request(payload, o.parse, customParserFlag));
  }

  /** The option handling of `ScrapeGoogleShoppingProductCtx`. */
  method ScrapeGoogleShoppingProductCtx(query: string, opts: seq<GoogleShoppingProductOpts?>, v: Validators)
    returns (out: Outcome)
    modifies if |opts| > 0 && opts[|opts| - 1] != null then {opts[|opts| - 1]} else {}
    ensures out == ProductOutcome(query,
      if |opts| > 0 && opts[|opts| - 1] != null then old(opts[|opts| - 1].Value()) else ZeroProductOptions, v)
    ensures |opts| > 0 && opts[|opts| - 1] != null ==>
      opts[|opts| - 1].Value() == ProductDefaults(old(opts[|opts| - 1].Value()))
  {
    // Only the last option struct is used, and only when it is not nil.
    var opt := new GoogleShoppingProductOpts();
    if |opts| > 0 && opts[|opts| - 1] != null {
      opt := opts[|opts| - 1];
    }

    // Defaults are written into the caller's struct itself.
    opt.SetDefaults();

    // Validation returns before any payload is built.
    var check := CheckProductParameters(opt.Value(), v);
    if check.Fail? {
      return Rejected(check.error);
    }

    // The payload, with the caller's parsing instructions added when there are any.
    var payload := ProductPayload(query, opt.Value());
    var customParserFlag := false;
    if opt.parseInstructions.Some? {
      payload := payload[ParsingInstructionsKey := Obj(opt.parseInstructions.value)];
      customParserFlag := true;
    }
    out := Dispatched(Request(payload, opt.parse, customParserFlag));
  }

  /** The option handling of `ScrapeGoogleShoppingPricingCtx`. */
  method ScrapeGoogleShoppingPricingCtx(query: string, opts: seq<GoogleShoppingPricingOpts?>, v: Validators)
    returns (out: Outcome)
    modifies if |opts| > 0 && opts[|opts| - 1] != null then {opts[|opts| - 1]} else {}
    ensures out == PricingOutcome(query,
      if |opts| > 0 && opts[|opts| - 1] != null then old(opts[|opts| - 1].Value()) else ZeroPricingOptions, v)
    ensures |opts| > 0 && opts[|opts| - 1] != null ==>
      opts[|opts| - 1].Value() == PricingDefaults(old(opts[|opts| - 1].Value()))
  {
    // Only the last option struct is used, and only when it is not nil.
    var opt := new GoogleShoppingPricingOpts();
    if |opts| > 0 && opts[|opts| - 1] != null {
      opt := opts[|opts| - 1];
    }

    // Defaults are written into the caller's struct itself.
    opt.SetDefaults();

    // Validation returns before any payload is built.
    var check := CheckPricingParameters(opt.Value(), v);
    if check.Fail? {
      return Rejected(check.error);
    }

    // The payload, with the caller's parsing instructions added when there are any.
    var payload := PricingPayload(query, opt.Value());
    var customParserFlag := false;
    if opt.parseInstructions.Some? {
      payload := payload[ParsingInstructionsKey := Obj(opt.parseInstructions.value)];
      customParserFlag := true;
    }
    out := Dispatched(Request(payload, opt.parse, customParserFlag));
  }
}
