# Oxylabs Go SDK: default setters and Google Shopping option handling

This project models the parameter-preparation layer of the Oxylabs Go SDK
(revvim/oxylabs-sdk-go) and proves properties of it. Two parts are modelled:

- **The default setters** of `internal/defaults.go`. Each one writes a documented
  default into a scalar field or a context map, but only while that field or key is
  unset.
- **The four Google Shopping targets** of `ecommerce/google_shopping.go`: Url, Search,
  Product and Pricing. Each target runs these steps, in this order:
  0. Url only: reject an invalid URL before anything else happens.
  1. Select the caller's option struct. Only the last element of the variadic `opts`
     is used, and only when it is not nil.
  2. Search only: run the caller's modifiers, in order, on a fresh context map, and
     then write the `sort_by` default ("r") into that map.
  3. Write the defaults into the option struct in place.
  4. Validate the options (and, for Search, the context map).
  5. Build the payload map that is handed to the request engine.

The Dafny project has three modules:

- `Oxylabs` holds the shared types:
  - `Value`, for Go's `interface{}`;
  - the `ContextOption` class, a map updated in place;
  - context modifiers;
  - the `Validators` record. The package's validators are not part of this model, so
    this record carries them as uninterpreted predicates.
- `Internal` holds the default constants and the setters:
  - a pointer setter is a method that takes the pointee's value and returns the value
    the pointee holds afterwards;
  - a map setter is a method that changes the shared `ContextOption`.
- `Ecommerce` holds the four targets:
  - each Go option struct is a class with Go's fields;
  - `Value()` views an option struct as a datatype;
  - `SetDefaults()` writes its defaults in place;
  - each `checkParameterValidity` is a function that returns `Check`: `Pass`,
    `Fail(error)`, or `Panic(key)` for a Go type assertion that panics;
  - each `Scrape…Ctx` body is a method proved against an outcome function.

The outcome of a call, `Outcome`, is one of:
- `Rejected(error)`: the call returned an error before any request;
- `Panicked(key)`: a context value failed a type assertion;
- `Dispatched(request)`: the point where the request engine is called, with the
  payload, the parse flag and the custom-parser flag.

Points where the model follows the code rather than a looser reading of it:

- **A map setter fills a key that reads as nil.** Go's `ctx[k] == nil` is true both when
  `k` is absent and when it is present and holds nil. `Oxylabs.Lookup` gives `Null` in
  both cases, so the setter overwrites an explicit nil too.
- **A single price bound makes the Search check panic.** Once either `min_price` or
  `max_price` is set, the check asserts `min_price.(int)` first and `max_price.(int)`
  only after that. The model keeps this order:
  - a lone `max_price`, or a lone non-negative `min_price`, gives `Panicked`;
  - a lone negative `min_price` gives `Rejected(NegativePrice)`;
  - a `min_price` that is set but is not an int gives `Panicked`;
  - a non-negative int `min_price` beside a `max_price` that is not an int also gives
    `Panicked`. A negative int `min_price` gives `Rejected(NegativePrice)` whatever
    `max_price` holds, because Go never evaluates the second assertion in that case.
- **Zero becomes one, negatives are rejected.** Defaults are written before validation.
  So a page count or start page of 0 becomes 1 and passes, while a negative one is
  rejected.

## Model

| member | source | states |
|---|---|---|
| Internal.DefaultConstants | internal/defaults.go:9-26 | the default user agent is the desktop class and the default domain is "com"; start page and pages default to 1; the result limits are 10 (SERP) and 48 (e-commerce); the sync and async base URLs differ; the timeout is 50 s and the poll interval 2 s |
| Internal.Filled | internal/defaults.go:28-61 | a "set if unset" write keeps any value that is set, and leaves a set value behind whenever the default is itself set |
| Internal.FilledIdempotent | internal/defaults.go:28-61 | writing a scalar default twice gives the same value as writing it once |
| Internal.FilledKey | internal/defaults.go:63-82 | a key that reads as nil receives the default; a key with a value keeps the whole map unchanged; every other key is untouched |
| Internal.FilledKeyIdempotent | internal/defaults.go:63-82 | writing a context default twice gives the same map as writing it once |
| Internal.SetDefaultDomain | internal/defaults.go:28-33 | an empty domain becomes "com"; a non-empty domain is unchanged; the result is never empty |
| Internal.SetDefaultStartPage | internal/defaults.go:35-40 | exactly the value 0 becomes 1; every other value, negatives included, is unchanged |
| Internal.SetDefaultPages | internal/defaults.go:42-47 | exactly the value 0 becomes 1; every other value, negatives included, is unchanged |
| Internal.SetDefaultLimit | internal/defaults.go:49-54 | a zero limit becomes the given class default; any other limit is unchanged; the result is non-zero whenever that default is |
| Internal.SetDefaultUserAgent | internal/defaults.go:56-61 | an empty user agent becomes the desktop class, which is the default user agent; a set one is unchanged |
| Internal.SetDefaultHotelOccupancy | internal/defaults.go:63-68 | the map afterwards is the old map with hotel_occupancy filled with 2 when it read as nil; the key then reads as non-nil |
| Internal.SetDefaultSortBy | internal/defaults.go:70-75 | the map afterwards is the old map with sort_by filled with "r" when it read as nil; the key then reads as non-nil |
| Internal.SetDefaultHttpMethod | internal/defaults.go:77-82 | the map afterwards is the old map with http_method filled with "get" when it read as nil; the key then reads as non-nil |
| Internal.SetDefaultContentEncoding | internal/defaults.go:84-89 | an empty encoding becomes "base64"; a non-empty one is unchanged |
| Ecommerce.UrlDefaults | ecommerce/google_shopping.go:81-82 | after the Url defaults an empty user agent is the desktop class and a set one is kept, and no other field changes |
| Ecommerce.SearchDefaults | ecommerce/google_shopping.go:210-215 | after the Search defaults a zero page count or start page is 1, an empty domain is "com", an empty user agent is the desktop class; every set value is kept, and no other field changes |
| Ecommerce.ProductDefaults | ecommerce/google_shopping.go:344-346 | after the Product defaults an empty domain is "com" and an empty user agent is the desktop class; set values are kept, and no other field changes |
| Ecommerce.PricingDefaults | ecommerce/google_shopping.go:461-465 | after the Pricing defaults a zero page count or start page is 1, an empty domain is "com", an empty user agent is the desktop class; every set value is kept, and no other field changes |
| Ecommerce.LastModifierWins | ecommerce/google_shopping.go:204-208 | of the modifiers that write one key, the last one decides the value the context map holds |
| Ecommerce.UnmodifiedKeyKept | ecommerce/google_shopping.go:204-208 | a key that no modifier writes keeps the value it had before the modifiers ran |
| Ecommerce.NewContext | ecommerce/google_shopping.go:204-208 | a fresh context map after the caller's modifiers have run on it from first to last |
| Ecommerce.ApplyModifiers | ecommerce/google_shopping.go:206-208 | the keys of the map after the modifiers are its old keys plus exactly the keys the modifiers write |
| Ecommerce.SearchContext | ecommerce/google_shopping.go:204-211 | the Search context's sort_by is the modifiers' value when that is non-nil and "r" otherwise, and every other key agrees with the modifiers' map |
| Ecommerce.SearchContextChecks | ecommerce/google_shopping.go:160-167 | writing the sort_by default changes neither the sort verdict nor the price verdict of the modifiers' map |
| Ecommerce.SearchContextElsewhere | ecommerce/google_shopping.go:204-211 | outside sort_by, the Search context reads exactly as the caller's modifiers left it |
| Ecommerce.SortByDefaultAccepted | ecommerce/google_shopping.go:160-162 | when no modifier sets sort_by, it becomes "r", and the sort check accepts it |
| Ecommerce.CheckSortBy | ecommerce/google_shopping.go:160-162 | the sort check passes exactly when sort_by is nil or a string in the accepted list {"r","p","rv","pd"}; it fails, with that string as the invalid sort key, exactly when sort_by is a string outside the list; it panics exactly when sort_by is set but is not a string |
| Ecommerce.AcceptedSortKeys | ecommerce/google_shopping.go:14-19 | a sort_by string passes exactly when it is "r", "p", "rv" or "pd", and any other string is reported as an invalid sort key |
| Ecommerce.CheckPrices | ecommerce/google_shopping.go:164-167 | the price check passes exactly when both bounds are nil, or both are non-negative ints (0 accepted); any failure is the negative-price error; a single bound never passes; a nil or non-int min_price beside a set max_price panics on min_price; a non-negative int min_price beside a non-int or nil max_price panics on max_price; a negative min_price fails, and so does a negative max_price after a non-negative min_price |
| Ecommerce.CheckUserAgent | ecommerce/google_shopping.go:34-36 | the user-agent stage passes exactly when the validator accepts the agent, and otherwise reports that agent |
| Ecommerce.CheckRender | ecommerce/google_shopping.go:38-40 | the render stage passes exactly when the render is empty or valid, and otherwise reports that render |
| Ecommerce.CheckPages | ecommerce/google_shopping.go:156-158 | the paging stage passes exactly when page count and start page are both positive, and otherwise reports the pages error |
| Ecommerce.CheckInstructions | ecommerce/google_shopping.go:42-46 | the parse-instruction stage passes exactly when instructions are absent or valid, and otherwise reports invalid instructions |
| Ecommerce.CheckUrlParameters | ecommerce/google_shopping.go:33-49 | passes exactly when the user agent is valid, the render is empty or valid, and the parse instructions are absent or valid; never panics; the error is the user-agent error first, then the render error, then the parse-instruction error |
| Ecommerce.CheckSearchParameters | ecommerce/google_shopping.go:147-176 | passes exactly when user agent, render, positive pages and start page, sort key, price bounds and parse instructions are all accepted; the first stage that fails decides the result, in the order user agent, render, pages, sort key, prices, parse instructions; it panics exactly when the earlier stages pass and the sort or price check panics, and only on sort_by, min_price or max_price |
| Ecommerce.CheckProductParameters | ecommerce/google_shopping.go:300-316 | passes exactly when user agent, render and parse instructions are accepted; never panics; the error is the user-agent error first, then the render error, then the parse-instruction error |
| Ecommerce.CheckPricingParameters | ecommerce/google_shopping.go:413-433 | passes exactly when user agent, render, positive pages and start page, and parse instructions are accepted; never panics; the error is the user-agent error first, then render, then pages, then parse instructions |
| Ecommerce.Submission | ecommerce/google_shopping.go:101-106 | parsing_instructions is in the payload exactly when instructions are given, and then holds them; the rest of the payload is the base payload; the custom-parser flag equals "instructions given" |
| Ecommerce.Conclude | ecommerce/google_shopping.go:84-88 | the request is made exactly when the check passed; a failure returns its error and a panic its key, both before any request |
| Ecommerce.FieldNamesDistinct | ecommerce/google_shopping.go:91-99 | the JSON keys of distinct payload fields are distinct |
| Ecommerce.UrlPayloadFields | ecommerce/google_shopping.go:91-99 | the Url payload names the Url source and carries the URL, the user agent and the render; it has no query, domain, paging, context or instructions |
| Ecommerce.SearchPayloadShape | ecommerce/google_shopping.go:224-237 | the Search payload names the Search source and has a context list, but no URL and no instructions |
| Ecommerce.SearchPayloadFields | ecommerce/google_shopping.go:226-233 | the Search payload carries the options' page count, start page, domain and user agent, and the query |
| Ecommerce.SearchPayloadContext | ecommerce/google_shopping.go:237-254 | the Search payload's context list is the entries for nfpr, sort_by, min_price and max_price, in that order |
| Ecommerce.ContextEntryShape | ecommerce/google_shopping.go:238-241 | a context entry has exactly a key and a value; the value is the map's value for the key, and nil when the map has none |
| Ecommerce.ProductPayloadFields | ecommerce/google_shopping.go:355-366 | the Product payload names the Product source and carries domain, user agent and query, with no paging, context, URL or instructions |
| Ecommerce.PricingPayloadFields | ecommerce/google_shopping.go:474-487 | the Pricing payload names the Pricing source and carries page count, start page, domain, user agent and query, with no context, URL or instructions |
| Ecommerce.UrlOutcome | ecommerce/google_shopping.go:64-106 | an invalid URL is rejected before anything else; otherwise the request is made exactly when the defaulted user agent, the render and the parse instructions are accepted; never panics; the parse and custom-parser flags follow the options |
| Ecommerce.SearchCheckOnDefaults | ecommerce/google_shopping.go:210-221 | the Search check on the defaulted options and context passes exactly when the conditions of the Search outcome hold on the caller's own options and the modifiers' map |
| Ecommerce.SearchOutcome | ecommerce/google_shopping.go:193-262 | the request is made exactly when the defaulted user agent and the render are accepted, pages and start page are not negative, the modifiers' map has an accepted sort key and accepted price bounds, and the parse instructions are accepted; the parse and custom-parser flags follow the options |
| Ecommerce.ProductOutcome | ecommerce/google_shopping.go:333-373 | the request is made exactly when the defaulted user agent, the render and the parse instructions are accepted; never panics |
| Ecommerce.PricingOutcome | ecommerce/google_shopping.go:450-494 | the request is made exactly when the defaulted user agent and the render are accepted, pages and start page are not negative, and the parse instructions are accepted; never panics |
| Ecommerce.UrlDefaultsInPayload | ecommerce/google_shopping.go:91-99 | a dispatched Url payload names the Url source, carries the URL and the render, carries the desktop class for an omitted user agent and the set one otherwise, and has no query or paging |
| Ecommerce.ProductDefaultsInPayload | ecommerce/google_shopping.go:355-366 | a dispatched Product payload carries "com" for an omitted domain and the desktop class for an omitted user agent, the set values otherwise, the query and the Product source |
| Ecommerce.UrlCheckedFirst | ecommerce/google_shopping.go:69-73 | with an invalid URL the outcome is the URL error whatever the options are |
| Ecommerce.SearchDefaultsInPayload | ecommerce/google_shopping.go:210-236 | a dispatched Search payload carries 1 for omitted pages and start page, "com" for an omitted domain and the desktop class for an omitted user agent; set values go through unchanged; the query and the Search source are copied |
| Ecommerce.SearchNegativePagesRejected | ecommerce/google_shopping.go:156-158 | a negative page count or start page is rejected with the pages error once user agent and render passed |
| Ecommerce.PricingNegativePagesRejected | ecommerce/google_shopping.go:422-424 | a negative page count or start page is rejected with the pages error once user agent and render passed |
| Ecommerce.PricingDefaultsInPayload | ecommerce/google_shopping.go:461-487 | a dispatched Pricing payload carries the defaults for omitted pages, start page, domain and user agent, the set values otherwise, the query and the Pricing source |
| Ecommerce.SearchContextPayload | ecommerce/google_shopping.go:237-254 | the Search payload's context is exactly four {key, value} entries in the order nfpr, sort_by, min_price, max_price; each value is what the caller's modifiers wrote (nil when none did), and an unset sort_by carries "r" |
| Ecommerce.ProductPagingAbsent | ecommerce/google_shopping.go:355-366 | a dispatched Product payload has neither start_page nor pages |
| Ecommerce.PricingPagingPresent | ecommerce/google_shopping.go:474-487 | a dispatched Pricing payload has both start_page and pages |
| Ecommerce.SearchPagingPresent | ecommerce/google_shopping.go:224-255 | a dispatched Search payload has start_page, pages and the context list |
| Ecommerce.EmptyUserAgentDefaulted | ecommerce/google_shopping.go:82 | in each of the four targets, any options with an empty user agent get the desktop class, so the user-agent check passes them whenever that class is valid |
| Ecommerce.ResubmissionStable | ecommerce/google_shopping.go:75-82 | writing defaults is idempotent for every target, so a struct that went through a call gives the same outcome when it is passed again |
| Ecommerce.GoogleShoppingUrlOpts.constructor | ecommerce/google_shopping.go:76 | a new Url option struct holds the zero value |
| Ecommerce.GoogleShoppingUrlOpts.SetDefaults | ecommerce/google_shopping.go:82 | the struct afterwards holds the Url defaults of its old value |
| Ecommerce.GoogleShoppingSearchOpts.constructor | ecommerce/google_shopping.go:199 | a new Search option struct holds the zero value |
| Ecommerce.GoogleShoppingSearchOpts.SetDefaults | ecommerce/google_shopping.go:212-215 | the struct afterwards holds the Search defaults of its old value |
| Ecommerce.GoogleShoppingProductOpts.constructor | ecommerce/google_shopping.go:339 | a new Product option struct holds the zero value |
| Ecommerce.GoogleShoppingProductOpts.SetDefaults | ecommerce/google_shopping.go:345-346 | the struct afterwards holds the Product defaults of its old value |
| Ecommerce.GoogleShoppingPricingOpts.constructor | ecommerce/google_shopping.go:456 | a new Pricing option struct holds the zero value |
| Ecommerce.GoogleShoppingPricingOpts.SetDefaults | ecommerce/google_shopping.go:462-465 | the struct afterwards holds the Pricing defaults of its old value |
| Ecommerce.ScrapeGoogleShoppingUrlCtx | ecommerce/google_shopping.go:64-106 | the outcome is the Url outcome of the last option struct when it is not nil, and of a zero struct otherwise; that caller-owned struct receives the defaults, unless the URL was rejected first |
| Ecommerce.ScrapeGoogleShoppingSearchCtx | ecommerce/google_shopping.go:193-262 | the outcome is the Search outcome of the last option struct when it is not nil, and of a zero struct otherwise; that caller-owned struct receives the Search defaults |
| Ecommerce.ValidateAndBuildSearch | ecommerce/google_shopping.go:217-262 | on defaulted options and context, the outcome is the check's error or panic when it does not pass, and otherwise the request with the Search payload and the caller's instructions added |
| Ecommerce.ScrapeGoogleShoppingProductCtx | ecommerce/google_shopping.go:333-373 | the outcome is the Product outcome of the last option struct when it is not nil, and of a zero struct otherwise; that caller-owned struct receives the Product defaults |
| Ecommerce.ScrapeGoogleShoppingPricingCtx | ecommerce/google_shopping.go:450-494 | the outcome is the Pricing outcome of the last option struct when it is not nil, and of a zero struct otherwise; that caller-owned struct receives the Pricing defaults |
| Oxylabs.Lookup | internal/defaults.go:65 | a map read is nil exactly when the key is missing or holds nil, and otherwise is the stored value |
| Oxylabs.ContextOption.Put | internal/defaults.go:66 | a map write changes exactly the written key |
| Oxylabs.ContextOption.Apply | ecommerce/google_shopping.go:207 | running a modifier writes its value under its key, and nothing else |

## Left out

- The request engine (`c.C.Req`, `GetResp`, sync and async dispatch, job polling, response normalisation) is not part of this model. Its code is HTTP I/O with timing and cancellation. `Dispatched(request)` marks where it is called.
- `json.Marshal` and its "error marshalling payload" branch are left out: the library is foreign, and the payload map is the model's final artefact.
- The wrappers `ScrapeGoogleShoppingUrl`, `…Search`, `…Product` and `…Pricing` are left out. They only create a `context.WithTimeout` with the default timeout and delegate. The `EcommerceClient` receiver and the `context.Context` argument are left out for the same reason.
- The bodies of `IsUserAgentValid`, `IsRenderValid`, `ValidateParseInstructions` and `ValidateUrl` are not part of this model. They are the uninterpreted predicates of `Oxylabs.Validators`, and the URL check takes the host "shopping.google" as its second argument.
- The body of `internal.InList` is not part of this model. The sort check assumes it is plain membership of a string in a list, so `sort_by` is accepted exactly when it is one of the elements of `AcceptedSortByParameters`.
- The `oxylabs` package is not part of this model. The values of `UA_DESKTOP` ("desktop"), `DOMAIN_COM` ("com") and the four source names are assumed values: the doc comments of the Scrape functions name the source strings, and the constant names give the other two.
- serp/client.go is not part of this model. It only builds clients whose base URL is `SyncBaseUrl` or `AsyncBaseUrl`.
- Durations are plain integers counting nanoseconds. `PollInterval` is carried in every option struct but, as in the source, never read.
- Error values are the cases of `ParamError`, carrying the offending user agent, render or sort key. The formatted message text is not modelled.
- A context modifier is modelled as one key/value write. The source accepts any `func(oxylabs.ContextOption)`; this model assumes that the option helpers of the `oxylabs` package each write one key. That package is not part of this model, so this is an assumption, not a shown fact.
- A nil `func` in the Search options' `Context` slice panics when it is called (ecommerce/google_shopping.go:207). The model has no nil modifier, so this panic is not modelled.
- A `ContextOption` is always a map that exists. A nil Go map passed to `SetDefaultHotelOccupancy`, `SetDefaultSortBy` or `SetDefaultHttpMethod` would panic on the write (internal/defaults.go:66, 73, 80); the model has no nil map, so that panic is not modelled. The Search target always passes a map made just before.
- Payload keys are the `Field` datatype; `Field.Name` gives each key's JSON name, and `FieldNamesDistinct` shows no two fields share one. The source stores `&opt.ParseInstructions` under "parsing_instructions"; the model stores the instructions object, which is what marshals.
- A pointer setter returns the new value and its caller stores it into the field. A write through an arbitrary alias of that field is not modelled.
- Go's `int` is modelled as an unbounded integer. No operation here does arithmetic on it.
