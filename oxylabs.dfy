/**
 * The types and constants of the `oxylabs` package that the default setters and the
 * Google Shopping targets use. The package's validators are not part of this model:
 * they appear as the uninterpreted predicates of `Validators`.
 */
module Oxylabs {

  /** Parameter kinds that the package declares as named string types. */
  type UserAgent = string
  type Render = string
  type Domain = string
  type Locale = string

  /** The desktop user-agent class and the ".com" top-level domain. */
  const UA_DESKTOP: UserAgent := "desktop"
  const DOMAIN_COM: Domain := "com"

  /** Identifiers of the four Google Shopping scrape targets (the payload's "source"). */
  const GoogleShoppingUrl: string := "google_shopping"
  const GoogleShoppingSearch: string := "google_shopping_search"
  const GoogleShoppingProduct: string := "google_shopping_product"
  const GoogleShoppingPricing: string := "google_shopping_pricing"

  /** A pointer that may be nil. */
  datatype Option<+T> = None | Some(value: T)

  /**
   * A dynamically typed value (Go's `interface{}`) as it is stored in a context map or
   * in a payload; `Null` is Go's nil and `Int` is Go's `int`.
   */
  datatype Value =
    | Null
    | Bool(b: bool)
    | Int(i: int)
    | Str(s: string)
    | List(items: seq<Value>)
    | Obj(fields: map<string, Value>)

  /** Caller-supplied parsing instructions: a JSON-like object. */
  type Instructions = map<string, Value>

  /** Indexing a Go map: a missing key reads as nil. */
  function Lookup(m: map<string, Value>, key: string): (r: Value)
    ensures r == Null <==> key !in m || m[key] == Null
    ensures r != Null ==> key in m && m[key] == r
  {
    if key in m then m[key] else Null
  }

  /**
   * One context modifier, `func(ContextOption)`, as the package's option helpers build
   * it: it writes `value` under `key` into the map it is given.
   */
  datatype Modifier = Modifier(key: string, value: Value)

  /** A `ContextOption`: a Go map, shared by reference and updated in place. */
  class ContextOption {
    var entries: map<string, Value>

    /** `make(oxylabs.ContextOption)` */
    constructor ()
      ensures entries == map[]
    {
      entries := map[];
    }

    /** `ctx[key] = value` */
    method Put(key: string, value: Value)
      modifies this
      ensures entries == old(entries)[key := value]
    {
      entries := entries[key := value];
    }

    /** Calling the modifier `mod` on this map. */
    method Apply(mod: Modifier)
      modifies this
      ensures entries == old(entries)[mod.key := mod.value]
    {
      Put(mod.key, mod.value);
    }
  }

  /**
   * The validators whose bodies are not part of this model, as uninterpreted predicates:
   * `oxylabs.IsUserAgentValid`, `oxylabs.IsRenderValid`, `oxylabs.ValidateParseInstructions`
   * (true when it returns no error) and `internal.ValidateUrl(url, host)` (likewise).
   */
  datatype Validators = Validators(
    userAgentValid: UserAgent -> bool,
    renderValid: Render -> bool,
    instructionsValid: Instructions -> bool,
    urlValid: (string, string) -> bool)
}
