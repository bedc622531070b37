/** Bringing the configuration graph to the DeepSeek setup, and verifying it
    (desktop/src-tauri/src/deepseek.rs). The graph lives in the gateway; every change names the
    revision it is based on. */
module DeepSeekGraph {
  import opened Prelude

  // ---- JSON values ----

  /** Field names: the ones the setup uses, and any other. */
  datatype Field =
    | BaseUrl | ApiKey | Version | Protocol | UserAgent | Extensions | DeepSeekV4 | Enabled
    | ContextWindow | MaxOutputTokens | DisplayName | Description | SupportsReasoning | DefaultLevel
    | SupportedLevels | Effort | SupportsSummaries | DefaultSummary | InputModalities
    | Model | UpstreamName | Priority | Pricing | InputPrice | OutputPrice | CacheWritePrice | CacheReadPrice
    | Provider | Named(name: string)

  /** Integers and floating-point numbers are different values even when they are equal numbers. */
  datatype Json =
    | Null | Bool(truth: bool) | Int(integer: int) | Float(number: real) | Str(text: string)
    | Array(items: seq<Json>) | Object(fields: Fields)

  type Fields = map<Field, Json>

  function Get(fields: Fields, field: Field): Option<Json> {
    if field in fields then Some(fields[field]) else None
  }

  function AsStr(value: Option<Json>): Option<string> {
    if value.Some? && value.value.Str? then Some(value.value.text) else None
  }

  function AsInt(value: Option<Json>): Option<int> {
    if value.Some? && value.value.Int? then Some(value.value.integer) else None
  }

  function AsNumber(value: Option<Json>): Option<real> {
    match value
    case Some(Int(n)) => Some(n as real)
    case Some(Float(x)) => Some(x)
    case _ => None
  }

  function ObjectOf(value: Option<Json>): Fields {
    if value.Some? && value.value.Object? then value.value.fields else map[]
  }

  // ---- the graph ----

  datatype Kind = ProviderKind | ModelKind | OfferKind | RouteKind | OtherKind(name: string)
  datatype Key = Key(kind: Kind, id: string)

  /** Every resource has its own kind and id. */
  type Resources = map<Key, Fields>

  datatype Change = Change(key: Key, field: Field, value: Json)
  datatype Mutation = Create(key: Key, value: Fields) | Patch(changes: seq<Change>)

  function ApplyChanges(g: Resources, changes: seq<Change>): Resources {
    if changes == [] then g
    else
      var before := ApplyChanges(g, changes[..|changes| - 1]);
      var c := changes[|changes| - 1];
      if c.key in before then before[c.key := before[c.key][c.field := c.value]] else before
  }

  function Apply(g: Resources, m: Mutation): Resources {
    match m
    case Create(key, value) => g[key := value]
    case Patch(changes) => ApplyChanges(g, changes)
  }

  // ---- what the setup wants ----

  const PROVIDER_ID: string := "deepseek"
  const PRO_MODEL: string := "deepseek-v4-pro"
  const FLASH_MODEL: string := "deepseek-v4-flash"
  const BASE_URL: string := "https://api.deepseek.com/anthropic"
  const PROTOCOL: string := "anthropic"
  const VERSION: string := "2023-06-01"
  const USER_AGENT: string := "moonbridge-desktop/0.1"
  const LOW: string := "low"
  const HIGH: string := "high"
  const MAX: string := "max"

  const PROVIDER_KEY := Key(ProviderKind, PROVIDER_ID)
  const ROUTE_KEY := Key(RouteKind, "moonbridge")

  function ModelKey(model: string): Key { Key(ModelKind, model) }
  function OfferKey(model: string): Key { Key(OfferKind, PROVIDER_ID + "/" + model) }

  function Allowed(model: string): seq<string> {
    if model == PRO_MODEL then [HIGH, MAX] else if model == FLASH_MODEL then [LOW, HIGH, MAX] else []
  }

  function Normalized(effort: string): string { if effort == "xhigh" then MAX else effort }

  datatype Input = Input(key: Option<string>, model: string, effort: string)

  predicate Valid(input: Input) {
    && Allowed(input.model) != []
    && input.effort in Allowed(input.model)
    && !(input.key.Some? && Blank(input.key.value))
  }

  function ExtensionOn(extensions: Fields): Fields {
    extensions[DeepSeekV4 := Object(map[Enabled := Bool(true)])]
  }

  function ProviderValue(key: Option<string>): Fields {
    map[BaseUrl := Str(BASE_URL), ApiKey := Str(key.GetOr("")), Version := Str(VERSION), Protocol := Str(PROTOCOL),
        UserAgent := Str(USER_AGENT), Extensions := Object(ExtensionOn(map[]))]
  }

  function Level(effort: string): Json {
    Object(map[Effort := Str(effort),
               Description := Str(if effort == LOW then "Low reasoning effort"
                                  else if effort == HIGH then "High reasoning effort"
                                  else if effort == MAX then "Maximum reasoning effort" else "Reasoning effort")])
  }

  function ModelValue(model: string, effort: string): Fields {
    map[ContextWindow := Int(1000000), MaxOutputTokens := Int(384000),
        DisplayName := Str(if model == PRO_MODEL then "DeepSeek V4 Pro" else "DeepSeek V4 Flash"),
        Description := Str("DeepSeek V4 with model-specific low/high/max reasoning effort."),
        SupportsReasoning := Bool(true), DefaultLevel := Str(Normalized(effort)),
        SupportedLevels :=
          Array(seq(|Allowed(model)|, i requires 0 <= i < |Allowed(model)| => Level(Allowed(model)[i]))),
        SupportsSummaries := Bool(true), DefaultSummary := Str("auto"), InputModalities := Array([Str("text")])]
  }

  function Prices(model: string): Fields {
    var (input, output, cacheRead) := if model == PRO_MODEL then (2.0, 8.0, 0.2) else (1.0, 2.0, 0.02);
    map[InputPrice := Float(input), OutputPrice := Float(output), CacheWritePrice := Float(1.0),
        CacheReadPrice := Float(cacheRead)]
  }

  function OfferValue(model: string): Fields {
    map[Model := Str(model), UpstreamName := Str(model), Priority := Int(0), Pricing := Object(Prices(model))]
  }

  function RouteValue(model: string): Fields {
    map[Model := Str(model), Provider := Str(PROVIDER_ID), DisplayName := Str("Moon Bridge")]
  }

  // ---- the mutations ----

  /** The steps of a reconciliation, each of which makes one mutation at most. */
  datatype Part = ModelPart(model: string) | ProviderPart | EffortPart | OfferPart(model: string) | RoutePart

  const PARTS: seq<Part> :=
    [ModelPart(PRO_MODEL), ModelPart(FLASH_MODEL), ProviderPart, EffortPart,
     OfferPart(PRO_MODEL), OfferPart(FLASH_MODEL), RoutePart]

  function Unless(done: bool, key: Key, field: Field, value: Json): seq<Change> {
    if done then [] else [Change(key, field, value)]
  }

  function ProviderChanges(current: Fields, key: Option<string>): seq<Change> {
    var extensions := Object(ExtensionOn(ObjectOf(Get(current, Extensions))));
    Unless(AsStr(Get(current, BaseUrl)) == Some(BASE_URL), PROVIDER_KEY, BaseUrl, Str(BASE_URL))
    + Unless(AsStr(Get(current, Protocol)) == Some(PROTOCOL), PROVIDER_KEY, Protocol, Str(PROTOCOL))
    + Unless(AsStr(Get(current, Version)) == Some(VERSION), PROVIDER_KEY, Version, Str(VERSION))
    + Unless(AsStr(Get(current, UserAgent)) == Some(USER_AGENT), PROVIDER_KEY, UserAgent, Str(USER_AGENT))
    + Unless(Get(current, Extensions) == Some(extensions), PROVIDER_KEY, Extensions, extensions)
    + Unless(key == None || Blank(key.value), PROVIDER_KEY, ApiKey, Str(key.GetOr("")))
  }

  function OfferChanges(current: Fields, model: string): seq<Change> {
    var key := OfferKey(model);
    Unless(AsStr(Get(current, Model)) == Some(model), key, Model, Str(model))
    + Unless(AsStr(Get(current, UpstreamName)) == Some(model), key, UpstreamName, Str(model))
    + Unless(AsInt(Get(current, Priority)) == Some(0), key, Priority, Int(0))
    + Unless(Get(current, Pricing) == Some(Object(Prices(model))), key, Pricing, Object(Prices(model)))
  }

  function RouteChanges(current: Fields, model: string): seq<Change> {
    Unless(AsStr(Get(current, Model)) == Some(model), ROUTE_KEY, Model, Str(model))
    + Unless(AsStr(Get(current, Provider)) == Some(PROVIDER_ID), ROUTE_KEY, Provider, Str(PROVIDER_ID))
  }

  function EffortOf(g: Resources, model: string): Option<string> {
    if ModelKey(model) in g then AsStr(Get(g[ModelKey(model)], DefaultLevel)) else None
  }

  function PatchOf(changes: seq<Change>): Option<Mutation> {
    if changes == [] then None else Some(Patch(changes))
  }

  function Wanted(g: Resources, part: Part, input: Input): Option<Mutation> {
    match part
    case ModelPart(model) =>
      if ModelKey(model) in g then None
      else Some(Create(ModelKey(model), ModelValue(model, if model == input.model then input.effort else HIGH)))
    case ProviderPart =>
      if PROVIDER_KEY !in g then Some(Create(PROVIDER_KEY, ProviderValue(input.key)))
      else PatchOf(ProviderChanges(g[PROVIDER_KEY], input.key))
    case EffortPart =>
      if EffortOf(g, input.model) == Some(input.effort) then None
      else Some(Patch([Change(ModelKey(input.model), DefaultLevel, Str(input.effort))]))
    case OfferPart(model) =>
      if OfferKey(model) !in g then Some(Create(OfferKey(model), OfferValue(model)))
      else PatchOf(OfferChanges(g[OfferKey(model)], model))
    case RoutePart =>
      if ROUTE_KEY !in g then Some(Create(ROUTE_KEY, RouteValue(input.model)))
      else PatchOf(RouteChanges(g[ROUTE_KEY], input.model))
  }

  function Advance(g: Resources, part: Part, input: Input): Resources {
    var m := Wanted(g, part, input);
    if m.Some? then Apply(g, m.value) else g
  }

  function Reconciled(g: Resources, parts: seq<Part>, input: Input): Resources {
    if parts == [] then g else Advance(Reconciled(g, parts[..|parts| - 1], input), parts[|parts| - 1], input)
  }

  function Mutations(g: Resources, parts: seq<Part>, input: Input): seq<Mutation> {
    if parts == [] then []
    else
      var before := Reconciled(g, parts[..|parts| - 1], input);
      var m := Wanted(before, parts[|parts| - 1], input);
      Mutations(g, parts[..|parts| - 1], input) + if m.Some? then [m.value] else []
  }

  // ---- verification ----

  predicate HasKey(g: Resources) {
    PROVIDER_KEY in g && AsStr(Get(g[PROVIDER_KEY], ApiKey)).Some? && AsStr(Get(g[PROVIDER_KEY], ApiKey)) != Some("")
  }

  /** A key is stored, or one is given. */
  predicate KeyAvailable(g: Resources, input: Input) {
    HasKey(g) || (input.key.Some? && !Blank(input.key.value))
  }

  predicate ProviderVerified(p: Fields) {
    && AsStr(Get(p, BaseUrl)) == Some(BASE_URL) && AsStr(Get(p, Protocol)) == Some(PROTOCOL)
    && AsStr(Get(p, Version)) == Some(VERSION) && AsStr(Get(p, UserAgent)) == Some(USER_AGENT)
    && AsStr(Get(p, ApiKey)).Some? && AsStr(Get(p, ApiKey)) != Some("")
    && Get(ObjectOf(Get(ObjectOf(Get(p, Extensions)), DeepSeekV4)), Enabled) == Some(Bool(true))
  }

  predicate PricingMatches(actual: Option<Json>, expected: Fields) {
    && actual.Some? && actual.value.Object?
    && forall field :: field in {InputPrice, OutputPrice, CacheWritePrice, CacheReadPrice} ==>
         AsNumber(Get(actual.value.fields, field)) == AsNumber(Get(expected, field))
  }

  predicate OfferVerified(offer: Fields, model: string) {
    && Get(offer, Model) == Some(Str(model)) && Get(offer, UpstreamName) == Some(Str(model))
    && Get(offer, Priority) == Some(Int(0)) && PricingMatches(Get(offer, Pricing), Prices(model))
  }

  /** verify_final_graph accepts. */
  predicate Verified(g: Resources, input: Input) {
    && PROVIDER_KEY in g && ProviderVerified(g[PROVIDER_KEY])
    && (forall model :: model in {PRO_MODEL, FLASH_MODEL} ==>
          ModelKey(model) in g && OfferKey(model) in g && OfferVerified(g[OfferKey(model)], model))
    && ROUTE_KEY in g && AsStr(Get(g[ROUTE_KEY], Provider)) == Some(PROVIDER_ID)
    && AsStr(Get(g[ROUTE_KEY], Model)) == Some(input.model)
    && ModelKey(input.model) in g && EffortOf(g, input.model) == Some(input.effort)
  }
}
