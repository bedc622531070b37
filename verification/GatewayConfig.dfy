/** Loading the gateway configuration from its file form, and writing it back
    (internal/config/config_loader.go, internal/config/convert.go). An empty Go map or slice and a
    nil one are the same value here, except for input modalities. */
module GatewayConfig {
  import opened Prelude

  // ---- strings ----

  function TrimSlashes(s: string): (t: string)
    ensures t <= s && (t == "" || t[|t| - 1] != '/') && (s == "" || s[|s| - 1] != '/' ==> t == s)
  {
    if s != "" && s[|s| - 1] == '/' then TrimSlashes(s[..|s| - 1]) else s
  }

  function BaseUrl(s: string): string { TrimSlashes(Trim(s)) }

  function Or(s: string, fallback: string): string { if s == "" then fallback else s }

  function OrInt(n: int, fallback: int): int { if n == 0 then fallback else n }

  // ---- data ----

  /** Values the config passes through without looking at them. */
  type Any = string

  datatype WebSearch = WebSearch(
    support: string, maxUses: int, tavily: string, firecrawl: string, rounds: int, extra: map<string, Any>)
  datatype Extension = Extension(enabled: Option<bool>, config: map<string, Any>, extra: map<string, Any>)
  type Extensions = map<string, Extension>
  datatype Level = Level(effort: string, description: string)
  datatype Pricing = Pricing(input: real, output: real, cacheWrite: real, cacheRead: real)

  datatype ModelFile = ModelFile(
    contextWindow: int, maxOutput: int, displayName: string, description: string, instructions: string,
    reasoning: Option<bool>, defaultLevel: string, levels: seq<Level>, summaries: Option<bool>, defaultSummary: string,
    modalities: Option<seq<string>>, imageDetail: Option<bool>, webSearch: WebSearch, extensions: Extensions)
  datatype ModelDef = ModelDef(
    contextWindow: int, maxOutput: int, displayName: string, description: string, instructions: string,
    reasoning: bool, defaultLevel: string, levels: seq<Level>, summaries: bool, defaultSummary: string,
    modalities: Option<seq<string>>, imageDetail: bool, webSearch: WebSearch, extensions: Extensions)

  datatype OfferFile = OfferFile(
    model: string, upstream: string, priority: int, pricing: Pricing, overrides: Option<ModelFile>)
  datatype Offer = Offer(
    model: string, upstream: string, priority: int, pricing: Pricing, overrides: Option<ModelDef>)

  /** An entry of a provider's catalog. */
  datatype Meta = Meta(def: ModelDef, pricing: Pricing)

  datatype ProviderFile = ProviderFile(
    baseUrl: string, apiKey: string, apiKeyEnv: string, version: string, userAgent: string, protocol: string,
    webSearch: WebSearch, extensions: Extensions, offers: seq<OfferFile>)
  datatype ProviderDef = ProviderDef(
    baseUrl: string, apiKey: string, apiKeyEnv: string, version: string, userAgent: string, protocol: string,
    webSearch: WebSearch, extensions: Extensions, offers: seq<Offer>, models: map<string, Meta>)

  datatype RouteFile = RouteFile(
    to: string, model: string, provider: string, displayName: string, description: string, contextWindow: int,
    webSearch: WebSearch, extensions: Extensions)
  /** The display name and the extensions of `info` are the route's own. */
  datatype Route = Route(provider: string, model: string, pricing: Pricing, info: ModelDef)

  const NO_SEARCH := WebSearch("", 0, "", "", 0, map[])
  const NO_MODEL := ModelDef(0, 0, "", "", "", false, "", [], false, "", None, false, NO_SEARCH, map[])
  const FREE := Pricing(0.0, 0.0, 0.0, 0.0)

  datatype Scope = GlobalScope | ProviderScope | ModelScope | RouteScope
  /** The scopes each registered extension supports. */
  type Specs = map<string, set<Scope>>

  // ---- web search and extensions ----

  const SUPPORTS: set<string> := {"auto", "enabled", "disabled", "injected"}

  /** parseWebSearchSupport: an unknown value is an error, which most callers ignore. */
  function ParseSupport(s: string): Option<string> {
    if Trim(s) == "" then Some("auto") else if Trim(s) in SUPPORTS then Some(Trim(s)) else None
  }

  predicate HasSearch(ws: WebSearch) {
    Trim(ws.support) != "" || ws.maxUses != 0 || Trim(ws.tavily) != "" || Trim(ws.firecrawl) != "" || ws.rounds != 0
      || ws.extra != map[]
  }

  function LoadSearch(ws: WebSearch): WebSearch {
    var support := if Trim(ws.support) == "" then "" else ParseSupport(ws.support).GetOr("");
    WebSearch(support, ws.maxUses, Trim(ws.tavily), Trim(ws.firecrawl), ws.rounds, ws.extra)
  }

  function DecodeExtensions(raw: Extensions, scope: Scope, specs: Specs): Option<Extensions> {
    if forall name :: name in raw ==> name in specs && scope in specs[name] then Some(raw) else None
  }

  // ---- models ----

  function LoadLevels(levels: seq<Level>): (r: seq<Level>)
    ensures |r| == |levels|
    ensures forall i :: 0 <= i < |r| ==> r[i] == Level(Trim(levels[i].effort), Trim(levels[i].description))
  {
    seq(|levels|, i requires 0 <= i < |levels| => Level(Trim(levels[i].effort), Trim(levels[i].description)))
  }

  function LoadModel(m: ModelFile, specs: Specs): Option<ModelDef> {
    var levels := LoadLevels(m.levels);
    var reasons := levels != [] || Trim(m.defaultLevel) != "" || m.summaries.GetOr(false)
      || Trim(m.defaultSummary) != "";
    if DecodeExtensions(m.extensions, ModelScope, specs) == None then None
    else Some(ModelDef(
      m.contextWindow, m.maxOutput, Trim(m.displayName), Trim(m.description), Trim(m.instructions),
      m.reasoning.GetOr(reasons), Trim(m.defaultLevel), levels, m.summaries.GetOr(false), Trim(m.defaultSummary),
      m.modalities, m.imageDetail.GetOr(false), if HasSearch(m.webSearch) then LoadSearch(m.webSearch) else NO_SEARCH,
      m.extensions))
  }

  function SaveModel(d: ModelDef): ModelFile {
    ModelFile(
      d.contextWindow, d.maxOutput, d.displayName, d.description, d.instructions,
      Some(d.reasoning), d.defaultLevel, d.levels, if d.summaries then Some(true) else None, d.defaultSummary,
      d.modalities, if d.imageDetail then Some(true) else None, d.webSearch, d.extensions)
  }

  // ---- providers ----

  /** mergeModelDefOverrides. */
  function Merge(base: ModelDef, o: ModelFile): ModelDef {
    ModelDef(
      if o.contextWindow > 0 then o.contextWindow else base.contextWindow,
      if o.maxOutput > 0 then o.maxOutput else base.maxOutput,
      Or(Trim(o.displayName), base.displayName), Or(Trim(o.description), base.description),
      Or(Trim(o.instructions), base.instructions), o.reasoning.GetOr(base.reasoning),
      Or(Trim(o.defaultLevel), base.defaultLevel), if o.levels != [] then LoadLevels(o.levels) else base.levels,
      o.summaries.GetOr(base.summaries), Or(Trim(o.defaultSummary), base.defaultSummary),
      if o.modalities.Some? then o.modalities else base.modalities, o.imageDetail.GetOr(base.imageDetail),
      if HasSearch(o.webSearch) then LoadSearch(o.webSearch) else base.webSearch,
      base.extensions + o.extensions)
  }

  function BaseModel(models: map<string, ModelDef>, slug: string): ModelDef {
    if slug in models then models[slug] else NO_MODEL
  }

  function LoadOffer(o: OfferFile, models: map<string, ModelDef>): Offer {
    var slug := Trim(o.model);
    Offer(slug, Trim(o.upstream), o.priority, o.pricing,
          if o.overrides == None then None else Some(Merge(BaseModel(models, slug), o.overrides.value)))
  }

  function LoadOffers(offers: seq<OfferFile>, models: map<string, ModelDef>): seq<Offer> {
    if offers == [] then []
    else
      var before := LoadOffers(offers[..|offers| - 1], models);
      var last := offers[|offers| - 1];
      if Trim(last.model) == "" then before else before + [LoadOffer(last, models)]
  }

  /** applyModelOverrides: neither web search nor extensions. */
  function Override(def: ModelDef, o: ModelDef): ModelDef {
    def.(contextWindow := if o.contextWindow > 0 then o.contextWindow else def.contextWindow,
         maxOutput := if o.maxOutput > 0 then o.maxOutput else def.maxOutput,
         displayName := Or(Trim(o.displayName), def.displayName),
         description := Or(Trim(o.description), def.description),
         instructions := Or(Trim(o.instructions), def.instructions), reasoning := o.reasoning,
         defaultLevel := Or(Trim(o.defaultLevel), def.defaultLevel),
         levels := if o.levels != [] then o.levels else def.levels,
         summaries := o.summaries, defaultSummary := Or(Trim(o.defaultSummary), def.defaultSummary),
         modalities := if o.modalities.Some? && o.modalities.value != [] then o.modalities else def.modalities,
         imageDetail := o.imageDetail)
  }

  function UpstreamOf(offer: Offer): string { Or(offer.upstream, offer.model) }

  function MetaOf(offer: Offer, models: map<string, ModelDef>): Meta {
    if offer.model !in models then Meta(NO_MODEL, offer.pricing)
    else
      var def := models[offer.model];
      Meta(if offer.overrides.Some? then Override(def, offer.overrides.value) else def, offer.pricing)
  }

  /** The provider's catalog; a later offer of the same upstream name replaces an earlier one. */
  function Catalog(offers: seq<Offer>, models: map<string, ModelDef>): map<string, Meta> {
    if offers == [] then map[]
    else
      var last := offers[|offers| - 1];
      Catalog(offers[..|offers| - 1], models)[UpstreamOf(last) := MetaOf(last, models)]
  }

  function LoadProvider(p: ProviderFile, specs: Specs, models: map<string, ModelDef>): Option<ProviderDef> {
    if DecodeExtensions(p.extensions, ProviderScope, specs) == None then None
    else
      var offers := LoadOffers(p.offers, models);
      var ws := p.webSearch;
      Some(ProviderDef(
        BaseUrl(p.baseUrl), Trim(p.apiKey), Trim(p.apiKeyEnv), Or(Trim(p.version), "2023-06-01"), Trim(p.userAgent),
        Trim(p.protocol), LoadSearch(ws).(support := ParseSupport(ws.support).GetOr("")), p.extensions, offers,
        Catalog(offers, models)))
  }

  /** The loops over a provider's offers. */
  method BuildProvider(p: ProviderFile, specs: Specs, models: map<string, ModelDef>) returns (r: Option<ProviderDef>)
    ensures r == LoadProvider(p, specs, models)
  {
    hide Trim, LoadOffer, MetaOf;
    if DecodeExtensions(p.extensions, ProviderScope, specs) == None {
      return None;
    }
    var offers: seq<Offer> := [];
    for i := 0 to |p.offers|
      invariant offers == LoadOffers(p.offers[..i], models)
    {
      assert p.offers[..i + 1][..i] == p.offers[..i];
      if Trim(p.offers[i].model) != "" {
        offers := offers + [LoadOffer(p.offers[i], models)];
      }
    }
    assert p.offers[..|p.offers|] == p.offers;
    var catalog: map<string, Meta> := map[];
    for i := 0 to |offers|
      invariant catalog == Catalog(offers[..i], models)
    {
      assert offers[..i + 1][..i] == offers[..i];
      catalog := catalog[UpstreamOf(offers[i]) := MetaOf(offers[i], models)];
    }
    assert offers[..|offers|] == offers;
    var ws := p.webSearch;
    r := Some(ProviderDef(
      BaseUrl(p.baseUrl), Trim(p.apiKey), Trim(p.apiKeyEnv), Or(Trim(p.version), "2023-06-01"), Trim(p.userAgent),
      Trim(p.protocol), LoadSearch(ws).(support := ParseSupport(ws.support).GetOr("")), p.extensions, offers, catalog));
  }

  function SaveOffer(o: Offer): OfferFile {
    OfferFile(o.model, o.upstream, o.priority, o.pricing,
              if o.overrides == None then None else Some(SaveModel(o.overrides.value)))
  }

  function SaveOffers(offers: seq<Offer>): seq<OfferFile> {
    if offers == [] then [] else SaveOffers(offers[..|offers| - 1]) + [SaveOffer(offers[|offers| - 1])]
  }

  function SaveProvider(p: ProviderDef): ProviderFile {
    ProviderFile(p.baseUrl, p.apiKey, p.apiKeyEnv, p.version, p.userAgent, p.protocol, p.webSearch, p.extensions,
                 SaveOffers(p.offers))
  }

  // ---- routes ----

  function FirstSlash(s: string): (i: nat)
    ensures i <= |s| && (i < |s| ==> s[i] == '/')
  {
    if s == "" || s[0] == '/' then 0 else 1 + FirstSlash(s[1..])
  }

  /** "provider/model"; without a slash the provider is "default". */
  function ParseTo(spec: string): (string, string) {
    var s := Trim(spec);
    var i := FirstSlash(s);
    if i == |s| then ("default", s) else (Trim(s[..i]), Trim(s[i + 1..]))
  }

  function FirstOffer(offers: seq<Offer>, slug: string): Option<Offer> {
    if offers == [] then None else if offers[0].model == slug then Some(offers[0]) else FirstOffer(offers[1..], slug)
  }

  function FirstOverride(offers: seq<Offer>, slug: string): Option<ModelDef> {
    if offers == [] then None
    else if offers[0].model == slug && offers[0].overrides.Some? then offers[0].overrides
    else FirstOverride(offers[1..], slug)
  }

  predicate Offers(providers: map<string, ProviderDef>, key: string, slug: string) {
    key in providers && FirstOffer(providers[key].offers, slug).Some?
  }

  /** The provider Go's map iteration meets first, for routes that name none. */
  type Choice = string -> string

  ghost predicate Chooses(choose: Choice, providers: map<string, ProviderDef>) {
    forall slug :: (exists key :: key in providers && Offers(providers, key, slug))
      ==> Offers(providers, choose(slug), slug)
  }

  /** applyRouteModelDef: all but the display name and the extensions. */
  function Describe(info: ModelDef, def: ModelDef): ModelDef {
    def.(displayName := info.displayName, extensions := info.extensions)
  }

  function RouteTarget(r: RouteFile): (string, string) {
    if Trim(r.model) == "" && r.to != "" then ParseTo(r.to) else (Trim(r.provider), Trim(r.model))
  }

  function RouteOffers(providers: map<string, ProviderDef>, key: string): seq<Offer> {
    if key in providers then providers[key].offers else []
  }

  function RouteInfo(providers: map<string, ProviderDef>, models: map<string, ModelDef>, key: string, slug: string,
                     extensions: Extensions): ModelDef
  {
    var offers := if key == "" then [] else RouteOffers(providers, key);
    var named := NO_MODEL.(extensions := extensions);
    var described := if slug in models then Describe(named, models[slug]) else named;
    if FirstOverride(offers, slug).Some? then Describe(described, FirstOverride(offers, slug).value) else described
  }

  function RouteOwn(info: ModelDef, r: RouteFile): ModelDef {
    info.(displayName := if r.displayName != "" then Trim(r.displayName) else info.displayName,
          description := if r.description != "" then Trim(r.description) else info.description,
          contextWindow := if r.contextWindow > 0 then r.contextWindow else info.contextWindow,
          webSearch := if HasSearch(r.webSearch) then LoadSearch(r.webSearch) else info.webSearch)
  }

  function LoadRoute(r: RouteFile, providers: map<string, ProviderDef>, models: map<string, ModelDef>, specs: Specs,
                           choose: Choice): Option<Route>
  {
    var (named, slug) := RouteTarget(r);
    if slug == "" || DecodeExtensions(r.extensions, RouteScope, specs) == None then None
    else
      var key :=
        if named != "" then named
        else if exists k :: k in providers && Offers(providers, k, slug) then choose(slug) else "";
      var offer := FirstOffer(if key == "" then [] else RouteOffers(providers, key), slug);
      Some(Route(
        key, if offer.Some? then Or(offer.value.upstream, slug) else slug,
        if offer.Some? then offer.value.pricing else FREE,
        RouteOwn(RouteInfo(providers, models, key, slug, r.extensions), r)))
  }

  function SaveRoute(r: Route): RouteFile {
    RouteFile("", r.model, r.provider, r.info.displayName, r.info.description, r.info.contextWindow,
              r.info.webSearch, r.info.extensions)
  }
}
