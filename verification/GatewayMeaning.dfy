/** What loading makes of a configuration file, field by field, said of the file and the result alone
    (internal/config/config_loader.go, internal/config/config.go). */
module GatewayMeaning {
  import opened Prelude
  import opened GatewayConfig
  import opened GatewayLoad
  import opened GatewayLaws
  import opened GatewayRoundTrip
  import opened GatewayAliases

  // ---- how single values are read ----

  /** A mode that is written out is read as it is, any other text as none. */
  predicate ReadsMode(file: string, mode: string, blank: string) {
    && (Trim(file) in SUPPORTS ==> mode == Trim(file))
    && (Trim(file) == "" ==> mode == blank)
    && (Trim(file) != "" && Trim(file) !in SUPPORTS ==> mode == "")
  }

  /** The rest of a web search section. */
  predicate ReadsSearch(file: WebSearch, ws: WebSearch) {
    && ws.maxUses == file.maxUses && ws.rounds == file.rounds && ws.extra == file.extra
    && ws.tavily == Trim(file.tavily) && ws.firecrawl == Trim(file.firecrawl)
  }

  predicate ReadsLevels(file: seq<Level>, levels: seq<Level>) {
    |levels| == |file| && forall i :: 0 <= i < |file| ==>
      levels[i].effort == Trim(file[i].effort) && levels[i].description == Trim(file[i].description)
  }

  /** A model that reasons: it says so, or says nothing of it but how. */
  predicate Reasons(m: ModelFile) {
    || m.reasoning == Some(true)
    || (&& m.reasoning == None
        && (m.levels != [] || Trim(m.defaultLevel) != "" || m.summaries == Some(true) || Trim(m.defaultSummary) != ""))
  }

  predicate ReadsModel(m: ModelFile, d: ModelDef) {
    && d.contextWindow == m.contextWindow && d.maxOutput == m.maxOutput
    && d.displayName == Trim(m.displayName) && d.description == Trim(m.description)
    && d.instructions == Trim(m.instructions)
    && d.reasoning == Reasons(m) && d.defaultLevel == Trim(m.defaultLevel) && ReadsLevels(m.levels, d.levels)
    && d.summaries == (m.summaries == Some(true)) && d.defaultSummary == Trim(m.defaultSummary)
    && d.modalities == m.modalities && d.imageDetail == (m.imageDetail == Some(true))
    && ReadsSearch(m.webSearch, d.webSearch) && ReadsMode(m.webSearch.support, d.webSearch.support, "")
    && d.extensions == m.extensions
  }

  /** A text that is given replaces the one below it. */
  predicate ReadsText(file: string, below: string, text: string) {
    text == if Trim(file) != "" then Trim(file) else below
  }

  /** A model with overrides: what they set is theirs, the rest is the model's. */
  predicate ReadsOverrides(base: ModelDef, o: ModelFile, d: ModelDef) {
    && d.contextWindow == (if o.contextWindow > 0 then o.contextWindow else base.contextWindow)
    && d.maxOutput == (if o.maxOutput > 0 then o.maxOutput else base.maxOutput)
    && ReadsText(o.displayName, base.displayName, d.displayName)
    && ReadsText(o.description, base.description, d.description)
    && ReadsText(o.instructions, base.instructions, d.instructions)
    && ReadsText(o.defaultLevel, base.defaultLevel, d.defaultLevel)
    && ReadsText(o.defaultSummary, base.defaultSummary, d.defaultSummary)
    && d.reasoning == o.reasoning.GetOr(base.reasoning) && d.summaries == o.summaries.GetOr(base.summaries)
    && d.imageDetail == o.imageDetail.GetOr(base.imageDetail)
    && (if o.levels == [] then d.levels == base.levels else ReadsLevels(o.levels, d.levels))
    && d.modalities == (if o.modalities.Some? then o.modalities else base.modalities)
  }

  lemma ModesAreRead(s: string)
    ensures ReadsMode(s, ParseSupport(s).GetOr(""), "auto") && ParseSupport(s) != Some("")
    ensures forall ws: WebSearch :: ws.support == s ==> ReadsMode(s, LoadSearch(ws).support, "")
  {
    hide Trim;
  }

  lemma SearchIsRead(ws: WebSearch)
    ensures ReadsSearch(ws, LoadSearch(ws))
  {
    hide Trim;
  }

  lemma NothingToSearch(ws: WebSearch)
    requires !HasSearch(ws)
    ensures ReadsSearch(ws, NO_SEARCH) && ReadsMode(ws.support, NO_SEARCH.support, "")
  {
    hide Trim;
  }

  lemma ModelIsRead(m: ModelFile, specs: Specs)
    requires LoadModel(m, specs).Some?
    ensures ReadsModel(m, LoadModel(m, specs).value)
  {
    hide Trim, HasSearch, ReadsMode, LoadSearch, ReadsSearch;
    ModesAreRead(m.webSearch.support);
    SearchIsRead(m.webSearch);
    if !HasSearch(m.webSearch) { NothingToSearch(m.webSearch); }
  }

  lemma LevelsAreRead(levels: seq<Level>)
    ensures ReadsLevels(levels, LoadLevels(levels))
  {
    hide Trim;
  }

  lemma OverridesAreRead(base: ModelDef, o: ModelFile)
    ensures ReadsOverrides(base, o, Merge(base, o))
  {
    hide Trim, HasSearch, LoadSearch, LoadLevels, ReadsLevels;
    LevelsAreRead(o.levels);
  }

  /** The same for the web search of an override. */
  lemma SearchOverrides(base: ModelDef, o: ModelFile)
    ensures var ws := Merge(base, o).webSearch;
      if HasSearch(o.webSearch) then ReadsSearch(o.webSearch, ws) && ReadsMode(o.webSearch.support, ws.support, "")
      else ws == base.webSearch
  {
    hide Trim, HasSearch, ReadsMode, LoadSearch, ReadsSearch, LoadLevels;
    ModesAreRead(o.webSearch.support);
    SearchIsRead(o.webSearch);
  }

  // ---- offers ----

  /** The offers that name a model. */
  function Naming(offers: seq<OfferFile>): (r: seq<OfferFile>)
    ensures |r| <= |offers|
  {
    if offers == [] then []
    else
      var before := Naming(offers[..|offers| - 1]);
      if Trim(offers[|offers| - 1].model) == "" then before else before + [offers[|offers| - 1]]
  }

  predicate ReadsOffer(o: OfferFile, offer: Offer, models: map<string, ModelDef>) {
    && offer.model == Trim(o.model) && offer.upstream == Trim(o.upstream)
    && offer.priority == o.priority && offer.pricing == o.pricing && (offer.overrides.Some? <==> o.overrides.Some?)
    && (o.overrides.Some? ==> ReadsOverrides(BaseModel(models, offer.model), o.overrides.value, offer.overrides.value))
  }

  predicate ReadsOffers(offers: seq<OfferFile>, loaded: seq<Offer>, models: map<string, ModelDef>) {
    |loaded| == |Naming(offers)| && forall j :: 0 <= j < |loaded| ==> ReadsOffer(Naming(offers)[j], loaded[j], models)
  }

  lemma OfferIsRead(o: OfferFile, models: map<string, ModelDef>)
    ensures ReadsOffer(o, LoadOffer(o, models), models)
  {
    hide Trim, Merge, ReadsOverrides;
    if o.overrides.Some? { OverridesAreRead(BaseModel(models, Trim(o.model)), o.overrides.value); }
  }

  lemma {:induction false} OffersAreRead(offers: seq<OfferFile>, models: map<string, ModelDef>)
    ensures ReadsOffers(offers, LoadOffers(offers, models), models)
    decreases |offers|
  {
    hide Trim, LoadOffer, ReadsOffer;
    if offers != [] {
      OffersAreRead(offers[..|offers| - 1], models);
      OfferIsRead(offers[|offers| - 1], models);
    }
  }

  // ---- providers ----

  predicate ReadsProvider(p: ProviderFile, d: ProviderDef, models: map<string, ModelDef>) {
    && d.baseUrl == TrimSlashes(Trim(p.baseUrl)) && d.apiKey == Trim(p.apiKey) && d.apiKeyEnv == Trim(p.apiKeyEnv)
    && d.version == (if Trim(p.version) == "" then "2023-06-01" else Trim(p.version))
    && d.userAgent == Trim(p.userAgent) && d.protocol == Trim(p.protocol) && d.extensions == p.extensions
    && ReadsSearch(p.webSearch, d.webSearch) && ReadsMode(p.webSearch.support, d.webSearch.support, "auto")
    && ReadsOffers(p.offers, d.offers, models)
  }

  lemma ProviderIsRead(p: ProviderFile, specs: Specs, models: map<string, ModelDef>)
    requires LoadProvider(p, specs, models).Some?
    ensures ReadsProvider(p, LoadProvider(p, specs, models).value, models)
  {
    hide Trim, TrimSlashes, ReadsMode, LoadOffers, Catalog, ReadsOffers;
    OffersAreRead(p.offers, models);
    ModesAreRead(p.webSearch.support);
  }

  // ---- settings ----

  function OrNumber(n: int, otherwise: int): int { if n != 0 then n else otherwise }

  predicate ReadsCache(c: CacheFile, d: Cache) {
    && d.mode == (if Trim(c.mode) == "" then "automatic" else Trim(c.mode))
    && d.ttl == (if Trim(c.ttl) == "" then "5m" else Trim(c.ttl))
    && d.prompt == (c.prompt != Some(false)) && d.automatic == (c.automatic != Some(false))
    && d.breakpoints == (c.breakpoints != Some(false)) && d.downgrade == (c.downgrade == Some(true))
    && d.maxBreakpoints == OrNumber(c.maxBreakpoints, 4) && d.minTokens == OrNumber(c.minTokens, 1024)
    && d.reuse == OrNumber(c.reuse, 2) && d.minScore == OrNumber(c.minScore, 2048)
    && d.minBreakpoint == OrNumber(c.minBreakpoint, 1024)
  }

  predicate ReadsTarget(t: ProxyTarget, d: ProxyTarget) {
    d.baseUrl == TrimSlashes(Trim(t.baseUrl)) && d.apiKey == Trim(t.apiKey) && d.model == Trim(t.model)
  }

  predicate ReadsSettings(s: Settings<CacheFile>, d: Settings<Cache>) {
    && d.mode == Trim(s.mode) && d.mode in MODES && d.trace == s.trace
    && d.logLevel == (if Trim(s.logLevel) == "" then "info" else Trim(s.logLevel))
    && d.logFormat == (if Trim(s.logFormat) == "" then "text" else Trim(s.logFormat))
    && d.addr == (if Trim(s.addr) == "" then "127.0.0.1:38440" else Trim(s.addr))
    && d.authToken == Trim(s.authToken) && d.maxSessions == s.maxSessions
    && d.sessionTtl == (if Trim(s.sessionTtl) == "" then "24h" else Trim(s.sessionTtl))
    && d.model == Trim(s.model) && d.maxTokens == s.maxTokens && d.prompt == Trim(s.prompt)
    && ReadsSearch(s.webSearch, d.webSearch.(maxUses := s.webSearch.maxUses, rounds := s.webSearch.rounds))
    && d.webSearch.maxUses == OrNumber(s.webSearch.maxUses, 8) && d.webSearch.rounds == OrNumber(s.webSearch.rounds, 5)
    && ReadsMode(s.webSearch.support, d.webSearch.support, "auto") && d.webSearch.support != ""
    && ReadsCache(s.cache, d.cache) && d.activeProvider == Trim(s.activeProvider) && d.egress == Trim(s.egress)
    && ReadsTarget(s.response, d.response) && ReadsTarget(s.anthropic, d.anthropic)
    && d.anthropic.version == (if Trim(s.anthropic.version) == "" then "2023-06-01" else Trim(s.anthropic.version))
  }

  lemma SettingsAreRead(s: Settings<CacheFile>)
    requires LoadSettings(s).Some?
    ensures ReadsSettings(s, LoadSettings(s).value)
  {
    hide Trim, TrimSlashes, ReadsMode, ParseSupport, MODES, SUPPORTS, ReadsCache, LoadCache;
    ModesAreRead(s.webSearch.support);
    CacheIsRead(s.cache);
  }

  lemma CacheIsRead(c: CacheFile)
    ensures ReadsCache(c, LoadCache(c))
  {
    hide Trim;
  }

  /** Settings are refused exactly for an unknown mode or an unknown web search mode. */
  lemma SettingsRefusedExactly(s: Settings<CacheFile>)
    ensures LoadSettings(s) == None <==>
      || Trim(s.mode) !in MODES
      || (Trim(s.webSearch.support) != "" && Trim(s.webSearch.support) !in SUPPORTS)
  {
    hide Trim, MODES, SUPPORTS;
  }

  // ---- the whole file ----

  /** Every named entry of the file is there under its trimmed name, and says what the file says. */
  lemma FileIsRead(f: FileConfig, specs: Specs, choose: Choice, accepts: Config -> bool, c: Config)
    requires Loadable(f) && Load(f, specs, choose, accepts) == Some(c)
    ensures ReadsSettings(f.settings, c.settings) && c.extensions == f.extensions
    ensures c.models.Keys == Slugs(f.models) && c.providers.Keys == Slugs(f.providers)
      && c.routes.Keys == Slugs(f.routes)
    ensures forall slug :: slug in c.models ==> ReadsModel(f.models[KeyOf(f.models, slug)], c.models[slug])
    ensures forall key :: key in c.providers ==>
      ReadsProvider(f.providers[KeyOf(f.providers, key)], c.providers[key], c.models)
  {
    hide Trim, LoadAll, LoadModel, LoadProvider, LoadSettings, Valid, ReadsModel, ReadsProvider, ReadsSettings, Slugs,
      KeyOf, LoadRoute;
    SettingsAreRead(f.settings);
    LoadedKeys(f.models, ModelLoader(specs));
    LoadedKeys(f.providers, ProviderLoader(specs, c.models));
    LoadedKeys(f.routes, RouteLoader(c.providers, c.models, specs, choose));
    forall slug | slug in c.models ensures ReadsModel(f.models[KeyOf(f.models, slug)], c.models[slug]) {
      LoadedFrom(f.models, ModelLoader(specs), slug);
      ModelIsRead(f.models[KeyOf(f.models, slug)], specs);
    }
    forall key | key in c.providers
      ensures ReadsProvider(f.providers[KeyOf(f.providers, key)], c.providers[key], c.models)
    {
      LoadedFrom(f.providers, ProviderLoader(specs, c.models), key);
      ProviderIsRead(f.providers[KeyOf(f.providers, key)], specs, c.models);
    }
  }

  // ---- references ----

  /** The name an offer has at its provider. */
  function UpstreamName(o: OfferFile): string { if Trim(o.upstream) != "" then Trim(o.upstream) else Trim(o.model) }

  /** What a model offered with overrides is: web search and extensions stay the model's, and an empty
      list of modalities overrides nothing. */
  predicate OffersModel(base: ModelDef, overrides: Option<ModelFile>, info: ModelDef) {
    match overrides
    case None => info == base
    case Some(o) =>
      var modalities := if o.modalities == Some([]) then None else o.modalities;
      && ReadsOverrides(base, o.(modalities := modalities), info)
      && info.webSearch == base.webSearch && info.extensions == base.extensions
  }

  lemma MetaIsRead(o: OfferFile, offer: Offer, models: map<string, ModelDef>)
    requires AllClean(models) && offer == LoadOffer(o, models)
    ensures MetaOf(offer, models).pricing == o.pricing
    ensures if offer.model in models then OffersModel(models[offer.model], o.overrides, MetaOf(offer, models).def)
      else MetaOf(offer, models).def == NO_MODEL
  {
    hide Trim, Merge, Override, ReadsOverrides, CleanModel;
    if o.overrides.Some? && offer.model in models {
      OverriddenIsRead(models[offer.model], o.overrides.value);
    }
  }

  lemma OverriddenIsRead(base: ModelDef, o: ModelFile)
    requires CleanModel(base)
    ensures OffersModel(base, Some(o), Override(base, Merge(base, o)))
  {
    hide Trim, Merge, Override, CleanModel, ReadsText, ReadsLevels;
    OverrideMeansReplace(base, o);
    OverridesAreRead(base, o);
  }

  /** The loaded offer at each place, and its name. */
  lemma {:induction false} OfferAt(offers: seq<OfferFile>, models: map<string, ModelDef>, j: nat)
    requires j < |Naming(offers)|
    ensures |LoadOffers(offers, models)| == |Naming(offers)|
    ensures LoadOffers(offers, models)[j] == LoadOffer(Naming(offers)[j], models)
    ensures UpstreamOf(LoadOffers(offers, models)[j]) == UpstreamName(Naming(offers)[j])
    decreases |offers|
  {
    hide Trim, Merge;
    var init := offers[..|offers| - 1];
    SameCount(init, models);
    if j < |Naming(init)| { OfferAt(init, models, j); }
  }

  lemma {:induction false} SameCount(offers: seq<OfferFile>, models: map<string, ModelDef>)
    ensures |LoadOffers(offers, models)| == |Naming(offers)|
    decreases |offers|
  {
    hide Trim, LoadOffer;
    if offers != [] { SameCount(offers[..|offers| - 1], models); }
  }

  /** In every accepted file, "provider/name" costs what the offer of that name costs, and is its model
      as the offer overrides it, if the names of the provider's offers are unique. */
  lemma ReferenceMeansOffer(f: FileConfig, specs: Specs, choose: Choice, accepts: Config -> bool, c: Config,
                            key: string, j: nat)
    requires Loadable(f) && Load(f, specs, choose, accepts) == Some(c) && key in Slugs(f.providers)
    requires var offers := Naming(f.providers[KeyOf(f.providers, key)].offers);
      && j < |offers| && (forall i, k :: 0 <= i < k < |offers| ==> UpstreamName(offers[i]) != UpstreamName(offers[k]))
      && '/' !in key && !ParenForm(key + "/" + UpstreamName(offers[j]))
    ensures var o := Naming(f.providers[KeyOf(f.providers, key)].offers)[j];
      var r := RouteFor(c, key + "/" + UpstreamName(o));
      && r.provider == key && r.model == UpstreamName(o) && r.pricing == o.pricing
      && if Trim(o.model) in c.models then OffersModel(c.models[Trim(o.model)], o.overrides, r.info)
         else r.info == NO_MODEL
  {
    hide Trim, LoadAll, LoadModel, LoadSettings, Valid, ParenForm, Catalog, MetaOf, OffersModel, LoadOffer, LoadOffers,
      ModelLoader, AllClean, Naming, UpstreamName, UpstreamOf, ParseRef, LoadRoute;
    LoadedKeys(f.providers, ProviderLoader(specs, c.models));
    LoadedFrom(f.providers, ProviderLoader(specs, c.models), key);
    ModelsBack(f, specs, c.models);
    var p := f.providers[KeyOf(f.providers, key)];
    var named, loaded := Naming(p.offers), c.providers[key].offers;
    ProviderOffers(p, specs, c.models);
    LoadedProviderAgrees(p, specs, c.models);
    SameCount(p.offers, c.models);
    forall i | 0 <= i < |named| ensures UpstreamOf(loaded[i]) == UpstreamName(named[i]) {
      OfferAt(p.offers, c.models, i);
    }
    CatalogAt(loaded, c.models, j);
    OfferAt(p.offers, c.models, j);
    MetaIsRead(named[j], loaded[j], c.models);
    OfferModel(named[j], c.models);
    DirectReferenceExactly(key, UpstreamName(named[j]));
  }

  lemma OfferModel(o: OfferFile, models: map<string, ModelDef>)
    ensures LoadOffer(o, models).model == Trim(o.model) && Trimmed(UpstreamName(o))
  {
    hide Trim;
  }

  // ---- routes ----

  /** "provider/model" in a route, spaces around either part aside; without a slash it is a model of the
      provider "default". */
  lemma {:induction false} ParseToExactly(spec: string)
    ensures var s := Trim(spec);
      if '/' !in s then ParseTo(spec) == ("default", s)
      else exists i ::
        0 <= i < |s| && s[i] == '/' && '/' !in s[..i] && ParseTo(spec) == (Trim(s[..i]), Trim(s[i + 1..]))
  {
    hide Trim;
    FirstSlashMeaning(Trim(spec));
  }

  /** The provider, if any, and the model a route of the file names: a model of its own goes first. */
  predicate Names(r: RouteFile, key: string, slug: string) {
    if Trim(r.model) != "" then key == Trim(r.provider) && slug == Trim(r.model)
    else if r.to != "" then (key, slug) == ParseTo(r.to) else key == Trim(r.provider) && slug == ""
  }

  predicate Searches(ws: WebSearch) {
    || Trim(ws.support) != "" || Trim(ws.tavily) != "" || Trim(ws.firecrawl) != "" || ws.maxUses != 0 || ws.rounds != 0
    || ws.extra != map[]
  }

  /** A route has its display name and extensions for itself; a description, a context window and a web
      search it only has if it sets them; the rest is `base`. */
  predicate ReadsRoute(r: RouteFile, base: ModelDef, info: ModelDef) {
    && info.displayName == Trim(r.displayName) && info.extensions == r.extensions
    && info.description == (if r.description != "" then Trim(r.description) else base.description)
    && info.contextWindow == (if r.contextWindow > 0 then r.contextWindow else base.contextWindow)
    && (if Searches(r.webSearch)
        then ReadsSearch(r.webSearch, info.webSearch) && ReadsMode(r.webSearch.support, info.webSearch.support, "")
        else info.webSearch == base.webSearch)
    && info == base.(displayName := info.displayName, extensions := info.extensions, description := info.description,
                     contextWindow := info.contextWindow, webSearch := info.webSearch)
  }

  lemma OwnIsRead(base: ModelDef, r: RouteFile)
    ensures ReadsRoute(r, base, RouteOwn(base.(displayName := "", extensions := r.extensions), r))
  {
    hide Trim, ReadsSearch, ReadsMode, LoadSearch;
    SearchIsRead(r.webSearch);
    ModesAreRead(r.webSearch.support);
    assert Trimmed("");
  }

  /** What the model `slug` is at a provider: as the first offer that overrides it, else as it is itself. */
  function BaseAt(offers: seq<Offer>, models: map<string, ModelDef>, slug: string): ModelDef {
    if FirstOverride(offers, slug).Some? then FirstOverride(offers, slug).value else BaseModel(models, slug)
  }

  lemma {:induction false} NoOffer(offers: seq<Offer>, slug: string)
    ensures FirstOffer(offers, slug) == None <==> forall i :: 0 <= i < |offers| ==> offers[i].model != slug
    decreases |offers|
  {
    if offers != [] {
      NoOffer(offers[1..], slug);
      assert forall i :: 0 < i < |offers| ==> offers[i] == offers[1..][i - 1];
    }
  }

  /** A loaded route goes to the provider it names, or to one that offers its model if it names none; there
      it has the name and the prices of the offer, if there is one, and is the model as overridden. With
      unique models at that provider there is no choice among offers. */
  lemma RouteIsRead(r: RouteFile, providers: map<string, ProviderDef>, models: map<string, ModelDef>, specs: Specs,
                    choose: Choice, key: string, slug: string)
    requires LoadRoute(r, providers, models, specs, choose).Some? && Chooses(choose, providers)
    requires Names(r, key, slug)
    ensures var route := LoadRoute(r, providers, models, specs, choose).value;
      var offers := OffersFor(providers, route.provider);
      && slug != "" && (key != "" ==> route.provider == key)
      && (key == "" && route.provider != "" ==> Offers(providers, route.provider, slug))
      && (route.provider == "" && "" !in providers ==> forall k :: k in providers ==> !Offers(providers, k, slug))
      && ((forall i :: 0 <= i < |offers| ==> offers[i].model != slug) ==>
            route.model == slug && route.pricing == FREE && ReadsRoute(r, BaseModel(models, slug), route.info))
      && (forall i :: 0 <= i < |offers| && offers[i].model == slug && UniqueSlugs(offers) ==>
            && route.model == UpstreamOf(offers[i]) && route.pricing == offers[i].pricing
            && ReadsRoute(r, offers[i].overrides.GetOr(BaseModel(models, slug)), route.info))
  {
    hide Trim, ParseTo, FirstOffer, FirstOverride, UniqueSlugs, ReadsRoute, RouteOwn, RouteInfo, HasSearch;
    var route := LoadRoute(r, providers, models, specs, choose).value;
    var offers := OffersFor(providers, route.provider);
    NoOffer(offers, slug);
    InfoIsBase(providers, models, route.provider, slug, r.extensions);
    OwnIsRead(BaseAt(offers, models, slug), r);
    if forall i :: 0 <= i < |offers| ==> offers[i].model != slug { NoLaterOverride(offers, slug); }
    forall i | 0 <= i < |offers| && offers[i].model == slug && UniqueSlugs(offers)
      ensures FirstOffer(offers, slug) == Some(offers[i]) && FirstOverride(offers, slug) == offers[i].overrides
    {
      FirstIsOnly(offers, i);
    }
  }

  lemma InfoIsBase(providers: map<string, ProviderDef>, models: map<string, ModelDef>, key: string, slug: string,
                   extensions: Extensions)
    ensures RouteInfo(providers, models, key, slug, extensions)
      == BaseAt(OffersFor(providers, key), models, slug).(displayName := "", extensions := extensions)
  {
    hide FirstOverride;
  }

  /** The same over every accepted file, whichever provider map order picks. */
  lemma RoutesAreRead(f: FileConfig, specs: Specs, choose: Choice, accepts: Config -> bool, c: Config, alias: string,
                      key: string, slug: string)
    requires Loadable(f) && Load(f, specs, choose, accepts) == Some(c) && Chooses(choose, c.providers)
    requires alias in Slugs(f.routes) && Names(f.routes[KeyOf(f.routes, alias)], key, slug)
    ensures alias in c.routes
    ensures var r, route := f.routes[KeyOf(f.routes, alias)], c.routes[alias];
      var offers := OffersFor(c.providers, route.provider);
      && (key != "" ==> route.provider == key)
      && (key == "" && route.provider != "" ==> Offers(c.providers, route.provider, slug))
      && (route.provider == "" ==> forall k :: k in c.providers ==> !Offers(c.providers, k, slug))
      && ((forall i :: 0 <= i < |offers| ==> offers[i].model != slug) ==>
            route.model == slug && route.pricing == FREE && ReadsRoute(r, BaseModel(c.models, slug), route.info))
      && (forall i :: 0 <= i < |offers| && offers[i].model == slug && UniqueSlugs(offers) ==>
            && route.model == UpstreamOf(offers[i]) && route.pricing == offers[i].pricing
            && ReadsRoute(r, offers[i].overrides.GetOr(BaseModel(c.models, slug)), route.info))
  {
    hide Trim, LoadAll, LoadModel, LoadProvider, LoadSettings, Valid, LoadRoute, ReadsRoute, UniqueSlugs, Names,
      Offers, Chooses, BaseModel;
    LoadedKeys(f.routes, RouteLoader(c.providers, c.models, specs, choose));
    LoadedFrom(f.routes, RouteLoader(c.providers, c.models, specs, choose), alias);
    if "" in c.providers { LoadedFrom(f.providers, ProviderLoader(specs, c.models), ""); }
    RouteIsRead(f.routes[KeyOf(f.routes, alias)], c.providers, c.models, specs, choose, key, slug);
  }
}
