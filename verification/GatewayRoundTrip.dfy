/** Loading, writing back and loading again: exactly which configurations come back as they were. */
module GatewayRoundTrip {
  import opened Prelude
  import opened GatewayConfig
  import opened GatewayLoad
  import opened GatewayLaws

  // ---- routes ----

  predicate CleanOffers(offers: seq<Offer>) {
    forall i :: 0 <= i < |offers| && offers[i].overrides.Some? ==> CleanModel(offers[i].overrides.value)
  }

  predicate CleanProviders(providers: map<string, ProviderDef>) {
    forall key :: key in providers ==> Trimmed(key) && key != "" && CleanOffers(providers[key].offers)
  }

  lemma {:induction false} FirstOverrideIsClean(offers: seq<Offer>, slug: string)
    requires CleanOffers(offers)
    ensures FirstOverride(offers, slug).Some? ==> CleanModel(FirstOverride(offers, slug).value)
    decreases |offers|
  {
    if offers != [] {
      FirstOverrideIsClean(offers[1..], slug);
    }
  }

  lemma RouteInfoIsClean(providers: map<string, ProviderDef>, models: map<string, ModelDef>, key: string, slug: string,
                         extensions: Extensions)
    requires CleanProviders(providers) && AllClean(models)
    ensures var info := RouteInfo(providers, models, key, slug, extensions);
      CleanModel(info) && info.displayName == "" && info.extensions == extensions
  {
    hide Trim, CleanSearch, CleanLevels, FirstOverride;
    var offers := if key == "" then [] else RouteOffers(providers, key);
    FirstOverrideIsClean(offers, slug);
    NoModelIsClean();
  }

  function OffersFor(providers: map<string, ProviderDef>, key: string): seq<Offer> {
    if key == "" then [] else RouteOffers(providers, key)
  }

  /** A route is written back by its upstream name, and the next load looks that name up as a slug.
      `offer` and `info` are what it then finds; a route stays if they say what it says, but for its
      own description, context window and web search, which are written out unless they are empty. */
  predicate RouteStays(r: Route, providers: map<string, ProviderDef>, models: map<string, ModelDef>) {
    var offer := FirstOffer(OffersFor(providers, r.provider), r.model);
    var info := RouteInfo(providers, models, r.provider, r.model, r.info.extensions);
    && (if offer.Some? then Or(offer.value.upstream, r.model) == r.model && offer.value.pricing == r.pricing
        else r.pricing == FREE)
    && info.maxOutput == r.info.maxOutput && info.instructions == r.info.instructions
    && info.reasoning == r.info.reasoning && info.defaultLevel == r.info.defaultLevel && info.levels == r.info.levels
    && info.summaries == r.info.summaries && info.defaultSummary == r.info.defaultSummary
    && info.modalities == r.info.modalities && info.imageDetail == r.info.imageDetail
    && (r.info.description == "" ==> info.description == "")
    && (r.info.contextWindow <= 0 ==> info.contextWindow == r.info.contextWindow)
    && (r.info.webSearch == NO_SEARCH ==> info.webSearch == NO_SEARCH)
  }

  /** What every loaded route is. */
  predicate CleanRoute(r: Route, providers: map<string, ProviderDef>, specs: Specs) {
    && Trimmed(r.provider) && Trimmed(r.model) && r.model != "" && CleanModel(r.info)
    && DecodeExtensions(r.info.extensions, RouteScope, specs).Some?
    && (r.provider == "" ==> forall key :: key in providers ==> !Offers(providers, key, r.model))
  }

  /** A loaded route survives being written back and loaded exactly when it stays, whichever provider
      map order would pick the second time. */
  lemma RouteRoundTripExactly(r: Route, providers: map<string, ProviderDef>, models: map<string, ModelDef>,
                              specs: Specs, again: Choice)
    requires CleanRoute(r, providers, specs) && CleanProviders(providers) && AllClean(models)
    ensures LoadRoute(SaveRoute(r), providers, models, specs, again) == Some(r) <==> RouteStays(r, providers, models)
  {
    hide Trim, CleanProviders, AllClean, RouteInfo, FirstOffer, CleanSearch, CleanLevels, HasSearch, LoadSearch;
    var info := RouteInfo(providers, models, r.provider, r.model, r.info.extensions);
    RouteInfoIsClean(providers, models, r.provider, r.model, r.info.extensions);
    CleanSearchStays(r.info.webSearch);
    CleanSearchStays(info.webSearch);
  }

  lemma TargetIsTrimmed(r: RouteFile)
    ensures Trimmed(RouteTarget(r).0) && Trimmed(RouteTarget(r).1)
  {
    hide Trim, FirstSlash;
    assert Trimmed("default");
  }

  lemma {:induction false} FirstOfferMeaning(offers: seq<Offer>, slug: string)
    ensures FirstOffer(offers, slug).Some? ==>
      FirstOffer(offers, slug).value in offers && FirstOffer(offers, slug).value.model == slug
    decreases |offers|
  {
    if offers != [] {
      FirstOfferMeaning(offers[1..], slug);
    }
  }

  predicate TrimmedNames(offers: seq<Offer>) {
    forall offer :: offer in offers ==> Trimmed(offer.model) && Trimmed(offer.upstream)
  }

  lemma LoadedRouteIsClean(r: RouteFile, providers: map<string, ProviderDef>, models: map<string, ModelDef>,
                           specs: Specs, choose: Choice)
    requires CleanProviders(providers) && AllClean(models) && Chooses(choose, providers)
    requires forall key :: key in providers ==> TrimmedNames(providers[key].offers)
    requires LoadRoute(r, providers, models, specs, choose).Some?
    ensures CleanRoute(LoadRoute(r, providers, models, specs, choose).value, providers, specs)
  {
    hide Trim, AllClean, RouteInfo, CleanSearch, CleanLevels, HasSearch, LoadSearch, CleanOffers, FirstOffer;
    var route := LoadRoute(r, providers, models, specs, choose).value;
    var slug := RouteTarget(r).1;
    TargetIsTrimmed(r);
    FirstOfferMeaning(OffersFor(providers, route.provider), slug);
    RouteInfoIsClean(providers, models, route.provider, slug, r.extensions);
    SearchLoadsClean(r.webSearch);
  }

  /** Upstream names that are their slugs, and no description that is blank but not empty or mode that
      is unknown and alone, are enough for a route to stay. */
  predicate RouteKept(r: RouteFile) {
    !OnlyUnknown(r.webSearch) && (r.description == "" || Trim(r.description) != "")
  }

  lemma SameNameStays(r: RouteFile, providers: map<string, ProviderDef>, models: map<string, ModelDef>, specs: Specs,
                      choose: Choice)
    requires CleanProviders(providers) && AllClean(models) && RouteKept(r)
    requires LoadRoute(r, providers, models, specs, choose).Some?
    requires LoadRoute(r, providers, models, specs, choose).value.model == RouteTarget(r).1
    ensures RouteStays(LoadRoute(r, providers, models, specs, choose).value, providers, models)
  {
    hide Trim, AllClean, RouteInfo, CleanSearch, CleanLevels, HasSearch, LoadSearch, OnlyUnknown, CleanProviders,
      FirstOffer;
    var route := LoadRoute(r, providers, models, specs, choose).value;
    RouteInfoIsClean(providers, models, route.provider, route.model, r.extensions);
    SearchLoadsClean(r.webSearch);
  }

  /** A loaded route that does not stay: upstream name "x" of the slug "m", which is no slug itself. */
  lemma UpstreamNameLosesRoute(specs: Specs, choose: Choice)
    ensures var model := NO_MODEL.(maxOutput := 64, reasoning := true);
      var p := ProviderDef("u", "", "", "", "", "", NO_SEARCH, map[],
        [Offer("m", "x", 0, Pricing(1.0, 2.0, 0.0, 0.0), None)], map[]);
      var r := RouteFile("", "m", "p", "", "", 0, NO_SEARCH, map[]);
      var first := LoadRoute(r, map["p" := p], map["m" := model], specs, choose);
      && first.Some? && first.value.pricing == Pricing(1.0, 2.0, 0.0, 0.0) && first.value.info.maxOutput == 64
      && var second := LoadRoute(SaveRoute(first.value), map["p" := p], map["m" := model], specs, choose);
      && second.Some? && second.value.pricing == FREE && second.value.info.maxOutput == 0
  {
    hide Trim, HasSearch, LoadSearch;
    assert Trimmed("m") && Trimmed("p") && Trimmed("x");
    assert !HasSearch(NO_SEARCH) by { CleanSearchStays(NO_SEARCH); }
    assert "x" != "m";
  }

  // ---- settings ----

  predicate SettingsKept(s: Settings<CacheFile>) {
    !SpaceThenSlashes(Trim(s.response.baseUrl)) && !SpaceThenSlashes(Trim(s.anthropic.baseUrl))
  }

  lemma SettingsRoundTripExactly(s: Settings<CacheFile>)
    requires LoadSettings(s).Some?
    ensures LoadSettings(SaveSettings(LoadSettings(s).value)) == LoadSettings(s) <==> SettingsKept(s)
  {
    hide Trim, BaseUrl, LoadCache, SaveCache, SpaceThenSlashes;
    BaseUrlStableExactly(s.response.baseUrl);
    BaseUrlStableExactly(s.anthropic.baseUrl);
    SupportsAreTrimmed();
    VersionsAreTrimmed();
    DefaultsAreTrimmed();
    CacheRoundTrip(s.cache);
  }

  lemma DefaultsAreTrimmed()
    ensures Trimmed("info") && Trimmed("text") && Trimmed("127.0.0.1:38440") && Trimmed("24h")
    ensures Trimmed("automatic") && Trimmed("5m")
  {
  }

  lemma CacheRoundTrip(c: CacheFile)
    ensures LoadCache(SaveCache(LoadCache(c))) == LoadCache(c)
  {
    hide Trim;
    DefaultsAreTrimmed();
  }

  // ---- maps ----

  predicate Named<V>(m: map<string, V>) { forall slug :: slug in m ==> Trimmed(slug) && slug != "" }

  lemma LoadedFrom<F, R>(raw: map<string, F>, load: F -> Option<R>, slug: string)
    requires LoadAll(raw, load).Some? && slug in LoadAll(raw, load).value
    ensures Trimmed(slug) && slug != "" && slug in Slugs(raw) && KeyOf(raw, slug) in raw
    ensures load(raw[KeyOf(raw, slug)]) == Some(LoadAll(raw, load).value[slug])
  {
    hide Trim;
  }

  lemma LoadedKeys<F, R>(raw: map<string, F>, load: F -> Option<R>)
    requires LoadAll(raw, load).Some?
    ensures LoadAll(raw, load).value.Keys == Slugs(raw)
  {
    hide Trim, Slugs;
  }

  /** Entries load back together exactly when they load back one by one. */
  lemma LoadAllBackExactly<F, R>(saved: map<string, F>, loaded: map<string, R>, load: F -> Option<R>)
    requires saved.Keys == loaded.Keys && Named(loaded)
    ensures Distinct(saved)
    ensures LoadAll(saved, load) == Some(loaded)
      <==> forall slug :: slug in loaded ==> load(saved[slug]) == Some(loaded[slug])
  {
    hide Trim;
    forall slug | slug in saved ensures slug in Slugs(saved) && KeyOf(saved, slug) == slug {
      assert Trim(slug) == slug;
    }
    assert Slugs(saved) == saved.Keys;
    if forall slug :: slug in loaded ==> load(saved[slug]) == Some(loaded[slug]) {
      assert LoadAll(saved, load).value == loaded;
    }
  }

  // ---- the whole configuration ----

  /** Every loaded model survives. */
  lemma ModelsBack(f: FileConfig, specs: Specs, models: map<string, ModelDef>)
    requires Loadable(f) && LoadAll(f.models, ModelLoader(specs)) == Some(models)
    ensures Named(models) && AllClean(models)
    ensures var saved := map slug | slug in models :: SaveModel(models[slug]);
      Distinct(saved) && LoadAll(saved, ModelLoader(specs)) == Some(models)
  {
    hide Trim, LoadAll, CleanModel, LoadModel, SaveModel, Distinct;
    var saved := map slug | slug in models :: SaveModel(models[slug]);
    forall slug | slug in models
      ensures Trimmed(slug) && slug != "" && CleanModel(models[slug])
      ensures LoadModel(saved[slug], specs) == Some(models[slug])
    {
      LoadedFrom(f.models, ModelLoader(specs), slug);
      var m := f.models[KeyOf(f.models, slug)];
      ModelLoadsClean(m, specs);
      ModelExtensions(m, specs);
      ModelRoundTrip(models[slug], specs);
    }
    LoadAllBackExactly(saved, models, ModelLoader(specs));
  }

  lemma ModelExtensions(m: ModelFile, specs: Specs)
    requires LoadModel(m, specs).Some?
    ensures DecodeExtensions(LoadModel(m, specs).value.extensions, ModelScope, specs).Some?
  {
  }

  lemma {:induction false} LoadedOffersAreClean(offers: seq<OfferFile>, models: map<string, ModelDef>)
    requires AllClean(models)
    ensures CleanOffers(LoadOffers(offers, models)) && TrimmedNames(LoadOffers(offers, models))
    decreases |offers|
  {
    hide Trim, Merge, CleanModel;
    if offers != [] {
      var last := offers[|offers| - 1];
      LoadedOffersAreClean(offers[..|offers| - 1], models);
      NoModelIsClean();
      if last.overrides.Some? {
        MergeIsClean(BaseModel(models, Trim(last.model)), last.overrides.value);
      }
    }
  }

  /** Providers are kept by the name they are loaded under. */
  ghost predicate ProvidersKept(f: FileConfig, models: map<string, ModelDef>) {
    forall key :: key in Slugs(f.providers) ==> ProviderKept(f.providers[KeyOf(f.providers, key)], models)
  }

  lemma ProvidersBackExactly(f: FileConfig, specs: Specs, models: map<string, ModelDef>,
                             providers: map<string, ProviderDef>)
    requires Loadable(f) && AllClean(models) && LoadAll(f.providers, ProviderLoader(specs, models)) == Some(providers)
    ensures CleanProviders(providers) && Named(providers)
    ensures forall key :: key in providers ==> TrimmedNames(providers[key].offers)
    ensures var saved := map key | key in providers :: SaveProvider(providers[key]);
      && Distinct(saved)
      && (LoadAll(saved, ProviderLoader(specs, models)) == Some(providers) <==> ProvidersKept(f, models))
  {
    hide Trim, AllClean, LoadProvider, SaveProvider, Distinct, ProviderKept, CleanOffers, TrimmedNames, LoadAll, Slugs,
      KeyOf, Loadable;
    LoadedKeys(f.providers, ProviderLoader(specs, models));
    var saved := map key | key in providers :: SaveProvider(providers[key]);
    forall key | key in providers
      ensures Trimmed(key) && key != "" && CleanOffers(providers[key].offers) && TrimmedNames(providers[key].offers)
      ensures LoadProvider(saved[key], specs, models) == Some(providers[key])
        <==> ProviderKept(f.providers[KeyOf(f.providers, key)], models)
    {
      LoadedFrom(f.providers, ProviderLoader(specs, models), key);
      var p := f.providers[KeyOf(f.providers, key)];
      ProviderRoundTripExactly(p, specs, models);
      ProviderOffers(p, specs, models);
      LoadedOffersAreClean(p.offers, models);
    }
    LoadAllBackExactly(saved, providers, ProviderLoader(specs, models));
  }

  lemma {:induction false} ProviderOffers(p: ProviderFile, specs: Specs, models: map<string, ModelDef>)
    requires LoadProvider(p, specs, models).Some?
    ensures LoadProvider(p, specs, models).value.offers == LoadOffers(p.offers, models)
  {
  }

  predicate RoutesStay(routes: map<string, Route>, providers: map<string, ProviderDef>, models: map<string, ModelDef>) {
    forall alias :: alias in routes ==> RouteStays(routes[alias], providers, models)
  }

  lemma RoutesBackExactly(f: FileConfig, specs: Specs, models: map<string, ModelDef>,
                          providers: map<string, ProviderDef>, routes: map<string, Route>, choose: Choice,
                          again: Choice)
    requires Loadable(f) && AllClean(models) && CleanProviders(providers) && Chooses(choose, providers)
    requires forall key :: key in providers ==> TrimmedNames(providers[key].offers)
    requires LoadAll(f.routes, RouteLoader(providers, models, specs, choose)) == Some(routes)
    ensures var saved := map alias | alias in routes :: SaveRoute(routes[alias]);
      && Distinct(saved)
      && (LoadAll(saved, RouteLoader(providers, models, specs, again)) == Some(routes)
          <==> RoutesStay(routes, providers, models))
  {
    hide Trim, CleanModel, AllClean, CleanProviders, Chooses, LoadRoute, SaveRoute, RouteStays, CleanRoute, Distinct,
      TrimmedNames;
    var saved := map alias | alias in routes :: SaveRoute(routes[alias]);
    forall alias | alias in routes
      ensures Trimmed(alias) && alias != ""
      ensures LoadRoute(saved[alias], providers, models, specs, again) == Some(routes[alias])
        <==> RouteStays(routes[alias], providers, models)
    {
      LoadedFrom(f.routes, RouteLoader(providers, models, specs, choose), alias);
      LoadedRouteIsClean(f.routes[KeyOf(f.routes, alias)], providers, models, specs, choose);
      RouteRoundTripExactly(routes[alias], providers, models, specs, again);
    }
    LoadAllBackExactly(saved, routes, RouteLoader(providers, models, specs, again));
  }

  /** The loader writes the extensions of overrides into the map of the base model itself. */
  predicate PlainOverrides(f: FileConfig) {
    forall k :: k in f.providers ==>
      forall i :: 0 <= i < |f.providers[k].offers| && f.providers[k].offers[i].overrides.Some? ==>
        f.providers[k].offers[i].overrides.value.extensions == map[]
  }

  /** Loading, writing back and loading again gives the first configuration exactly when no base URL
      has a space before its slashes, no provider has an unknown search mode, no override switches off
      a flag or hides a web search of its base, and every route stays. */
  lemma LoadSaveLoadExactly(f: FileConfig, specs: Specs, choose: Choice, again: Choice, accepts: Config -> bool,
                            c: Config)
    requires Loadable(f) && PlainOverrides(f) && Load(f, specs, choose, accepts) == Some(c)
      && Chooses(choose, c.providers)
    ensures Loadable(Save(c))
    ensures Load(Save(c), specs, again, accepts) == Some(c)
      <==> SettingsKept(f.settings) && ProvidersKept(f, c.models) && RoutesStay(c.routes, c.providers, c.models)
  {
    hide LoadAll, Trim, AllClean, CleanProviders, Chooses, Valid, LoadSettings, SaveSettings, Distinct, SettingsKept,
      ProvidersKept, RoutesStay, TrimmedNames, SaveModel, SaveProvider, SaveRoute, ModelLoader, ProviderLoader,
      RouteLoader, PlainOverrides;
    SettingsRoundTripExactly(f.settings);
    ModelsBack(f, specs, c.models);
    ProvidersBackExactly(f, specs, c.models, c.providers);
    RoutesBackExactly(f, specs, c.models, c.providers, c.routes, choose, again);
  }

  // ---- a condition on the file alone ----

  /** Every upstream name is the slug. */
  predicate SameNames(offers: seq<OfferFile>) {
    forall i :: 0 <= i < |offers| ==>
      Trim(offers[i].upstream) == "" || Trim(offers[i].upstream) == Trim(offers[i].model)
  }

  ghost predicate Kept(f: FileConfig, models: map<string, ModelDef>) {
    && SettingsKept(f.settings) && ProvidersKept(f, models)
    && (forall k :: k in f.providers ==> SameNames(f.providers[k].offers))
    && (forall k :: k in f.routes ==> RouteKept(f.routes[k]))
  }

  lemma {:induction false} SameNamesLoad(offers: seq<OfferFile>, models: map<string, ModelDef>)
    requires SameNames(offers)
    ensures forall offer :: offer in LoadOffers(offers, models) ==>
      offer.upstream == "" || offer.upstream == offer.model
    decreases |offers|
  {
    hide Trim, Merge;
    if offers != [] {
      SameNamesLoad(offers[..|offers| - 1], models);
    }
  }

  lemma SameNamesTarget(r: RouteFile, providers: map<string, ProviderDef>, models: map<string, ModelDef>, specs: Specs,
                        choose: Choice)
    requires forall key :: key in providers ==>
      forall offer :: offer in providers[key].offers ==> offer.upstream == "" || offer.upstream == offer.model
    requires LoadRoute(r, providers, models, specs, choose).Some?
    ensures LoadRoute(r, providers, models, specs, choose).value.model == RouteTarget(r).1
  {
    hide Trim, RouteInfo, RouteOwn, FirstOffer;
    var route := LoadRoute(r, providers, models, specs, choose).value;
    FirstOfferMeaning(OffersFor(providers, route.provider), RouteTarget(r).1);
  }

  lemma KeptProviders(f: FileConfig, specs: Specs, models: map<string, ModelDef>, providers: map<string, ProviderDef>)
    requires Kept(f, models) && LoadAll(f.providers, ProviderLoader(specs, models)) == Some(providers)
    ensures forall key :: key in providers ==>
      forall offer :: offer in providers[key].offers ==> offer.upstream == "" || offer.upstream == offer.model
  {
    hide Trim, LoadAll, LoadProvider, ProvidersKept, SettingsKept, SameNames, RouteKept;
    forall key | key in providers
      ensures forall offer :: offer in providers[key].offers ==> offer.upstream == "" || offer.upstream == offer.model
    {
      LoadedFrom(f.providers, ProviderLoader(specs, models), key);
      var p := f.providers[KeyOf(f.providers, key)];
      ProviderOffers(p, specs, models);
      SameNamesLoad(p.offers, models);
    }
  }

  lemma KeptRoutes(f: FileConfig, specs: Specs, models: map<string, ModelDef>, providers: map<string, ProviderDef>,
                   routes: map<string, Route>, choose: Choice)
    requires Kept(f, models) && AllClean(models) && CleanProviders(providers)
    requires LoadAll(f.providers, ProviderLoader(specs, models)) == Some(providers)
    requires LoadAll(f.routes, RouteLoader(providers, models, specs, choose)) == Some(routes)
    ensures RoutesStay(routes, providers, models)
  {
    hide Trim, LoadAll, LoadRoute, RouteStays, AllClean, CleanProviders, ProvidersKept, SettingsKept, SameNames,
      RouteKept;
    KeptProviders(f, specs, models, providers);
    forall alias | alias in routes ensures RouteStays(routes[alias], providers, models) {
      LoadedFrom(f.routes, RouteLoader(providers, models, specs, choose), alias);
      var r := f.routes[KeyOf(f.routes, alias)];
      SameNamesTarget(r, providers, models, specs, choose);
      SameNameStays(r, providers, models, specs, choose);
    }
  }

  /** So every accepted file whose upstream names are slugs, and that is kept otherwise, survives. */
  lemma LoadSaveLoad(f: FileConfig, specs: Specs, choose: Choice, again: Choice, accepts: Config -> bool, c: Config)
    requires Loadable(f) && PlainOverrides(f) && Load(f, specs, choose, accepts) == Some(c)
      && Chooses(choose, c.providers)
    requires Kept(f, c.models)
    ensures Loadable(Save(c)) && Load(Save(c), specs, again, accepts) == Some(c)
  {
    hide LoadAll, Trim, AllClean, CleanProviders, Chooses, Valid, LoadSettings, Distinct, SettingsKept, ProvidersKept,
      RoutesStay, TrimmedNames, ModelLoader, ProviderLoader, RouteLoader, PlainOverrides, SameNames, RouteKept, Save;
    ModelsBack(f, specs, c.models);
    ProvidersBackExactly(f, specs, c.models, c.providers);
    KeptRoutes(f, specs, c.models, c.providers, c.routes, choose);
    LoadSaveLoadExactly(f, specs, choose, again, accepts, c);
  }
}
