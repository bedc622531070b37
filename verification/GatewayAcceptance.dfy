/** Exactly which configuration files are accepted, said of the file alone
    (internal/config/config.go, internal/config/config_loader.go). */
module GatewayAcceptance {
  import opened Prelude
  import opened GatewayConfig
  import opened GatewayLoad
  import opened GatewayLaws
  import opened GatewayRoundTrip
  import opened GatewayAliases
  import opened GatewayMeaning

  // ---- entries ----

  /** A route is refused exactly if it names no model, or an extension that routes cannot have. */
  lemma RouteRefusedExactly(r: RouteFile, providers: map<string, ProviderDef>, models: map<string, ModelDef>,
                            specs: Specs, choose: Choice, key: string, slug: string)
    requires Names(r, key, slug)
    ensures LoadRoute(r, providers, models, specs, choose) == None <==>
      slug == "" || !(forall name :: name in r.extensions ==> name in specs && RouteScope in specs[name])
  {
    hide Trim, ParseTo, FirstOffer, RouteOwn, RouteInfo;
  }

  /** A model or a provider is refused exactly for an extension it cannot have. */
  lemma EntriesRefusedExactly(m: ModelFile, p: ProviderFile, specs: Specs, models: map<string, ModelDef>)
    ensures LoadModel(m, specs) == None <==>
      !(forall name :: name in m.extensions ==> name in specs && ModelScope in specs[name])
    ensures LoadProvider(p, specs, models) == None <==>
      !(forall name :: name in p.extensions ==> name in specs && ProviderScope in specs[name])
  {
    hide Trim, LoadOffers, Catalog, LoadSearch, HasSearch, LoadLevels;
  }

  predicate SearchSound(support: string, tavily: string, rounds: int) {
    Trim(support) == "injected" ==> Trim(tavily) != "" && rounds >= 0
  }

  /** A provider that searches on its own needs a key and rounds, its own or the global ones. */
  predicate ProviderSearchSound(ws: WebSearch, all: WebSearch) {
    Trim(ws.support) == "injected" ==>
      (Trim(ws.tavily) != "" || Trim(all.tavily) != "") && (ws.rounds > 0 || all.rounds >= 0)
  }

  predicate CacheSound(c: CacheFile) {
    Trim(c.mode) in {"", "off", "automatic", "explicit", "hybrid"} && Trim(c.ttl) in {"", "5m", "1h"}
  }

  predicate TargetSound(t: ProxyTarget) { TrimSlashes(Trim(t.baseUrl)) != "" && Trim(t.apiKey) != "" }

  ghost predicate ProviderSound(p: ProviderFile, f: FileConfig) {
    && TrimSlashes(Trim(p.baseUrl)) != "" && ProviderSearchSound(p.webSearch, f.settings.webSearch)
    && Trim(p.protocol) in {"", "anthropic", "openai-response", "google-genai", "openai-chat"}
    && forall j :: 0 <= j < |Naming(p.offers)| ==> Trim(Naming(p.offers)[j].model) in Slugs(f.models)
  }

  /** A route leads to a configured provider: the one it names, or any that offers its model. */
  ghost predicate RouteSound(r: RouteFile, f: FileConfig) {
    forall key, slug :: Names(r, key, slug) ==>
      if key != "" then key in Slugs(f.providers)
      else exists k, j :: k in Slugs(f.providers) && OffersAt(f.providers[KeyOf(f.providers, k)], j, slug)
  }

  predicate OffersAt(p: ProviderFile, j: nat, slug: string) {
    j < |Naming(p.offers)| && Trim(Naming(p.offers)[j].model) == slug
  }

  ghost predicate TransformSound(f: FileConfig) {
    var ws := f.settings.webSearch;
    && SearchSound(ws.support, ws.tavily, ws.rounds) && Slugs(f.providers) != {}
    && (forall key :: key in Slugs(f.providers) ==> ProviderSound(f.providers[KeyOf(f.providers, key)], f))
    && (Slugs(f.routes) == {} ==>
          exists key :: key in Slugs(f.providers) && Naming(f.providers[KeyOf(f.providers, key)].offers) != [])
    && (forall alias :: alias in Slugs(f.routes) ==> RouteSound(f.routes[KeyOf(f.routes, alias)], f))
  }

  ghost predicate FileSound(f: FileConfig) {
    && CacheSound(f.settings.cache)
    && (Trim(f.settings.mode) == "Transform" ==> TransformSound(f))
    && (Trim(f.settings.mode) == "CaptureResponse" ==> TargetSound(f.settings.response))
    && (Trim(f.settings.mode) == "CaptureAnthropic" ==> TargetSound(f.settings.anthropic))
  }

  // ---- one part after the other ----

  lemma CacheAccepted(c: CacheFile)
    ensures CacheValid(LoadCache(c)) <==> CacheSound(c)
  {
    hide Trim;
  }

  lemma {:induction false} Injected(s: string)
    ensures ParseSupport(s) == Some("injected") <==> Trim(s) == "injected"
  {
    hide Trim;
  }

  lemma {:induction false} CatalogNames(offers: seq<Offer>, models: map<string, ModelDef>)
    requires forall i :: 0 <= i < |offers| ==> offers[i].model != ""
    ensures "" !in Catalog(offers, models) && (Catalog(offers, models) == map[] <==> offers == [])
    decreases |offers|
  {
    hide MetaOf;
    if offers != [] {
      CatalogNames(offers[..|offers| - 1], models);
      assert UpstreamOf(offers[|offers| - 1]) in Catalog(offers, models);
    }
  }

  lemma {:induction false} NamingNames(offers: seq<OfferFile>)
    ensures forall j :: 0 <= j < |Naming(offers)| ==> Trim(Naming(offers)[j].model) != ""
    decreases |offers|
  {
    hide Trim;
    if offers != [] { NamingNames(offers[..|offers| - 1]); }
  }

  /** The provider's own part of the checks. */
  lemma ProviderAccepted(p: ProviderFile, specs: Specs, c: Config, key: string, d: ProviderDef)
    requires LoadProvider(p, specs, c.models) == Some(d) && key != ""
    ensures ProviderValid(c, key, d) <==>
      && TrimSlashes(Trim(p.baseUrl)) != ""
      && Trim(p.protocol) in {"", "anthropic", "openai-response", "google-genai", "openai-chat"}
      && forall j :: 0 <= j < |Naming(p.offers)| ==> Trim(Naming(p.offers)[j].model) in c.models
    ensures d.models == map[] <==> Naming(p.offers) == []
  {
    hide Trim, TrimSlashes, Catalog, Naming, LoadOffers, LoadSearch, ParseSupport, ReadsOffer;
    OffersAreRead(p.offers, c.models);
    NamingNames(p.offers);
    OfferModels(p.offers, c.models);
    CatalogNames(d.offers, c.models);
  }

  lemma {:induction false} OfferModels(offers: seq<OfferFile>, models: map<string, ModelDef>)
    ensures |LoadOffers(offers, models)| == |Naming(offers)|
    ensures forall j :: 0 <= j < |Naming(offers)| ==>
      LoadOffers(offers, models)[j].model == Trim(Naming(offers)[j].model)
  {
    hide Trim, Naming, LoadOffers;
    OffersAreRead(offers, models);
    forall j | 0 <= j < |Naming(offers)|
      ensures LoadOffers(offers, models)[j].model == Trim(Naming(offers)[j].model)
    {
      assert ReadsOffer(Naming(offers)[j], LoadOffers(offers, models)[j], models);
    }
  }

  lemma ProviderSearchAccepted(p: ProviderFile, specs: Specs, models: map<string, ModelDef>, s: Settings<CacheFile>)
    requires LoadProvider(p, specs, models).Some? && LoadSettings(s).Some?
    ensures var d, all := LoadProvider(p, specs, models).value.webSearch, LoadSettings(s).value.webSearch;
      (d.support == "injected" ==> (d.tavily != "" || all.tavily != "") && (d.rounds > 0 || all.rounds > 0))
      <==> ProviderSearchSound(p.webSearch, s.webSearch)
  {
    hide Trim, TrimSlashes, Catalog, LoadOffers, ParseSupport, LoadCache;
    Injected(p.webSearch.support);
  }

  lemma SearchAccepted(s: Settings<CacheFile>)
    requires LoadSettings(s).Some?
    ensures var ws := LoadSettings(s).value.webSearch;
      (ws.support == "injected" ==> ws.tavily != "" && ws.rounds > 0)
      <==> SearchSound(s.webSearch.support, s.webSearch.tavily, s.webSearch.rounds)
  {
    hide Trim, TrimSlashes, ParseSupport, LoadCache;
    Injected(s.webSearch.support);
  }

  // ---- the whole file ----

  /** Every part of the file loads, to the parts of `c`. */
  ghost predicate Parts(f: FileConfig, specs: Specs, choose: Choice, c: Config)
    requires Loadable(f)
  {
    && LoadSettings(f.settings) == Some(c.settings) && LoadAll(f.models, ModelLoader(specs)) == Some(c.models)
    && DecodeExtensions(f.extensions, GlobalScope, specs).Some? && c.extensions == f.extensions
    && LoadAll(f.providers, ProviderLoader(specs, c.models)) == Some(c.providers)
    && LoadAll(f.routes, RouteLoader(c.providers, c.models, specs, choose)) == Some(c.routes)
  }

  predicate SearchFits(c: Config, d: ProviderDef) {
    d.webSearch.support == "injected" ==>
      && (d.webSearch.tavily != "" || c.settings.webSearch.tavily != "")
      && (d.webSearch.rounds > 0 || c.settings.webSearch.rounds > 0)
  }

  /** The loaded provider passes the checks exactly if the file's is sound. */
  ghost predicate ProviderFits(p: ProviderFile, f: FileConfig, c: Config, key: string, d: ProviderDef) {
    && (ProviderSound(p, f) <==> ProviderValid(c, key, d) && SearchFits(c, d))
    && (d.models == map[] <==> Naming(p.offers) == [])
  }

  /** It offers what the file's does. */
  ghost predicate OffersFit(p: ProviderFile, c: Config, key: string) {
    forall slug :: Offers(c.providers, key, slug) && slug != "" <==> exists j: nat :: OffersAt(p, j, slug)
  }

  lemma ProviderFitsIn(p: ProviderFile, f: FileConfig, specs: Specs, c: Config, key: string, d: ProviderDef)
    requires LoadSettings(f.settings) == Some(c.settings) && c.models.Keys == Slugs(f.models)
    requires key != "" && LoadProvider(p, specs, c.models) == Some(d)
    ensures ProviderFits(p, f, c, key, d)
  {
    hide Trim, LoadProvider, LoadSettings, ProviderValid, Slugs, Naming, ProviderSearchSound, TrimSlashes;
    ProviderAccepted(p, specs, c, key, d);
    ProviderSearchAccepted(p, specs, c.models, f.settings);
    assert SearchFits(c, d) <==> ProviderSearchSound(p.webSearch, f.settings.webSearch);
    forall slug: string ensures slug in c.models <==> slug in Slugs(f.models) {
      assert slug in c.models <==> slug in c.models.Keys;
    }
  }

  lemma OffersFitIn(p: ProviderFile, specs: Specs, c: Config, key: string)
    requires key in c.providers && LoadProvider(p, specs, c.models) == Some(c.providers[key])
    ensures OffersFit(p, c, key)
  {
    hide Trim, LoadProvider, Offers, OffersAt;
    ProviderOffers(p, specs, c.models);
    forall slug ensures Offers(c.providers, key, slug) && slug != "" <==> exists j: nat :: OffersAt(p, j, slug) {
      OfferingMeans(p, c, key, slug);
    }
  }

  lemma ProvidersAccepted(f: FileConfig, specs: Specs, choose: Choice, c: Config)
    requires Loadable(f) && Parts(f, specs, choose, c)
    ensures c.providers.Keys == Slugs(f.providers) && "" !in c.providers
    ensures forall key :: key in c.providers ==>
      var p := f.providers[KeyOf(f.providers, key)];
      ProviderFits(p, f, c, key, c.providers[key]) && OffersFit(p, c, key)
  {
    hide Trim, LoadAll, ProviderFits, OffersFit, LoadSettings, Slugs, KeyOf, DecodeExtensions, RouteLoader,
      ModelLoader, Distinct, LoadProvider;
    LoadedKeys(f.models, ModelLoader(specs));
    LoadedKeys(f.providers, ProviderLoader(specs, c.models));
    if "" in c.providers { LoadedFrom(f.providers, ProviderLoader(specs, c.models), ""); }
    forall key | key in c.providers
      ensures var p := f.providers[KeyOf(f.providers, key)];
        ProviderFits(p, f, c, key, c.providers[key]) && OffersFit(p, c, key)
    {
      LoadedFrom(f.providers, ProviderLoader(specs, c.models), key);
      ProviderFitsIn(f.providers[KeyOf(f.providers, key)], f, specs, c, key, c.providers[key]);
      OffersFitIn(f.providers[KeyOf(f.providers, key)], specs, c, key);
    }
  }

  lemma OfferingMeans(p: ProviderFile, c: Config, key: string, slug: string)
    requires key in c.providers && c.providers[key].offers == LoadOffers(p.offers, c.models)
    ensures Offers(c.providers, key, slug) && slug != "" <==> exists j: nat :: OffersAt(p, j, slug)
  {
    hide Trim, LoadOffers, Naming, FirstOffer;
    var offers := c.providers[key].offers;
    NoOffer(offers, slug);
    OfferModels(p.offers, c.models);
    NamingNames(p.offers);
    if FirstOffer(offers, slug).Some? && slug != "" {
      var j :| 0 <= j < |offers| && offers[j].model == slug;
      assert OffersAt(p, j, slug);
    }
    forall j: nat | OffersAt(p, j, slug) ensures offers[j].model == slug && slug != "" {
    }
  }

  /** A loaded route leads to a configured provider exactly if the file's is sound. */
  lemma RouteAccepted(f: FileConfig, specs: Specs, choose: Choice, c: Config, alias: string)
    requires Loadable(f) && Parts(f, specs, choose, c) && Chooses(choose, c.providers) && alias in c.routes
    ensures alias != "" && alias in Slugs(f.routes) && c.routes[alias].model != ""
    ensures c.routes[alias].provider in c.providers <==> RouteSound(f.routes[KeyOf(f.routes, alias)], f)
  {
    hide Trim, LoadAll, ProviderFits, OffersFit, LoadSettings, Slugs, KeyOf, DecodeExtensions, LoadRoute, Chooses,
      ModelLoader, ProviderLoader, Distinct, RouteSound;
    LoadedFrom(f.routes, RouteLoader(c.providers, c.models, specs, choose), alias);
    ProvidersAccepted(f, specs, choose, c);
    RouteLeadsExactly(f, specs, choose, c, f.routes[KeyOf(f.routes, alias)], c.routes[alias]);
  }

  lemma RouteLeadsExactly(f: FileConfig, specs: Specs, choose: Choice, c: Config, r: RouteFile, route: Route)
    requires LoadRoute(r, c.providers, c.models, specs, choose) == Some(route) && Chooses(choose, c.providers)
    requires c.providers.Keys == Slugs(f.providers) && "" !in c.providers
    requires forall key :: key in c.providers ==> OffersFit(f.providers[KeyOf(f.providers, key)], c, key)
    ensures route.model != "" && (route.provider in c.providers <==> RouteSound(r, f))
  {
    hide Trim, Slugs, KeyOf, LoadRoute, OffersAt, Names, ReadsRoute, UniqueSlugs, Chooses, BaseModel, UpstreamOf;
    var key, slug := NamesSome(r);
    RouteHasModel(r, c.providers, c.models, specs, choose);
    RouteIsRead(r, c.providers, c.models, specs, choose, key, slug);
    forall k, s | Names(r, k, s) ensures k == key && s == slug { NamesOne(r, k, s, key, slug); }
    if key == "" {
      if route.provider in c.providers {
        assert OffersFit(f.providers[KeyOf(f.providers, route.provider)], c, route.provider);
        var j: nat :| OffersAt(f.providers[KeyOf(f.providers, route.provider)], j, slug);
      } else {
        forall k, j: nat | k in c.providers ensures !OffersAt(f.providers[KeyOf(f.providers, k)], j, slug) {
          assert OffersFit(f.providers[KeyOf(f.providers, k)], c, k);
          assert Offers(c.providers, k, slug) ==> k in c.providers;
        }
      }
    }
  }

  lemma NamesSome(r: RouteFile) returns (key: string, slug: string)
    ensures Names(r, key, slug)
  {
    hide Trim, ParseTo;
    if Trim(r.model) != "" { key, slug := Trim(r.provider), Trim(r.model); }
    else if r.to != "" { key, slug := ParseTo(r.to).0, ParseTo(r.to).1; }
    else { key, slug := Trim(r.provider), ""; }
  }

  lemma NamesOne(r: RouteFile, key: string, slug: string, key': string, slug': string)
    requires Names(r, key, slug) && Names(r, key', slug')
    ensures key == key' && slug == slug'
  {
    hide Trim, ParseTo;
  }

  lemma RouteHasModel(r: RouteFile, providers: map<string, ProviderDef>, models: map<string, ModelDef>, specs: Specs,
                      choose: Choice)
    requires LoadRoute(r, providers, models, specs, choose).Some?
    ensures LoadRoute(r, providers, models, specs, choose).value.model != ""
  {
    hide Trim, ParseTo, FirstOffer, RouteInfo, RouteOwn;
  }

  /** A file whose parts load is accepted exactly if it is sound and the extensions' own checks accept it;
      a file some part of which does not load is refused. */
  lemma AcceptedExactly(f: FileConfig, specs: Specs, choose: Choice, accepts: Config -> bool, c: Config)
    requires Loadable(f) && Chooses(choose, c.providers)
    ensures Load(f, specs, choose, accepts) == Some(c) <==> Parts(f, specs, choose, c) && FileSound(f) && accepts(c)
  {
    hide Trim, LoadAll, LoadModel, LoadProvider, LoadSettings, ProviderValid, LoadRoute, FileSound, Valid, Chooses;
    if Parts(f, specs, choose, c) {
      ValidExactly(f, specs, choose, c);
    }
  }

  lemma ValidExactly(f: FileConfig, specs: Specs, choose: Choice, c: Config)
    requires Loadable(f) && Chooses(choose, c.providers) && Parts(f, specs, choose, c)
    ensures Valid(c) <==> FileSound(f)
  {
    hide Trim, LoadAll, LoadModel, LoadProvider, LoadSettings, ProviderValid, LoadRoute, TransformSound, TransformValid,
      Chooses, TrimSlashes, CacheSound, CacheValid, KeyOf, Slugs;
    SettingsAreRead(f.settings);
    CacheIsAccepted(f.settings, c.settings);
    TransformExactly(f, specs, choose, c);
  }

  lemma CacheIsAccepted(s: Settings<CacheFile>, d: Settings<Cache>)
    requires LoadSettings(s) == Some(d)
    ensures CacheValid(d.cache) <==> CacheSound(s.cache)
  {
    hide Trim, TrimSlashes, ParseSupport, LoadCache, CacheSound, CacheValid;
    CacheAccepted(s.cache);
  }

  lemma TransformExactly(f: FileConfig, specs: Specs, choose: Choice, c: Config)
    requires Loadable(f) && Chooses(choose, c.providers) && Parts(f, specs, choose, c)
    ensures TransformValid(c) <==> TransformSound(f)
  {
    hide Trim, LoadAll, LoadSettings, ProviderValid, Chooses, KeyOf, Slugs, ProviderSound, RouteSound, SearchSound,
      Naming, OffersFit, Distinct, DecodeExtensions, ModelLoader, ProviderLoader, RouteLoader;
    SearchAccepted(f.settings);
    ProvidersAccepted(f, specs, choose, c);
    LoadedKeys(f.routes, RouteLoader(c.providers, c.models, specs, choose));
    forall alias | alias in c.routes
      ensures alias != "" && c.routes[alias].model != ""
      ensures c.routes[alias].provider in c.providers <==> RouteSound(f.routes[KeyOf(f.routes, alias)], f)
    {
      RouteAccepted(f, specs, choose, c, alias);
    }
    assert c.providers == map[] <==> c.providers.Keys == {};
    assert c.routes == map[] <==> c.routes.Keys == {};
  }
}
