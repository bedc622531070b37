/** A route alias and the direct reference to its provider and upstream model resolve alike
    (internal/config/config.go, internal/config/config_loader.go). */
module GatewayAliases {
  import opened Prelude
  import opened GatewayConfig
  import opened GatewayLoad
  import opened GatewayLaws
  import opened GatewayRoundTrip

  /** RouteFor on a "provider/model" reference whose provider is configured. */
  function DirectRoute(c: Config, provider: string, upstream: string): Route
    requires provider in c.providers
  {
    if upstream in c.providers[provider].models
    then
      var meta := c.providers[provider].models[upstream];
      Route(provider, upstream, meta.pricing, meta.def)
    else Route(provider, upstream, FREE, NO_MODEL)
  }

  /** Same upstream, limits, prices, description, instructions, reasoning and image detail; the
      display name, modalities, web search and extensions may differ. */
  predicate Alike(a: Route, b: Route) {
    && a.provider == b.provider && a.model == b.model && a.pricing == b.pricing
    && a.info == b.info.(displayName := a.info.displayName, modalities := a.info.modalities,
                         webSearch := a.info.webSearch, extensions := a.info.extensions)
  }

  predicate UniqueSlugs(offers: seq<Offer>) {
    forall i, j :: 0 <= i < j < |offers| ==> offers[i].model != offers[j].model
  }

  predicate UniqueUpstreams(offers: seq<Offer>) {
    forall i, j :: 0 <= i < j < |offers| ==> UpstreamOf(offers[i]) != UpstreamOf(offers[j])
  }

  /** Overrides as loading makes them: merged into the model they override. */
  ghost predicate MergedOverrides(offers: seq<Offer>, models: map<string, ModelDef>) {
    forall i :: 0 <= i < |offers| && offers[i].overrides.Some? ==>
      exists over: ModelFile :: offers[i].overrides.value == Merge(BaseModel(models, offers[i].model), over)
  }

  lemma {:induction false} LoadedOverridesAreMerged(offers: seq<OfferFile>, models: map<string, ModelDef>)
    ensures MergedOverrides(LoadOffers(offers, models), models)
    decreases |offers|
  {
    hide Trim, Merge;
    if offers != [] {
      LoadedOverridesAreMerged(offers[..|offers| - 1], models);
    }
  }

  lemma {:induction false} CatalogAt(offers: seq<Offer>, models: map<string, ModelDef>, i: nat)
    requires i < |offers| && UniqueUpstreams(offers)
    ensures UpstreamOf(offers[i]) in Catalog(offers, models)
    ensures Catalog(offers, models)[UpstreamOf(offers[i])] == MetaOf(offers[i], models)
    decreases |offers|
  {
    hide MetaOf, UpstreamOf;
    if i < |offers| - 1 {
      CatalogAt(offers[..|offers| - 1], models, i);
    }
  }

  lemma {:induction false} FirstIsOnly(offers: seq<Offer>, i: nat)
    requires i < |offers| && UniqueSlugs(offers)
    ensures FirstOffer(offers, offers[i].model) == Some(offers[i])
    ensures FirstOverride(offers, offers[i].model) == offers[i].overrides
    decreases |offers|
  {
    if i > 0 {
      assert offers[1..][i - 1] == offers[i];
      FirstIsOnly(offers[1..], i - 1);
    } else {
      NoLaterOverride(offers[1..], offers[0].model);
    }
  }

  lemma {:induction false} NoLaterOverride(offers: seq<Offer>, slug: string)
    requires forall i :: 0 <= i < |offers| ==> offers[i].model != slug
    ensures FirstOverride(offers, slug) == None
    decreases |offers|
  {
    if offers != [] {
      NoLaterOverride(offers[1..], slug);
    }
  }

  /** Applying merged overrides to a catalog entry gives the merged model itself, but for its web
      search, its extensions, and modalities that are overridden by an empty list. */
  lemma OverrideMeansReplace(base: ModelDef, over: ModelFile)
    requires CleanModel(base)
    ensures var m := Merge(base, over);
      Override(base, m) == m.(webSearch := base.webSearch, extensions := base.extensions,
                              modalities := if m.modalities == Some([]) then base.modalities else m.modalities)
  {
    hide Trim, LoadSearch, HasSearch, CleanSearch, CleanLevels;
  }

  /** With unique slugs and unique upstream names in its provider, an alias with no description and
      no context window of its own resolves like the direct reference to its upstream model. */
  lemma AliasMatchesDirect(c: Config, r: RouteFile, specs: Specs, choose: Choice, i: nat)
    requires AllClean(c.models) && LoadRoute(r, c.providers, c.models, specs, choose).Some?
    requires var key := LoadRoute(r, c.providers, c.models, specs, choose).value.provider;
      && key != "" && key in c.providers
      && var p := c.providers[key];
      && UniqueSlugs(p.offers) && UniqueUpstreams(p.offers) && MergedOverrides(p.offers, c.models)
      && p.models == Catalog(p.offers, c.models)
      && i < |p.offers| && p.offers[i].model == RouteTarget(r).1 && p.offers[i].model in c.models
    requires r.description == "" && r.contextWindow <= 0
    ensures var alias := LoadRoute(r, c.providers, c.models, specs, choose).value;
      Alike(alias, DirectRoute(c, alias.provider, alias.model))
  {
    hide Trim, Catalog, FirstOffer, FirstOverride, Merge, Override, CleanModel, LoadSearch, HasSearch, UniqueSlugs,
      UniqueUpstreams;
    var alias := LoadRoute(r, c.providers, c.models, specs, choose).value;
    var offers := c.providers[alias.provider].offers;
    var offer := offers[i];
    FirstIsOnly(offers, i);
    CatalogAt(offers, c.models, i);
    if offer.overrides.Some? {
      var over: ModelFile :| offer.overrides.value == Merge(BaseModel(c.models, offer.model), over);
      OverrideMeansReplace(c.models[offer.model], over);
    }
  }

  /** Loading makes providers of that form. */
  lemma {:induction false} LoadedProviderAgrees(p: ProviderFile, specs: Specs, models: map<string, ModelDef>)
    requires LoadProvider(p, specs, models).Some?
    ensures var loaded := LoadProvider(p, specs, models).value;
      MergedOverrides(loaded.offers, models) && loaded.models == Catalog(loaded.offers, models)
  {
    hide Trim, LoadOffers, Catalog, MergedOverrides;
    LoadedOverridesAreMerged(p.offers, models);
  }

  // ---- the short form of a route ----

  lemma {:induction false} FirstSlashIs(s: string, i: nat)
    requires i <= |s| && '/' !in s[..i] && (i < |s| ==> s[i] == '/')
    ensures FirstSlash(s) == i
  {
    if i > 0 {
      assert s[0] == s[..i][0];
      assert s[1..][..i - 1] == s[..i][1..];
      FirstSlashIs(s[1..], i - 1);
    }
  }

  /** "provider/model" names just those two, and a model alone goes to the provider "default". */
  lemma ShortRouteMeaning(provider: string, model: string)
    requires Trimmed(provider) && Trimmed(model) && '/' !in provider
    ensures ParseTo(provider + "/" + model) == (provider, model)
    ensures ParseTo(provider) == ("default", provider)
  {
    hide Trim, FirstSlash;
    var s := provider + "/" + model;
    assert s[..|provider|] == provider && s[|provider| + 1..] == model;
    FirstSlashIs(s, |provider|);
    assert provider[..|provider|] == provider;
    FirstSlashIs(provider, |provider|);
  }

  // ---- references ----

  function LastOpen(s: string): (i: int)
    ensures -1 <= i < |s| && (i >= 0 ==> s[i] == '(')
  {
    if s == "" then -1 else if s[|s| - 1] == '(' then |s| - 1 else LastOpen(s[..|s| - 1])
  }

  /** "model(provider)", which is tried first. */
  predicate ParenForm(s: string) {
    LastOpen(s) > 0 && s[|s| - 1] == ')' && LastOpen(s) + 1 < |s| - 1
  }

  /** ParseModelRef: no provider if neither form matches. */
  function ParseRef(ref: string): (string, string) {
    var s := Trim(ref);
    if ParenForm(s) then (Trim(s[LastOpen(s) + 1..|s| - 1]), Trim(s[..LastOpen(s)]))
    else
      var i := FirstSlash(s);
      if i == |s| then ("", ref) else (Trim(s[..i]), Trim(s[i + 1..]))
  }

  const NO_ROUTE := Route("", "", FREE, NO_MODEL)

  /** RouteFor: a reference to a configured provider is resolved before aliases are looked at. */
  function RouteFor(c: Config, name: string): Route {
    var (provider, upstream) := ParseRef(name);
    if provider != "" && provider in c.providers then DirectRoute(c, provider, upstream)
    else if name in c.routes then c.routes[name] else NO_ROUTE
  }

  /** "provider/model" refers to just those two, exactly unless the whole of it ends in a
      parenthesised part. */
  lemma DirectReferenceExactly(provider: string, model: string)
    requires Trimmed(provider) && Trimmed(model) && '/' !in provider
    ensures ParseRef(provider + "/" + model) == (provider, model) <==> !ParenForm(provider + "/" + model)
  {
    hide Trim, FirstSlash, LastOpen;
    var s := provider + "/" + model;
    assert s[..|provider|] == provider && s[|provider| + 1..] == model;
    FirstSlashIs(s, |provider|);
    if ParenForm(s) {
      TrimShortens(s[LastOpen(s) + 1..|s| - 1]);
      TrimShortens(s[..LastOpen(s)]);
    }
  }

  lemma {:induction false} LastOpenIs(s: string, i: nat)
    requires i < |s| && s[i] == '(' && '(' !in s[i + 1..]
    ensures LastOpen(s) == i
    decreases |s|
  {
    if i < |s| - 1 {
      assert s[i + 1..][|s| - 1 - (i + 1)] == s[|s| - 1];
      assert s[..|s| - 1][i + 1..] == s[i + 1..][..|s| - 1 - (i + 1)];
      LastOpenIs(s[..|s| - 1], i);
    }
  }

  /** "model(provider)" refers to just those two as well. */
  lemma ParenReference(model: string, provider: string)
    requires Trimmed(model) && model != "" && Trimmed(provider) && provider != "" && '(' !in provider
    ensures ParseRef(model + "(" + provider + ")") == (provider, model)
  {
    hide Trim, FirstSlash, LastOpen;
    var s, n := model + "(" + provider + ")", |model|;
    assert s[..n] == model && s[n + 1..|s| - 1] == provider && s[n + 1..] == provider + ")";
    assert !IsSpace(')');
    LastOpenIs(s, n);
  }

  /** A name that refers to no configured provider is looked up among the routes, and is nothing else. */
  lemma AliasesComeSecond(c: Config, name: string)
    ensures ParseRef(name).0 !in c.providers || ParseRef(name).0 == "" ==>
      RouteFor(c, name) == if name in c.routes then c.routes[name] else Route("", "", FREE, NO_MODEL)
    ensures Trimmed(name) && '/' !in name && (name == "" || name[|name| - 1] != ')') ==> ParseRef(name).0 == ""
  {
    hide Trim, LastOpen, FirstSlash, DirectRoute;
    FirstSlashMeaning(name);
  }

  lemma {:induction false} FirstSlashMeaning(s: string)
    ensures '/' !in s[..FirstSlash(s)] && (FirstSlash(s) < |s| ==> s[FirstSlash(s)] == '/')
  {
    if s != "" && s[0] != '/' {
      FirstSlashMeaning(s[1..]);
      assert s[..FirstSlash(s)] == [s[0]] + s[1..][..FirstSlash(s[1..])];
    }
  }

  /** In every accepted file in transform mode, an alias that is no reference itself, with no
      description and no context window of its own, resolves like the direct reference to its provider
      and upstream model; its provider must offer its slug, under slugs and upstream names that are
      unique there. */
  lemma AliasesResolveAlike(f: FileConfig, specs: Specs, choose: Choice, accepts: Config -> bool, c: Config,
                           alias: string)
    requires Loadable(f) && Load(f, specs, choose, accepts) == Some(c) && c.settings.mode == "Transform"
    requires alias in c.routes && alias in Slugs(f.routes) && !(ParseRef(alias).0 in c.providers)
    requires var r, file := c.routes[alias], f.routes[KeyOf(f.routes, alias)];
      && file.description == "" && file.contextWindow <= 0
      && '/' !in r.provider && !ParenForm(r.provider + "/" + r.model)
      && r.provider in c.providers
      && var offers := c.providers[r.provider].offers;
      && UniqueSlugs(offers) && UniqueUpstreams(offers) && FirstOffer(offers, RouteTarget(file).1).Some?
    ensures var r := c.routes[alias];
      Alike(RouteFor(c, alias), RouteFor(c, r.provider + "/" + r.model))
  {
    hide Trim, LoadAll, FirstOffer, ParenForm, UniqueSlugs, UniqueUpstreams, Catalog, LoadProvider, LoadRoute,
      MergedOverrides, LoadSettings, ModelLoader, DirectRoute, ParseRef;
    var r, file := c.routes[alias], f.routes[KeyOf(f.routes, alias)];
    ModelsBack(f, specs, c.models);
    LoadedFrom(f.routes, RouteLoader(c.providers, c.models, specs, choose), alias);
    LoadedFrom(f.providers, ProviderLoader(specs, c.models), r.provider);
    LoadedProviderAgrees(f.providers[KeyOf(f.providers, r.provider)], specs, c.models);
    var offers := c.providers[r.provider].offers;
    FirstOfferMeaning(offers, RouteTarget(file).1);
    var i :| 0 <= i < |offers| && offers[i] == FirstOffer(offers, RouteTarget(file).1).value;
    AliasMatchesDirect(c, file, specs, choose, i);
    ModelIsTrimmed(f, specs, choose, accepts, c, alias);
    DirectReferenceExactly(r.provider, r.model);
  }

  lemma ModelIsTrimmed(f: FileConfig, specs: Specs, choose: Choice, accepts: Config -> bool, c: Config, alias: string)
    requires Loadable(f) && Load(f, specs, choose, accepts) == Some(c) && alias in c.routes
    ensures Trimmed(c.routes[alias].model)
  {
    hide Trim, LoadAll, FirstOffer, LoadProvider, LoadSettings, ModelLoader, RouteInfo, RouteOwn, AllClean,
      CleanOffers, Valid;
    ModelsBack(f, specs, c.models);
    LoadedFrom(f.routes, RouteLoader(c.providers, c.models, specs, choose), alias);
    var r, file := c.routes[alias], f.routes[KeyOf(f.routes, alias)];
    TargetIsTrimmed(file);
    var slug := RouteTarget(file).1;
    FirstOfferMeaning(OffersFor(c.providers, r.provider), slug);
    if r.provider in c.providers {
      LoadedFrom(f.providers, ProviderLoader(specs, c.models), r.provider);
      var p := f.providers[KeyOf(f.providers, r.provider)];
      ProviderOffers(p, specs, c.models);
      LoadedOffersAreClean(p.offers, c.models);
    }
  }
}
