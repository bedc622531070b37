/** The whole configuration: loading, validating and writing back (internal/config/config_loader.go,
    internal/config/config.go, internal/config/convert.go). */
module GatewayLoad {
  import opened Prelude
  import opened GatewayConfig

  // ---- data ----

  datatype CacheFile = CacheFile(
    mode: string, ttl: string, prompt: Option<bool>, automatic: Option<bool>, breakpoints: Option<bool>,
    downgrade: Option<bool>, maxBreakpoints: int, minTokens: int, reuse: int, minScore: int, minBreakpoint: int)
  datatype Cache = Cache(
    mode: string, ttl: string, prompt: bool, automatic: bool, breakpoints: bool, downgrade: bool,
    maxBreakpoints: int, minTokens: int, reuse: int, minScore: int, minBreakpoint: int)

  datatype ProxyTarget = ProxyTarget(baseUrl: string, apiKey: string, model: string, version: string)

  /** Everything that is not a map of models, providers, routes or extensions; C is the cache. */
  datatype Settings<C> = Settings(
    mode: string, trace: bool, logLevel: string, logFormat: string, addr: string, authToken: string,
    maxSessions: int, sessionTtl: string, model: string, maxTokens: int, prompt: string,
    webSearch: WebSearch, cache: C, activeProvider: string, response: ProxyTarget, anthropic: ProxyTarget,
    egress: string)

  datatype FileConfig = FileConfig(
    settings: Settings<CacheFile>, models: map<string, ModelFile>, providers: map<string, ProviderFile>,
    routes: map<string, RouteFile>, extensions: Extensions)
  datatype Config = Config(
    settings: Settings<Cache>, models: map<string, ModelDef>, providers: map<string, ProviderDef>,
    routes: map<string, Route>, extensions: Extensions)

  // ---- maps with names as keys ----

  /** Names that trim to the same one would replace each other in the order Go's maps iterate. */
  ghost predicate Distinct<V>(raw: map<string, V>) {
    forall j, k :: j in raw && k in raw && Trim(j) == Trim(k) && Trim(j) != "" ==> j == k
  }

  function Slugs<V>(raw: map<string, V>): set<string> {
    set k | k in raw && Trim(k) != "" :: Trim(k)
  }

  ghost function KeyOf<V>(raw: map<string, V>, slug: string): (key: string)
    requires slug in Slugs(raw)
    ensures key in raw && Trim(key) == slug
  {
    var k :| k in raw && Trim(k) == slug;
    k
  }

  ghost function LoadAll<F, R>(raw: map<string, F>, load: F -> Option<R>): Option<map<string, R>> {
    if forall slug :: slug in Slugs(raw) ==> load(raw[KeyOf(raw, slug)]).Some?
    then Some(map slug | slug in Slugs(raw) :: load(raw[KeyOf(raw, slug)]).value)
    else None
  }

  /** What has been loaded from the names seen so far; of names that trim alike, any one. */
  ghost predicate Partial<F, R>(raw: map<string, F>, load: F -> Option<R>, seen: set<string>, loaded: map<string, R>) {
    && seen <= raw.Keys
    && (forall slug :: slug in loaded ==>
          exists k :: k in seen && Trim(k) == slug && slug != "" && load(raw[k]) == Some(loaded[slug]))
    && (forall k :: k in seen && Trim(k) != "" ==> Trim(k) in loaded && load(raw[k]).Some?)
  }

  lemma {:induction false} PartialStep<F, R>(raw: map<string, F>, load: F -> Option<R>, seen: set<string>,
                                             loaded: map<string, R>, k: string)
    requires Partial(raw, load, seen, loaded) && k in raw && (Trim(k) != "" ==> load(raw[k]).Some?)
    ensures Partial(raw, load, seen + {k}, if Trim(k) == "" then loaded else loaded[Trim(k) := load(raw[k]).value])
  {
    hide Trim;
    var after := if Trim(k) == "" then loaded else loaded[Trim(k) := load(raw[k]).value];
    forall slug | slug in after
      ensures exists j :: j in seen + {k} && Trim(j) == slug && slug != "" && load(raw[j]) == Some(after[slug])
    {
      if Trim(k) == "" || slug != Trim(k) {
        var j :| j in seen && Trim(j) == slug && slug != "" && load(raw[j]) == Some(loaded[slug]);
        assert j in seen + {k};
      } else {
        assert k in seen + {k};
      }
    }
  }

  /** One entry for every name, loaded from one of the entries of that name. */
  ghost predicate Loaded<F, R>(raw: map<string, F>, load: F -> Option<R>, loaded: map<string, R>) {
    && loaded.Keys == Slugs(raw)
    && forall slug :: slug in loaded ==> exists k :: k in raw && Trim(k) == slug && load(raw[k]) == Some(loaded[slug])
  }

  lemma PartialDone<F, R>(raw: map<string, F>, load: F -> Option<R>, loaded: map<string, R>)
    requires Partial(raw, load, raw.Keys, loaded)
    ensures Loaded(raw, load, loaded)
  {
    hide Trim;
    forall slug | slug in loaded
      ensures slug in Slugs(raw) && exists k :: k in raw && Trim(k) == slug && load(raw[k]) == Some(loaded[slug])
    {
      var k :| k in raw.Keys && Trim(k) == slug && slug != "" && load(raw[k]) == Some(loaded[slug]);
      assert k in raw;
    }
    forall slug | slug in Slugs(raw) ensures slug in loaded {
      assert KeyOf(raw, slug) in raw.Keys;
    }
  }

  /** With distinct names that is one map. */
  lemma LoadedIsLoadAll<F, R>(raw: map<string, F>, load: F -> Option<R>, loaded: map<string, R>)
    requires Distinct(raw) && Loaded(raw, load, loaded)
    ensures LoadAll(raw, load) == Some(loaded)
  {
    hide Trim;
    forall slug | slug in Slugs(raw) ensures slug in loaded && load(raw[KeyOf(raw, slug)]) == Some(loaded[slug]) {
      var k :| k in raw && Trim(k) == slug && load(raw[k]) == Some(loaded[slug]);
      assert k == KeyOf(raw, slug);
    }
    assert LoadAll(raw, load).Some? && LoadAll(raw, load).value == loaded;
  }

  ghost predicate Refuses<F, R>(raw: map<string, F>, load: F -> Option<R>) {
    exists k :: k in raw && Trim(k) != "" && load(raw[k]) == None
  }

  lemma RefusesAll<F, R>(raw: map<string, F>, load: F -> Option<R>)
    requires Distinct(raw) && Refuses(raw, load)
    ensures LoadAll(raw, load) == None
  {
    hide Trim;
    var k :| k in raw && Trim(k) != "" && load(raw[k]) == None;
    assert Trim(k) in Slugs(raw) && KeyOf(raw, Trim(k)) == k;
  }

  /** The loops over models, providers and routes: nameless entries are skipped, one entry that is
      refused refuses the configuration, and of names that trim alike any one is loaded. */
  method LoadEach<F, R>(raw: map<string, F>, load: F -> Option<R>) returns (r: Option<map<string, R>>)
    ensures r == None <==> Refuses(raw, load)
    ensures r.Some? ==> Loaded(raw, load, r.value)
    ensures Distinct(raw) ==> r == LoadAll(raw, load)
  {
    hide LoadAll, Loaded, Trim, Distinct;
    var loaded: map<string, R> := map[];
    var todo := raw.Keys;
    while todo != {}
      invariant todo <= raw.Keys && Partial(raw, load, raw.Keys - todo, loaded)
      decreases |todo|
    {
      var k :| k in todo;
      assert raw.Keys - (todo - {k}) == raw.Keys - todo + {k};
      if Trim(k) != "" {
        if load(raw[k]) == None {
          if Distinct(raw) { RefusesAll(raw, load); }
          return None;
        }
      }
      PartialStep(raw, load, raw.Keys - todo, loaded, k);
      todo := todo - {k};
      if Trim(k) != "" {
        loaded := loaded[Trim(k) := load(raw[k]).value];
      }
    }
    assert raw.Keys - todo == raw.Keys;
    PartialDone(raw, load, loaded);
    if Distinct(raw) { LoadedIsLoadAll(raw, load, loaded); }
    assert !Refuses(raw, load) by {
      assert forall k :: k in raw && Trim(k) != "" ==> k in raw.Keys && load(raw[k]).Some?;
    }
    r := Some(loaded);
  }

  // ---- settings ----

  const MODES: set<string> := {"CaptureAnthropic", "CaptureResponse", "Transform"}

  function LoadCache(c: CacheFile): Cache {
    Cache(Or(Trim(c.mode), "automatic"), Or(Trim(c.ttl), "5m"), c.prompt.GetOr(true), c.automatic.GetOr(true),
          c.breakpoints.GetOr(true), c.downgrade.GetOr(false), OrInt(c.maxBreakpoints, 4), OrInt(c.minTokens, 1024),
          OrInt(c.reuse, 2), OrInt(c.minScore, 2048), OrInt(c.minBreakpoint, 1024))
  }

  function SaveCache(c: Cache): CacheFile {
    CacheFile(c.mode, c.ttl, Some(c.prompt), Some(c.automatic), Some(c.breakpoints), Some(c.downgrade),
              c.maxBreakpoints, c.minTokens, c.reuse, c.minScore, c.minBreakpoint)
  }

  function LoadSettings(s: Settings<CacheFile>): Option<Settings<Cache>> {
    var ws := s.webSearch;
    if Trim(s.mode) !in MODES || ParseSupport(ws.support) == None then None
    else Some(Settings(
      Trim(s.mode), s.trace, Or(Trim(s.logLevel), "info"), Or(Trim(s.logFormat), "text"),
      Or(Trim(s.addr), "127.0.0.1:38440"), Trim(s.authToken), s.maxSessions, Or(Trim(s.sessionTtl), "24h"),
      Trim(s.model), s.maxTokens, Trim(s.prompt),
      WebSearch(ParseSupport(ws.support).value, OrInt(ws.maxUses, 8), Trim(ws.tavily), Trim(ws.firecrawl),
        OrInt(ws.rounds, 5), ws.extra),
      LoadCache(s.cache), Trim(s.activeProvider),
      ProxyTarget(BaseUrl(s.response.baseUrl), Trim(s.response.apiKey), Trim(s.response.model), ""),
      ProxyTarget(BaseUrl(s.anthropic.baseUrl), Trim(s.anthropic.apiKey), Trim(s.anthropic.model),
                  Or(Trim(s.anthropic.version), "2023-06-01")),
      Trim(s.egress)))
  }

  function SaveSettings(s: Settings<Cache>): Settings<CacheFile> {
    Settings(s.mode, s.trace, s.logLevel, s.logFormat, s.addr, s.authToken, s.maxSessions, s.sessionTtl,
             s.model, s.maxTokens, s.prompt, s.webSearch, SaveCache(s.cache), s.activeProvider,
             s.response.(version := ""), s.anthropic, s.egress)
  }

  // ---- validation ----

  predicate CacheValid(c: Cache) {
    c.mode in {"", "off", "automatic", "explicit", "hybrid"} && c.ttl in {"", "5m", "1h"}
  }

  predicate SearchValid(c: Config) {
    && (c.settings.webSearch.support == "injected"
      ==> c.settings.webSearch.tavily != "" && c.settings.webSearch.rounds > 0)
    && (forall key :: key in c.providers && c.providers[key].webSearch.support == "injected" ==>
          && (c.providers[key].webSearch.tavily != "" || c.settings.webSearch.tavily != "")
          && (c.providers[key].webSearch.rounds > 0 || c.settings.webSearch.rounds > 0))
  }

  predicate ProviderValid(c: Config, key: string, p: ProviderDef) {
    && key != "" && p.baseUrl != ""
    && p.protocol in {"", "anthropic", "openai-response", "google-genai", "openai-chat"}
    && "" !in p.models && (forall i :: 0 <= i < |p.offers| ==> p.offers[i].model != "" && p.offers[i].model in c.models)
  }

  predicate TransformValid(c: Config) {
    && SearchValid(c) && c.providers != map[]
    && (forall key :: key in c.providers ==> ProviderValid(c, key, c.providers[key]))
    && (c.routes == map[] ==> exists key :: key in c.providers && c.providers[key].models != map[])
    && (forall alias :: alias in c.routes ==>
          alias != "" && c.routes[alias].model != "" && c.routes[alias].provider in c.providers)
  }

  predicate Valid(c: Config) {
    && CacheValid(c.settings.cache)
    && (c.settings.mode == "Transform" ==> TransformValid(c))
    && (c.settings.mode == "CaptureResponse" ==> c.settings.response.baseUrl != "" && c.settings.response.apiKey != "")
    && (c.settings.mode == "CaptureAnthropic"
      ==> c.settings.anthropic.baseUrl != "" && c.settings.anthropic.apiKey != "")
  }

  // ---- loading and writing back ----

  ghost predicate Loadable(f: FileConfig) { Distinct(f.models) && Distinct(f.providers) && Distinct(f.routes) }

  function ModelLoader(specs: Specs): ModelFile -> Option<ModelDef> { m => LoadModel(m, specs) }

  function ProviderLoader(specs: Specs, models: map<string, ModelDef>): ProviderFile -> Option<ProviderDef> {
    p => LoadProvider(p, specs, models)
  }

  function RouteLoader(providers: map<string, ProviderDef>, models: map<string, ModelDef>, specs: Specs, choose: Choice)
    : RouteFile -> Option<Route>
  {
    r => LoadRoute(r, providers, models, specs, choose)
  }

  /** FromFileConfigWithOptions. `accepts` are the checks of the registered extensions. */
  ghost function Load(f: FileConfig, specs: Specs, choose: Choice, accepts: Config -> bool): Option<Config>
    requires Loadable(f)
  {
    var settings := LoadSettings(f.settings);
    var models := LoadAll(f.models, ModelLoader(specs));
    if settings == None || models == None || DecodeExtensions(f.extensions, GlobalScope, specs) == None then None
    else
      var providers := LoadAll(f.providers, ProviderLoader(specs, models.value));
      if providers == None then None
      else
        var routes := LoadAll(f.routes, RouteLoader(providers.value, models.value, specs, choose));
        if routes == None then None
        else
          var c := Config(settings.value, models.value, providers.value, routes.value, f.extensions);
          if Valid(c) && accepts(c) then Some(c) else None
  }

  /** ToFileConfig. */
  function Save(c: Config): FileConfig {
    FileConfig(
      SaveSettings(c.settings), map slug | slug in c.models :: SaveModel(c.models[slug]),
      map key | key in c.providers :: SaveProvider(c.providers[key]),
      map alias | alias in c.routes :: SaveRoute(c.routes[alias]), c.extensions)
  }
}
