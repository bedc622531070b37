/** Migrating a config to the current provider and routes format (scripts/migrate_config.py), on
    well-shaped input: what the script reads as a mapping is a mapping. */
module ConfigMigration {
  import opened Prelude

  datatype Yaml =
    | Null | Bool(truth: bool) | Number(number: int) | Text(text: string)
    | List(items: seq<Yaml>) | Dict(fields: Fields)
  type Fields = map<string, Yaml>

  predicate Truthy(v: Yaml) {
    match v
    case Null => false
    case Bool(b) => b
    case Number(n) => n != 0
    case Text(s) => s != ""
    case List(items) => items != []
    case Dict(fields) => fields != map[]
  }

  datatype Switch = Switch(enabled: Option<Yaml>, rest: Fields)

  /** A model entry: a bare value, or a mapping with the keys that concern the migration. */
  datatype Model =
    | Bare(value: Yaml)
    | Def(name: Option<string>, deepseek: Option<Yaml>, visual: Option<Yaml>, flag: Option<Yaml>,
          extensions: map<string, Switch>, rest: Fields)
  type Models = map<string, Model>

  datatype Provider = Provider(deepseek: Option<Yaml>, visual: Option<Yaml>, models: Models, rest: Fields)
  type Providers = map<string, Provider>

  datatype Route = Short(to: string) | Entry(fields: Fields)
  datatype Block = Block(
    deepseek: Option<Yaml>, visual: Option<Yaml>, providers: Providers, routes: map<string, Route>, rest: Fields)

  /** The provider section. An absent or empty one, like any other value that is false to Python, is left
      alone; a block that is given holds at least one key, be it `providers` with nothing below. */
  datatype Section = Empty(value: Option<Yaml>) | Given(block: Block)

  /** An extension block of the root, by its configuration. */
  datatype Config = Config(plugins: Option<Yaml>, extensions: map<string, Fields>, provider: Section)

  /** What the script infers from names and text, taken as given, and the order it meets entries in. */
  datatype Judge = Judge(
    boolish: Yaml -> bool,
    deepseekLike: Providers -> set<string>,
    kimi: (Providers, string) -> (string, string),
    visualTargets: (Providers, string) -> set<string>,
    inOrder: set<string> -> seq<string>)

  const DEEPSEEK := "deepseek_v4"
  const VISUAL := "visual"

  // ---- obsolete shapes ----

  predicate ObsoleteModel(m: Model) {
    m.Def? && (m.name.Some? || m.deepseek.Some? || m.visual.Some? || m.flag.Some?)
  }

  predicate ObsoleteProvider(p: Provider) {
    p.deepseek.Some? || p.visual.Some? || exists k :: k in p.models && ObsoleteModel(p.models[k])
  }

  /** needs_migration. A `visual: null` of the block is not obsolete to the script. */
  predicate NeedsMigration(b: Block) {
    || b.deepseek.Some? || (b.visual.Some? && b.visual != Some(Null))
    || (exists k :: k in b.providers && ObsoleteProvider(b.providers[k]))
    || (exists k :: k in b.routes && b.routes[k].Short?)
  }

  predicate NeedsRootMigration(c: Config) {
    c.plugins.Some? && c.plugins.value.Dict? && c.plugins.value.fields != map[]
  }

  predicate NeedsModelMigration(b: Block) {
    exists k :: k in b.providers &&
      exists a :: a in b.providers[k].models && b.providers[k].models[a].Def? && b.providers[k].models[a].name.Some?
  }

  // ---- plugins ----

  /** Settings that are already there win. */
  function Defaulted(current: Fields, more: Fields): Fields { more + current }

  function ConfigOf(c: Config, name: string): Fields {
    if name in c.extensions then c.extensions[name] else map[]
  }

  function MigratePlugins(c: Config): Config {
    if c.plugins == None || !c.plugins.value.Dict? then c
    else
      var plugins := c.plugins.value.fields;
      var moved := map name | name in plugins && plugins[name].Dict? ::
        Defaulted(ConfigOf(c, name), plugins[name].fields);
      c.(plugins := None, extensions := c.extensions + moved)
  }

  // ---- model switches ----

  function SwitchOf(m: Model, extension: string): Switch
    requires m.Def?
  {
    if extension in m.extensions then m.extensions[extension] else Switch(None, map[])
  }

  /** set_model_extension_enabled: an empty entry becomes a mapping, another bare value stays. */
  function Enabled(m: Model, extension: string, on: bool): Model {
    if m == Bare(Null) then Def(None, None, None, None, map[extension := Switch(Some(Bool(on)), map[])], map[])
    else if m.Bare? then m
    else m.(extensions := m.extensions[extension := SwitchOf(m, extension).(enabled := Some(Bool(on)))])
  }

  function AllEnabled(models: Models, extension: string): Models {
    map k | k in models :: Enabled(models[k], extension, true)
  }

  // ---- deepseek_v4 ----

  function RenameDeepSeek(m: Model, j: Judge): Model {
    if m.Def? && m.deepseek.Some? then Enabled(m.(deepseek := None), DEEPSEEK, j.boolish(m.deepseek.value)) else m
  }

  function DeepSeekProvider(p: Provider, on: bool, j: Judge): Provider {
    var models := if on then AllEnabled(p.models, DEEPSEEK) else p.models;
    p.(deepseek := None, models := map k | k in models :: RenameDeepSeek(models[k], j))
  }

  function MigrateDeepSeek(b: Block, j: Judge): Block {
    var likely := if b.deepseek.Some? && j.boolish(b.deepseek.value) then j.deepseekLike(b.providers) else {};
    b.(deepseek := None, providers := map k | k in b.providers ::
      var p := b.providers[k];
      DeepSeekProvider(p, k in likely || (p.deepseek.Some? && j.boolish(p.deepseek.value)), j))
  }

  // ---- visual ----

  /** migrate_model_visual_flags: the current flag overrides the legacy one. */
  function RenameVisual(m: Model, j: Judge): Model {
    if !m.Def? then m
    else
      var legacy := if m.visual.Some? then Enabled(m.(visual := None), VISUAL, j.boolish(m.visual.value)) else m;
      if m.flag.Some? then Enabled(legacy.(flag := None), VISUAL, j.boolish(m.flag.value)) else legacy
  }

  predicate OptsIn(m: Model, j: Judge) {
    && m.Def?
    && (|| (m.flag.Some? && j.boolish(m.flag.value))
        || (VISUAL in m.extensions && m.extensions[VISUAL].enabled.Some?
            && j.boolish(m.extensions[VISUAL].enabled.value)))
  }

  function VisualProvider(p: Provider, j: Judge): Provider {
    var on := p.visual.Some? && j.boolish(p.visual.value);
    var models := if on then AllEnabled(p.models, VISUAL) else p.models;
    p.(visual := None, models := map k | k in models :: RenameVisual(models[k], j))
  }

  function TextOf(fields: Fields, key: string): string {
    if key in fields && fields[key].Text? then Trim(fields[key].text) else ""
  }

  function Filled(settings: Fields, key: string, value: string): Fields {
    if TextOf(settings, key) == "" && value != "" then settings[key := Text(value)] else settings
  }

  function VisualConfig(current: Fields, settings: Fields): Fields {
    var kept := map key | key in settings && key in {"provider", "model", "max_rounds", "max_tokens"} :: settings[key];
    Defaulted(Defaulted(current, kept), map["max_rounds" := Number(4), "max_tokens" := Number(2048)])
  }

  /** The visual settings of the block, and whether they came from a plain switch that is on. */
  function VisualSettings(b: Block, j: Judge): (Option<Fields>, bool) {
    if b.visual == None || b.visual == Some(Null) then (None, false)
    else if b.visual.value.Dict? then (Some(b.visual.value.fields), false)
    else (Some(map["enabled" := Bool(j.boolish(b.visual.value))]), j.boolish(b.visual.value))
  }

  function MarkProviders(providers: Providers, targets: set<string>): Providers {
    map k | k in providers ::
      if k in targets then providers[k].(models := AllEnabled(providers[k].models, VISUAL)) else providers[k]
  }

  function RenamedProviders(b: Block, j: Judge): Providers {
    map k | k in b.providers :: VisualProvider(b.providers[k], j)
  }

  function MigrateVisual(c: Config, b: Block, j: Judge): Config {
    var (given, globally) := VisualSettings(b, j);
    var providers := RenamedProviders(b, j);
    var wanted :=
      || (exists k :: k in b.providers && b.providers[k].visual.Some? && j.boolish(b.providers[k].visual.value))
      || (exists k :: k in providers && exists a :: a in providers[k].models && OptsIn(providers[k].models[a], j));
    var settings := if wanted && given == None then Some(map["enabled" := Bool(true)]) else given;
    var renamed := b.(visual := None, providers := providers);
    if settings.Some? && (("enabled" in settings.value && j.boolish(settings.value["enabled"])) || wanted) then
      var (provider, model) := j.kimi(providers, TextOf(settings.value, "provider"));
      var filled := Filled(Filled(settings.value, "provider", provider), "model", model);
      var targets := j.visualTargets(providers, TextOf(filled, "provider"));
      var marked := if globally then MarkProviders(providers, targets) else providers;
      c.(extensions := c.extensions[VISUAL := VisualConfig(ConfigOf(c, VISUAL), filled)],
         provider := Given(renamed.(providers := marked)))
    else c.(provider := Given(renamed))
  }

  // ---- routes and models ----

  function LongRoute(r: Route): Route { if r.Short? then Entry(map["to" := Text(r.to)]) else r }

  function MigrateRoutes(b: Block): Block {
    b.(routes := map a | a in b.routes :: LongRoute(b.routes[a]))
  }

  function Upstream(alias: string, m: Model): string {
    if m.Def? && m.name.Some? && m.name.value != "" then m.name.value else alias
  }

  function Over(before: Option<Yaml>, later: Option<Yaml>): Option<Yaml> {
    if later.Some? && Truthy(later.value) then later else before
  }

  /** Two aliases of one upstream model: what the later one sets wins. */
  function Overlaid(m: Model, later: Model): Model
    requires m.Def? && later.Def?
  {
    Def(m.name, Over(m.deepseek, later.deepseek), Over(m.visual, later.visual), Over(m.flag, later.flag),
        if later.extensions != map[] then later.extensions else m.extensions,
        m.rest + map k | k in later.rest && Truthy(later.rest[k]) :: later.rest[k])
  }

  function PutModel(models: Models, alias: string, m: Model): Models {
    if !m.Def? then models[alias := m]
    else
      var cleaned := m.(name := None);
      var upstream := Upstream(alias, m);
      if m.name.GetOr("") != "" && upstream in models && models[upstream].Def?
      then models[upstream := Overlaid(models[upstream], cleaned)]
      else models[upstream := cleaned]
  }

  function NewModels(models: Models, aliases: seq<string>): Models
    requires forall a :: a in aliases ==> a in models
  {
    if aliases == [] then map[]
    else
      var last := aliases[|aliases| - 1];
      PutModel(NewModels(models, aliases[..|aliases| - 1]), last, models[last])
  }

  function RouteTo(provider: string, upstream: string): Route { Entry(map["to" := Text(provider + "/" + upstream)]) }

  function RoutesOf(key: string, models: Models): map<string, Route> {
    map a | a in models :: RouteTo(key, Upstream(a, models[a]))
  }

  function AllRoutes(providers: Providers, keys: seq<string>): map<string, Route>
    requires forall k :: k in keys ==> k in providers
  {
    if keys == [] then map[]
    else
      var last := keys[|keys| - 1];
      AllRoutes(providers, keys[..|keys| - 1]) + RoutesOf(last, providers[last].models)
  }

  ghost predicate Ordered(j: Judge) {
    forall s: set<string> :: (forall x :: x in j.inOrder(s) <==> x in s) && |j.inOrder(s)| == |s|
  }

  /** Aliases become routes, upstream names become the keys; routes that are already there win. */
  function MigrateModels(b: Block, j: Judge): Block
    requires Ordered(j)
  {
    b.(providers := map k | k in b.providers ::
         b.providers[k].(models := NewModels(b.providers[k].models, j.inOrder(b.providers[k].models.Keys))),
       routes := AllRoutes(b.providers, j.inOrder(b.providers.Keys)) + b.routes)
  }

  function Migrate(c: Config, j: Judge): Config
    requires Ordered(j)
  {
    if c.provider.Empty? then MigratePlugins(c)
    else if !NeedsMigration(c.provider.block) && !NeedsRootMigration(c) then c
    else
      var visual := MigrateVisual(MigratePlugins(c), MigrateDeepSeek(c.provider.block, j), j);
      var b := MigrateRoutes(visual.provider.block);
      var renames := NeedsModelMigration(c.provider.block);
      visual.(provider := Given(if renames then MigrateRoutes(MigrateModels(b, j)) else b))
  }
}
