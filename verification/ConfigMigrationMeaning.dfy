/** What a migration keeps, and where everything it moves goes (scripts/migrate_config.py). */
module ConfigMigrationMeaning {
  import opened Prelude
  import opened ConfigMigration

  /** What Python takes for false. */
  lemma TruthyExactly(v: Yaml)
    ensures !Truthy(v) <==> v in {Null, Bool(false), Number(0), Text(""), List([]), Dict(map[])}
  {
  }

  // ---- plugins become extensions ----

  function SettingsOf(c: Config, name: string): Fields {
    if name in c.extensions then c.extensions[name] else map[]
  }

  /** A plugin that is a mapping; any other is dropped. */
  predicate HasPlugin(c: Config, name: string) {
    && c.plugins.Some? && c.plugins.value.Dict? && name in c.plugins.value.fields
    && c.plugins.value.fields[name].Dict?
  }

  function PluginOf(c: Config, name: string): Fields
    requires HasPlugin(c, name)
  {
    c.plugins.value.fields[name].fields
  }

  /** Each setting of a plugin becomes one of the extension of that name unless that has it already, no
      other setting appears or changes, and the plugins are gone. */
  lemma PluginsArrive(c: Config, name: string, key: string)
    ensures var m := MigratePlugins(c);
      && m.provider == c.provider && (c.plugins.Some? && c.plugins.value.Dict? ==> m.plugins == None)
      && (c.plugins.Some? && !c.plugins.value.Dict? ==> m == c)
      && (name in m.extensions <==> name in c.extensions || HasPlugin(c, name))
      && (key in SettingsOf(m, name) <==>
            key in SettingsOf(c, name) || (HasPlugin(c, name) && key in PluginOf(c, name)))
      && (key in SettingsOf(c, name) ==> SettingsOf(m, name)[key] == SettingsOf(c, name)[key])
      && (key in SettingsOf(m, name) && key !in SettingsOf(c, name) ==>
            SettingsOf(m, name)[key] == PluginOf(c, name)[key])
  {
  }

  /** Whatever the migration does besides, a setting that an extension or a plugin had is there after it,
      with its value; the extension's own goes first. */
  lemma SettingsStay(c: Config, j: Judge, name: string, key: string)
    requires Ordered(j)
    ensures var m := Migrate(c, j);
      && (key in SettingsOf(c, name) ==>
            key in SettingsOf(m, name) && SettingsOf(m, name)[key] == SettingsOf(c, name)[key])
      && (HasPlugin(c, name) && key in PluginOf(c, name) && key !in SettingsOf(c, name) ==>
            key in SettingsOf(m, name) && SettingsOf(m, name)[key] == PluginOf(c, name)[key])
      && (name != VISUAL && key in SettingsOf(m, name) ==>
            key in SettingsOf(c, name) || (HasPlugin(c, name) && key in PluginOf(c, name)))
  {
    hide MigratePlugins, MigrateDeepSeek, MigrateRoutes, MigrateModels, NeedsMigration, NeedsModelMigration;
    PluginsArrive(c, name, key);
    if c.provider.Given? {
      VisualSettingsStay(MigratePlugins(c), MigrateDeepSeek(c.provider.block, j), j, name, key);
    }
  }

  lemma VisualSettingsStay(c: Config, b: Block, j: Judge, name: string, key: string)
    ensures var m := MigrateVisual(c, b, j);
      && (key in SettingsOf(c, name) ==>
            key in SettingsOf(m, name) && SettingsOf(m, name)[key] == SettingsOf(c, name)[key])
      && (name != VISUAL ==> SettingsOf(m, name) == SettingsOf(c, name))
  {
    hide VisualProvider, OptsIn, MarkProviders, Filled, TextOf;
  }

  // ---- switches ----

  /** Switched on or off, with whatever else the extension says of the model. */
  predicate Switched(m: Model, extension: string, on: bool) {
    m.Def? && extension in m.extensions && m.extensions[extension].enabled == Some(Bool(on))
  }

  /** Nothing of the model changes but one extension's switch, and the old keys for it. */
  ghost predicate SameButSwitch(before: Model, after: Model, extension: string) {
    && before.Def? && after.Def? && after.name == before.name && after.rest == before.rest
    && (forall e :: e != extension ==>
          && (e in after.extensions <==> e in before.extensions)
          && (e in before.extensions ==> after.extensions[e] == before.extensions[e]))
    && (extension in before.extensions ==>
          extension in after.extensions && after.extensions[extension].rest == before.extensions[extension].rest)
  }

  predicate SameSwitch(before: Model, after: Model, extension: string)
    requires before.Def? && after.Def?
  {
    && (extension in after.extensions <==> extension in before.extensions)
    && (extension in before.extensions ==> after.extensions[extension] == before.extensions[extension])
  }

  /** A model is switched as its own key says, else on if its provider is; an empty entry then becomes a
      mapping, and any other bare value stays. */
  lemma DeepSeekSwitches(p: Provider, on: bool, j: Judge, a: string)
    requires a in p.models
    ensures var r := DeepSeekProvider(p, on, j);
      && r == p.(deepseek := None, models := r.models) && r.models.Keys == p.models.Keys
      && var before, after := p.models[a], r.models[a];
      && (before == Bare(Null) && on ==> Switched(after, DEEPSEEK, true) && after.rest == map[] && after.name == None)
      && (before.Bare? && !(before == Bare(Null) && on) ==> after == before)
      && (before.Def? ==>
            && SameButSwitch(before, after, DEEPSEEK) && after.deepseek == None
            && after.visual == before.visual && after.flag == before.flag
            && (before.deepseek.Some? ==> Switched(after, DEEPSEEK, j.boolish(before.deepseek.value)))
            && (before.deepseek == None && on ==> Switched(after, DEEPSEEK, true))
            && (before.deepseek == None && !on ==> SameSwitch(before, after, DEEPSEEK)))
  {
  }

  /** Providers are on by their own key, or by the block's if they look like DeepSeek. */
  lemma DeepSeekProviders(b: Block, j: Judge, k: string)
    requires k in b.providers
    ensures var r := MigrateDeepSeek(b, j);
      && r == b.(deepseek := None, providers := r.providers) && r.providers.Keys == b.providers.Keys
      && var on :=
           || (b.providers[k].deepseek.Some? && j.boolish(b.providers[k].deepseek.value))
           || (b.deepseek.Some? && j.boolish(b.deepseek.value) && k in j.deepseekLike(b.providers));
         r.providers[k] == DeepSeekProvider(b.providers[k], on, j)
  {
    hide DeepSeekProvider;
  }

  /** Likewise for Visual: the model's current flag decides, else its legacy one, else its provider. */
  lemma VisualSwitches(p: Provider, j: Judge, a: string)
    requires a in p.models
    ensures var r, on := VisualProvider(p, j), p.visual.Some? && j.boolish(p.visual.value);
      && r == p.(visual := None, models := r.models) && r.models.Keys == p.models.Keys
      && var before, after := p.models[a], r.models[a];
      && (before == Bare(Null) && on ==> Switched(after, VISUAL, true) && after.rest == map[] && after.name == None)
      && (before.Bare? && !(before == Bare(Null) && on) ==> after == before)
      && (before.Def? ==>
            && SameButSwitch(before, after, VISUAL) && after.visual == None && after.flag == None
            && after.deepseek == before.deepseek
            && (before.flag.Some? ==> Switched(after, VISUAL, j.boolish(before.flag.value)))
            && (before.flag == None && before.visual.Some? ==> Switched(after, VISUAL, j.boolish(before.visual.value)))
            && (before.flag == None && before.visual == None && on ==> Switched(after, VISUAL, true))
            && (before.flag == None && before.visual == None && !on ==> SameSwitch(before, after, VISUAL)))
  {
  }

  // ---- the visual settings ----

  /** A plain truth value counts as what it is. */
  ghost predicate Sane(j: Judge) { forall b :: j.boolish(Bool(b)) == b }

  /** A provider is switched on, or a model that has been renamed opts in. */
  predicate ProviderWantsVisual(b: Block, j: Judge) {
    || (exists k :: k in b.providers && b.providers[k].visual.Some? && j.boolish(b.providers[k].visual.value))
    || (exists k :: k in RenamedProviders(b, j) &&
          exists a :: a in RenamedProviders(b, j)[k].models && IsOn(RenamedProviders(b, j)[k].models[a], j))
  }

  predicate IsOn(m: Model, j: Judge) {
    && m.Def? && VISUAL in m.extensions && m.extensions[VISUAL].enabled.Some?
    && j.boolish(m.extensions[VISUAL].enabled.value)
  }

  /** A model opts in by its flag or its switch; once it is renamed, by its switch alone. */
  lemma OptsInExactly(m: Model, j: Judge)
    ensures OptsIn(m, j) <==> m.Def? && ((m.flag.Some? && j.boolish(m.flag.value)) || IsOn(m, j))
    ensures OptsIn(RenameVisual(m, j), j) <==> IsOn(RenameVisual(m, j), j)
  {
  }

  lemma RenamedOptIn(b: Block, j: Judge, k: string, a: string)
    requires k in b.providers && a in RenamedProviders(b, j)[k].models
    ensures var m := RenamedProviders(b, j)[k].models[a]; OptsIn(m, j) <==> IsOn(m, j)
  {
    hide RenameVisual, OptsIn, IsOn, AllEnabled;
    var p := b.providers[k];
    var models := if p.visual.Some? && j.boolish(p.visual.value) then AllEnabled(p.models, VISUAL) else p.models;
    OptsInExactly(models[a], j);
  }

  /** The block's plain switch is on. */
  predicate GloballyOn(b: Block, j: Judge) {
    b.visual.Some? && b.visual.value != Null && !b.visual.value.Dict? && j.boolish(b.visual.value)
  }

  /** Something asks for Visual: the block, a provider, or a model that opts in. */
  predicate WantsVisual(b: Block, j: Judge) {
    || GloballyOn(b, j) || ProviderWantsVisual(b, j)
    || (b.visual.Some? && b.visual.value.Dict? && "enabled" in b.visual.value.fields
        && j.boolish(b.visual.value.fields["enabled"]))
  }

  /** The settings of the block; a plain switch stands for a mapping that says no more. */
  function OwnSettings(b: Block, j: Judge): Fields {
    if b.visual.Some? && b.visual.value.Dict? then b.visual.value.fields
    else map["enabled" := Bool(b.visual == None || b.visual.value == Null || j.boolish(b.visual.value))]
  }

  /** The provider and the model the block names, or else the Kimi ones that are found. */
  ghost predicate Chosen(own: Fields, filled: Fields, found: (string, string)) {
    && (TextOf(own, "provider") != "" || found.0 == "" ==>
          && ("provider" in filled <==> "provider" in own)
          && ("provider" in own ==> filled["provider"] == own["provider"]))
    && (TextOf(own, "provider") == "" && found.0 != "" ==> "provider" in filled && filled["provider"] == Text(found.0))
    && (TextOf(own, "model") != "" || found.1 == "" ==>
          ("model" in filled <==> "model" in own) && ("model" in own ==> filled["model"] == own["model"]))
    && (TextOf(own, "model") == "" && found.1 != "" ==> "model" in filled && filled["model"] == Text(found.1))
    && (forall key :: key in {"max_rounds", "max_tokens"} ==>
          (key in filled <==> key in own) && (key in own ==> filled[key] == own[key]))
  }

  const VISUAL_KEYS: set<string> := {"provider", "model", "max_rounds", "max_tokens"}

  /** Of the settings for Visual only four are taken over, behind those that are there, and two have a
      default. */
  lemma VisualConfigMeaning(current: Fields, settings: Fields, key: string)
    ensures var r := VisualConfig(current, settings);
      && (key in r <==> || key in current || (key in VISUAL_KEYS && key in settings)
                        || key == "max_rounds" || key == "max_tokens")
      && (key in current ==> r[key] == current[key])
      && (key !in current && key in VISUAL_KEYS && key in settings ==> r[key] == settings[key])
      && (key !in current && key !in settings && key == "max_rounds" ==> r[key] == Number(4))
      && (key !in current && key !in settings && key == "max_tokens" ==> r[key] == Number(2048))
  {
  }

  /** A text setting, spaces aside; anything else counts as none. */
  lemma TextExactly(fields: Fields, key: string)
    ensures TextOf(fields, key) == if key in fields && fields[key].Text? then Trim(fields[key].text) else ""
    ensures TextOf(fields, key) == "" <==> !(key in fields && fields[key].Text? && Trim(fields[key].text) != "")
  {
    hide Trim;
  }

  lemma FilledMeaning(own: Fields, found: (string, string))
    ensures Chosen(own, Filled(Filled(own, "provider", found.0), "model", found.1), found)
  {
    hide Trim;
    assert "provider" != "model" && "max_rounds" !in {"provider", "model"} && "max_tokens" !in {"provider", "model"};
  }

  /** The extension is configured exactly if something asks for it, from the block's settings; and the
      block's plain switch alone marks the models of the chosen providers besides. */
  lemma VisualIsConfigured(c: Config, b: Block, j: Judge)
    requires Sane(j)
    ensures var m, renamed := MigrateVisual(c, b, j), RenamedProviders(b, j);
      && m.plugins == c.plugins && m.provider.Given?
      && m.provider.block == b.(visual := None, providers := m.provider.block.providers)
      && (!WantsVisual(b, j) ==> m.extensions == c.extensions && m.provider.block.providers == renamed)
      && (WantsVisual(b, j) ==>
            exists filled ::
              && Chosen(OwnSettings(b, j), filled, j.kimi(renamed, TextOf(OwnSettings(b, j), "provider")))
              && m.extensions == c.extensions[VISUAL := VisualConfig(ConfigOf(c, VISUAL), filled)]
              && (!GloballyOn(b, j) ==> m.provider.block.providers == renamed)
              && (GloballyOn(b, j) ==>
                    m.provider.block.providers
                      == MarkProviders(renamed, j.visualTargets(renamed, TextOf(filled, "provider")))))
  {
    hide RenamedProviders, OptsIn, IsOn, MarkProviders, VisualConfig, Filled, TextOf, Chosen;
    forall k, a | k in RenamedProviders(b, j) && a in RenamedProviders(b, j)[k].models
      ensures var m := RenamedProviders(b, j)[k].models[a]; OptsIn(m, j) <==> IsOn(m, j)
    {
      RenamedKeys(b, j);
      RenamedOptIn(b, j, k, a);
    }
    var own, renamed := OwnSettings(b, j), RenamedProviders(b, j);
    var found := j.kimi(renamed, TextOf(own, "provider"));
    FilledMeaning(own, found);
    var filled := Filled(Filled(own, "provider", found.0), "model", found.1);
    if WantsVisual(b, j) { assert Chosen(own, filled, found); }
  }

  lemma RenamedKeys(b: Block, j: Judge)
    ensures RenamedProviders(b, j).Keys == b.providers.Keys
  {
    hide VisualProvider;
  }

  lemma MarkedMeaning(providers: Providers, targets: set<string>, k: string, a: string)
    requires k in providers && a in providers[k].models
    ensures var r := MarkProviders(providers, targets);
      && r.Keys == providers.Keys && r[k] == providers[k].(models := r[k].models)
      && r[k].models.Keys == providers[k].models.Keys
      && (k !in targets ==> r[k] == providers[k])
      && (k in targets && providers[k].models[a] == Bare(Null) ==> Switched(r[k].models[a], VISUAL, true))
      && (k in targets && providers[k].models[a].Bare? && providers[k].models[a] != Bare(Null) ==>
            r[k].models[a] == providers[k].models[a])
      && (k in targets && providers[k].models[a].Def? ==>
            Switched(r[k].models[a], VISUAL, true) && SameButSwitch(providers[k].models[a], r[k].models[a], VISUAL))
  {
  }

  // ---- names become keys ----

  function Later(earlier: Option<Yaml>, later: Option<Yaml>): Option<Yaml> {
    match later
    case Some(v) => if v in {Null, Bool(false), Number(0), Text(""), List([]), Dict(map[])} then earlier else later
    case None => earlier
  }

  /** The settings of two entries of one model: the later one's, where it sets anything, else the earlier. */
  ghost predicate Overlays(earlier: Model, later: Model, both: Model)
    requires earlier.Def? && later.Def?
  {
    && both.Def? && both.name == earlier.name
    && both.deepseek == Later(earlier.deepseek, later.deepseek) && both.visual == Later(earlier.visual, later.visual)
    && both.flag == Later(earlier.flag, later.flag)
    && both.extensions == (if later.extensions != map[] then later.extensions else earlier.extensions)
    && forall key ::
         var sets := key in later.rest && Truthy(later.rest[key]);
         && (key in both.rest <==> sets || key in earlier.rest)
         && (sets ==> both.rest[key] == later.rest[key])
         && (!sets && key in earlier.rest ==> both.rest[key] == earlier.rest[key])
  }

  /** An entry goes under its name, if it has one that is not empty, else it stays under its alias, as it
      is but for the name; a second entry of the same name is laid over the first. */
  lemma PutMeaning(models: Models, alias: string, m: Model)
    ensures var r := PutModel(models, alias, m);
      var key := if m.Def? && m.name.GetOr("") != "" then m.name.value else alias;
      && key in r && r.Keys == models.Keys + {key}
      && (forall k :: k in models && k != key ==> r[k] == models[k])
      && (m.Bare? ==> r[key] == m)
      && (m.Def? && (m.name.GetOr("") == "" || key !in models || models[key].Bare?) ==> r[key] == m.(name := None))
      && (m.Def? && m.name.GetOr("") != "" && key in models && models[key].Def? ==>
            Overlays(models[key], m, r[key]))
  {
    hide Truthy, Over, Later;
    if m.Def? {
      var key := if m.name.GetOr("") != "" then m.name.value else alias;
      if key in models && models[key].Def? {
        OverExactly(models[key].deepseek, m.deepseek);
        OverExactly(models[key].visual, m.visual);
        OverExactly(models[key].flag, m.flag);
      }
    }
  }

  lemma OverExactly(earlier: Option<Yaml>, later: Option<Yaml>)
    ensures Over(earlier, later) == Later(earlier, later)
  {
  }

  /** A model that one alias alone leads to keeps everything but its name. */
  lemma {:induction false} OnlyAliasKeeps(models: Models, aliases: seq<string>, i: nat)
    requires (forall a :: a in aliases ==> a in models) && i < |aliases|
    requires forall j :: 0 <= j < |aliases| && j != i ==>
      Upstream(aliases[j], models[aliases[j]]) != Upstream(aliases[i], models[aliases[i]])
    ensures var m := models[aliases[i]];
      var u := Upstream(aliases[i], m);
      u in NewModels(models, aliases) && NewModels(models, aliases)[u] == if m.Def? then m.(name := None) else m
    decreases |aliases|
  {
    hide Upstream, Overlaid;
    var n := |aliases| - 1;
    if i < n {
      OnlyAliasKeeps(models, aliases[..n], i);
    } else {
      NotYet(models, aliases[..n], Upstream(aliases[i], models[aliases[i]]));
    }
    BareStays(aliases[n], models[aliases[n]]);
  }

  lemma BareStays(alias: string, m: Model)
    ensures m.Bare? ==> Upstream(alias, m) == alias
  {
  }

  lemma {:induction false} NotYet(models: Models, aliases: seq<string>, u: string)
    requires forall a :: a in aliases ==> a in models
    requires forall j :: 0 <= j < |aliases| ==> Upstream(aliases[j], models[aliases[j]]) != u
    ensures u !in NewModels(models, aliases)
    decreases |aliases|
  {
    hide Upstream, Overlaid;
    if aliases != [] {
      var n := |aliases| - 1;
      NotYet(models, aliases[..n], u);
      BareStays(aliases[n], models[aliases[n]]);
    }
  }

  /** Of several entries of one name, the last one that sets something decides it. */
  lemma {:induction false} LastSettingWins(models: Models, aliases: seq<string>, i: nat, key: string)
    requires (forall a :: a in aliases ==> a in models) && i < |aliases|
    requires models[aliases[i]].Def? && key in models[aliases[i]].rest && Truthy(models[aliases[i]].rest[key])
    requires var u := Upstream(aliases[i], models[aliases[i]]);
      forall j {:trigger aliases[j]} :: i < j < |aliases| && Upstream(aliases[j], models[aliases[j]]) == u ==>
        var m := models[aliases[j]];
        m.Def? && m.name.GetOr("") != "" && !(key in m.rest && Truthy(m.rest[key]))
    ensures var u := Upstream(aliases[i], models[aliases[i]]);
      && u in NewModels(models, aliases) && NewModels(models, aliases)[u].Def?
      && key in NewModels(models, aliases)[u].rest
      && NewModels(models, aliases)[u].rest[key] == models[aliases[i]].rest[key]
    decreases |aliases|
  {
    hide Truthy;
    var n := |aliases| - 1;
    if i < n { LastSettingWins(models, aliases[..n], i, key); }
  }

  // ---- routes ----

  /** A short route becomes one that says where it leads; any other stays, and so does its alias. */
  lemma RoutesAreKept(b: Block, alias: string)
    ensures var r := MigrateRoutes(b);
      && r == b.(routes := r.routes) && (alias in r.routes <==> alias in b.routes)
      && (alias in b.routes && b.routes[alias].Short? ==>
            r.routes[alias] == Entry(map["to" := Text(b.routes[alias].to)]))
      && (alias in b.routes && b.routes[alias].Entry? ==> r.routes[alias] == b.routes[alias])
  {
  }

  lemma {:induction false} RoutesCover(providers: Providers, keys: seq<string>, alias: string)
    requires forall k :: k in keys ==> k in providers
    ensures alias in AllRoutes(providers, keys) <==> exists k :: k in keys && alias in providers[k].models
    decreases |keys|
  {
    if keys != [] {
      var last, init := keys[|keys| - 1], keys[..|keys| - 1];
      assert keys == init + [last];
      RoutesCover(providers, init, alias);
    }
  }

  /** Renaming makes a route for every alias, leaves those that are there, and touches nothing else of a
      provider than its models. */
  lemma RenamingIsNarrow(b: Block, j: Judge, alias: string, k: string)
    requires Ordered(j)
    ensures var r := MigrateModels(b, j);
      && r == b.(providers := r.providers, routes := r.routes) && r.providers.Keys == b.providers.Keys
      && (k in b.providers ==> r.providers[k] == b.providers[k].(models := r.providers[k].models))
      && (alias in b.routes ==> alias in r.routes && r.routes[alias] == b.routes[alias])
      && (alias in r.routes <==> alias in b.routes || exists p :: p in b.providers && alias in b.providers[p].models)
  {
    hide NewModels, AllRoutes;
    var keys := j.inOrder(b.providers.Keys);
    RoutesCover(b.providers, keys, alias);
    assert forall p :: p in keys <==> p in b.providers;
  }

  // ---- the whole migration ----

  /** The block after its switches: the one the names and routes are then taken from. */
  function SwitchedBlock(c: Config, j: Judge): Block
    requires c.provider.Given?
  {
    MigrateVisual(MigratePlugins(c), MigrateDeepSeek(c.provider.block, j), j).provider.block
  }

  /** The file has plugins, whatever they are; an empty mapping is none. */
  predicate HasPlugins(c: Config) {
    c.plugins.Some? && c.plugins.value.Dict? && exists name :: name in c.plugins.value.fields
  }

  predicate HasNames(b: Block) {
    exists k, a :: k in b.providers && a in b.providers[k].models && b.providers[k].models[a].Def?
                   && b.providers[k].models[a].name.Some?
  }

  /** A block that is obsolete, or comes with plugins, goes through all of the migration, with the renaming
      exactly if some model has a name; any other is left alone. */
  lemma MigrationIsWhole(c: Config, j: Judge)
    requires Ordered(j) && Sane(j)
    ensures c.provider.Empty? ==> Migrate(c, j) == MigratePlugins(c)
    ensures c.provider.Given? && !NeedsMigration(c.provider.block) && !HasPlugins(c) ==> Migrate(c, j) == c
    ensures c.provider.Given? && (NeedsMigration(c.provider.block) || HasPlugins(c)) ==>
      var r := Migrate(c, j);
      && r.provider.Given? && r.plugins == MigratePlugins(c).plugins
      && r.provider.block ==
           var b := MigrateRoutes(SwitchedBlock(c, j));
           if HasNames(c.provider.block) then MigrateRoutes(MigrateModels(b, j)) else b
  {
    hide MigratePlugins, MigrateDeepSeek, MigrateRoutes, MigrateModels, NeedsMigration, MigrateVisual;
    if c.plugins.Some? && c.plugins.value.Dict? && c.plugins.value.fields != map[] {
      var name :| name in c.plugins.value.fields;
    }
    if c.provider.Given? {
      VisualIsConfigured(MigratePlugins(c), MigrateDeepSeek(c.provider.block, j), j);
    }
  }
}
