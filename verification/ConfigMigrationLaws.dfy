/** After a migration nothing obsolete is left, so that a second one changes nothing; and every alias
    still leads to its upstream model. */
module ConfigMigrationLaws {
  import opened Prelude
  import opened ConfigMigration

  /** The old keys a model no longer has, one stage after the other. */
  datatype Stage = DeepSeekDone | VisualDone | NamesDone

  predicate Clean(m: Model, stage: Stage) {
    m.Def? ==> m.deepseek == None && (stage != DeepSeekDone ==> m.visual == None && m.flag == None)
               && (stage == NamesDone ==> m.name == None)
  }

  predicate CleanModels(models: Models, stage: Stage) { forall a :: a in models ==> Clean(models[a], stage) }

  predicate CleanProviders(providers: Providers, stage: Stage) {
    forall k :: k in providers ==>
      && providers[k].deepseek == None && (stage != DeepSeekDone ==> providers[k].visual == None)
      && CleanModels(providers[k].models, stage)
  }

  predicate NamelessModels(models: Models) { forall a :: a in models && models[a].Def? ==> models[a].name == None }

  predicate Nameless(providers: Providers) { forall k :: k in providers ==> NamelessModels(providers[k].models) }

  // ---- one model, one provider ----

  lemma EnablingKeeps(m: Model, extension: string, on: bool, stage: Stage)
    requires Clean(m, stage)
    ensures Clean(Enabled(m, extension, on), stage)
    ensures m.Def? ==> Enabled(m, extension, on).Def? && Enabled(m, extension, on).name == m.name
    ensures m.Bare? && Enabled(m, extension, on).Def? ==> Enabled(m, extension, on).name == None
  {
  }

  lemma EnablingAllKeeps(models: Models, extension: string, stage: Stage)
    requires CleanModels(models, stage)
    ensures CleanModels(AllEnabled(models, extension), stage)
    ensures NamelessModels(models) ==> NamelessModels(AllEnabled(models, extension))
  {
    hide Enabled, Clean;
    forall a | a in models ensures Clean(Enabled(models[a], extension, true), stage) {
      EnablingKeeps(models[a], extension, true, stage);
    }
    forall a | a in models && NamelessModels(models) && Enabled(models[a], extension, true).Def?
      ensures Enabled(models[a], extension, true).name == None
    {
      EnablingKeeps(models[a], extension, true, stage);
    }
  }

  lemma DeepSeekRenamed(m: Model, j: Judge)
    ensures Clean(RenameDeepSeek(m, j), DeepSeekDone)
    ensures RenameDeepSeek(m, j).Def? <==> m.Def?
    ensures m.Def? ==> RenameDeepSeek(m, j).name == m.name
  {
  }

  lemma DeepSeekProviderCleans(p: Provider, on: bool, j: Judge)
    ensures var r := DeepSeekProvider(p, on, j);
      && r.deepseek == None && CleanModels(r.models, DeepSeekDone)
      && (NamelessModels(p.models) ==> NamelessModels(r.models))
  {
    hide RenameDeepSeek, Clean, AllEnabled;
    var models := if on then AllEnabled(p.models, DEEPSEEK) else p.models;
    NamelessEnabled(p.models, DEEPSEEK);
    forall a | a in models
      ensures Clean(RenameDeepSeek(models[a], j), DeepSeekDone)
      ensures RenameDeepSeek(models[a], j).Def? ==>
        models[a].Def? && RenameDeepSeek(models[a], j).name == models[a].name
    {
      DeepSeekRenamed(models[a], j);
    }
  }

  lemma NamelessEnabled(models: Models, extension: string)
    ensures NamelessModels(models) ==> NamelessModels(AllEnabled(models, extension))
  {
  }

  lemma VisualRenamed(m: Model, j: Judge)
    requires Clean(m, DeepSeekDone)
    ensures Clean(RenameVisual(m, j), VisualDone)
    ensures RenameVisual(m, j).Def? <==> m.Def?
    ensures m.Def? ==> RenameVisual(m, j).name == m.name
  {
  }

  lemma VisualProviderCleans(p: Provider, j: Judge)
    requires CleanModels(p.models, DeepSeekDone)
    ensures var r := VisualProvider(p, j);
      r.visual == None && r.deepseek == p.deepseek && CleanModels(r.models, VisualDone)
      && (NamelessModels(p.models) ==> NamelessModels(r.models))
  {
    hide RenameVisual, Clean, AllEnabled;
    var models := if p.visual.Some? && j.boolish(p.visual.value) then AllEnabled(p.models, VISUAL) else p.models;
    EnablingAllKeeps(p.models, VISUAL, DeepSeekDone);
    forall a | a in models
      ensures Clean(RenameVisual(models[a], j), VisualDone)
      ensures RenameVisual(models[a], j).Def? ==> models[a].Def? && RenameVisual(models[a], j).name == models[a].name
    {
      VisualRenamed(models[a], j);
    }
  }

  // ---- the stages ----

  lemma DeepSeekCleans(b: Block, j: Judge)
    ensures var r := MigrateDeepSeek(b, j);
      && r.deepseek == None && CleanProviders(r.providers, DeepSeekDone)
      && (Nameless(b.providers) ==> Nameless(r.providers)) && r.visual == b.visual && r.routes == b.routes
  {
    hide DeepSeekProvider, CleanModels, NamelessModels;
    forall k, on | k in b.providers
      ensures var r := DeepSeekProvider(b.providers[k], on, j);
        r.deepseek == None && CleanModels(r.models, DeepSeekDone)
        && (NamelessModels(b.providers[k].models) ==> NamelessModels(r.models))
    {
      DeepSeekProviderCleans(b.providers[k], on, j);
    }
  }

  lemma RenamedIsClean(b: Block, j: Judge)
    requires CleanProviders(b.providers, DeepSeekDone)
    ensures CleanProviders(RenamedProviders(b, j), VisualDone)
    ensures Nameless(b.providers) ==> Nameless(RenamedProviders(b, j))
  {
    var providers := b.providers;
    hide VisualProvider, CleanModels, NamelessModels;
    forall k | k in providers
      ensures var r := VisualProvider(providers[k], j);
        r.visual == None && r.deepseek == None && CleanModels(r.models, VisualDone)
        && (NamelessModels(providers[k].models) ==> NamelessModels(r.models))
    {
      VisualProviderCleans(providers[k], j);
    }
  }

  lemma MarkedIsClean(providers: Providers, targets: set<string>)
    requires CleanProviders(providers, VisualDone)
    ensures CleanProviders(MarkProviders(providers, targets), VisualDone)
    ensures Nameless(providers) ==> Nameless(MarkProviders(providers, targets))
  {
    hide AllEnabled, CleanModels, NamelessModels;
    forall k | k in providers
      ensures CleanModels(AllEnabled(providers[k].models, VISUAL), VisualDone)
      ensures NamelessModels(providers[k].models) ==> NamelessModels(AllEnabled(providers[k].models, VISUAL))
    {
      EnablingAllKeeps(providers[k].models, VISUAL, VisualDone);
    }
  }

  lemma VisualCleans(c: Config, b: Block, j: Judge)
    requires b.deepseek == None && CleanProviders(b.providers, DeepSeekDone)
    ensures var r := MigrateVisual(c, b, j);
      && r.provider.Given? && r.provider.block.deepseek == None && r.provider.block.visual == None
      && CleanProviders(r.provider.block.providers, VisualDone)
      && (Nameless(b.providers) ==> Nameless(r.provider.block.providers))
      && r.provider.block.routes == b.routes && r.plugins == c.plugins
  {
    hide OptsIn, VisualConfig, Filled, TextOf, VisualProvider, MarkProviders, CleanProviders, Nameless;
    var providers := RenamedProviders(b, j);
    RenamedIsClean(b, j);
    forall targets: set<string>
      ensures CleanProviders(MarkProviders(providers, targets), VisualDone)
      ensures Nameless(providers) ==> Nameless(MarkProviders(providers, targets))
    {
      MarkedIsClean(providers, targets);
    }
  }

  // ---- models and routes ----

  lemma PutKeepsClean(models: Models, alias: string, m: Model)
    requires CleanModels(models, NamesDone) && Clean(m, VisualDone)
    ensures CleanModels(PutModel(models, alias, m), NamesDone)
  {
  }

  lemma {:induction false} NewModelsAreClean(models: Models, aliases: seq<string>)
    requires CleanModels(models, VisualDone) && forall a :: a in aliases ==> a in models
    ensures CleanModels(NewModels(models, aliases), NamesDone)
    decreases |aliases|
  {
    hide PutModel, Clean;
    if aliases != [] {
      NewModelsAreClean(models, aliases[..|aliases| - 1]);
      var last := aliases[|aliases| - 1];
      PutKeepsClean(NewModels(models, aliases[..|aliases| - 1]), last, models[last]);
    }
  }

  predicate AllLong(routes: map<string, Route>) { forall a :: a in routes ==> !routes[a].Short? }

  lemma {:induction false} NewRoutesAreLong(providers: Providers, keys: seq<string>)
    requires forall k :: k in keys ==> k in providers
    ensures AllLong(AllRoutes(providers, keys))
    decreases |keys|
  {
    if keys != [] {
      NewRoutesAreLong(providers, keys[..|keys| - 1]);
    }
  }

  lemma ModelsClean(b: Block, j: Judge)
    requires Ordered(j) && CleanProviders(b.providers, VisualDone) && AllLong(b.routes)
    ensures var r := MigrateModels(b, j);
      CleanProviders(r.providers, NamesDone) && AllLong(r.routes) && r.deepseek == b.deepseek && r.visual == b.visual
  {
    hide NewModels, AllRoutes, CleanModels;
    NewRoutesAreLong(b.providers, j.inOrder(b.providers.Keys));
    forall k | k in b.providers
      ensures CleanModels(NewModels(b.providers[k].models, j.inOrder(b.providers[k].models.Keys)), NamesDone)
    {
      NewModelsAreClean(b.providers[k].models, j.inOrder(b.providers[k].models.Keys));
    }
  }

  lemma RoutesAreLong(b: Block)
    ensures AllLong(MigrateRoutes(b).routes) && MigrateRoutes(b).(routes := b.routes) == b
    ensures AllLong(b.routes) ==> MigrateRoutes(b) == b
  {
    if AllLong(b.routes) { assert MigrateRoutes(b).routes == b.routes; }
  }

  lemma NamelessIsClean(providers: Providers)
    requires CleanProviders(providers, VisualDone) && Nameless(providers)
    ensures CleanProviders(providers, NamesDone)
  {
  }

  // ---- the migration ----

  predicate Current(b: Block) {
    b.deepseek == None && b.visual in {None, Some(Null)} && CleanProviders(b.providers, NamesDone) && AllLong(b.routes)
  }

  lemma CurrentNeedsNothing(b: Block)
    ensures Current(b) <==> !NeedsMigration(b)
  {
    hide NamelessModels;
    if !NeedsMigration(b) {
      forall k | k in b.providers
        ensures b.providers[k].deepseek == None && b.providers[k].visual == None
        ensures CleanModels(b.providers[k].models, NamesDone)
      {
        assert !ObsoleteProvider(b.providers[k]);
        forall a | a in b.providers[k].models ensures Clean(b.providers[k].models[a], NamesDone) {
          assert !ObsoleteModel(b.providers[k].models[a]);
        }
      }
    }
  }

  lemma NoNames(b: Block)
    requires !NeedsModelMigration(b)
    ensures Nameless(b.providers)
  {
  }

  /** After a migration nothing obsolete is left: no plugins, switches, flags, names or short routes. */
  lemma MigrationIsCurrent(c: Config, j: Judge)
    requires Ordered(j)
    ensures var r := Migrate(c, j);
      && !NeedsRootMigration(r) && (r.provider.Given? <==> c.provider.Given?)
      && (c.provider.Empty? ==> r.provider == c.provider)
      && (r.provider.Given? ==> !NeedsMigration(r.provider.block))
  {
    hide MigrateDeepSeek, MigrateVisual, MigrateModels, MigrateRoutes, CleanProviders, Nameless, AllLong,
      NeedsMigration, NeedsModelMigration;
    if c.provider.Given? && (NeedsMigration(c.provider.block) || NeedsRootMigration(c)) {
      var b := c.provider.block;
      var d := MigrateDeepSeek(b, j);
      DeepSeekCleans(b, j);
      var v := MigrateVisual(MigratePlugins(c), d, j);
      VisualCleans(MigratePlugins(c), d, j);
      var routed := MigrateRoutes(v.provider.block);
      RoutesAreLong(v.provider.block);
      if NeedsModelMigration(b) {
        var models := MigrateModels(routed, j);
        ModelsClean(routed, j);
        RoutesAreLong(models);
        CurrentNeedsNothing(MigrateRoutes(models));
      } else {
        NoNames(b);
        NamelessIsClean(routed.providers);
        CurrentNeedsNothing(routed);
      }
    }
  }

  /** So a second migration changes nothing. */
  lemma MigrationSettles(c: Config, j: Judge)
    requires Ordered(j)
    ensures Migrate(Migrate(c, j), j) == Migrate(c, j)
  {
    hide MigrateDeepSeek, MigrateVisual, MigrateModels, MigrateRoutes, NeedsMigration, NeedsModelMigration;
    MigrationIsCurrent(c, j);
  }

  // ---- aliases ----

  lemma {:induction false} UpstreamsStay(models: Models, aliases: seq<string>, i: nat)
    requires (forall a :: a in aliases ==> a in models) && i < |aliases|
    ensures Upstream(aliases[i], models[aliases[i]]) in NewModels(models, aliases)
    decreases |aliases|
  {
    if i < |aliases| - 1 {
      UpstreamsStay(models, aliases[..|aliases| - 1], i);
    }
  }

  lemma {:induction false} RouteOfAlias(providers: Providers, keys: seq<string>, key: string, alias: string)
    requires (forall k :: k in keys ==> k in providers) && key in keys && alias in providers[key].models
    requires forall k :: k in keys && alias in providers[k].models ==> k == key
    ensures alias in AllRoutes(providers, keys)
    ensures AllRoutes(providers, keys)[alias] == RouteTo(key, Upstream(alias, providers[key].models[alias]))
    decreases |keys|
  {
    var last := keys[|keys| - 1];
    var init := keys[..|keys| - 1];
    assert keys == init + [last];
    if alias !in providers[last].models {
      RouteOfAlias(providers, init, key, alias);
    }
  }

  /** An alias of one provider alone, not routed before, leads to its upstream model after the models
      have been renamed, and that model is in the provider. */
  lemma AliasesLeadToTheirModels(b: Block, j: Judge, key: string, alias: string)
    requires Ordered(j) && key in b.providers && alias in b.providers[key].models && alias !in b.routes
    requires forall k :: k in b.providers && alias in b.providers[k].models ==> k == key
    ensures var r := MigrateModels(b, j);
      var upstream := Upstream(alias, b.providers[key].models[alias]);
      && alias in r.routes && r.routes[alias] == Entry(map["to" := Text(key + "/" + upstream)])
      && upstream in r.providers[key].models
  {
    hide NewModels, AllRoutes, Upstream;
    var models := b.providers[key].models;
    var aliases := j.inOrder(models.Keys);
    assert alias in aliases;
    var i :| 0 <= i < |aliases| && aliases[i] == alias;
    UpstreamsStay(models, aliases, i);
    RouteOfAlias(b.providers, j.inOrder(b.providers.Keys), key, alias);
  }
}
