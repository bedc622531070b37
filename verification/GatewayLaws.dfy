/** Loading, writing back and loading again gives the configuration of the first load. */
module GatewayLaws {
  import opened Prelude
  import opened GatewayConfig
  import opened GatewayLoad

  // ---- trimming ----

  /** Part i .. i + |t| of the text, with nothing but spaces around it. */
  predicate Inside(s: string, t: string, i: nat) {
    i + |t| <= |s| && s[i..i + |t|] == t && Blank(s[..i]) && Blank(s[i + |t|..])
  }

  /** Trimming takes spaces off both ends and nothing else; its result being Trimmed, that is all there is
      to say of it. */
  lemma {:induction false} TrimMeaning(s: string)
    ensures exists i: nat :: Inside(s, Trim(s), i)
    decreases |s|
  {
    hide IsSpace, Inside;
    if s == "" || (!IsSpace(s[0]) && !IsSpace(s[|s| - 1])) {
      InsideItself(s);
      assert Inside(s, Trim(s), 0);
    } else if IsSpace(s[0]) {
      TrimMeaning(s[1..]);
      var i: nat :| Inside(s[1..], Trim(s[1..]), i);
      SpaceBefore(s, Trim(s[1..]), i);
      assert Inside(s, Trim(s), i + 1);
    } else {
      TrimMeaning(s[..|s| - 1]);
      var i: nat :| Inside(s[..|s| - 1], Trim(s[..|s| - 1]), i);
      SpaceBehind(s, Trim(s[..|s| - 1]), i);
      assert Inside(s, Trim(s), i);
    }
  }

  lemma InsideItself(s: string)
    ensures Inside(s, s, 0)
  {
  }

  lemma SpaceBefore(s: string, t: string, i: nat)
    requires s != "" && IsSpace(s[0]) && Inside(s[1..], t, i)
    ensures Inside(s, t, i + 1)
  {
    hide IsSpace;
    assert s[i + 1..i + 1 + |t|] == s[1..][i..i + |t|];
    assert s[..i + 1] == [s[0]] + s[1..][..i];
    assert s[i + 1 + |t|..] == s[1..][i + |t|..];
  }

  lemma SpaceBehind(s: string, t: string, i: nat)
    requires s != "" && IsSpace(s[|s| - 1]) && Inside(s[..|s| - 1], t, i)
    ensures Inside(s, t, i)
  {
    hide IsSpace;
    var n := |s| - 1;
    assert s[i..i + |t|] == s[..n][i..i + |t|] && s[..i] == s[..n][..i];
    assert s[i + |t|..] == s[..n][i + |t|..] + [s[n]];
  }

  lemma {:induction false} SlashesMeaning(s: string)
    ensures TrimSlashes(s) <= s && forall k :: |TrimSlashes(s)| <= k < |s| ==> s[k] == '/'
  {
    if s != "" && s[|s| - 1] == '/' { SlashesMeaning(s[..|s| - 1]); }
  }

  // ---- base URLs ----

  lemma {:induction false} TrimShortens(s: string)
    ensures |Trim(s)| <= |s| && (|Trim(s)| == |s| ==> Trimmed(s))
    decreases |s|
  {
    if s != "" {
      if IsSpace(s[0]) {
        TrimShortens(s[1..]);
      } else if IsSpace(s[|s| - 1]) {
        TrimShortens(s[..|s| - 1]);
      }
    }
  }

  /** Position i holds a space, and behind it there is nothing but slashes. */
  predicate SpaceAt(s: string, i: nat) {
    i < |s| && IsSpace(s[i]) && forall j :: i < j < |s| ==> s[j] == '/'
  }

  predicate SpaceThenSlashes(s: string) { exists i :: 0 <= i < |s| && SpaceAt(s, i) }

  lemma {:induction false} SlashesHideSpace(s: string)
    ensures SpaceThenSlashes(s) <==> TrimSlashes(s) != "" && IsSpace(TrimSlashes(s)[|TrimSlashes(s)| - 1])
    decreases |s|
  {
    if s != "" && s[|s| - 1] == '/' {
      var init := s[..|s| - 1];
      SlashesHideSpace(init);
      forall i | 0 <= i < |init| ensures SpaceAt(s, i) <==> SpaceAt(init, i) {
        if SpaceAt(s, i) { assert forall j :: i < j < |init| ==> init[j] == s[j]; }
      }
    } else if s != "" {
      assert SpaceAt(s, |s| - 1) <==> IsSpace(s[|s| - 1]);
    }
  }

  /** Reading a base URL twice reads it as once, exactly when no space stands before its last slashes. */
  lemma {:induction false} BaseUrlStableExactly(s: string)
    ensures BaseUrl(BaseUrl(s)) == BaseUrl(s) <==> !SpaceThenSlashes(Trim(s))
  {
    hide SpaceThenSlashes, TrimSlashes;
    TrimShortens(BaseUrl(s));
    SlashesHideSpace(Trim(s));
  }

  lemma SpaceBeforeSlash()
    ensures BaseUrl("http://x /") == "http://x " && BaseUrl("http://x ") == "http://x"
  {
    var s := "http://x /";
    assert Trimmed(s);
    assert s[..9] == "http://x ";
    assert TrimSlashes(s) == TrimSlashes(s[..9]);
    assert "http://x "[..8] == "http://x";
    assert Trimmed("http://x");
  }

  // ---- web search ----

  predicate CleanSearch(ws: WebSearch) {
    (ws.support == "" || ws.support in SUPPORTS) && Trimmed(ws.tavily) && Trimmed(ws.firecrawl)
  }

  predicate KnownSupport(ws: WebSearch) { ParseSupport(ws.support).Some? }

  lemma SupportsAreTrimmed()
    ensures forall s :: s in SUPPORTS ==> Trimmed(s) && s != ""
  {
  }

  /** Nothing but a mode the loader does not know; it accepts that, and drops it. */
  predicate OnlyUnknown(ws: WebSearch) {
    !KnownSupport(ws) && ws.maxUses == 0 && Trim(ws.tavily) == "" && Trim(ws.firecrawl) == "" && ws.rounds == 0
    && ws.extra == map[]
  }

  lemma SearchLoadsClean(ws: WebSearch)
    ensures CleanSearch(LoadSearch(ws))
    ensures HasSearch(ws) && LoadSearch(ws) == NO_SEARCH <==> OnlyUnknown(ws)
  {
    hide Trim;
    SupportsAreTrimmed();
  }

  lemma CleanSearchStays(ws: WebSearch)
    requires CleanSearch(ws)
    ensures LoadSearch(ws) == ws && (HasSearch(ws) <==> ws != NO_SEARCH)
    ensures KnownSupport(ws)
  {
    hide Trim;
    SupportsAreTrimmed();
  }

  // ---- models ----

  predicate CleanLevels(levels: seq<Level>) {
    forall i :: 0 <= i < |levels| ==> Trimmed(levels[i].effort) && Trimmed(levels[i].description)
  }

  predicate CleanModel(d: ModelDef) {
    && Trimmed(d.displayName) && Trimmed(d.description) && Trimmed(d.instructions) && Trimmed(d.defaultLevel)
    && Trimmed(d.defaultSummary) && CleanLevels(d.levels) && CleanSearch(d.webSearch)
  }

  lemma LevelsLoadClean(levels: seq<Level>)
    ensures CleanLevels(LoadLevels(levels)) && (CleanLevels(levels) ==> LoadLevels(levels) == levels)
  {
  }

  lemma ModelLoadsClean(m: ModelFile, specs: Specs)
    requires LoadModel(m, specs).Some?
    ensures CleanModel(LoadModel(m, specs).value)
  {
    hide Trim, LoadLevels, CleanLevels, SUPPORTS;
    LevelsLoadClean(m.levels);
    SearchLoadsClean(m.webSearch);
  }

  lemma ModelRoundTrip(d: ModelDef, specs: Specs)
    requires CleanModel(d) && DecodeExtensions(d.extensions, ModelScope, specs).Some?
    ensures LoadModel(SaveModel(d), specs) == Some(d)
  {
    hide Trim, LoadLevels, CleanLevels, CleanSearch, HasSearch, LoadSearch;
    LevelsLoadClean(d.levels);
    CleanSearchStays(d.webSearch);
  }

  // ---- offers ----

  lemma MergeIsClean(base: ModelDef, o: ModelFile)
    requires CleanModel(base)
    ensures CleanModel(Merge(base, o))
  {
    hide Trim, LoadLevels, CleanLevels, CleanSearch, HasSearch, LoadSearch;
    LevelsLoadClean(o.levels);
    SearchLoadsClean(o.webSearch);
  }

  /** Overrides that do not switch off a summaries or image-detail flag of their base, nor hide its
      web search behind an unknown mode. */
  predicate OverrideKept(base: ModelDef, o: ModelFile) {
    && !(base.summaries && o.summaries == Some(false)) && !(base.imageDetail && o.imageDetail == Some(false))
    && (OnlyUnknown(o.webSearch) ==> base.webSearch == NO_SEARCH)
  }

  /** Merged overrides survive being written out and merged again exactly when they are kept. */
  lemma MergeRoundTripExactly(base: ModelDef, o: ModelFile)
    requires CleanModel(base)
    ensures Merge(base, SaveModel(Merge(base, o))) == Merge(base, o) <==> OverrideKept(base, o)
  {
    hide Trim, LoadLevels, CleanLevels, CleanSearch, HasSearch, LoadSearch, OnlyUnknown;
    var m := Merge(base, o);
    MergeIsClean(base, o);
    LevelsLoadClean(m.levels);
    LevelsLoadClean(o.levels);
    CleanSearchStays(m.webSearch);
    CleanSearchStays(base.webSearch);
    SearchLoadsClean(o.webSearch);
    assert base.extensions + m.extensions == m.extensions;
  }

  // ---- providers ----

  predicate AllClean(models: map<string, ModelDef>) { forall slug :: slug in models ==> CleanModel(models[slug]) }

  predicate OfferKept(o: OfferFile, models: map<string, ModelDef>) {
    o.overrides.Some? ==> OverrideKept(BaseModel(models, Trim(o.model)), o.overrides.value)
  }

  /** Offers without a model are skipped by the loader. */
  predicate OffersKept(offers: seq<OfferFile>, models: map<string, ModelDef>) {
    forall i :: 0 <= i < |offers| && Trim(offers[i].model) != "" ==> OfferKept(offers[i], models)
  }

  predicate ProviderKept(p: ProviderFile, models: map<string, ModelDef>) {
    KnownSupport(p.webSearch) && !SpaceThenSlashes(Trim(p.baseUrl)) && OffersKept(p.offers, models)
  }

  lemma OfferRoundTripExactly(o: OfferFile, models: map<string, ModelDef>)
    requires AllClean(models)
    ensures LoadOffer(SaveOffer(LoadOffer(o, models)), models) == LoadOffer(o, models) <==> OfferKept(o, models)
  {
    hide Trim, CleanModel, Merge, OverrideKept;
    NoModelIsClean();
    if o.overrides.Some? {
      MergeRoundTripExactly(BaseModel(models, Trim(o.model)), o.overrides.value);
    }
  }

  lemma NoModelIsClean()
    ensures CleanModel(NO_MODEL)
  {
  }

  lemma {:induction false} OffersRoundTripExactly(offers: seq<OfferFile>, models: map<string, ModelDef>)
    requires AllClean(models)
    ensures LoadOffers(SaveOffers(LoadOffers(offers, models)), models) == LoadOffers(offers, models)
      <==> OffersKept(offers, models)
    ensures |LoadOffers(SaveOffers(LoadOffers(offers, models)), models)| == |LoadOffers(offers, models)|
    decreases |offers|
  {
    hide Trim, LoadOffer, OfferKept, AllClean, SaveOffer;
    if offers != [] {
      var init, last := offers[..|offers| - 1], offers[|offers| - 1];
      OffersRoundTripExactly(init, models);
      assert OffersKept(offers, models)
        <==> OffersKept(init, models) && (Trim(last.model) != "" ==> OfferKept(last, models));
      if Trim(last.model) != "" {
        OfferRoundTripExactly(last, models);
        OfferModels(last, models);
        SavedSnoc(LoadOffers(init, models), LoadOffer(last, models), models);
        SameSnoc(LoadOffers(SaveOffers(LoadOffers(init, models)), models),
                 LoadOffer(SaveOffer(LoadOffer(last, models)), models),
                 LoadOffers(init, models), LoadOffer(last, models));
      }
    }
  }

  lemma SameSnoc<T>(xs: seq<T>, x: T, ys: seq<T>, y: T)
    requires |xs| == |ys|
    ensures xs + [x] == ys + [y] <==> xs == ys && x == y
  {
    if xs + [x] == ys + [y] {
      assert (xs + [x])[..|xs|] == xs && (ys + [y])[..|ys|] == ys && (xs + [x])[|xs|] == (ys + [y])[|ys|];
    }
  }

  lemma OfferModels(o: OfferFile, models: map<string, ModelDef>)
    ensures SaveOffer(LoadOffer(o, models)).model == Trim(o.model) && Trim(Trim(o.model)) == Trim(o.model)
  {
    hide Trim;
  }

  lemma {:induction false} SavedSnoc(offers: seq<Offer>, last: Offer, models: map<string, ModelDef>)
    requires Trim(SaveOffer(last).model) != ""
    ensures LoadOffers(SaveOffers(offers + [last]), models)
      == LoadOffers(SaveOffers(offers), models) + [LoadOffer(SaveOffer(last), models)]
  {
    hide Trim, LoadOffer, SaveOffer;
    assert (offers + [last])[..|offers|] == offers;
    var saved := SaveOffers(offers + [last]);
    assert saved == SaveOffers(offers) + [SaveOffer(last)];
    assert saved[..|saved| - 1] == SaveOffers(offers);
  }

  /** A loaded provider survives exactly when the file's is kept. */
  lemma ProviderRoundTripExactly(p: ProviderFile, specs: Specs, models: map<string, ModelDef>)
    requires AllClean(models) && LoadProvider(p, specs, models).Some?
    ensures var loaded := LoadProvider(p, specs, models);
      LoadProvider(SaveProvider(loaded.value), specs, models) == loaded <==> ProviderKept(p, models)
  {
    hide Trim, AllClean, OffersKept, LoadOffers, SaveOffers, Catalog, BaseUrl, SpaceThenSlashes;
    OffersRoundTripExactly(p.offers, models);
    BaseUrlStableExactly(p.baseUrl);
    SupportsAreTrimmed();
    SearchLoadsClean(p.webSearch);
    VersionsAreTrimmed();
  }

  lemma VersionsAreTrimmed()
    ensures Trimmed("2023-06-01") && Trimmed("auto")
  {
  }
}
