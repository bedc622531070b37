/** Reconciliation reaches a graph that verifies, touches nothing else, and settles. */
module DeepSeekLaws {
  import opened Prelude
  import opened DeepSeekGraph

  // ---- what is accepted, and what is created for it ----

  /** The pro model takes two efforts and the flash model three; a key, if given, is not blank. */
  lemma ValidExactly(input: Input)
    ensures Valid(input) <==>
      && (|| (input.model == PRO_MODEL && input.effort in {HIGH, MAX})
          || (input.model == FLASH_MODEL && input.effort in {LOW, HIGH, MAX}))
      && (input.key.Some? ==> exists i :: 0 <= i < |input.key.value| && !IsSpace(input.key.value[i]))
  {
    hide IsSpace;
  }

  /** The efforts a model supports, as its resource says. */
  ghost predicate Supports(m: Fields, effort: string) {
    && Get(m, SupportedLevels).Some? && Get(m, SupportedLevels).value.Array?
    && exists i :: 0 <= i < |Get(m, SupportedLevels).value.items| &&
         Get(ObjectOf(Some(Get(m, SupportedLevels).value.items[i])), Effort) == Some(Str(effort))
  }

  /** A model that is created supports just the efforts the setup accepts for it, and the one it starts with
      is the one that was asked for. */
  lemma CreatedModelSupports(model: string, effort: string, other: string)
    requires Valid(Input(None, model, effort))
    ensures AsStr(Get(ModelValue(model, effort), DefaultLevel)) == Some(effort)
    ensures Supports(ModelValue(model, effort), effort)
    ensures Supports(ModelValue(model, effort), other) <==> Valid(Input(None, model, other))
    ensures AsInt(Get(ModelValue(model, effort), ContextWindow)) == Some(1000000)
    ensures AsInt(Get(ModelValue(model, effort), MaxOutputTokens)) == Some(384000)
    ensures forall f :: f in {SupportsReasoning, SupportsSummaries} ==>
      Get(ModelValue(model, effort), f) == Some(Bool(true))
  {
    var m, allowed := ModelValue(model, effort), Allowed(model);
    var levels := Get(m, SupportedLevels).value.items;
    assert |levels| == |allowed|;
    forall i | 0 <= i < |allowed|
      ensures Get(ObjectOf(Some(levels[i])), Effort) == Some(Str(allowed[i]))
    {
      LevelSays(allowed[i]);
    }
    forall e | e in allowed ensures Supports(m, e) {
      var i :| 0 <= i < |allowed| && allowed[i] == e;
      assert Get(ObjectOf(Some(levels[i])), Effort) == Some(Str(e));
    }
  }

  lemma LevelSays(effort: string)
    ensures Get(ObjectOf(Some(Level(effort))), Effort) == Some(Str(effort))
  {
  }

  /** The number x, as an integer or not. */
  predicate IsNumber(value: Option<Json>, x: real) {
    value.Some? && (value.value == Float(x) || (value.value.Int? && value.value.integer as real == x))
  }

  /** Prices are right exactly if all four are there and are the right numbers, whatever else there is. */
  lemma PricesExactly(actual: Option<Json>, input: real, output: real, write: real, read: real)
    ensures PricingMatches(actual, map[InputPrice := Float(input), OutputPrice := Float(output),
                                       CacheWritePrice := Float(write), CacheReadPrice := Float(read)])
      <==> && actual.Some? && actual.value.Object?
           && var f := actual.value.fields;
              && IsNumber(Get(f, InputPrice), input) && IsNumber(Get(f, OutputPrice), output)
              && IsNumber(Get(f, CacheWritePrice), write) && IsNumber(Get(f, CacheReadPrice), read)
  {
    if actual.Some? && actual.value.Object? {
      var f := actual.value.fields;
      forall field, x | AsNumber(Get(f, field)) == Some(x) ensures IsNumber(Get(f, field), x) { }
      forall field, x | IsNumber(Get(f, field), x) ensures AsNumber(Get(f, field)) == Some(x) { }
      assert InputPrice in {InputPrice, OutputPrice, CacheWritePrice, CacheReadPrice};
      assert OutputPrice in {InputPrice, OutputPrice, CacheWritePrice, CacheReadPrice};
      assert CacheWritePrice in {InputPrice, OutputPrice, CacheWritePrice, CacheReadPrice};
      assert CacheReadPrice in {InputPrice, OutputPrice, CacheWritePrice, CacheReadPrice};
    }
  }

  /** So verification accepts no other prices than these. */
  lemma VerifiedPrices(g: Resources, input: Input, model: string)
    requires Verified(g, input) && model in {PRO_MODEL, FLASH_MODEL}
    ensures OfferKey(model) in g
    ensures var f, pro := ObjectOf(Get(g[OfferKey(model)], Pricing)), model == PRO_MODEL;
      && IsNumber(Get(f, InputPrice), if pro then 2.0 else 1.0)
      && IsNumber(Get(f, OutputPrice), if pro then 8.0 else 2.0)
      && IsNumber(Get(f, CacheWritePrice), 1.0) && IsNumber(Get(f, CacheReadPrice), if pro then 0.2 else 0.02)
  {
    hide PricingMatches;
    var offer := g[OfferKey(model)];
    assert OfferVerified(offer, model);
    if model == PRO_MODEL {
      PricesExactly(Get(offer, Pricing), 2.0, 8.0, 1.0, 0.2);
    } else {
      PricesExactly(Get(offer, Pricing), 1.0, 2.0, 1.0, 0.02);
    }
  }

  // ---- patches on one resource ----

  function SetAll(fields: Fields, changes: seq<Change>): Fields {
    if changes == [] then fields
    else
      var c := changes[|changes| - 1];
      SetAll(fields, changes[..|changes| - 1])[c.field := c.value]
  }

  predicate AllOn(changes: seq<Change>, key: Key) { forall c :: c in changes ==> c.key == key }

  lemma {:induction false} ChangesMeaning(g: Resources, changes: seq<Change>, key: Key)
    requires key in g && AllOn(changes, key)
    ensures ApplyChanges(g, changes) == g[key := SetAll(g[key], changes)]
    decreases |changes|
  {
    if changes != [] {
      assert changes[|changes| - 1] in changes;
      ChangesMeaning(g, changes[..|changes| - 1], key);
    }
  }

  lemma {:induction false} SetAllSum(fields: Fields, a: seq<Change>, b: seq<Change>)
    ensures SetAll(fields, a + b) == SetAll(SetAll(fields, a), b)
    decreases |b|
  {
    if b == [] {
      assert a + b == a;
    } else {
      assert (a + b)[..|a + b| - 1] == a + b[..|b| - 1];
      SetAllSum(fields, a, b[..|b| - 1]);
    }
  }

  function Put(fields: Fields, done: bool, field: Field, value: Json): Fields {
    if done then fields else fields[field := value]
  }

  lemma {:induction false} SetAllUnless(fields: Fields, changes: seq<Change>, done: bool, key: Key, field: Field,
                                        value: Json)
    ensures SetAll(fields, changes + Unless(done, key, field, value))
      == Put(SetAll(fields, changes), done, field, value)
  {
    SetAllSum(fields, changes, Unless(done, key, field, value));
    var one := [Change(key, field, value)];
    assert one[..0] == [];
  }

  function ProviderAfter(p: Fields, key: Option<string>): Fields {
    var extensions := Object(ExtensionOn(ObjectOf(Get(p, Extensions))));
    var p1 := p[BaseUrl := Str(BASE_URL)][Protocol := Str(PROTOCOL)];
    var p2 := p1[Version := Str(VERSION)][UserAgent := Str(USER_AGENT)];
    Put(p2[Extensions := extensions], key == None || Blank(key.value), ApiKey, Str(key.GetOr("")))
  }

  /** One more change: to the wanted value, or none if that is the value already. */
  lemma {:induction false} SetNext(p: Fields, changes: seq<Change>, q: Fields, done: bool, key: Key, field: Field,
                                   value: Json)
    requires SetAll(p, changes) == q && AllOn(changes, key) && (done ==> Get(q, field) == Some(value))
    ensures SetAll(p, changes + Unless(done, key, field, value)) == q[field := value]
    ensures AllOn(changes + Unless(done, key, field, value), key)
  {
    SetAllUnless(p, changes, done, key, field, value);
  }

  lemma {:induction false} SetFirst(p: Fields, done: bool, key: Key, field: Field, value: Json)
    requires done ==> Get(p, field) == Some(value)
    ensures SetAll(p, Unless(done, key, field, value)) == p[field := value]
    ensures AllOn(Unless(done, key, field, value), key)
  {
    var none: seq<Change> := [];
    SetNext(p, none, p, done, key, field, value);
    assert none + Unless(done, key, field, value) == Unless(done, key, field, value);
  }

  lemma {:induction false} ProviderPatched(p: Fields, key: Option<string>)
    ensures SetAll(p, ProviderChanges(p, key)) == ProviderAfter(p, key)
    ensures AllOn(ProviderChanges(p, key), PROVIDER_KEY)
  {
    hide SetAll, Blank, ExtensionOn, Unless, AllOn;
    var extensions := Object(ExtensionOn(ObjectOf(Get(p, Extensions))));
    var d1, d2 := AsStr(Get(p, BaseUrl)) == Some(BASE_URL), AsStr(Get(p, Protocol)) == Some(PROTOCOL);
    var d3, d4 := AsStr(Get(p, Version)) == Some(VERSION), AsStr(Get(p, UserAgent)) == Some(USER_AGENT);
    var d5, d6 := Get(p, Extensions) == Some(extensions), key == None || Blank(key.value);
    var p1 := p[BaseUrl := Str(BASE_URL)];
    var p2 := p1[Protocol := Str(PROTOCOL)];
    var p3 := p2[Version := Str(VERSION)];
    var p4 := p3[UserAgent := Str(USER_AGENT)];
    var p5 := p4[Extensions := extensions];
    var c1 := Unless(d1, PROVIDER_KEY, BaseUrl, Str(BASE_URL));
    var c2 := c1 + Unless(d2, PROVIDER_KEY, Protocol, Str(PROTOCOL));
    var c3 := c2 + Unless(d3, PROVIDER_KEY, Version, Str(VERSION));
    var c4 := c3 + Unless(d4, PROVIDER_KEY, UserAgent, Str(USER_AGENT));
    var c5 := c4 + Unless(d5, PROVIDER_KEY, Extensions, extensions);
    SetFirst(p, d1, PROVIDER_KEY, BaseUrl, Str(BASE_URL));
    SetNext(p, c1, p1, d2, PROVIDER_KEY, Protocol, Str(PROTOCOL));
    SetNext(p, c2, p2, d3, PROVIDER_KEY, Version, Str(VERSION));
    SetNext(p, c3, p3, d4, PROVIDER_KEY, UserAgent, Str(USER_AGENT));
    SetNext(p, c4, p4, d5, PROVIDER_KEY, Extensions, extensions);
    SetLast(p, c5, p5, d6, PROVIDER_KEY, ApiKey, Str(key.GetOr("")));
  }

  lemma {:induction false} SetLast(p: Fields, changes: seq<Change>, q: Fields, done: bool, key: Key, field: Field,
                                   value: Json)
    requires SetAll(p, changes) == q && AllOn(changes, key)
    ensures SetAll(p, changes + Unless(done, key, field, value)) == Put(q, done, field, value)
    ensures AllOn(changes + Unless(done, key, field, value), key)
  {
    SetAllUnless(p, changes, done, key, field, value);
  }

  function OfferAfter(offer: Fields, model: string): Fields {
    offer[Model := Str(model)][UpstreamName := Str(model)][Priority := Int(0)][Pricing := Object(Prices(model))]
  }

  lemma {:induction false} OfferPatched(offer: Fields, model: string)
    ensures SetAll(offer, OfferChanges(offer, model)) == OfferAfter(offer, model)
    ensures AllOn(OfferChanges(offer, model), OfferKey(model))
  {
    hide SetAll, Prices, Unless, AllOn;
    var key := OfferKey(model);
    var d1, d2 := AsStr(Get(offer, Model)) == Some(model), AsStr(Get(offer, UpstreamName)) == Some(model);
    var d3, d4 := AsInt(Get(offer, Priority)) == Some(0), Get(offer, Pricing) == Some(Object(Prices(model)));
    var o1 := offer[Model := Str(model)];
    var o2 := o1[UpstreamName := Str(model)];
    var o3 := o2[Priority := Int(0)];
    var c1 := Unless(d1, key, Model, Str(model));
    var c2 := c1 + Unless(d2, key, UpstreamName, Str(model));
    var c3 := c2 + Unless(d3, key, Priority, Int(0));
    SetFirst(offer, d1, key, Model, Str(model));
    SetNext(offer, c1, o1, d2, key, UpstreamName, Str(model));
    SetNext(offer, c2, o2, d3, key, Priority, Int(0));
    SetNext(offer, c3, o3, d4, key, Pricing, Object(Prices(model)));
  }

  function RouteAfter(route: Fields, model: string): Fields {
    route[Model := Str(model)][Provider := Str(PROVIDER_ID)]
  }

  lemma {:induction false} RoutePatched(route: Fields, model: string)
    ensures SetAll(route, RouteChanges(route, model)) == RouteAfter(route, model)
    ensures AllOn(RouteChanges(route, model), ROUTE_KEY)
  {
    hide SetAll, Unless, AllOn;
    var d1, d2 := AsStr(Get(route, Model)) == Some(model), AsStr(Get(route, Provider)) == Some(PROVIDER_ID);
    SetFirst(route, d1, ROUTE_KEY, Model, Str(model));
    SetNext(route, Unless(d1, ROUTE_KEY, Model, Str(model)), route[Model := Str(model)], d2,
            ROUTE_KEY, Provider, Str(PROVIDER_ID));
  }

  // ---- one part of the reconciliation ----

  function PartKey(part: Part, input: Input): Key {
    match part
    case ModelPart(model) => ModelKey(model)
    case ProviderPart => PROVIDER_KEY
    case EffortPart => ModelKey(input.model)
    case OfferPart(model) => OfferKey(model)
    case RoutePart => ROUTE_KEY
  }

  /** What a part makes of its resource. */
  function After(before: Option<Fields>, part: Part, input: Input): Option<Fields> {
    match part
    case ModelPart(model) =>
      Some(before.GetOr(ModelValue(model, if model == input.model then input.effort else HIGH)))
    case ProviderPart =>
      Some(if before == None then ProviderValue(input.key) else ProviderAfter(before.value, input.key))
    case EffortPart =>
      if before == None then None else Some(before.value[DefaultLevel := Str(input.effort)])
    case OfferPart(model) => Some(if before == None then OfferValue(model) else OfferAfter(before.value, model))
    case RoutePart => Some(if before == None then RouteValue(input.model) else RouteAfter(before.value, input.model))
  }

  function At(g: Resources, key: Key): Option<Fields> {
    if key in g then Some(g[key]) else None
  }

  /** A part changes its own resource, as After says, and no other. */
  lemma AdvanceMeaning(g: Resources, part: Part, input: Input)
    ensures At(Advance(g, part, input), PartKey(part, input)) == After(At(g, PartKey(part, input)), part, input)
    ensures forall k :: k != PartKey(part, input) ==> At(Advance(g, part, input), k) == At(g, k)
  {
    hide SetAll, ProviderChanges, OfferChanges, RouteChanges, ModelValue, ProviderValue, OfferValue, RouteValue;
    var key := PartKey(part, input);
    match part
    case ModelPart(model) =>
    case EffortPart => EffortAdvances(g, input);
    case ProviderPart =>
      if key in g {
        Patching(g, key, ProviderChanges(g[key], input.key));
        ProviderPatched(g[key], input.key);
      }
    case OfferPart(model) =>
      if key in g {
        Patching(g, key, OfferChanges(g[key], model));
        OfferPatched(g[key], model);
      }
    case RoutePart =>
      if key in g {
        Patching(g, key, RouteChanges(g[key], input.model));
        RoutePatched(g[key], input.model);
      }
  }

  lemma {:induction false} Patching(g: Resources, key: Key, changes: seq<Change>)
    requires key in g
    ensures AllOn(changes, key) ==>
      (if changes == [] then g else Apply(g, Patch(changes))) == g[key := SetAll(g[key], changes)]
  {
    if AllOn(changes, key) { ChangesMeaning(g, changes, key); }
  }

  lemma EffortAdvances(g: Resources, input: Input)
    ensures var key := ModelKey(input.model);
      Advance(g, EffortPart, input) == if key in g then g[key := g[key][DefaultLevel := Str(input.effort)]] else g
  {
    var key := ModelKey(input.model);
    var one := [Change(key, DefaultLevel, Str(input.effort))];
    assert one[..0] == [];
    assert ApplyChanges(g, one[..0]) == g;
    if EffortOf(g, input.model) == Some(input.effort) {
      assert g[key][DefaultLevel := Str(input.effort)] == g[key];
    }
  }

  // ---- what is done stays done ----

  /** The part has nothing to change, the key aside. */
  predicate Done(g: Resources, part: Part, input: Input) { Wanted(g, part, input.(key := None)) == None }

  /** What Done means of the resource. */
  predicate Settled(at: Option<Fields>, part: Part, input: Input) {
    at.Some? &&
    match part
    case ModelPart(_) => true
    case ProviderPart =>
      var p := at.value;
      && AsStr(Get(p, BaseUrl)) == Some(BASE_URL) && AsStr(Get(p, Protocol)) == Some(PROTOCOL)
      && AsStr(Get(p, Version)) == Some(VERSION) && AsStr(Get(p, UserAgent)) == Some(USER_AGENT)
      && Get(p, Extensions) == Some(Object(ExtensionOn(ObjectOf(Get(p, Extensions)))))
    case EffortPart => AsStr(Get(at.value, DefaultLevel)) == Some(input.effort)
    case OfferPart(model) =>
      && AsStr(Get(at.value, Model)) == Some(model) && AsStr(Get(at.value, UpstreamName)) == Some(model)
      && AsInt(Get(at.value, Priority)) == Some(0) && Get(at.value, Pricing) == Some(Object(Prices(model)))
    case RoutePart =>
      AsStr(Get(at.value, Model)) == Some(input.model) && AsStr(Get(at.value, Provider)) == Some(PROVIDER_ID)
  }

  lemma DoneMeaning(g: Resources, part: Part, input: Input)
    ensures Done(g, part, input) <==> Settled(At(g, PartKey(part, input)), part, input)
  {
    hide ModelValue, ProviderValue, OfferValue, RouteValue, Prices, ExtensionOn, Blank;
  }

  /** A part settles its resource; the effort needs its model to be there. */
  lemma AfterIsSettled(before: Option<Fields>, part: Part, input: Input)
    requires Valid(input) && (part == EffortPart ==> before.Some?)
    ensures Settled(After(before, part, input), part, input)
  {
    hide ModelValue, Prices;
    ExtensionSettles(before);
  }

  lemma ExtensionSettles(before: Option<Fields>)
    ensures ExtensionOn(ExtensionOn(map[])) == ExtensionOn(map[])
    ensures before.Some? ==>
      var f := ObjectOf(Get(before.value, Extensions)); ExtensionOn(ExtensionOn(f)) == ExtensionOn(f)
  {
  }

  /** And leaves settled what another part settled. */
  lemma AfterKeepsSettled(before: Option<Fields>, part: Part, other: Part, input: Input)
    requires Settled(before, part, input) && PartKey(part, input) == PartKey(other, input) && other in PARTS
      && part in PARTS
    ensures Settled(After(before, other, input), part, input)
  {
    hide ModelValue, Prices, ExtensionOn;
  }

  // ---- the whole reconciliation ----

  predicate SettledUpTo(g: Resources, n: nat, input: Input)
    requires n <= |PARTS|
  {
    forall i :: 0 <= i < n ==> Settled(At(g, PartKey(PARTS[i], input)), PARTS[i], input)
  }

  lemma ModelsOf(input: Input)
    requires Valid(input)
    ensures input.model == PRO_MODEL || input.model == FLASH_MODEL
  {
  }

  lemma StepSettles(g: Resources, n: nat, input: Input)
    requires Valid(input) && n < |PARTS| && SettledUpTo(g, n, input)
    ensures SettledUpTo(Advance(g, PARTS[n], input), n + 1, input)
  {
    hide Settled, After, Advance, At, Valid;
    var part := PARTS[n];
    AdvanceMeaning(g, part, input);
    ModelsOf(input);
    if part == EffortPart {
      var i := if input.model == PRO_MODEL then 0 else 1;
      SettledExists(g, PARTS[i], input);
    }
    AfterIsSettled(At(g, PartKey(part, input)), part, input);
    forall i | 0 <= i < n
      ensures Settled(At(Advance(g, part, input), PartKey(PARTS[i], input)), PARTS[i], input)
    {
      if PartKey(PARTS[i], input) == PartKey(part, input) {
        AfterKeepsSettled(At(g, PartKey(part, input)), PARTS[i], part, input);
      }
    }
  }

  lemma SettledExists(g: Resources, part: Part, input: Input)
    requires Settled(At(g, PartKey(part, input)), part, input)
    ensures At(g, PartKey(part, input)).Some?
  {
  }

  lemma {:induction false} PrefixSettles(g: Resources, n: nat, input: Input)
    requires Valid(input) && n <= |PARTS|
    ensures SettledUpTo(Reconciled(g, PARTS[..n], input), n, input)
  {
    hide Advance, SettledUpTo, Valid;
    if n == 0 {
      NothingSettled(Reconciled(g, PARTS[..0], input), input);
    } else {
      PrefixSettles(g, n - 1, input);
      assert PARTS[..n][..n - 1] == PARTS[..n - 1];
      StepSettles(Reconciled(g, PARTS[..n - 1], input), n - 1, input);
    }
  }

  lemma NothingSettled(g: Resources, input: Input)
    ensures SettledUpTo(g, 0, input)
  {
  }

  /** A reconciliation touches no resource but its own. */
  lemma {:induction false} ReconcileFrame(g: Resources, parts: seq<Part>, input: Input, k: Key)
    requires forall part :: part in parts ==> PartKey(part, input) != k
    ensures At(Reconciled(g, parts, input), k) == At(g, k)
    decreases |parts|
  {
    hide Advance, PartKey, At;
    if parts != [] {
      var init := parts[..|parts| - 1];
      assert parts == init + [parts[|parts| - 1]];
      ReconcileFrame(g, init, input, k);
      AdvanceMeaning(Reconciled(g, init, input), parts[|parts| - 1], input);
    }
  }

  /** The provider is changed by its own part alone. */
  lemma {:induction false} ProviderAt(g: Resources, n: nat, input: Input)
    requires n <= |PARTS|
    ensures At(Reconciled(g, PARTS[..n], input), PROVIDER_KEY)
      == if n <= 2 then At(g, PROVIDER_KEY) else After(At(g, PROVIDER_KEY), ProviderPart, input)
  {
    hide Advance, After, At;
    if n > 0 {
      ProviderAt(g, n - 1, input);
      assert PARTS[..n][..n - 1] == PARTS[..n - 1];
      AdvanceMeaning(Reconciled(g, PARTS[..n - 1], input), PARTS[n - 1], input);
    }
  }

  lemma {:induction false} KeyArrives(g: Resources, input: Input)
    requires Valid(input) && KeyAvailable(g, input)
    ensures HasKey(Reconciled(g, PARTS, input))
  {
    hide Reconciled, Valid, ExtensionOn;
    assert PARTS[..|PARTS|] == PARTS;
    ProviderAt(g, |PARTS|, input);
    ValidKeyCounts(input);
  }

  lemma ValidKeyCounts(input: Input)
    requires Valid(input)
    ensures input.key.Some? ==> !Blank(input.key.value) && input.key.value != ""
  {
  }

  lemma SettledIsVerified(g: Resources, input: Input)
    requires SettledUpTo(g, |PARTS|, input) && HasKey(g) && (input.model == PRO_MODEL || input.model == FLASH_MODEL)
    ensures Verified(g, input)
  {
    hide Prices;
    forall i | 0 <= i < |PARTS| ensures Settled(At(g, PartKey(PARTS[i], input)), PARTS[i], input) { }
    assert Settled(At(g, PartKey(PARTS[0], input)), PARTS[0], input);
    assert Settled(At(g, PartKey(PARTS[1], input)), PARTS[1], input);
    assert Settled(At(g, PartKey(PARTS[2], input)), PARTS[2], input);
    assert Settled(At(g, PartKey(PARTS[3], input)), PARTS[3], input);
    assert Settled(At(g, PartKey(PARTS[4], input)), PARTS[4], input);
    assert Settled(At(g, PartKey(PARTS[5], input)), PARTS[5], input);
    assert Settled(At(g, PartKey(PARTS[6], input)), PARTS[6], input);
  }

  /** From any graph, for a valid input and with a key stored or given, a reconciliation ends in a
      graph that verifies and leaves every other resource alone. */
  lemma {:induction false} ReconcileVerifies(g: Resources, input: Input)
    requires Valid(input) && KeyAvailable(g, input)
    ensures Verified(Reconciled(g, PARTS, input), input)
    ensures forall k :: (forall part :: part in PARTS ==> PartKey(part, input) != k) ==>
      At(Reconciled(g, PARTS, input), k) == At(g, k)
  {
    hide Reconciled, Valid, KeyAvailable, SettledUpTo, Verified, At, PartKey, HasKey;
    ModelsOf(input);
    assert PARTS[..|PARTS|] == PARTS;
    PrefixSettles(g, |PARTS|, input);
    KeyArrives(g, input);
    SettledIsVerified(Reconciled(g, PARTS, input), input);
    forall k | forall part :: part in PARTS ==> PartKey(part, input) != k
      ensures At(Reconciled(g, PARTS, input), k) == At(g, k)
    {
      ReconcileFrame(g, PARTS, input, k);
    }
  }

  // ---- settling ----

  lemma {:induction false} SettledIsQuiet(g: Resources, n: nat, input: Input)
    requires n <= |PARTS| && SettledUpTo(g, |PARTS|, input)
    ensures Mutations(g, PARTS[..n], input.(key := None)) == [] && Reconciled(g, PARTS[..n], input.(key := None)) == g
  {
    hide Settled, Wanted;
    if n > 0 {
      SettledIsQuiet(g, n - 1, input);
      assert PARTS[..n][..n - 1] == PARTS[..n - 1];
      DoneMeaning(g, PARTS[n - 1], input);
    }
  }

  /** A second run without a key issues no mutation. */
  lemma {:induction false} ReconcileSettles(g: Resources, input: Input)
    requires Valid(input)
    ensures Mutations(Reconciled(g, PARTS, input), PARTS, input.(key := None)) == []
  {
    hide Reconciled, Mutations, Valid, SettledUpTo;
    assert PARTS[..|PARTS|] == PARTS;
    PrefixSettles(g, |PARTS|, input);
    SettledIsQuiet(Reconciled(g, PARTS, input), |PARTS|, input);
  }

  lemma {:induction false} QuietIsSettled(g: Resources, n: nat, input: Input)
    requires n <= |PARTS| && Mutations(g, PARTS[..n], input.(key := None)) == []
    ensures Reconciled(g, PARTS[..n], input.(key := None)) == g && SettledUpTo(g, n, input)
  {
    hide Settled, Wanted;
    if n > 0 {
      assert PARTS[..n][..n - 1] == PARTS[..n - 1];
      QuietIsSettled(g, n - 1, input);
      DoneMeaning(g, PARTS[n - 1], input);
    }
  }

  /** What a reconciliation insists on and the verification does not: the extension holds nothing but
      its switch, and the prices are the very same JSON numbers. */
  predicate Exact(g: Resources)
    requires PROVIDER_KEY in g && OfferKey(PRO_MODEL) in g && OfferKey(FLASH_MODEL) in g
  {
    && Get(g[PROVIDER_KEY], Extensions) == Some(Object(ExtensionOn(ObjectOf(Get(g[PROVIDER_KEY], Extensions)))))
    && Get(g[OfferKey(PRO_MODEL)], Pricing) == Some(Object(Prices(PRO_MODEL)))
    && Get(g[OfferKey(FLASH_MODEL)], Pricing) == Some(Object(Prices(FLASH_MODEL)))
  }

  /** A verified graph is left alone exactly when it is also exact. */
  lemma {:induction false} VerifiedIsQuietExactly(g: Resources, input: Input)
    requires Verified(g, input) && Valid(input)
    ensures Mutations(g, PARTS, input.(key := None)) == [] <==> Exact(g)
  {
    hide Mutations, Settled, Prices, ExtensionOn, Valid;
    assert PARTS[..|PARTS|] == PARTS;
    ModelsOf(input);
    if Mutations(g, PARTS, input.(key := None)) == [] {
      QuietIsSettled(g, |PARTS|, input);
      SettledIsExact(g, input);
    }
    if Exact(g) {
      ExactIsSettled(g, input);
      SettledIsQuiet(g, |PARTS|, input);
    }
  }

  lemma SettledIsExact(g: Resources, input: Input)
    requires Verified(g, input) && SettledUpTo(g, |PARTS|, input)
    ensures Exact(g)
  {
    hide Prices, ExtensionOn;
    assert Settled(At(g, PartKey(PARTS[2], input)), PARTS[2], input);
    assert Settled(At(g, PartKey(PARTS[4], input)), PARTS[4], input);
    assert Settled(At(g, PartKey(PARTS[5], input)), PARTS[5], input);
  }

  lemma ExactIsSettled(g: Resources, input: Input)
    requires Verified(g, input) && Exact(g)
    ensures SettledUpTo(g, |PARTS|, input)
  {
    hide Prices, ExtensionOn, PricingMatches;
    forall i | 0 <= i < |PARTS| ensures Settled(At(g, PartKey(PARTS[i], input)), PARTS[i], input) {
      match PARTS[i]
      case ModelPart(model) => assert model in {PRO_MODEL, FLASH_MODEL};
      case OfferPart(model) => assert model in {PRO_MODEL, FLASH_MODEL} && OfferVerified(g[OfferKey(model)], model);
      case _ =>
    }
  }

  // ---- what the gateway's encoder makes of a graph ----

  /** A floating-point number without a fraction is written as an integer. */
  function WholeNumber(value: Json): Json {
    if value.Float? && value.number.Floor as real == value.number then Int(value.number.Floor) else value
  }

  function WholePrices(offer: Fields): Fields {
    var pricing := ObjectOf(Get(offer, Pricing));
    if Get(offer, Pricing) == Some(Object(pricing))
    then offer[Pricing := Object(map f | f in pricing :: WholeNumber(pricing[f]))] else offer
  }

  /** And a priority of 0 is omitted. */
  function EncodedOffer(offer: Fields): Fields {
    WholePrices(if Get(offer, Priority) == Some(Int(0)) then offer - {Priority} else offer)
  }

  function WholePriced(g: Resources): Resources {
    map k | k in g :: if k.kind == OfferKind then WholePrices(g[k]) else g[k]
  }

  function EncodedGraph(g: Resources): Resources {
    map k | k in g :: if k.kind == OfferKind then EncodedOffer(g[k]) else g[k]
  }

  /** Verification does not tell whole prices from their floating-point form. */
  lemma WholePricesMatch(offer: Fields, expected: Fields)
    ensures PricingMatches(Get(WholePrices(offer), Pricing), expected)
      <==> PricingMatches(Get(offer, Pricing), expected)
    ensures forall f :: f != Pricing ==> Get(WholePrices(offer), f) == Get(offer, f)
    ensures forall f ::
      AsNumber(Get(ObjectOf(Get(WholePrices(offer), Pricing)), f)) == AsNumber(Get(ObjectOf(Get(offer, Pricing)), f))
    ensures forall f :: Get(ObjectOf(Get(WholePrices(offer), Pricing)), f) != Some(Float(8.0))
  {
  }

  lemma WholePricedFrame(g: Resources)
    ensures WholePriced(g).Keys == g.Keys
    ensures forall k :: k in g && k.kind != OfferKind ==> WholePriced(g)[k] == g[k]
  {
    hide WholePrices;
  }

  lemma WholePricedOffer(g: Resources, model: string)
    requires OfferKey(model) in g
    ensures OfferVerified(WholePriced(g)[OfferKey(model)], model) <==> OfferVerified(g[OfferKey(model)], model)
  {
    hide WholePrices, Prices, PricingMatches;
    WholePricesMatch(g[OfferKey(model)], Prices(model));
  }

  lemma WholePricedVerifies(g: Resources, input: Input)
    ensures Verified(WholePriced(g), input) <==> Verified(g, input)
  {
    hide WholePriced, OfferVerified;
    WholePricedFrame(g);
    if OfferKey(PRO_MODEL) in g { WholePricedOffer(g, PRO_MODEL); }
    if OfferKey(FLASH_MODEL) in g { WholePricedOffer(g, FLASH_MODEL); }
    assert PRO_MODEL in {PRO_MODEL, FLASH_MODEL} && FLASH_MODEL in {PRO_MODEL, FLASH_MODEL};
  }

  /** So whatever graph verifies still does when its prices come back whole, but then every run
      patches them again. */
  lemma WholePricesAreNeverQuiet(g: Resources, input: Input)
    requires Verified(g, input) && Valid(input)
    ensures Verified(WholePriced(g), input) && Mutations(WholePriced(g), PARTS, input.(key := None)) != []
  {
    hide Mutations, Valid, WholePrices, Exact;
    WholePricedVerifies(g, input);
    VerifiedIsQuietExactly(WholePriced(g), input);
    WholePricesMatch(g[OfferKey(PRO_MODEL)], Prices(PRO_MODEL));
    NotExact(WholePriced(g));
  }

  lemma NotExact(g: Resources)
    requires PROVIDER_KEY in g && OfferKey(PRO_MODEL) in g && OfferKey(FLASH_MODEL) in g
    requires Get(ObjectOf(Get(g[OfferKey(PRO_MODEL)], Pricing)), OutputPrice) != Some(Float(8.0))
    ensures !Exact(g)
  {
    hide ExtensionOn;
  }

  /** No graph verifies as the gateway serves it: the offers it needs come without their priority. */
  lemma NoEncodedGraphVerifies(g: Resources, input: Input)
    ensures !Verified(EncodedGraph(g), input)
    ensures KeyAvailable(EncodedGraph(g), input) <==> KeyAvailable(g, input)
  {
    hide Prices, WholePrices, PricingMatches;
    if OfferKey(PRO_MODEL) in g {
      var offer := g[OfferKey(PRO_MODEL)];
      WholePricesMatch(if Get(offer, Priority) == Some(Int(0)) then offer - {Priority} else offer, Prices(PRO_MODEL));
    }
    assert PRO_MODEL in {PRO_MODEL, FLASH_MODEL};
  }

  // ---- what is kept of the resources it does touch ----

  function OwnFields(part: Part): set<Field> {
    match part
    case ModelPart(_) => {}
    case ProviderPart => {BaseUrl, Protocol, Version, UserAgent, Extensions, ApiKey}
    case EffortPart => {DefaultLevel}
    case OfferPart(_) => {Model, UpstreamName, Priority, Pricing}
    case RoutePart => {Model, Provider}
  }

  /** Of a resource that is there, a part rewrites its own fields only: the stored key stays when none
      is given, and so do the provider's other extensions. */
  lemma PartIsNarrow(before: Fields, part: Part, input: Input, field: Field)
    ensures var after := After(Some(before), part, input);
      && after.Some?
      && (field !in OwnFields(part) ==> Get(after.value, field) == Get(before, field))
      && (part == ProviderPart && input.key == None ==> Get(after.value, ApiKey) == Get(before, ApiKey))
      && (part == ProviderPart && field != DeepSeekV4 ==>
            Get(ObjectOf(Get(after.value, Extensions)), field) == Get(ObjectOf(Get(before, Extensions)), field))
  {
    hide Prices;
  }
}
