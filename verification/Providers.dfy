/** Provider messages and replies, the registry, and its construction from the configuration. */
module Providers {
  import opened Wrappers
  import opened Lists
  import opened Strings
  import opened Config

  datatype Message = Message(
    eventId: string,
    template: string,
    subject: string,
    body: string,
    contentType: string,
    recipientType: string,
    recipient: string,
    variables: map<string, string>,
    metadata: map<string, string>)

  /** What a provider's Send answers; the status is one of three words, but any string is possible. */
  datatype Reply = Reply(status: string, errorCode: string)

  const PROVIDER_NOT_FOUND := "provider not found"

  /** A configured adapter.  How each kind delivers is not modelled, only what it was built from. */
  datatype Provider =
    | Unavailable(name: string, errorCode: string)
    | Fake(name: string, status: string)
    | Smtp(name: string, brands: map<string, BrandEntry>, settings: map<string, string>)
    | TelegramGateway(name: string, settings: map<string, string>)
    | WebPush(name: string, settings: map<string, string>)
    | TelegramBot(name: string, settings: map<string, string>, presentation: Presentation)

  class Registry {
    var providers: map<string, Provider>

    constructor (initial: seq<Option<Provider>>)
      ensures initial == [] ==> providers == map[]
      ensures forall i :: 0 <= i < |initial| && initial[i].Some? ==> initial[i].value.name in providers
      ensures forall n :: n in providers ==> providers[n].name == n && Some(providers[n]) in initial
    {
      providers := map[];
      new;
      for i := 0 to |initial|
        invariant i == 0 ==> providers == map[]
        invariant forall j :: 0 <= j < i && initial[j].Some? ==> initial[j].value.name in providers
        invariant forall n :: n in providers ==> providers[n].name == n && Some(providers[n]) in initial
      {
        Register(initial[i]);
      }
    }

    method Register(p: Option<Provider>)
      modifies this
      ensures providers == if p.None? then old(providers) else old(providers)[p.value.name := p.value]
    {
      if p.None? {
        return;
      }
      providers := providers[p.value.name := p.value];
    }

    function Get(name: string): (p: Option<Provider>)
      reads this
      ensures p.Some? <==> name in providers
      ensures p.Some? ==> p.value == providers[name]
    {
      if name in providers then Some(providers[name]) else None
    }

    /** One of the four loops of the factory, over the adapters of one channel in any order. */
    method RegisterChannel(l: Layer)
      modifies this
      ensures MayFill(old(providers), l, providers)
    {
      ghost var base := providers;
      ghost var order: seq<string>, built: map<string, Provider> := [], map[];
      var remaining := l.adapters.Keys;
      while remaining != {}
        invariant remaining <= l.adapters.Keys
        invariant FilledTo(base, l, order, built, remaining, providers)
      {
        var name :| name in remaining;
        var p := BuildProvider(name, l.adapters[name], l.recipientType, l.presentation);
        FillOne(base, l, order, built, remaining, providers, name, p);
        Register(Some(p));
        order, built := order + [name], built[name := p];
        remaining := remaining - {name};
      }
      assert Fills(base, l, order, built, providers);
    }
  }

  // ----- The factory ------------------------------------------------------------------------

  predicate BrandRefused(adapter: AdapterConfig, brand: string) {
    brand in adapter.brands && adapter.brands[brand].NotAnObject?
  }

  /** The results of building an adapter, over all orders in which its brands may be visited.  A
      brand that is not an object yields a provider named after the brand: the loop variable hides
      the adapter's name. */
  ghost predicate MayBuild(name: string, adapter: AdapterConfig, recipientType: string,
                           presentation: Presentation, p: Provider)
  {
    if !adapter.enabled then p == Unavailable(name, "provider_disabled")
    else if adapter.kind == "smtp" && exists b :: BrandRefused(adapter, b) then
      exists b :: BrandRefused(adapter, b) && p == Unavailable(b, "email_brand_invalid")
    else p == Kind(name, adapter, recipientType, presentation)
  }

  function Kind(name: string, adapter: AdapterConfig, recipientType: string, presentation: Presentation): Provider {
    match adapter.kind
    case "fake" =>
      var status := Lookup(adapter.settings, "Status");
      Fake(name, if status == "" then "sent" else status)
    case "smtp" => Smtp(name, adapter.brands, adapter.settings)
    case "telegram-gateway" => TelegramGateway(name, adapter.settings)
    case "webpush" => WebPush(name, adapter.settings)
    case "telegram-bot" => TelegramBot(name, adapter.settings, presentation)
    case "" =>
      if recipientType == PHONE || recipientType == PUSH || recipientType == TELEGRAM then
        Unavailable(name, name + "_not_configured")
      else
        Unavailable(name, "provider_not_configured")
    case _ => Unavailable(name, "provider_kind_unsupported")
  }

  method BuildProvider(name: string, adapter: AdapterConfig, recipientType: string, presentation: Presentation)
    returns (p: Provider)
    ensures MayBuild(name, adapter, recipientType, presentation, p)
  {
    if !adapter.enabled {
      return Unavailable(name, "provider_disabled");
    }
    if adapter.kind == "smtp" {
      var remaining := adapter.brands.Keys;
      while remaining != {}
        invariant remaining <= adapter.brands.Keys
        invariant forall b :: BrandRefused(adapter, b) ==> b in remaining
      {
        var brand :| brand in remaining;
        if adapter.brands[brand].NotAnObject? {
          assert BrandRefused(adapter, brand);
          return Unavailable(brand, "email_brand_invalid");
        }
        remaining := remaining - {brand};
      }
    }
    return Kind(name, adapter, recipientType, presentation);
  }

  /** No brand of an enabled SMTP adapter is refused under a name other than the adapter's. */
  predicate KeepsName(name: string, adapter: AdapterConfig) {
    adapter.enabled && adapter.kind == "smtp" ==>
      forall b :: b in adapter.brands && BrandRefused(adapter, b) ==> b == name
  }

  /** Exactly then the adapter is registered under its own name, whatever the iteration order. */
  lemma KeepsNameExactly(name: string, adapter: AdapterConfig, recipientType: string, presentation: Presentation)
    ensures KeepsName(name, adapter) <==>
            forall p :: MayBuild(name, adapter, recipientType, presentation, p) ==> p.name == name
  {
    if !KeepsName(name, adapter) {
      var b :| b in adapter.brands && BrandRefused(adapter, b) && b != name;
      assert MayBuild(name, adapter, recipientType, presentation, Unavailable(b, "email_brand_invalid"));
    }
  }

  function Build(name: string, adapter: AdapterConfig, recipientType: string, presentation: Presentation): Provider {
    if !adapter.enabled then Unavailable(name, "provider_disabled")
    else if adapter.kind == "smtp" && BrandRefused(adapter, name) then Unavailable(name, "email_brand_invalid")
    else Kind(name, adapter, recipientType, presentation)
  }

  lemma BuildIsDetermined(name: string, adapter: AdapterConfig, recipientType: string,
                          presentation: Presentation, p: Provider)
    requires KeepsName(name, adapter)
    requires MayBuild(name, adapter, recipientType, presentation, p)
    ensures p == Build(name, adapter, recipientType, presentation) && p.name == name
  {
  }

  function Channel(adapters: map<string, AdapterConfig>, recipientType: string, presentation: Presentation)
    : map<string, Provider>
  {
    map n | n in adapters :: Build(n, adapters[n], recipientType, presentation)
  }

  ghost predicate BuiltFrom(adapters: map<string, AdapterConfig>, recipientType: string,
                            presentation: Presentation, p: Provider)
  {
    exists n :: n in adapters && MayBuild(n, adapters[n], recipientType, presentation, p)
  }

  const NO_TEXT: map<string, string> := map[]
  const NO_PRESENTATION := Presentation(NO_TEXT, NO_TEXT, NO_TEXT, NO_TEXT, NO_TEXT, NO_TEXT, NO_TEXT)

  predicate KeepNames(adapters: map<string, AdapterConfig>) {
    forall n :: n in adapters ==> KeepsName(n, adapters[n])
  }

  predicate AllKeepNames(cfg: Config) {
    && KeepNames(cfg.email.adapters)
    && KeepNames(cfg.phone.adapters)
    && KeepNames(cfg.push.adapters)
    && KeepNames(cfg.telegram.adapters)
  }

  /** The adapter that serves a name: the last of email, phone, push, telegram that has it. */
  function Serving(cfg: Config, n: string): Option<Provider> {
    if n in cfg.telegram.adapters then Some(Build(n, cfg.telegram.adapters[n], TELEGRAM, cfg.presentation))
    else if n in cfg.push.adapters then Some(Build(n, cfg.push.adapters[n], PUSH, NO_PRESENTATION))
    else if n in cfg.phone.adapters then Some(Build(n, cfg.phone.adapters[n], PHONE, NO_PRESENTATION))
    else if n in cfg.email.adapters then Some(Build(n, cfg.email.adapters[n], EMAIL, NO_PRESENTATION))
    else None
  }

  ghost predicate BuiltFromConfig(cfg: Config, p: Provider) {
    || BuiltFrom(cfg.email.adapters, EMAIL, NO_PRESENTATION, p)
    || BuiltFrom(cfg.phone.adapters, PHONE, NO_PRESENTATION, p)
    || BuiltFrom(cfg.push.adapters, PUSH, NO_PRESENTATION, p)
    || BuiltFrom(cfg.telegram.adapters, TELEGRAM, cfg.presentation, p)
  }

  function Layered(cfg: Config): map<string, Provider> {
    Channel(cfg.email.adapters, EMAIL, NO_PRESENTATION)
    + Channel(cfg.phone.adapters, PHONE, NO_PRESENTATION)
    + Channel(cfg.push.adapters, PUSH, NO_PRESENTATION)
    + Channel(cfg.telegram.adapters, TELEGRAM, cfg.presentation)
  }

  method NewRegistryFromConfig(cfg: Config) returns (registry: Registry)
    ensures fresh(registry)
    ensures MayRegister(Layers(cfg), registry.providers)
    ensures AllKeepNames(cfg) ==> registry.providers == Layered(cfg)
    ensures forall n :: n in registry.providers ==>
              registry.providers[n].name == n && BuiltFromConfig(cfg, registry.providers[n])
  {
    registry := new Registry([]);
    registry.RegisterChannel(Layers(cfg)[0]);
    ghost var one := registry.providers;
    registry.RegisterChannel(Layers(cfg)[1]);
    ghost var two := registry.providers;
    registry.RegisterChannel(Layers(cfg)[2]);
    ghost var three := registry.providers;
    registry.RegisterChannel(Layers(cfg)[3]);
    FourLayers(cfg, one, two, three, registry.providers);
    RegistryOfConfig(cfg, registry.providers);
  }

  /** The names served are those of all adapters, and the last channel that has a name serves it. */
  lemma LayeredServes(cfg: Config, n: string)
    ensures Serving(cfg, n) == if n in Layered(cfg) then Some(Layered(cfg)[n]) else None
    ensures n in Layered(cfg) <==> n in cfg.email.adapters.Keys + cfg.phone.adapters.Keys
                                        + cfg.push.adapters.Keys + cfg.telegram.adapters.Keys
  {
    var email, phone, push, telegram :=
      Channel(cfg.email.adapters, EMAIL, NO_PRESENTATION), Channel(cfg.phone.adapters, PHONE, NO_PRESENTATION),
      Channel(cfg.push.adapters, PUSH, NO_PRESENTATION), Channel(cfg.telegram.adapters, TELEGRAM, cfg.presentation);
    assert Layered(cfg) == email + phone + push + telegram;
    if n in telegram {
    } else if n in push {
    } else if n in phone {
    }
  }

  /** Without that condition an adapter that is configured is lost: a phone adapter of kind `smtp`,
      whose brands Load does not check, with one malformed brand. */
  lemma ShadowedNameLosesAdapter()
    ensures var adapter := AdapterConfig(true, "smtp", map["acme" := NotAnObject], map[]);
            forall p :: MayBuild("mailer", adapter, PHONE, NO_PRESENTATION, p) ==> p.name == "acme"
  {
    var adapter := AdapterConfig(true, "smtp", map["acme" := NotAnObject], map[]);
    assert BrandRefused(adapter, "acme");
  }

  // ----- All registries that a configuration may give -------------------------------------------

  /** The adapters of one channel, and what they are built with. */
  datatype Layer = Layer(adapters: map<string, AdapterConfig>, recipientType: string, presentation: Presentation)

  function Layers(cfg: Config): seq<Layer> {
    [Layer(cfg.email.adapters, EMAIL, NO_PRESENTATION), Layer(cfg.phone.adapters, PHONE, NO_PRESENTATION),
     Layer(cfg.push.adapters, PUSH, NO_PRESENTATION), Layer(cfg.telegram.adapters, TELEGRAM, cfg.presentation)]
  }

  ghost predicate MayBuildIn(l: Layer, n: string, p: Provider) {
    n in l.adapters && MayBuild(n, l.adapters[n], l.recipientType, l.presentation, p)
  }

  /** Registering what was built, in an order of the adapters. */
  function RegisterAll(base: map<string, Provider>, order: seq<string>, built: map<string, Provider>)
    : map<string, Provider>
    requires forall n :: n in order ==> n in built
  {
    if order == [] then base
    else
      var p := built[order[|order| - 1]];
      RegisterAll(base, order[..|order| - 1], built)[p.name := p]
  }

  ghost predicate Fills(base: map<string, Provider>, l: Layer, order: seq<string>, built: map<string, Provider>,
                        result: map<string, Provider>)
  {
    && NoRepeats(order) && (forall n :: n in order <==> n in l.adapters)
    && built.Keys == l.adapters.Keys && (forall n :: n in built ==> MayBuildIn(l, n, built[n]))
    && result == RegisterAll(base, order, built)
  }

  /** The results of one loop, over all orders of the adapters and of their brands. */
  ghost predicate MayFill(base: map<string, Provider>, l: Layer, result: map<string, Provider>) {
    exists order, built :: Fills(base, l, order, built, result)
  }

  /** The loop so far. */
  ghost predicate FilledTo(base: map<string, Provider>, l: Layer, order: seq<string>, built: map<string, Provider>,
                           remaining: set<string>, now: map<string, Provider>)
  {
    && NoRepeats(order) && (forall n :: n in order <==> n in l.adapters && n !in remaining)
    && built.Keys == l.adapters.Keys - remaining && (forall n :: n in built ==> MayBuildIn(l, n, built[n]))
    && now == RegisterAll(base, order, built)
  }

  lemma FillOne(base: map<string, Provider>, l: Layer, order: seq<string>, built: map<string, Provider>,
                remaining: set<string>, now: map<string, Provider>, n: string, p: Provider)
    requires FilledTo(base, l, order, built, remaining, now) && n in remaining && MayBuildIn(l, n, p)
    ensures FilledTo(base, l, order + [n], built[n := p], remaining - {n}, now[p.name := p])
  {
    assert (order + [n])[..|order|] == order;
    OtherBuilt(base, order, built, n, p);
  }

  lemma {:induction false} OtherBuilt(base: map<string, Provider>, order: seq<string>, built: map<string, Provider>,
                                      n: string, p: Provider)
    requires n !in order && forall x :: x in order ==> x in built
    ensures RegisterAll(base, order, built[n := p]) == RegisterAll(base, order, built)
  {
    if order != [] {
      OtherBuilt(base, order[..|order| - 1], built, n, p);
      assert order[|order| - 1] in order;
    }
  }

  /** The registries after each channel, one laid over the other. */
  ghost predicate Stack(layers: seq<Layer>, chain: seq<map<string, Provider>>) {
    && |chain| == |layers| + 1 && chain[0] == map[]
    && forall i :: 0 <= i < |layers| ==> MayFill(chain[i], layers[i], chain[i + 1])
  }

  /** The registries that the channels may give. */
  ghost predicate MayRegister(layers: seq<Layer>, result: map<string, Provider>) {
    exists chain :: Stack(layers, chain) && chain[|layers|] == result
  }

  lemma NoLayer()
    ensures MayRegister([], map[])
  {
    var none: map<string, Provider> := map[];
    assert Stack([], [none]);
  }

  lemma OneLayerMore(layers: seq<Layer>, l: Layer, base: map<string, Provider>, result: map<string, Provider>)
    requires MayRegister(layers, base) && MayFill(base, l, result)
    ensures MayRegister(layers + [l], result)
  {
    var chain :| Stack(layers, chain) && chain[|layers|] == base;
    assert Stack(layers + [l], chain + [result]);
  }

  lemma LastLayer(layers: seq<Layer>, result: map<string, Provider>) returns (base: map<string, Provider>)
    requires layers != [] && MayRegister(layers, result)
    ensures MayRegister(layers[..|layers| - 1], base) && MayFill(base, layers[|layers| - 1], result)
  {
    var chain :| Stack(layers, chain) && chain[|layers|] == result;
    base := chain[|layers| - 1];
    assert Stack(layers[..|layers| - 1], chain[..|layers|]);
  }

  lemma FourLayers(cfg: Config, one: map<string, Provider>, two: map<string, Provider>, three: map<string, Provider>,
                   four: map<string, Provider>)
    requires MayFill(map[], Layers(cfg)[0], one) && MayFill(one, Layers(cfg)[1], two)
    requires MayFill(two, Layers(cfg)[2], three) && MayFill(three, Layers(cfg)[3], four)
    ensures MayRegister(Layers(cfg), four)
  {
    assert Stack(Layers(cfg), [map[], one, two, three, four]);
  }

  function EntryAt(registry: map<string, Provider>, x: string): Option<Provider> {
    if x in registry then Some(registry[x]) else None
  }

  /** The channel may leave this provider under the name. */
  ghost predicate MayPut(l: Layer, x: string, o: Option<Provider>) {
    o.Some? && o.value.name == x && exists n :: MayBuildIn(l, n, o.value)
  }

  /** The channel may leave the name alone. */
  ghost predicate MayMiss(l: Layer, x: string) {
    forall n :: n in l.adapters ==> MayMissBy(l, n, x)
  }

  ghost predicate MayMissBy(l: Layer, n: string, x: string) {
    exists p :: MayBuildIn(l, n, p) && p.name != x
  }

  /** What may stand under the name in the end: what the last channel may put there, or, if that channel may leave
      the name alone, what the others may. */
  ghost predicate MayServe(layers: seq<Layer>, x: string, o: Option<Provider>) {
    if layers == [] then o == None
    else
      var l := layers[|layers| - 1];
      MayPut(l, x, o) || (MayMiss(l, x) && MayServe(layers[..|layers| - 1], x, o))
  }

  /** The adapter has a malformed brand, so that it is built from one of these. */
  predicate Refuses(a: AdapterConfig) {
    a.enabled && a.kind == "smtp" && exists b :: b in a.brands && BrandRefused(a, b)
  }

  lemma KindName(name: string, adapter: AdapterConfig, recipientType: string, presentation: Presentation)
    ensures Kind(name, adapter, recipientType, presentation).name == name
  {
  }

  /** In terms of the configuration: the adapter of that name, if it has no malformed brand, or any adapter with a
      malformed brand of that name. */
  lemma MayPutExactly(l: Layer, x: string, p: Provider)
    ensures MayPut(l, x, Some(p)) <==>
            || (&& x in l.adapters && !Refuses(l.adapters[x])
                && p == Build(x, l.adapters[x], l.recipientType, l.presentation))
            || (&& p == Unavailable(x, "email_brand_invalid")
                && exists n :: n in l.adapters && Refuses(l.adapters[n]) && BrandRefused(l.adapters[n], x))
  {
    if n :| MayBuildIn(l, n, p) && p.name == x {
      KindName(n, l.adapters[n], l.recipientType, l.presentation);
    }
    if x in l.adapters && !Refuses(l.adapters[x]) && p == Build(x, l.adapters[x], l.recipientType, l.presentation) {
      KindName(x, l.adapters[x], l.recipientType, l.presentation);
      assert MayBuildIn(l, x, p);
    }
    if n :| n in l.adapters && Refuses(l.adapters[n]) && BrandRefused(l.adapters[n], x)
            && p == Unavailable(x, "email_brand_invalid") {
      assert MayBuildIn(l, n, p);
    }
  }

  /** An adapter may miss the name unless it is the adapter of that name without malformed brands, or that name is
      its only malformed brand. */
  lemma MayMissExactly(l: Layer, n: string, x: string)
    requires n in l.adapters
    ensures MayMissBy(l, n, x) <==>
            if Refuses(l.adapters[n]) then
              exists b :: b in l.adapters[n].brands && BrandRefused(l.adapters[n], b) && b != x
            else n != x
  {
    var a := l.adapters[n];
    KindName(n, a, l.recipientType, l.presentation);
    if Refuses(a) {
      if b :| b in a.brands && BrandRefused(a, b) && b != x {
        assert MayBuildIn(l, n, Unavailable(b, "email_brand_invalid"));
      }
    } else {
      assert MayBuildIn(l, n, Build(n, a, l.recipientType, l.presentation));
    }
  }

  /** The last adapter that was built under the name, if any, has the entry. */
  lemma {:induction false} RegisteredEntry(base: map<string, Provider>, order: seq<string>,
                                           built: map<string, Provider>, x: string) returns (last: Option<string>)
    requires forall n :: n in order ==> n in built
    ensures match last
            case Some(n) =>
              n in order && built[n].name == x && EntryAt(RegisterAll(base, order, built), x) == Some(built[n])
            case None =>
              && (forall n :: n in order ==> built[n].name != x)
              && EntryAt(RegisterAll(base, order, built), x) == EntryAt(base, x)
  {
    if order == [] {
      last := None;
    } else {
      var init, n := order[..|order| - 1], order[|order| - 1];
      assert n in order && forall m :: m in order ==> m in init || m == n;
      last := RegisteredEntry(base, init, built, x);
      if built[n].name == x {
        last := Some(n);
      }
    }
  }

  lemma SomethingBuilt(l: Layer, n: string) returns (p: Provider)
    requires n in l.adapters
    ensures MayBuildIn(l, n, p)
  {
    var a := l.adapters[n];
    if Refuses(a) {
      var b :| b in a.brands && BrandRefused(a, b);
      p := Unavailable(b, "email_brand_invalid");
    } else {
      p := Build(n, a, l.recipientType, l.presentation);
    }
  }

  /** One provider for each of some adapters, missing the name where that is possible. */
  lemma Choice(l: Layer, names: set<string>, x: string) returns (built: map<string, Provider>)
    requires names <= l.adapters.Keys
    ensures built.Keys == names && forall n :: n in names ==> MayBuildIn(l, n, built[n])
    ensures forall n :: n in names && MayMissBy(l, n, x) ==> built[n].name != x
  {
    if names == {} {
      built := map[];
    } else {
      var n :| n in names;
      built := Choice(l, names - {n}, x);
      if p :| MayBuildIn(l, n, p) && p.name != x {
        built := built[n := p];
      } else {
        var p := SomethingBuilt(l, n);
        built := built[n := p];
      }
    }
  }

  lemma PutIsPossible(base: map<string, Provider>, l: Layer, x: string, p: Provider)
    returns (result: map<string, Provider>)
    requires MayPut(l, x, Some(p))
    ensures MayFill(base, l, result) && EntryAt(result, x) == Some(p)
  {
    var n :| MayBuildIn(l, n, p);
    var others := Choice(l, l.adapters.Keys - {n}, x);
    var before := Listing(l.adapters.Keys - {n});
    var order, built := before + [n], others[n := p];
    assert order[|order| - 1] == n && order[..|order| - 1] == before;
    result := RegisterAll(base, order, built);
    assert Fills(base, l, order, built, result);
  }

  lemma MissIsPossible(base: map<string, Provider>, l: Layer, x: string) returns (result: map<string, Provider>)
    requires MayMiss(l, x)
    ensures MayFill(base, l, result) && EntryAt(result, x) == EntryAt(base, x)
  {
    var built := Choice(l, l.adapters.Keys, x);
    var order := Listing(l.adapters.Keys);
    result := RegisterAll(base, order, built);
    assert Fills(base, l, order, built, result);
    var last := RegisteredEntry(base, order, built, x);
  }

  lemma NobodyPuts(l: Layer, built: map<string, Provider>, x: string)
    requires built.Keys == l.adapters.Keys
    requires forall n :: n in built ==> MayBuildIn(l, n, built[n]) && built[n].name != x
    ensures MayMiss(l, x)
  {
    forall n | n in l.adapters ensures MayMissBy(l, n, x) {
      assert MayBuildIn(l, n, built[n]);
    }
  }

  lemma FilledEntry(base: map<string, Provider>, l: Layer, result: map<string, Provider>, x: string)
    requires MayFill(base, l, result)
    ensures MayPut(l, x, EntryAt(result, x)) || (MayMiss(l, x) && EntryAt(result, x) == EntryAt(base, x))
  {
    var order, built: map<string, Provider> :| Fills(base, l, order, built, result);
    var last := RegisteredEntry(base, order, built, x);
    if last.Some? {
      assert MayBuildIn(l, last.value, built[last.value]);
    } else {
      NobodyPuts(l, built, x);
    }
  }

  ghost predicate MayStand(layers: seq<Layer>, x: string, o: Option<Provider>) {
    exists registry :: MayRegister(layers, registry) && EntryAt(registry, x) == o
  }

  lemma {:induction false} StandingIsServed(layers: seq<Layer>, registry: map<string, Provider>, x: string)
    requires MayRegister(layers, registry)
    ensures MayServe(layers, x, EntryAt(registry, x))
  {
    if layers != [] {
      var init, l := layers[..|layers| - 1], layers[|layers| - 1];
      var base := LastLayer(layers, registry);
      StandingIsServed(init, base, x);
      FilledEntry(base, l, registry, x);
    }
  }

  lemma {:induction false} SomeRegistry(layers: seq<Layer>) returns (registry: map<string, Provider>)
    ensures MayRegister(layers, registry)
  {
    if layers == [] {
      registry := map[];
      NoLayer();
    } else {
      var init, l := layers[..|layers| - 1], layers[|layers| - 1];
      var base := SomeRegistry(init);
      registry := SomeFilling(base, l);
      OneLayerMore(init, l, base, registry);
      assert init + [l] == layers;
    }
  }

  lemma SomeFilling(base: map<string, Provider>, l: Layer) returns (result: map<string, Provider>)
    ensures MayFill(base, l, result)
  {
    var built := Choice(l, l.adapters.Keys, "");
    var order := Listing(l.adapters.Keys);
    result := RegisterAll(base, order, built);
    assert Fills(base, l, order, built, result);
  }

  lemma {:induction false} ServedCanStand(layers: seq<Layer>, x: string, o: Option<Provider>)
    returns (registry: map<string, Provider>)
    requires MayServe(layers, x, o)
    ensures MayRegister(layers, registry) && EntryAt(registry, x) == o
  {
    if layers == [] {
      registry := map[];
      NoLayer();
    } else {
      var init, l := layers[..|layers| - 1], layers[|layers| - 1];
      var base: map<string, Provider>;
      if MayPut(l, x, o) {
        base := SomeRegistry(init);
        registry := PutIsPossible(base, l, x, o.value);
      } else {
        base := ServedCanStand(init, x, o);
        registry := MissIsPossible(base, l, x);
      }
      OneLayerMore(init, l, base, registry);
      assert init + [l] == layers;
    }
  }

  /** Over all iteration orders, a name can end up with a provider, or without one, exactly if `MayServe` says so. */
  lemma RegistryEntryExactly(layers: seq<Layer>, x: string, o: Option<Provider>)
    ensures MayStand(layers, x, o) <==> MayServe(layers, x, o)
  {
    if registry :| MayRegister(layers, registry) && EntryAt(registry, x) == o {
      StandingIsServed(layers, registry, x);
    }
    if MayServe(layers, x, o) {
      var registry := ServedCanStand(layers, x, o);
    }
  }

  ghost predicate Determined(layers: seq<Layer>) {
    forall a, b :: MayRegister(layers, a) && MayRegister(layers, b) ==> a == b
  }

  /** No name may be served in two ways. */
  ghost predicate ServedInOneWay(layers: seq<Layer>) {
    forall x, o, o' :: MayServe(layers, x, o) && MayServe(layers, x, o') ==> o == o'
  }

  /** The registry does not depend on any iteration order exactly if no name may be served in two ways. */
  lemma RegistryDeterminedExactly(layers: seq<Layer>)
    ensures Determined(layers) <==> ServedInOneWay(layers)
  {
    if Determined(layers) {
      forall x, o, o' | MayServe(layers, x, o) && MayServe(layers, x, o') ensures o == o' {
        var a := ServedCanStand(layers, x, o);
        var b := ServedCanStand(layers, x, o');
      }
    }
    if ServedInOneWay(layers) {
      forall a, b | MayRegister(layers, a) && MayRegister(layers, b) ensures a == b {
        OneWayAgrees(layers, a, b);
      }
    }
  }

  lemma OneWayAgrees(layers: seq<Layer>, a: map<string, Provider>, b: map<string, Provider>)
    requires ServedInOneWay(layers) && MayRegister(layers, a) && MayRegister(layers, b)
    ensures a == b
  {
    forall x ensures EntryAt(a, x) == EntryAt(b, x) {
      StandingIsServed(layers, a, x);
      StandingIsServed(layers, b, x);
    }
    SameEntries(a, b);
  }

  lemma SameEntries(a: map<string, Provider>, b: map<string, Provider>)
    requires forall x :: EntryAt(a, x) == EntryAt(b, x)
    ensures a == b
  {
    forall x ensures x in a <==> x in b {
      assert EntryAt(a, x) == EntryAt(b, x);
    }
    forall x | x in a && x in b ensures a[x] == b[x] {
      assert EntryAt(a, x) == EntryAt(b, x);
    }
  }

  /** Serving goes on over one more channel. */
  lemma ServeMore(layers: seq<Layer>, l: Layer, x: string, o: Option<Provider>)
    requires MayPut(l, x, o) || (MayMiss(l, x) && MayServe(layers, x, o))
    ensures MayServe(layers + [l], x, o)
  {
    assert (layers + [l])[..|layers|] == layers;
  }

  /** A phone adapter with two malformed brands. */
  const TWO_BAD_BRANDS := AdapterConfig(true, "smtp", map["a" := NotAnObject, "b" := NotAnObject], map[])

  const NO_ADAPTERS := ChannelConfig(false, "", [], map[])

  const BAD_PHONE :=
    Config(NO_ADAPTERS, PhoneConfig([], [], map["mailer" := TWO_BAD_BRANDS]), NO_ADAPTERS, NO_ADAPTERS, NO_PRESENTATION)

  /** Its registry depends on the order in which the brands are visited. */
  lemma TwoBadBrandsShow()
    ensures !Determined(Layers(BAD_PHONE))
  {
    var l := Layers(BAD_PHONE);
    var a, b := Unavailable("a", "email_brand_invalid"), Unavailable("b", "email_brand_invalid");
    assert BrandRefused(TWO_BAD_BRANDS, "a") && BrandRefused(TWO_BAD_BRANDS, "b");
    assert MayBuildIn(l[1], "mailer", a) && MayBuildIn(l[1], "mailer", b);
    assert MayMissBy(l[1], "mailer", "a");
    ServeMore([], l[0], "a", None);
    ServeMore([] + [l[0]], l[1], "a", None);
    ServeMore([] + [l[0]], l[1], "a", Some(a));
    ServedToTheEnd(l, "a", None);
    ServedToTheEnd(l, "a", Some(a));
    RegistryDeterminedExactly(l);
  }

  lemma ServedToTheEnd(l: seq<Layer>, x: string, o: Option<Provider>)
    requires |l| == 4 && l[2].adapters == map[] && l[3].adapters == map[]
    requires MayServe([] + [l[0]] + [l[1]], x, o)
    ensures MayServe(l, x, o)
  {
    ServeMore([] + [l[0]] + [l[1]], l[2], x, o);
    ServeMore([] + [l[0]] + [l[1]] + [l[2]], l[3], x, o);
    assert [] + [l[0]] + [l[1]] + [l[2]] + [l[3]] == l;
  }

  // ----- With every adapter under its own name --------------------------------------------------

  /** The adapters of a channel are laid over what was registered, in every order. */
  lemma FillKeepsNames(base: map<string, Provider>, l: Layer, result: map<string, Provider>)
    requires MayFill(base, l, result) && KeepNames(l.adapters)
    ensures result == base + Channel(l.adapters, l.recipientType, l.presentation)
  {
    var channel := Channel(l.adapters, l.recipientType, l.presentation);
    forall x ensures EntryAt(result, x) == EntryAt(base + channel, x) {
      FilledEntry(base, l, result, x);
      KeptEntry(l, x, EntryAt(result, x));
    }
    SameEntries(result, base + channel);
  }

  lemma KeptEntry(l: Layer, x: string, o: Option<Provider>)
    requires KeepNames(l.adapters)
    ensures MayPut(l, x, o) ==> x in l.adapters && o == Some(Build(x, l.adapters[x], l.recipientType, l.presentation))
    ensures MayMiss(l, x) ==> x !in l.adapters
  {
    if o.Some? && o.value.name == x {
      if n :| MayBuildIn(l, n, o.value) {
        BuildIsDetermined(n, l.adapters[n], l.recipientType, l.presentation, o.value);
      }
    }
    if MayMiss(l, x) && x in l.adapters {
      assert MayMissBy(l, x, x);
      var p :| MayBuildIn(l, x, p) && p.name != x;
      BuildIsDetermined(x, l.adapters[x], l.recipientType, l.presentation, p);
      assert false;
    }
  }

  lemma {:induction false} ServedIsPut(layers: seq<Layer>, x: string, o: Option<Provider>)
    requires MayServe(layers, x, o) && o.Some?
    ensures exists l :: l in layers && MayPut(l, x, o)
  {
    if !MayPut(layers[|layers| - 1], x, o) {
      ServedIsPut(layers[..|layers| - 1], x, o);
    }
  }

  /** What holds of every registry of a configuration. */
  lemma RegistryOfConfig(cfg: Config, registry: map<string, Provider>)
    requires MayRegister(Layers(cfg), registry)
    ensures AllKeepNames(cfg) ==> registry == Layered(cfg)
    ensures forall n :: n in registry ==> registry[n].name == n && BuiltFromConfig(cfg, registry[n])
  {
    if AllKeepNames(cfg) {
      KeptRegistry(cfg, registry);
    }
    forall n | n in registry ensures registry[n].name == n && BuiltFromConfig(cfg, registry[n]) {
      StandingIsServed(Layers(cfg), registry, n);
      ServedIsPut(Layers(cfg), n, Some(registry[n]));
      var l :| l in Layers(cfg) && MayPut(l, n, Some(registry[n]));
      PutIsBuilt(cfg, l, n, registry[n]);
    }
  }

  lemma PutIsBuilt(cfg: Config, l: Layer, n: string, p: Provider)
    requires l in Layers(cfg) && MayPut(l, n, Some(p))
    ensures p.name == n && BuiltFromConfig(cfg, p)
  {
    var m :| MayBuildIn(l, m, p);
    assert BuiltFrom(l.adapters, l.recipientType, l.presentation, p);
  }

  /** The channels laid over each other. */
  function LaidOver(layers: seq<Layer>): map<string, Provider> {
    if layers == [] then map[]
    else
      var l := layers[|layers| - 1];
      LaidOver(layers[..|layers| - 1]) + Channel(l.adapters, l.recipientType, l.presentation)
  }

  lemma LaidOverMore(layers: seq<Layer>, l: Layer)
    ensures LaidOver(layers + [l]) == LaidOver(layers) + Channel(l.adapters, l.recipientType, l.presentation)
  {
    assert (layers + [l])[..|layers|] == layers;
  }

  lemma {:induction false} KeptLayers(layers: seq<Layer>, registry: map<string, Provider>)
    requires MayRegister(layers, registry) && forall l :: l in layers ==> KeepNames(l.adapters)
    ensures registry == LaidOver(layers)
  {
    if layers != [] {
      var base := LastLayer(layers, registry);
      KeptLayers(layers[..|layers| - 1], base);
      assert layers[|layers| - 1] in layers;
      FillKeepsNames(base, layers[|layers| - 1], registry);
    }
  }

  lemma LayeredIsLaidOver(cfg: Config)
    ensures LaidOver(Layers(cfg)) == Layered(cfg)
  {
    var l := Layers(cfg);
    LaidOverMore([], l[0]);
    LaidOverMore([] + [l[0]], l[1]);
    LaidOverMore([] + [l[0]] + [l[1]], l[2]);
    LaidOverMore([] + [l[0]] + [l[1]] + [l[2]], l[3]);
    assert [] + [l[0]] + [l[1]] + [l[2]] + [l[3]] == l;
    var email := Channel(cfg.email.adapters, EMAIL, NO_PRESENTATION);
    assert map[] + email == email;
  }

  lemma KeptRegistry(cfg: Config, registry: map<string, Provider>)
    requires MayRegister(Layers(cfg), registry) && AllKeepNames(cfg)
    ensures registry == Layered(cfg)
  {
    KeptLayers(Layers(cfg), registry);
    LayeredIsLaidOver(cfg);
  }

  // ----- What an adapter is built into ----------------------------------------------------------

  /** The kind of provider that each kind of adapter gives, with its settings; anything else is unavailable. */
  lemma BuiltFromKind(name: string, adapter: AdapterConfig, recipientType: string, presentation: Presentation,
                      p: Provider)
    requires MayBuild(name, adapter, recipientType, presentation, p)
    ensures !adapter.enabled ==> p == Unavailable(name, "provider_disabled")
    ensures p.Fake? <==> adapter.enabled && adapter.kind == "fake"
    ensures p.Smtp? <==> adapter.enabled && adapter.kind == "smtp" && !Refuses(adapter)
    ensures p.TelegramGateway? <==> adapter.enabled && adapter.kind == "telegram-gateway"
    ensures p.WebPush? <==> adapter.enabled && adapter.kind == "webpush"
    ensures p.TelegramBot? <==> adapter.enabled && adapter.kind == "telegram-bot"
    ensures !p.Unavailable? ==> p.name == name
    ensures p.Smtp? ==> p.brands == adapter.brands
    ensures p.Smtp? || p.TelegramGateway? || p.WebPush? || p.TelegramBot? ==> p.settings == adapter.settings
    ensures p.TelegramBot? ==> p.presentation == presentation
    ensures p.Fake? ==>
              p.status == if "Status" in adapter.settings && adapter.settings["Status"] != "" then
                            adapter.settings["Status"]
                          else "sent"
    ensures p.Unavailable? && adapter.enabled && !Refuses(adapter) ==>
              p.errorCode == if adapter.kind != "" then "provider_kind_unsupported"
                             else if recipientType == "email" then "provider_not_configured"
                             else if recipientType in ["phone", "push", "telegram"] then name + "_not_configured"
                             else "provider_not_configured"
  {
    if Refuses(adapter) {
      var b :| b in adapter.brands && BrandRefused(adapter, b);
    }
  }
}
