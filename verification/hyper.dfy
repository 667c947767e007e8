/** `Hyper`: the static factory. `make` merges the given configuration over the
    default one, checks it against a supplied Guzzle client, settles the base URI
    and builds a client; `instance` keeps one client per factory class;
    `clearInstances` forgets them all. The static state and the client objects
    together form a `World`. */
module Hyper {
  import opened Wrappers
  import opened Values
  import opened PhpStrings
  import opened HyperClient
  import opened ClientObjects

  const GuzzleKey: string := "guzzle"

  /** A factory class (`Hyper` or a subclass), identified by its class name; its
      `getBaseUri()` override, null unless the subclass supplies one. */
  datatype HyperClass = HyperClass(name: string, baseUriOverride: Option<string>)

  /** The factory's static state (`$instances`, `$defaultConfig`) and the client
      objects that exist. */
  datatype World = World(heap: Heap, instances: map<string, ClientId>, defaultConfig: PhpArray)

  /** Every registered instance is an allocated client object. */
  predicate Valid(w: World) {
    ClientObjects.Valid(w.heap) && forall n :: n in w.instances ==> w.instances[n] in w.heap.clients
  }

  const InitialWorld: World := World(EmptyHeap, map[], map[])

  /** `BadConfigurationException`, with the two reasons `make` raises it for. */
  datatype BadConfiguration = GuzzleClientAndConfig | GuzzleClientAndBaseUri

  /** `$config['guzzle'] ?? []`. */
  function GuzzleConfig(merged: PhpArray): (gc: PhpArray)
    ensures GuzzleKey in merged && merged[GuzzleKey].Arr? ==> gc == merged[GuzzleKey].items
    ensures !(GuzzleKey in merged && merged[GuzzleKey].Arr?) ==> gc == map[]
  {
    if GuzzleKey in merged && merged[GuzzleKey].Arr? then merged[GuzzleKey].items else map[]
  }

  /** The configuration shapes `make` documents: `guzzle` an array (or null)
      whose `base_uri` is a string (or null), and a well-typed client config. */
  predicate MakeableConfig(merged: PhpArray) {
    && (GuzzleKey in merged ==> merged[GuzzleKey].Null? || merged[GuzzleKey].Arr?)
    && (BaseUriKey in GuzzleConfig(merged) ==>
          GuzzleConfig(merged)[BaseUriKey].Null? || GuzzleConfig(merged)[BaseUriKey].Str?)
    && WellTypedConfig(merged - {GuzzleKey})
  }

  /** `static::getBaseUri() ?? $guzzleConfig['base_uri'] ?? null`. */
  function ResolvedBaseUri(k: HyperClass, gc: PhpArray): (base: Option<string>)
    ensures k.baseUriOverride.Some? ==> base == k.baseUriOverride
    ensures k.baseUriOverride.None? && BaseUriKey in gc && gc[BaseUriKey].Str? ==> base == Some(gc[BaseUriKey].s)
    ensures k.baseUriOverride.None? && !(BaseUriKey in gc && gc[BaseUriKey].Str?) ==> base.None?
  {
    if k.baseUriOverride.Some? then k.baseUriOverride
    else if BaseUriKey in gc && gc[BaseUriKey].Str? then Some(gc[BaseUriKey].s)
    else None
  }

  /** The Guzzle config a new Guzzle client gets: the given one, with the
      resolved base URI (if any) set as its `base_uri`. */
  function GuzzleConfigWithBase(gc: PhpArray, base: Option<string>): (r: PhpArray)
    ensures r.Keys == gc.Keys + (if base.Some? then {BaseUriKey} else {})
    ensures forall key :: key in gc && key != BaseUriKey ==> r[key] == gc[key]
    ensures base.Some? ==> r[BaseUriKey] == Str(base.value)
    ensures base.None? ==> r == gc
  {
    if base.Some? then gc[BaseUriKey := Str(base.value)] else gc
  }

  /** `makeClient` followed by `setBaseUri` when a base URI was resolved: the
      resolved base URI wins over a `base_uri` in the client config. */
  function ConfiguredClient(g: GuzzleClient, config: PhpArray, base: Option<string>): (c: Client)
    requires WellTypedConfig(config)
    ensures c.guzzle == g && c.applyJsonHeaders.None?
    ensures base.Some? ==> GetBaseUri(c) == base
    ensures base.None? ==>
      GetBaseUri(c) == (if BaseUriKey in config && config[BaseUriKey].Str? then Some(config[BaseUriKey].s) else None)
    ensures GetConfig(c).Keys <= config.Keys
    ensures HeadersKey !in config ==> GetConfig(c) == config
    ensures HeadersKey in config && config[HeadersKey].Arr? ==>
      c.headers == HeaderMapOf(config[HeadersKey].items) && GetConfig(c) == config - {HeadersKey}
    ensures !(HeadersKey in config && config[HeadersKey].Arr?) ==> c.headers == map[] && GetConfig(c) == config
  {
    var c := NewClient(g, config);
    if base.Some? then SetBaseUri(c, base.value) else c
  }

  /** The client `make` builds from the merged configuration, or the
      configuration error it raises. A supplied Guzzle client (`guzzle`) may come
      neither with a non-empty Guzzle config nor with a base URI, since Guzzle is
      not configurable after construction. The `guzzle` key never reaches the
      client's configuration; a resolved base URI goes both into the Guzzle
      config and onto the client; an array `headers` entry becomes the client's
      headers and leaves its configuration. */
  function BuildClient(k: HyperClass, merged: PhpArray, guzzle: Option<nat>): (res: Result<Client, BadConfiguration>)
    requires MakeableConfig(merged)
    ensures res == Err(GuzzleClientAndConfig) <==> guzzle.Some? && |GuzzleConfig(merged)| > 0
    ensures res == Err(GuzzleClientAndBaseUri) <==>
      guzzle.Some? && |GuzzleConfig(merged)| == 0 && k.baseUriOverride.Some?
    ensures res.Ok? ==>
      && GuzzleKey !in GetConfig(res.value)
      && res.value.applyJsonHeaders.None?
      && (guzzle.Some? ==> res.value.guzzle == Supplied(guzzle.value))
      && (guzzle.None? ==>
            var gc := GuzzleConfig(merged);
            res.value.guzzle == Built(GuzzleConfigWithBase(gc, ResolvedBaseUri(k, gc))))
    ensures res.Ok? && ResolvedBaseUri(k, GuzzleConfig(merged)).Some? ==>
      GetBaseUri(res.value) == ResolvedBaseUri(k, GuzzleConfig(merged))
    ensures res.Ok? && ResolvedBaseUri(k, GuzzleConfig(merged)).None? ==>
      GetBaseUri(res.value) ==
        (if BaseUriKey in merged && merged[BaseUriKey].Str? then Some(merged[BaseUriKey].s) else None)
    ensures res.Ok? && HeadersKey !in merged ==> GetConfig(res.value) == merged - {GuzzleKey}
    ensures res.Ok? && HeadersKey in merged && merged[HeadersKey].Arr? ==>
      && res.value.headers == HeaderMapOf((merged - {GuzzleKey})[HeadersKey].items)
      && GetConfig(res.value) == merged - {GuzzleKey, HeadersKey}
    ensures res.Ok? && !(HeadersKey in merged && merged[HeadersKey].Arr?) ==>
      res.value.headers == map[] && GetConfig(res.value) == merged - {GuzzleKey}
  {
    var gc := GuzzleConfig(merged);
    if |gc| > 0 && guzzle.Some? then Err(GuzzleClientAndConfig)
    else
      var base := ResolvedBaseUri(k, gc);
      if base.Some? && guzzle.Some? then Err(GuzzleClientAndBaseUri)
      else
        var g := if guzzle.Some? then Supplied(guzzle.value) else Built(GuzzleConfigWithBase(gc, base));
        var config := merged - {GuzzleKey};
        assert BaseUriKey in config <==> BaseUriKey in merged;
        assert BaseUriKey in config ==> config[BaseUriKey] == merged[BaseUriKey];
        Ok(ConfiguredClient(g, config, base))
  }

  /** `make($config, $guzzle)`: a new client object built from the configuration
      merged recursively over the default one; nothing else in the world changes. */
  function Make(w: World, k: HyperClass, config: PhpArray, guzzle: Option<nat>)
    : (res: Result<(World, ClientId), BadConfiguration>)
    requires Valid(w) && MakeableConfig(ReplaceRecursive(w.defaultConfig, config))
    ensures var built := BuildClient(k, ReplaceRecursive(w.defaultConfig, config), guzzle);
      && (res.Ok? <==> built.Ok?)
      && (res.Err? ==> res.error == built.error)
      && (res.Ok? ==>
            var (w', id) := res.value;
            && Valid(w')
            && id !in w.heap.clients
            && w'.heap.clients.Keys == w.heap.clients.Keys + {id}
            && w'.heap.clients[id] == built.value
            && (forall other :: other in w.heap.clients ==> w'.heap.clients[other] == w.heap.clients[other])
            && w'.instances == w.instances && w'.defaultConfig == w.defaultConfig)
  {
    var c :- BuildClient(k, ReplaceRecursive(w.defaultConfig, config), guzzle);
    var (heap, id) := Alloc(w.heap, c);
    Ok((w.(heap := heap), id))
  }

  /** `instance($config, $guzzle)`: the client stored for the calling class if
      there is one (the arguments are then ignored), otherwise a client made by
      `make` and stored for the class. */
  function Instance(w: World, k: HyperClass, config: PhpArray, guzzle: Option<nat>)
    : (res: Result<(World, ClientId), BadConfiguration>)
    requires Valid(w)
    requires k.name !in w.instances ==> MakeableConfig(ReplaceRecursive(w.defaultConfig, config))
    ensures k.name in w.instances ==> res == Ok((w, w.instances[k.name]))
    ensures k.name !in w.instances ==>
      var made := Make(w, k, config, guzzle);
      && (res.Ok? <==> made.Ok?)
      && (res.Err? ==> res.error == made.error)
      && (res.Ok? ==>
            && res.value.1 == made.value.1
            && res.value.0 == made.value.0.(instances := w.instances[k.name := made.value.1]))
    ensures res.Ok? ==> Valid(res.value.0) && k.name in res.value.0.instances
                        && res.value.0.instances[k.name] == res.value.1
  {
    if k.name in w.instances then Ok((w, w.instances[k.name]))
    else
      var (w', id) :- Make(w, k, config, guzzle);
      Ok((w'.(instances := w.instances[k.name := id]), id))
  }

  /** `clearInstances()`: forgets every stored client; the objects themselves live on. */
  function ClearInstances(w: World): (w': World)
    requires Valid(w)
    ensures Valid(w') && w'.instances == map[]
    ensures w'.heap == w.heap && w'.defaultConfig == w.defaultConfig
  {
    w.(instances := map[])
  }

  /** `setDefaultConfig($config)`: replaces the configuration later `make` calls
      merge over. */
  function SetDefaultConfig(w: World, config: PhpArray): (w': World)
    requires Valid(w)
    ensures Valid(w') && w'.defaultConfig == config
    ensures w'.heap == w.heap && w'.instances == w.instances
  {
    w.(defaultConfig := config)
  }

  /** A second `instance()` call for the same class returns the stored object and
      changes nothing, whatever arguments it is given. */
  lemma InstanceShared(w: World, k: HyperClass, config: PhpArray, guzzle: Option<nat>,
                       k': HyperClass, config': PhpArray, guzzle': Option<nat>)
    requires Valid(w) && MakeableConfig(ReplaceRecursive(w.defaultConfig, config))
    requires Instance(w, k, config, guzzle).Ok?
    requires k'.name == k.name
    ensures var (w1, id) := Instance(w, k, config, guzzle).value;
      Instance(w1, k', config', guzzle') == Ok((w1, id))
  {
  }

  /** `make()` never returns a stored instance: its client is a new object. */
  lemma MakeNotShared(w: World, k: HyperClass, config: PhpArray, guzzle: Option<nat>)
    requires Valid(w) && MakeableConfig(ReplaceRecursive(w.defaultConfig, config))
    requires Make(w, k, config, guzzle).Ok?
    ensures var id := Make(w, k, config, guzzle).value.1;
      forall n :: n in w.instances ==> w.instances[n] != id
  {
  }

  /** Instances are kept per class: two classes that have none yet get two
      different objects. */
  lemma InstancesPerClass(w: World, a: HyperClass, b: HyperClass, config: PhpArray)
    requires Valid(w) && MakeableConfig(ReplaceRecursive(w.defaultConfig, config))
    requires a.name != b.name && a.name !in w.instances && b.name !in w.instances
    requires Instance(w, a, config, None).Ok?
    ensures var (w1, ida) := Instance(w, a, config, None).value;
      var second := Instance(w1, b, config, None);
      second.Ok? ==> second.value.1 != ida
  {
  }

  /** After `clearInstances()` the next `instance()` constructs a new object. */
  lemma ClearThenFresh(w: World, k: HyperClass, config: PhpArray, guzzle: Option<nat>)
    requires Valid(w) && MakeableConfig(ReplaceRecursive(w.defaultConfig, config))
    requires Instance(ClearInstances(w), k, config, guzzle).Ok?
    ensures Instance(ClearInstances(w), k, config, guzzle).value.1 !in w.heap.clients
  {
  }

  /** With the default configuration empty, `make()` yields a client whose
      configuration is empty and which builds its own Guzzle client. */
  lemma DefaultMakeHasEmptyConfig(w: World, k: HyperClass)
    requires Valid(w) && w.defaultConfig == map[] && k.baseUriOverride.None?
    ensures MakeableConfig(ReplaceRecursive(w.defaultConfig, map[]))
    ensures var res := Make(w, k, map[], None);
      res.Ok? && GetConfig(res.value.0.heap.clients[res.value.1]) == map[]
      && res.value.0.heap.clients[res.value.1].guzzle == Built(map[])
  {
    ReplaceIdentities(map[]);
  }

  /** Guzzle options go to the Guzzle client only: `make(['guzzle' => ['timeout'
      => 321]])` builds Guzzle with that timeout and leaves the client config empty. */
  lemma GuzzleOptionsStayWithGuzzle(w: World, k: HyperClass)
    requires Valid(w) && w.defaultConfig == map[] && k.baseUriOverride.None?
    ensures var config := map[GuzzleKey := Arr(map["timeout" := Int(321)])];
      MakeableConfig(ReplaceRecursive(w.defaultConfig, config))
      && var res := Make(w, k, config, None);
      res.Ok? && GetConfig(res.value.0.heap.clients[res.value.1]) == map[]
      && res.value.0.heap.clients[res.value.1].guzzle == Built(map["timeout" := Int(321)])
  {
    var config := map[GuzzleKey := Arr(map["timeout" := Int(321)])];
    ReplaceIdentities(config);
    assert config - {GuzzleKey} == map[];
  }

  /** A client config holding only a `headers` array builds a client with
      exactly those headers and an empty stored config. */
  lemma HeadersConfigBuilds(k: HyperClass, name: string, value: string)
    ensures var config := map[HeadersKey := Arr(map[name := Str(value)])];
      MakeableConfig(config)
      && var built := BuildClient(k, config, None);
      built.Ok? && built.value.headers.Keys == {name} && built.value.headers[name] == value
      && GetConfig(built.value) == map[]
  {
    var config := map[HeadersKey := Arr(map[name := Str(value)])];
    assert config - {GuzzleKey} == config;
    assert config - {GuzzleKey, HeadersKey} == map[];
  }

  /** Default headers can come through the constructor: `make(['headers' =>
      [...]])` gives a client whose headers are exactly those, read back by
      `getHeader`, and whose stored configuration no longer holds them. */
  lemma HeadersViaConstructor(w: World, k: HyperClass, name: string, value: string)
    requires Valid(w) && w.defaultConfig == map[]
    ensures var config := map[HeadersKey := Arr(map[name := Str(value)])];
      MakeableConfig(ReplaceRecursive(w.defaultConfig, config))
      && var res := Make(w, k, config, None);
      res.Ok?
      && var c := res.value.0.heap.clients[res.value.1];
      GetHeader(c, name, None) == Some(value) && c.headers.Keys == {name} && GetConfig(c) == map[]
  {
    var config := map[HeadersKey := Arr(map[name := Str(value)])];
    ReplaceIdentities(config);
    HeadersConfigBuilds(k, name, value);
  }

  /** A Guzzle client and a non-empty Guzzle config together are refused. */
  lemma GuzzleClientWithConfigRefused(w: World, k: HyperClass, guzzle: nat)
    requires Valid(w) && w.defaultConfig == map[]
    ensures var config := map[GuzzleKey := Arr(map["timeout" := Int(321)])];
      MakeableConfig(ReplaceRecursive(w.defaultConfig, config))
      && Make(w, k, config, Some(guzzle)) == Err(GuzzleClientAndConfig)
  {
    var config := map[GuzzleKey := Arr(map["timeout" := Int(321)])];
    ReplaceIdentities(config);
    assert config - {GuzzleKey} == map[];
    assert "timeout" in GuzzleConfig(config);
  }

  /** Base-URI precedence: a class override wins over `guzzle.base_uri`, which
      wins over none; whichever is chosen becomes the client's base URI, so
      relative paths resolve under it. */
  lemma BaseUriPrecedence(k: HyperClass, merged: PhpArray, path: string)
    requires MakeableConfig(merged)
    requires BuildClient(k, merged, None).Ok?
    requires ResolvedBaseUri(k, GuzzleConfig(merged)).Some?
    requires !IsAbsolute(path)
    ensures var base := ResolvedBaseUri(k, GuzzleConfig(merged)).value;
      && (k.baseUriOverride.Some? ==> base == k.baseUriOverride.value)
      && Url(BuildClient(k, merged, None).value, path) ==
         (if IsTruthy(base) then StripTrailingSlash(base) else "") + SlashPrefixed(path)
  {
  }

  /** The registry invariant holds from the start. */
  lemma InitialWorldValid()
    ensures Valid(InitialWorld)
  {
  }
}
