/** The read side of the package: an EnhancedAppConfig object that fetches configurations
    from AppConfig, keeps them in a bounded cache, refreshes every cached entry on a timer,
    and is configured by functional options. */
module AppConfig {
  import opened Wrappers
  import opened Text
  import opened AppConfigStore
  import opened CacheAndTicker
  import opened AppConfigOptions

  /** The text by which a refresh recognises that a configuration profile no longer exists. */
  const ProfileGoneMarker: string := "could not be found for account"

  /** A fetched configuration: the version token to send back when refreshing, the content
      (absent when the service answered that nothing changed), and whether this record is
      the one held by the cache. */
  datatype EnhancedConfiguration = EnhancedConfiguration(
    clientConfigurationVersion: Option<string>,
    content: Option<string>,
    isCache: bool)

  type Entries = map<string, Option<EnhancedConfiguration>>

  /** Every configuration held by the cache has content. */
  ghost predicate HasContent(entries: Entries)
  {
    forall k :: k in entries && entries[k].Some? ==> entries[k].value.content.Some?
  }

  /** The fields of the facade that go into every GetConfiguration request. */
  datatype RequestContext = RequestContext(application: string, environment: string, clientId: string)

  function MakeRequest(ctx: RequestContext, name: string, version: Option<string>): (q: GetRequest)
    ensures q.configuration == name && q.clientConfigurationVersion == version
    ensures q.application == ctx.application && q.environment == ctx.environment && q.clientId == ctx.clientId
  {
    GetRequest(ctx.application, ctx.environment, ctx.clientId, name, version)
  }

  /** getConfigurationWithVersion on a successful answer: empty content becomes "no content",
      the version token is carried over. */
  function ToConfiguration(o: GetOutput): (c: EnhancedConfiguration)
    ensures c.clientConfigurationVersion == o.configurationVersion && !c.isCache
    ensures c.content.None? <==> |o.content| == 0
    ensures c.content.Some? ==> c.content.value == o.content
  {
    EnhancedConfiguration(o.configurationVersion, if |o.content| == 0 then None else Some(o.content), false)
  }

  /** getConfigurationWithVersion on any answer: a service error is passed through. */
  function Fetched(reply: Result<GetOutput, string>): Result<EnhancedConfiguration, Error>
  {
    match reply
    case Ok(o) => Ok(ToConfiguration(o))
    case Err(m) => Err(StoreFailure(m))
  }

  /** The outcome of one getEnhancedConfiguration: what the caller receives, what is written
      into the cache, and the requests sent. */
  datatype Read = Read(result: Result<EnhancedConfiguration, Error>,
                       writeBack: Option<EnhancedConfiguration>,
                       calls: seq<Input>)

  /** getEnhancedConfiguration, given the non-nil cached value (if any), whether a cache
      exists, the request it would send and the service's answer to it. */
  function ReadSpec(cached: Option<EnhancedConfiguration>, cacheOn: bool, request: GetRequest,
                    reply: Result<GetOutput, string>): (r: Read)
    ensures cached.Some? ==> r == Read(Ok(cached.value), None, [])
    ensures cached.None? ==> r.calls == [GetConfigurationInput(request)]
    ensures cached.None? && reply.Err? ==> r.result == Err(StoreFailure(reply.error)) && r.writeBack.None?
    ensures cached.None? && reply.Ok? && |reply.value.content| == 0 ==>
              r.result == Err(ConfigurationFetchFailed(request.configuration)) && r.writeBack.None?
    ensures cached.None? && reply.Ok? && |reply.value.content| > 0 ==>
              && r.result == Ok(EnhancedConfiguration(reply.value.configurationVersion, Some(reply.value.content), false))
              && r.writeBack == (if cacheOn then Some(EnhancedConfiguration(reply.value.configurationVersion,
                                                                           Some(reply.value.content), true))
                                 else None)
    ensures (cached.None? || cached.value.content.Some?) && r.result.Ok? ==> r.result.value.content.Some?
  {
    if cached.Some? then Read(Ok(cached.value), None, [])
    else
      var calls := [GetConfigurationInput(request)];
      match Fetched(reply)
      case Err(e) => Read(Err(e), None, calls)
      case Ok(c) =>
        if c.content.None? then Read(Err(ConfigurationFetchFailed(request.configuration)), None, calls)
        else Read(Ok(c), if cacheOn then Some(c.(isCache := true)) else None, calls)
  }

  /** The content GetConfiguration returns for a read result. */
  function ContentOf(r: Result<EnhancedConfiguration, Error>): Result<string, Error>
    requires r.Ok? ==> r.value.content.Some?
  {
    match r
    case Ok(c) => Ok(c.content.value)
    case Err(e) => Err(e)
  }

  /** A read served from the cache returns the cached record itself; after a read that
      wrote back, the same read is served from the cache with the same version and content
      and sends no request. */
  lemma ReadThenCached(request: GetRequest, reply: Result<GetOutput, string>, reply2: Result<GetOutput, string>)
    requires ReadSpec(None, true, request, reply).writeBack.Some?
    ensures var first := ReadSpec(None, true, request, reply);
            var second := ReadSpec(first.writeBack, true, request, reply2);
            && second.calls == []
            && first.result.Ok? && second.result.Ok?
            && second.result.value.content == first.result.value.content
            && second.result.value.clientConfigurationVersion == first.result.value.clientConfigurationVersion
            && second.result.value.isCache && !first.result.value.isCache
  {
  }

  // ---- refreshing one key ----

  /** What a refresh does with the service's answer for one key. */
  datatype RefreshAction = Keep | Evict | Overwrite(configuration: EnhancedConfiguration)

  /** An error naming a missing profile evicts; other errors and "unchanged" keep the entry;
      new content overwrites it. New content without a version token is kept out too: the
      log line before the write dereferences the token, and the resulting panic is
      recovered by the goroutine, so the write never happens. */
  function Decide(reply: Result<GetOutput, string>): (a: RefreshAction)
    ensures a.Evict? <==> reply.Err? && Contains(reply.error, ProfileGoneMarker)
    ensures a.Overwrite? <==> reply.Ok? && |reply.value.content| > 0 && reply.value.configurationVersion.Some?
    ensures a.Overwrite? ==>
              a.configuration == EnhancedConfiguration(reply.value.configurationVersion, Some(reply.value.content), false)
  {
    match reply
    case Err(m) => if Contains(m, ProfileGoneMarker) then Evict else Keep
    case Ok(o) =>
      var c := ToConfiguration(o);
      if c.content.None? || c.clientConfigurationVersion.None? then Keep else Overwrite(c)
  }

  /** The cache entries after a step, and the requests sent during it. */
  datatype Refresh = Refresh(entries: Entries, calls: seq<Input>)

  /** refreshKey: an absent or nil entry is skipped; otherwise the configuration is fetched
      with the cached version token and the entry is kept, evicted or overwritten. */
  function RefreshKeySpec(entries: Entries, key: string, ctx: RequestContext,
                          answer: GetRequest -> Result<GetOutput, string>): Refresh
  {
    if key !in entries || entries[key].None? then Refresh(entries, [])
    else
      var request := MakeRequest(ctx, key, entries[key].value.clientConfigurationVersion);
      var updated := match Decide(answer(request))
        case Keep => entries
        case Evict => entries - {key}
        case Overwrite(c) => entries[key := Some(c)];
      Refresh(updated, [GetConfigurationInput(request)])
  }

  /** The service reports no change for this key (or there is nothing to refresh). */
  predicate ReportsUnchanged(entries: Entries, key: string, ctx: RequestContext,
                             answer: GetRequest -> Result<GetOutput, string>)
  {
    key in entries && entries[key].Some? ==>
      var reply := answer(MakeRequest(ctx, key, entries[key].value.clientConfigurationVersion));
      reply.Ok? && |reply.value.content| == 0
  }

  /** A refresh touches its own key only, never adds a key, keeps every cached entry with
      content, and sends at most the one request for its key with the cached version. */
  lemma RefreshKeyIsLocal(entries: Entries, key: string, ctx: RequestContext,
                          answer: GetRequest -> Result<GetOutput, string>)
    ensures var r := RefreshKeySpec(entries, key, ctx, answer);
            && r.entries.Keys <= entries.Keys
            && (forall k :: k != key ==> (k in r.entries <==> k in entries))
            && (forall k :: k != key && k in entries ==> r.entries[k] == entries[k])
            && (HasContent(entries) ==> HasContent(r.entries))
            && (r.calls == [] <==> key !in entries || entries[key].None?)
            && (r.calls != [] ==>
                  r.calls == [GetConfigurationInput(MakeRequest(ctx, key, entries[key].value.clientConfigurationVersion))])
  {
  }

  /** What a refresh does to its own key: a missing-profile error deletes just that key,
      new content with a version token overwrites it with the fetched entry, and anything
      else leaves the cache untouched. */
  lemma RefreshKeyEffect(entries: Entries, key: string, ctx: RequestContext,
                         answer: GetRequest -> Result<GetOutput, string>)
    requires key in entries && entries[key].Some?
    ensures var r := RefreshKeySpec(entries, key, ctx, answer);
            var a := answer(MakeRequest(ctx, key, entries[key].value.clientConfigurationVersion));
            var gone := a.Err? && Contains(a.error, ProfileGoneMarker);
            var changed := a.Ok? && |a.value.content| > 0 && a.value.configurationVersion.Some?;
            && (key !in r.entries <==> gone)
            && (gone ==> r.entries == entries - {key})
            && (changed ==> r.entries == entries[key := Some(EnhancedConfiguration(a.value.configurationVersion,
                                                                              Some(a.value.content), false))])
            && (!gone && !changed ==> r.entries == entries)
  {
  }

  /** An "unchanged" answer leaves the cache exactly as it was. */
  lemma RefreshUnchangedIsIdentity(entries: Entries, key: string, ctx: RequestContext,
                                   answer: GetRequest -> Result<GetOutput, string>)
    requires ReportsUnchanged(entries, key, ctx, answer)
    ensures RefreshKeySpec(entries, key, ctx, answer).entries == entries
  {
  }

  /** What a refresh does to its key depends on that key's entry only. */
  lemma RefreshDependsOnOwnEntry(e1: Entries, e2: Entries, key: string, ctx: RequestContext,
                                 answer: GetRequest -> Result<GetOutput, string>)
    requires (key in e1 <==> key in e2) && (key in e1 ==> e1[key] == e2[key])
    ensures var r1 := RefreshKeySpec(e1, key, ctx, answer);
            var r2 := RefreshKeySpec(e2, key, ctx, answer);
            && (key in r1.entries <==> key in r2.entries)
            && (key in r1.entries ==> r1.entries[key] == r2.entries[key])
            && r1.calls == r2.calls
  {
  }

  /** Refreshes of two different keys commute, so running them in either order (or
      concurrently, each touching only its own key) gives the same cache. */
  lemma RefreshCommutes(entries: Entries, k1: string, k2: string, ctx: RequestContext,
                        answer: GetRequest -> Result<GetOutput, string>)
    requires k1 != k2
    ensures var a := RefreshKeySpec(RefreshKeySpec(entries, k1, ctx, answer).entries, k2, ctx, answer);
            var b := RefreshKeySpec(RefreshKeySpec(entries, k2, ctx, answer).entries, k1, ctx, answer);
            a.entries == b.entries
  {
    var r1 := RefreshKeySpec(entries, k1, ctx, answer);
    var r2 := RefreshKeySpec(entries, k2, ctx, answer);
    RefreshKeyIsLocal(entries, k1, ctx, answer);
    RefreshKeyIsLocal(entries, k2, ctx, answer);
    RefreshDependsOnOwnEntry(r1.entries, entries, k2, ctx, answer);
    RefreshDependsOnOwnEntry(r2.entries, entries, k1, ctx, answer);
    var a := RefreshKeySpec(r1.entries, k2, ctx, answer);
    var b := RefreshKeySpec(r2.entries, k1, ctx, answer);
    RefreshKeyIsLocal(r1.entries, k2, ctx, answer);
    RefreshKeyIsLocal(r2.entries, k1, ctx, answer);
    assert forall k :: k in a.entries <==> k in b.entries by {
      forall k ensures k in a.entries <==> k in b.entries {
        if k != k1 && k != k2 {
        }
      }
    }
  }

  // ---- the sweep over a snapshot of the keys ----

  /** The sweep run by the ticker: refreshKey for every key of the snapshot in turn. */
  function SweepSpec(entries: Entries, keys: seq<string>, ctx: RequestContext,
                     answer: GetRequest -> Result<GetOutput, string>): Refresh
    decreases |keys|
  {
    if keys == [] then Refresh(entries, [])
    else
      var before := SweepSpec(entries, keys[..|keys| - 1], ctx, answer);
      var last := RefreshKeySpec(before.entries, keys[|keys| - 1], ctx, answer);
      Refresh(last.entries, before.calls + last.calls)
  }

  predicate Distinct(keys: seq<string>)
  {
    forall i, j :: 0 <= i < j < |keys| ==> keys[i] != keys[j]
  }

  /** The sweep leaves every key outside the snapshot alone and adds no key. */
  lemma {:induction false} SweepOutsideSnapshot(entries: Entries, keys: seq<string>, ctx: RequestContext,
                                                answer: GetRequest -> Result<GetOutput, string>)
    ensures var r := SweepSpec(entries, keys, ctx, answer);
            && r.entries.Keys <= entries.Keys
            && (forall k :: k !in keys ==> (k in r.entries <==> k in entries))
            && (forall k :: k !in keys && k in entries ==> r.entries[k] == entries[k])
    decreases |keys|
  {
    if keys != [] {
      var init := keys[..|keys| - 1];
      SweepOutsideSnapshot(entries, init, ctx, answer);
      RefreshKeyIsLocal(SweepSpec(entries, init, ctx, answer).entries, keys[|keys| - 1], ctx, answer);
      assert forall k :: k in init ==> k in keys;
    }
  }

  /** Over a snapshot of distinct keys, each key ends exactly as a single refresh of that
      key alone would leave it: the order of the snapshot does not matter. */
  lemma {:induction false} SweepPerKey(entries: Entries, keys: seq<string>, ctx: RequestContext,
                                       answer: GetRequest -> Result<GetOutput, string>, k: string)
    requires Distinct(keys) && k in keys
    ensures var r := SweepSpec(entries, keys, ctx, answer);
            var one := RefreshKeySpec(entries, k, ctx, answer);
            && (k in r.entries <==> k in one.entries)
            && (k in r.entries ==> r.entries[k] == one.entries[k])
    decreases |keys|
  {
    var init := keys[..|keys| - 1];
    var last := keys[|keys| - 1];
    var before := SweepSpec(entries, init, ctx, answer);
    assert Distinct(init);
    if k == last {
      assert k !in init;
      SweepOutsideSnapshot(entries, init, ctx, answer);
      RefreshDependsOnOwnEntry(before.entries, entries, k, ctx, answer);
    } else {
      assert k in init by {
        var i :| 0 <= i < |keys| && keys[i] == k;
        assert i < |keys| - 1;
        assert init[i] == k;
      }
      SweepPerKey(entries, init, ctx, answer, k);
      RefreshKeyIsLocal(before.entries, last, ctx, answer);
    }
  }

  /** The sweep keeps every cached entry with content. */
  lemma {:induction false} SweepKeepsContent(entries: Entries, keys: seq<string>, ctx: RequestContext,
                                             answer: GetRequest -> Result<GetOutput, string>)
    requires HasContent(entries)
    ensures HasContent(SweepSpec(entries, keys, ctx, answer).entries)
    decreases |keys|
  {
    if keys != [] {
      SweepKeepsContent(entries, keys[..|keys| - 1], ctx, answer);
      RefreshKeyIsLocal(SweepSpec(entries, keys[..|keys| - 1], ctx, answer).entries, keys[|keys| - 1], ctx, answer);
    }
  }

  /** When the service reports no change for any key, a sweep leaves the cache as it was;
      so repeating it changes nothing either. */
  lemma {:induction false} SweepUnchangedIsIdentity(entries: Entries, keys: seq<string>, ctx: RequestContext,
                                                    answer: GetRequest -> Result<GetOutput, string>)
    requires forall k :: k in keys ==> ReportsUnchanged(entries, k, ctx, answer)
    ensures SweepSpec(entries, keys, ctx, answer).entries == entries
    ensures SweepSpec(SweepSpec(entries, keys, ctx, answer).entries, keys, ctx, answer).entries == entries
    decreases |keys|
  {
    if keys != [] {
      var init := keys[..|keys| - 1];
      assert forall k :: k in init ==> k in keys;
      SweepUnchangedIsIdentity(entries, init, ctx, answer);
      RefreshUnchangedIsIdentity(entries, keys[|keys| - 1], ctx, answer);
    }
  }

  /** The sweep sends at most one request per snapshot key, each for a key of the snapshot. */
  lemma {:induction false} SweepRequests(entries: Entries, keys: seq<string>, ctx: RequestContext,
                                         answer: GetRequest -> Result<GetOutput, string>)
    ensures var r := SweepSpec(entries, keys, ctx, answer);
            && |r.calls| <= |keys|
            && (forall i :: 0 <= i < |r.calls| ==>
                  r.calls[i].GetConfigurationInput? && r.calls[i].request.configuration in keys)
    decreases |keys|
  {
    if keys != [] {
      var init := keys[..|keys| - 1];
      SweepRequests(entries, init, ctx, answer);
      RefreshKeyIsLocal(SweepSpec(entries, init, ctx, answer).entries, keys[|keys| - 1], ctx, answer);
      assert forall k :: k in init ==> k in keys;
    }
  }

  /** Over a snapshot without repeated keys, no configuration is requested twice. */
  lemma {:induction false} SweepRequestsDistinct(entries: Entries, keys: seq<string>, ctx: RequestContext,
                                                 answer: GetRequest -> Result<GetOutput, string>)
    requires Distinct(keys)
    ensures var r := SweepSpec(entries, keys, ctx, answer);
            forall i, j :: 0 <= i < j < |r.calls| ==>
              && r.calls[i].GetConfigurationInput? && r.calls[j].GetConfigurationInput?
              && r.calls[i].request.configuration != r.calls[j].request.configuration
    decreases |keys|
  {
    if keys != [] {
      var init := keys[..|keys| - 1];
      var key := keys[|keys| - 1];
      var before := SweepSpec(entries, init, ctx, answer);
      assert Distinct(init);
      SweepRequestsDistinct(entries, init, ctx, answer);
      SweepRequests(entries, init, ctx, answer);
      RefreshKeyIsLocal(before.entries, key, ctx, answer);
      assert key !in init;
    }
  }

  /** Some request in `calls` fetches the configuration `k`. */
  predicate Requested(calls: seq<Input>, k: string)
  {
    exists i :: 0 <= i < |calls| && calls[i].GetConfigurationInput? && calls[i].request.configuration == k
  }

  lemma RequestedAppend(a: seq<Input>, b: seq<Input>, k: string)
    ensures Requested(a + b, k) <==> Requested(a, k) || Requested(b, k)
  {
    if Requested(a + b, k) {
      var i :| 0 <= i < |a + b| && (a + b)[i].GetConfigurationInput? && (a + b)[i].request.configuration == k;
      if i >= |a| {
        assert b[i - |a|] == (a + b)[i];
      }
    }
    if Requested(a, k) {
      var i :| 0 <= i < |a| && a[i].GetConfigurationInput? && a[i].request.configuration == k;
      assert (a + b)[i] == a[i];
    }
    if Requested(b, k) {
      var i :| 0 <= i < |b| && b[i].GetConfigurationInput? && b[i].request.configuration == k;
      assert (a + b)[|a| + i] == b[i];
    }
  }

  /** Over a snapshot without repeated keys, a snapshot key is fetched exactly when its
      entry held a value when the sweep began. */
  lemma {:induction false} SweepRequestsIffCached(entries: Entries, keys: seq<string>, ctx: RequestContext,
                                                  answer: GetRequest -> Result<GetOutput, string>, k: string)
    requires Distinct(keys) && k in keys
    ensures Requested(SweepSpec(entries, keys, ctx, answer).calls, k) <==> k in entries && entries[k].Some?
    decreases |keys|
  {
    var init := keys[..|keys| - 1];
    var key := keys[|keys| - 1];
    var before := SweepSpec(entries, init, ctx, answer);
    var last := RefreshKeySpec(before.entries, key, ctx, answer);
    assert Distinct(init);
    assert keys == init + [key];
    RefreshKeyIsLocal(before.entries, key, ctx, answer);
    RequestedAppend(before.calls, last.calls, k);
    if k == key {
      assert k !in init;
      SweepRequests(entries, init, ctx, answer);
      SweepOutsideSnapshot(entries, init, ctx, answer);
      assert !Requested(before.calls, k);
      if last.calls != [] {
        assert last.calls[0].request.configuration == k;
      }
    } else {
      assert k in init;
      SweepRequestsIffCached(entries, init, ctx, answer, k);
    }
  }

  // ---- the facade object ----

  class EnhancedAppConfig {
    /** The AppConfig service the client talks to. */
    const service: Store
    /** Whether an AWS session and client can be built in this environment. */
    const clientConstructible: bool

    var applicationName: string
    var environmentName: string
    var clientId: string
    var regionName: string
    var isCache: bool
    var cacheLimit: int
    /** Nanoseconds. */
    var cacheRefreshInterval: int
    /** Nanoseconds. */
    var timeout: int
    var isXRayEnable: bool
    var appConfigClient: Option<Client>
    var cache: Cache?<EnhancedConfiguration>
    var cacheRefreshTicker: Ticker?

    /** The cache and its ticker exist together, and every cached configuration has content. */
    ghost predicate Valid()
      reads this, cache
    {
      && (cache == null) == (cacheRefreshTicker == null)
      && (cache != null ==> HasContent(cache.entries))
    }

    /** The facade's configuration as a value. */
    function View(): (s: Settings)
      reads this, cache, cacheRefreshTicker
      ensures (cache == null) == (cacheRefreshTicker == null) ==> Consistent(s)
    {
      Settings(applicationName, environmentName, clientId, regionName, isCache, cacheLimit,
               cacheRefreshInterval, timeout, isXRayEnable, appConfigClient,
               if cache == null then None else Some(cache.limit),
               if cacheRefreshTicker == null then None
               else Some(TickerState(cacheRefreshTicker.interval, cacheRefreshTicker.running)))
    }

    function Context(): RequestContext
      reads this
    {
      RequestContext(applicationName, environmentName, clientId)
    }

    /** The non-nil value cached for `name`, if the cache is on and holds one. */
    function Cached(name: string): (c: Option<EnhancedConfiguration>)
      reads this, cache
      ensures c.Some? ==> cache != null && name in cache.entries && cache.entries[name] == c
    {
      if cache != null && name in cache.entries then cache.entries[name] else None
    }

    /** The composite literal of NewWithOptions. */
    constructor (service: Store, clientConstructible: bool, envRegion: string, envEnvironment: string,
                 clientId: string)
      ensures this.service == service && this.clientConstructible == clientConstructible
      ensures Valid() && cache == null
      ensures View() == Defaults(envRegion, envEnvironment, clientId)
    {
      this.service := service;
      this.clientConstructible := clientConstructible;
      applicationName := "";
      environmentName := envEnvironment;
      this.clientId := clientId;
      regionName := envRegion;
      isCache := DefaultIsCache;
      cacheLimit := DefaultCacheLimit;
      cacheRefreshInterval := DefaultCacheRefreshInterval;
      timeout := DefaultTimeout;
      isXRayEnable := false;
      appConfigClient := None;
      cache := null;
      cacheRefreshTicker := null;
    }

    method InitAppConfigClient() returns (err: Option<Error>)
      requires Valid()
      modifies this
      ensures Valid() && cache == old(cache) && cacheRefreshTicker == old(cacheRefreshTicker)
      ensures Applied(View(), err) == InitClient(old(View()), clientConstructible)
    {
      if !clientConstructible {
        return Some(ClientUnavailable);
      }
      appConfigClient := Some(Client(regionName, isXRayEnable));
      err := None;
    }

    /** initCache together with initRefreshCacheTicker. */
    method InitCache()
      requires Valid()
      modifies this
      ensures Valid() && fresh(cache) && fresh(cacheRefreshTicker) && cache.entries == map[]
      ensures View() == AppConfigOptions.InitCache(old(View()))
    {
      cache := new Cache(cacheLimit);
      var t := new Ticker(cacheRefreshInterval);
      t.Start();
      cacheRefreshTicker := t;
    }

    method GetConfigurationWithVersion(name: string, version: Option<string>)
      returns (r: Result<EnhancedConfiguration, Error>)
      requires appConfigClient.Some?
      modifies service
      ensures var request := MakeRequest(Context(), name, version);
              && service.log == old(service.log) + [GetConfigurationInput(request)]
              && r == Fetched(service.oracle.getConfiguration(request))
      ensures r.Err? ==> r.error.StoreFailure?
    {
      var output := service.GetConfiguration(MakeRequest(Context(), name, version));
      match output
      case Err(m) => r := Err(StoreFailure(m));
      case Ok(o) => r := Ok(ToConfiguration(o));
    }

    method GetEnhancedConfiguration(name: string) returns (r: Result<EnhancedConfiguration, Error>)
      requires Valid() && appConfigClient.Some?
      modifies service, cache
      ensures Valid() && View() == old(View())
      ensures var request := MakeRequest(Context(), name, None);
              var spec := ReadSpec(old(Cached(name)), cache != null, request, service.oracle.getConfiguration(request));
              && r == spec.result
              && service.log == old(service.log) + spec.calls
              && (cache != null && spec.writeBack.Some? ==>
                    AddedTo(old(cache.entries), cache.entries, name, spec.writeBack.value))
              && (cache != null && spec.writeBack.None? ==> cache.entries == old(cache.entries))
    {
      if cache != null {
        var value, found := cache.Get(name);
        if found && value.Some? {
          return Ok(value.value);
        }
      }
      var configuration := GetConfigurationWithVersion(name, None);
      if configuration.Err? {
        return Err(configuration.error);
      }
      if configuration.value.content.None? {
        return Err(ConfigurationFetchFailed(name));
      }
      if cache != null {
        cache.Add(name, configuration.value.(isCache := true));
      }
      r := Ok(configuration.value.(isCache := false));
    }

    method GetConfiguration(name: string) returns (r: Result<string, Error>)
      requires Valid() && appConfigClient.Some?
      modifies service, cache
      ensures Valid() && View() == old(View())
      ensures var request := MakeRequest(Context(), name, None);
              var spec := ReadSpec(old(Cached(name)), cache != null, request, service.oracle.getConfiguration(request));
              && r == ContentOf(spec.result)
              && service.log == old(service.log) + spec.calls
              && (cache != null && spec.writeBack.Some? ==>
                    AddedTo(old(cache.entries), cache.entries, name, spec.writeBack.value))
              && (cache != null && spec.writeBack.None? ==> cache.entries == old(cache.entries))
    {
      var configuration := GetEnhancedConfiguration(name);
      if configuration.Err? {
        return Err(configuration.error);
      }
      r := Ok(configuration.value.content.value);
    }

    method GetConfigurationIgnoreCache(name: string) returns (r: Result<string, Error>)
      requires appConfigClient.Some?
      modifies service
      ensures var request := MakeRequest(Context(), name, None);
              var spec := ReadSpec(None, false, request, service.oracle.getConfiguration(request));
              && r == ContentOf(spec.result)
              && service.log == old(service.log) + spec.calls
    {
      var configuration := GetConfigurationWithVersion(name, None);
      if configuration.Err? {
        return Err(configuration.error);
      }
      if configuration.value.content.None? {
        return Err(ConfigurationFetchFailed(name));
      }
      r := Ok(configuration.value.content.value);
    }

    method RefreshKey(key: string)
      requires Valid() && cache != null && appConfigClient.Some?
      modifies service, cache
      ensures Valid() && View() == old(View())
      ensures var spec := RefreshKeySpec(old(cache.entries), key, Context(), service.oracle.getConfiguration);
              cache.entries == spec.entries && service.log == old(service.log) + spec.calls
    {
      var value, found := cache.Get(key);
      if !found || value.None? {
        return;
      }
      var configuration := GetConfigurationWithVersion(key, value.value.clientConfigurationVersion);
      if configuration.Err? {
        if Contains(configuration.error.message, ProfileGoneMarker) {
          cache.Delete(key);
        }
        return;
      }
      if configuration.value.content.Some? && configuration.value.clientConfigurationVersion.Some? {
        cache.Add(key, configuration.value);
      }
    }

    /** The ticker's callback: refreshKey for every key of a snapshot taken at its start;
        the snapshot is returned so that the contract can name it. */
    method RefreshCache() returns (snapshot: seq<string>)
      requires Valid() && cache != null && appConfigClient.Some?
      modifies service, cache
      ensures Valid() && View() == old(View())
      ensures (forall k :: k in snapshot <==> k in old(cache.entries)) && Distinct(snapshot)
      ensures var spec := SweepSpec(old(cache.entries), snapshot, Context(), service.oracle.getConfiguration);
              cache.entries == spec.entries && service.log == old(service.log) + spec.calls
    {
      snapshot := cache.Keys();
      for i := 0 to |snapshot|
        invariant Valid() && View() == old(View())
        invariant var spec := SweepSpec(old(cache.entries), snapshot[..i], Context(), service.oracle.getConfiguration);
                  cache.entries == spec.entries && service.log == old(service.log) + spec.calls
      {
        RefreshKey(snapshot[i]);
        assert snapshot[..i + 1][..i] == snapshot[..i];
      }
      assert snapshot[..|snapshot|] == snapshot;
    }

    // ---- the functional options ----

    method WithRegionName(regionName: string) returns (err: Option<Error>)
      requires Valid()
      modifies this
      ensures Valid() && cache == old(cache) && cacheRefreshTicker == old(cacheRefreshTicker)
      ensures Applied(View(), err) == AfterOption(old(View()), RegionName(regionName), clientConstructible)
    {
      this.regionName := regionName;
      err := InitAppConfigClient();
    }

    method WithApplicationName(applicationName: string) returns (err: Option<Error>)
      requires Valid()
      modifies this
      ensures Valid() && cache == old(cache) && cacheRefreshTicker == old(cacheRefreshTicker)
      ensures Applied(View(), err) == AfterOption(old(View()), ApplicationName(applicationName), clientConstructible)
    {
      this.applicationName := applicationName;
      err := None;
    }

    method WithEnvironmentName(environmentName: string) returns (err: Option<Error>)
      requires Valid()
      modifies this
      ensures Valid() && cache == old(cache) && cacheRefreshTicker == old(cacheRefreshTicker)
      ensures Applied(View(), err) == AfterOption(old(View()), EnvironmentName(environmentName), clientConstructible)
    {
      this.environmentName := environmentName;
      err := None;
    }

    method WithClientId(clientId: string) returns (err: Option<Error>)
      requires Valid()
      modifies this
      ensures Valid() && cache == old(cache) && cacheRefreshTicker == old(cacheRefreshTicker)
      ensures Applied(View(), err) == AfterOption(old(View()), ClientId(clientId), clientConstructible)
    {
      this.clientId := clientId;
      err := None;
    }

    method WithIsCache(isCache: bool) returns (err: Option<Error>)
      requires Valid()
      modifies this, cacheRefreshTicker
      ensures Valid()
      ensures Applied(View(), err) == AfterOption(old(View()), IsCache(isCache), clientConstructible)
      ensures old(cache) != null && !isCache ==> cache == null && !old(cacheRefreshTicker).running
      ensures old(cache) != null && isCache ==> cache == old(cache) && cacheRefreshTicker == old(cacheRefreshTicker)
      ensures old(cache) == null && isCache ==> fresh(cache) && fresh(cacheRefreshTicker) && cache.entries == map[]
      ensures old(cache) == null && !isCache ==> cache == null
    {
      this.isCache := isCache;
      if cache != null {
        if !isCache {
          cache := null;
          cacheRefreshTicker.Stop();
          cacheRefreshTicker := null;
        }
      } else if isCache {
        if cacheLimit == 0 {
          cacheLimit := DefaultCacheLimit;
        }
        if cacheRefreshInterval == 0 {
          cacheRefreshInterval := DefaultCacheRefreshInterval;
        }
        InitCache();
      }
      err := None;
    }

    method WithCacheLimit(cacheLimit: int) returns (err: Option<Error>)
      requires Valid()
      modifies this, cache
      ensures Valid() && cache == old(cache) && cacheRefreshTicker == old(cacheRefreshTicker)
      ensures Applied(View(), err) == AfterOption(old(View()), CacheLimit(cacheLimit), clientConstructible)
      ensures cache != null ==> Shrunk(old(cache.entries), cache.entries)
      ensures cache != null && cacheLimit == 0 ==> cache.entries == old(cache.entries)
    {
      this.cacheLimit := cacheLimit;
      if cache != null && cacheLimit != 0 {
        var previous := cache.UpdateCacheLimit(cacheLimit);
      }
      err := None;
    }

    method WithCacheRefreshInterval(interval: int) returns (err: Option<Error>)
      requires Valid()
      modifies this, cacheRefreshTicker
      ensures Valid() && cache == old(cache) && cacheRefreshTicker == old(cacheRefreshTicker)
      ensures Applied(View(), err) == AfterOption(old(View()), CacheRefreshInterval(interval), clientConstructible)
    {
      cacheRefreshInterval := interval;
      if cache != null && interval != 0 {
        var previous := cacheRefreshTicker.Reset(interval);
      }
      err := None;
    }

    method WithTimeout(timeout: int) returns (err: Option<Error>)
      requires Valid()
      modifies this
      ensures Valid() && cache == old(cache) && cacheRefreshTicker == old(cacheRefreshTicker)
      ensures Applied(View(), err) == AfterOption(old(View()), Timeout(timeout), clientConstructible)
    {
      this.timeout := timeout;
      err := None;
    }

    method WithXRayEnable(isXRayEnable: bool) returns (err: Option<Error>)
      requires Valid()
      modifies this
      ensures Valid() && cache == old(cache) && cacheRefreshTicker == old(cacheRefreshTicker)
      ensures Applied(View(), err) == AfterOption(old(View()), XRayEnable(isXRayEnable), clientConstructible)
    {
      this.isXRayEnable := isXRayEnable;
      err := InitAppConfigClient();
    }

    /** One option applied to this object. Options never put configurations into the cache:
        a cache kept across the option only loses residents, a new one starts empty. */
    method Apply(opt: ConfigOption) returns (err: Option<Error>)
      requires Valid()
      modifies this, cache, cacheRefreshTicker
      ensures Valid()
      ensures Applied(View(), err) == AfterOption(old(View()), opt, clientConstructible)
      ensures cache != null ==>
                || (cache == old(cache) && Shrunk(old(cache.entries), cache.entries))
                || (fresh(cache) && cache.entries == map[])
      ensures cacheRefreshTicker == null || cacheRefreshTicker == old(cacheRefreshTicker) || fresh(cacheRefreshTicker)
    {
      match opt
      case RegionName(r) => err := WithRegionName(r);
      case ApplicationName(n) => err := WithApplicationName(n);
      case EnvironmentName(n) => err := WithEnvironmentName(n);
      case ClientId(c) => err := WithClientId(c);
      case IsCache(b) => err := WithIsCache(b);
      case CacheLimit(l) => err := WithCacheLimit(l);
      case CacheRefreshInterval(d) => err := WithCacheRefreshInterval(d);
      case Timeout(t) => err := WithTimeout(t);
      case XRayEnable(x) => err := WithXRayEnable(x);
    }

    /** The cache is the one at the start and has only lost residents, or it starts empty. */
    ghost predicate CacheOnlyShrank(cache0: Cache?<EnhancedConfiguration>, entries0: Entries)
      reads this, cache
    {
      cache != null ==> (cache == cache0 && Shrunk(entries0, cache.entries)) || cache.entries == map[]
    }

    /** One round of the loop of ApplyWithOptions: applies option `i` of a run that has not
        failed so far. */
    method ApplyNext(ghost start: Settings, ghost cache0: Cache?<EnhancedConfiguration>, ghost entries0: Entries,
                     opts: seq<ConfigOption>, i: nat) returns (err: Option<Error>)
      requires i < |opts| && Valid() && Consistent(start) && CacheOnlyShrank(cache0, entries0)
      requires Applied(View(), None) == ApplyAll(start, opts[..i], clientConstructible)
      modifies this, cache, cacheRefreshTicker
      ensures Valid() && CacheOnlyShrank(cache0, entries0)
      ensures err.None? ==> Applied(View(), None) == ApplyAll(start, opts[..i + 1], clientConstructible)
      ensures err.Some? ==> Applied(View(), err) == ApplyAll(start, opts, clientConstructible)
      ensures cache == null || cache == old(cache) || fresh(cache)
      ensures cacheRefreshTicker == null || cacheRefreshTicker == old(cacheRefreshTicker) || fresh(cacheRefreshTicker)
    {
      ghost var entries1 := if cache == null then map[] else cache.entries;
      err := Apply(opts[i]);
      ApplyAllStep(start, opts, i, clientConstructible);
      if err.Some? {
        ApplyAllFailsAt(start, opts, i, clientConstructible);
      }
      if cache != null && entries1 == map[] && !fresh(cache) {
        ShrunkFromEmpty(entries1, cache.entries);
      }
    }

    method ApplyWithOptions(opts: seq<ConfigOption>) returns (err: Option<Error>)
      requires Valid()
      modifies this, cache, cacheRefreshTicker
      ensures Valid()
      ensures Applied(View(), err) == ApplyAll(old(View()), opts, clientConstructible)
      ensures cache != null ==> (cache == old(cache) && Shrunk(old(cache.entries), cache.entries)) || cache.entries == map[]
    {
      ghost var start := View();
      ghost var cache0 := cache;
      ghost var entries0 := if cache == null then map[] else cache.entries;
      var i := 0;
      while i < |opts|
        invariant 0 <= i <= |opts| && Valid() && CacheOnlyShrank(cache0, entries0)
        invariant Applied(View(), None) == ApplyAll(start, opts[..i], clientConstructible)
        invariant cache == null || cache == old(cache) || fresh(cache)
        invariant cacheRefreshTicker == null || cacheRefreshTicker == old(cacheRefreshTicker) || fresh(cacheRefreshTicker)
      {
        err := ApplyNext(start, cache0, entries0, opts, i);
        if err.Some? {
          return;
        }
        i := i + 1;
      }
      assert opts[..|opts|] == opts;
      err := None;
    }

    /** NewWithOptions, with the environment variables and the generated client id as inputs. */
    static method NewWithOptions(service: Store, clientConstructible: bool, envRegion: string,
                                 envEnvironment: string, clientId: string, opts: seq<ConfigOption>)
      returns (r: Result<EnhancedAppConfig, Error>)
      ensures var spec := Built(envRegion, envEnvironment, clientId, opts, clientConstructible);
              && (r.Err? <==> spec.Err?)
              && (r.Err? ==> r.error == spec.error)
              && (r.Ok? ==> && fresh(r.value) && r.value.Valid()
                            && r.value.service == service && r.value.clientConstructible == clientConstructible
                            && r.value.View() == spec.value
                            && (r.value.cache != null ==> r.value.cache.entries == map[]))
    {
      var app := new EnhancedAppConfig(service, clientConstructible, envRegion, envEnvironment, clientId);
      var err := app.ApplyWithOptions(opts);
      if err.Some? {
        return Err(err.value);
      }
      if app.regionName == "" {
        return Err(MissingField("RegionName"));
      }
      if app.applicationName == "" {
        return Err(MissingField("ApplicationName"));
      }
      if app.environmentName == "" {
        return Err(MissingField("EnvironmentName"));
      }
      if app.appConfigClient.None? {
        err := app.InitAppConfigClient();
        if err.Some? {
          return Err(err.value);
        }
      }
      if app.cache == null && app.isCache {
        app.InitCache();
      }
      r := Ok(app);
    }
  }
}
