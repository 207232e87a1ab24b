/** The configuration of an EnhancedAppConfig as a value, and what each functional option
    and the whole construction do to it. The object itself, and the methods that change it,
    are in module AppConfig; each of those methods is proved to act on `View()` exactly as
    the functions here say. */
module AppConfigOptions {
  import opened Wrappers
  import opened AppConfigStore

  /** One second of a time.Duration, which counts nanoseconds. */
  const Second: int := 1_000_000_000
  const DefaultIsCache: bool := true
  /** The largest number of configurations the cache holds by default. */
  const DefaultCacheLimit: int := 500
  const DefaultCacheRefreshInterval: int := 300 * Second
  const DefaultTimeout: int := 10 * Second

  /** An AppConfig client: the region it was built for and whether it is traced. */
  datatype Client = Client(region: string, xRay: bool)

  /** A refresh ticker as the facade sees it. */
  datatype TickerState = TickerState(interval: int, running: bool)

  /** Every field of the facade; `liveCache` is the limit of the live cache when there is
      one, `ticker` the state of the live refresh ticker when there is one. */
  datatype Settings = Settings(
    applicationName: string,
    environmentName: string,
    clientId: string,
    regionName: string,
    isCache: bool,
    cacheLimit: int,
    cacheRefreshInterval: int,
    timeout: int,
    isXRayEnable: bool,
    client: Option<Client>,
    liveCache: Option<int>,
    ticker: Option<TickerState>)

  /** The functional options of the package. */
  datatype ConfigOption =
    | RegionName(regionName: string)
    | ApplicationName(applicationName: string)
    | EnvironmentName(environmentName: string)
    | ClientId(clientId: string)
    | IsCache(isCache: bool)
    | CacheLimit(cacheLimit: int)
    | CacheRefreshInterval(cacheRefreshInterval: int)
    | Timeout(timeout: int)
    | XRayEnable(isXRayEnable: bool)

  /** Settings after an option, and the error the option returned. */
  datatype Applied = Applied(settings: Settings, error: Option<Error>)

  /** A cache exists exactly when its ticker does. */
  predicate Consistent(s: Settings)
  {
    s.liveCache.Some? == s.ticker.Some?
  }

  /** A client, when there is one, is the one for the current region and tracing flag. */
  predicate ClientMatches(s: Settings)
  {
    s.client.Some? ==> s.client == Some(Client(s.regionName, s.isXRayEnable))
  }

  /** A live cache implies caching is switched on. */
  predicate CacheOnlyIfOn(s: Settings)
  {
    s.liveCache.Some? ==> s.isCache
  }

  /** The composite literal that starts NewWithOptions: region and environment come from
      the environment variables, the client id is freshly generated. */
  function Defaults(envRegion: string, envEnvironment: string, clientId: string): (s: Settings)
    ensures Consistent(s) && CacheOnlyIfOn(s)
    ensures s.applicationName == "" && s.isCache && !s.isXRayEnable
    ensures s.cacheLimit == 500 && s.cacheRefreshInterval == 300_000_000_000 && s.timeout == 10_000_000_000
    ensures s.client.None? && s.liveCache.None? && s.ticker.None?
    ensures s.regionName == envRegion && s.environmentName == envEnvironment && s.clientId == clientId
  {
    Settings("", envEnvironment, clientId, envRegion, DefaultIsCache, DefaultCacheLimit,
             DefaultCacheRefreshInterval, DefaultTimeout, false, None, None, None)
  }

  /** initAppConfigClient: builds a client for the current region and tracing flag, or
      fails and leaves everything as it was. */
  function InitClient(s: Settings, clientConstructible: bool): (a: Applied)
    ensures a.error.Some? <==> !clientConstructible
    ensures a.error.Some? ==> a == Applied(s, Some(ClientUnavailable))
    ensures a.error.None? ==> a.settings == s.(client := Some(Client(s.regionName, s.isXRayEnable)))
  {
    if clientConstructible then Applied(s.(client := Some(Client(s.regionName, s.isXRayEnable))), None)
    else Applied(s, Some(ClientUnavailable))
  }

  /** initCache: a cache with the current limit and a started ticker with the current interval. */
  function InitCache(s: Settings): (r: Settings)
    ensures Consistent(r) && r.liveCache == Some(s.cacheLimit)
    ensures r.ticker == Some(TickerState(s.cacheRefreshInterval, true))
    ensures r.(liveCache := s.liveCache, ticker := s.ticker) == s
  {
    s.(liveCache := Some(s.cacheLimit), ticker := Some(TickerState(s.cacheRefreshInterval, true)))
  }

  /** WithIsCache: switching off drops the cache and its ticker; switching on when there is
      no cache first replaces a zero limit and a zero interval by their defaults. */
  function SetIsCache(s: Settings, isCache: bool): Settings
  {
    var s1 := s.(isCache := isCache);
    if s.liveCache.Some? then
      if isCache then s1 else s1.(liveCache := None, ticker := None)
    else if isCache then
      InitCache(s1.(cacheLimit := if s.cacheLimit == 0 then DefaultCacheLimit else s.cacheLimit,
                    cacheRefreshInterval := if s.cacheRefreshInterval == 0 then DefaultCacheRefreshInterval
                                            else s.cacheRefreshInterval))
    else s1
  }

  /** WithCacheLimit: the field always; the live cache only for a non-zero limit. */
  function SetCacheLimit(s: Settings, cacheLimit: int): Settings
  {
    s.(cacheLimit := cacheLimit,
       liveCache := if s.liveCache.Some? && cacheLimit != 0 then Some(cacheLimit) else s.liveCache)
  }

  /** WithCacheRefreshInterval: the field always; the live ticker only for a non-zero interval. */
  function SetCacheRefreshInterval(s: Settings, interval: int): Settings
    requires Consistent(s)
  {
    s.(cacheRefreshInterval := interval,
       ticker := if s.liveCache.Some? && interval != 0 then Some(s.ticker.value.(interval := interval))
                 else s.ticker)
  }

  /** What one option does. */
  function AfterOption(s: Settings, opt: ConfigOption, clientConstructible: bool): (a: Applied)
    requires Consistent(s)
    ensures Consistent(a.settings)
    ensures CacheOnlyIfOn(s) ==> CacheOnlyIfOn(a.settings)
    ensures (s.ticker.Some? ==> s.ticker.value.running) ==> (a.settings.ticker.Some? ==> a.settings.ticker.value.running)
  {
    match opt
    case RegionName(r) => InitClient(s.(regionName := r), clientConstructible)
    case ApplicationName(n) => Applied(s.(applicationName := n), None)
    case EnvironmentName(n) => Applied(s.(environmentName := n), None)
    case ClientId(c) => Applied(s.(clientId := c), None)
    case IsCache(b) => Applied(SetIsCache(s, b), None)
    case CacheLimit(l) => Applied(SetCacheLimit(s, l), None)
    case CacheRefreshInterval(d) => Applied(SetCacheRefreshInterval(s, d), None)
    case Timeout(t) => Applied(s.(timeout := t), None)
    case XRayEnable(x) => InitClient(s.(isXRayEnable := x), clientConstructible)
  }

  /** ApplyWithOptions: the options in order, stopping at the first that fails. */
  function ApplyAll(s: Settings, opts: seq<ConfigOption>, clientConstructible: bool): (a: Applied)
    requires Consistent(s)
    ensures Consistent(a.settings)
    decreases |opts|
  {
    if opts == [] then Applied(s, None)
    else
      var before := ApplyAll(s, opts[..|opts| - 1], clientConstructible);
      if before.error.Some? then before
      else AfterOption(before.settings, opts[|opts| - 1], clientConstructible)
  }

  /** NewWithOptions: defaults, then the options, then the required fields in the order
      region, application, environment, then a client if none was built, then a cache if
      caching is on and none was built. */
  function Built(envRegion: string, envEnvironment: string, clientId: string,
                 opts: seq<ConfigOption>, clientConstructible: bool): (r: Result<Settings, Error>)
    ensures var a := ApplyAll(Defaults(envRegion, envEnvironment, clientId), opts, clientConstructible);
            a.error.Some? ==> r == Err(a.error.value)
    ensures var a := ApplyAll(Defaults(envRegion, envEnvironment, clientId), opts, clientConstructible);
            a.error.None? && a.settings.regionName == "" ==> r == Err(MissingField("RegionName"))
    ensures var a := ApplyAll(Defaults(envRegion, envEnvironment, clientId), opts, clientConstructible);
            a.error.None? && a.settings.regionName != "" && a.settings.applicationName == "" ==>
            r == Err(MissingField("ApplicationName"))
    ensures var a := ApplyAll(Defaults(envRegion, envEnvironment, clientId), opts, clientConstructible);
            var n := a.settings;
            a.error.None? && n.regionName != "" && n.applicationName != "" && n.environmentName == "" ==>
            r == Err(MissingField("EnvironmentName"))
    ensures var a := ApplyAll(Defaults(envRegion, envEnvironment, clientId), opts, clientConstructible);
            r.Ok? ==> a.error.None? && r.value.regionName == a.settings.regionName != "" &&
                      r.value.applicationName == a.settings.applicationName != "" &&
                      r.value.environmentName == a.settings.environmentName != ""
  {
    var a := ApplyAll(Defaults(envRegion, envEnvironment, clientId), opts, clientConstructible);
    if a.error.Some? then Err(a.error.value)
    else if a.settings.regionName == "" then Err(MissingField("RegionName"))
    else if a.settings.applicationName == "" then Err(MissingField("ApplicationName"))
    else if a.settings.environmentName == "" then Err(MissingField("EnvironmentName"))
    else
      var c := if a.settings.client.None? then InitClient(a.settings, clientConstructible)
               else Applied(a.settings, None);
      if c.error.Some? then Err(c.error.value)
      else if c.settings.liveCache.None? && c.settings.isCache then Ok(InitCache(c.settings))
      else Ok(c.settings)
  }

  // ---- properties of the options ----

  /** The plain setters change their own field only and never fail. */
  lemma SettersChangeOneField(s: Settings, ok: bool, v: string, t: int)
    requires Consistent(s)
    ensures AfterOption(s, ApplicationName(v), ok) == Applied(s.(applicationName := v), None)
    ensures AfterOption(s, EnvironmentName(v), ok) == Applied(s.(environmentName := v), None)
    ensures AfterOption(s, ClientId(v), ok) == Applied(s.(clientId := v), None)
    ensures AfterOption(s, Timeout(t), ok) == Applied(s.(timeout := t), None)
  {
  }

  /** The region and the tracing flag are stored even when the client cannot be rebuilt. */
  lemma ClientOptionsStoreField(s: Settings, r: string, x: bool)
    requires Consistent(s)
    ensures AfterOption(s, RegionName(r), false) == Applied(s.(regionName := r), Some(ClientUnavailable))
    ensures AfterOption(s, XRayEnable(x), false) == Applied(s.(isXRayEnable := x), Some(ClientUnavailable))
    ensures AfterOption(s, RegionName(r), true).settings.client == Some(Client(r, s.isXRayEnable))
    ensures AfterOption(s, XRayEnable(x), true).settings.client == Some(Client(s.regionName, x))
  {
  }

  /** Switching caching off tears down a live cache and its ticker. */
  lemma IsCacheOffDropsCache(s: Settings)
    requires Consistent(s)
    ensures var r := SetIsCache(s, false);
            && !r.isCache && r.liveCache.None? && r.ticker.None?
            && r.cacheLimit == s.cacheLimit && r.cacheRefreshInterval == s.cacheRefreshInterval
  {
  }

  /** Switching caching on without a cache creates one, restoring zero limit and interval
      to their defaults, so the new cache and ticker never start from zero. */
  lemma IsCacheOnCreatesCache(s: Settings)
    requires Consistent(s) && s.liveCache.None?
    ensures var r := SetIsCache(s, true);
            && r.isCache && Consistent(r)
            && r.cacheLimit == (if s.cacheLimit == 0 then 500 else s.cacheLimit) != 0
            && r.cacheRefreshInterval == (if s.cacheRefreshInterval == 0 then 300 * Second
                                          else s.cacheRefreshInterval) != 0
            && r.liveCache == Some(r.cacheLimit)
            && r.ticker == Some(TickerState(r.cacheRefreshInterval, true))
  {
  }

  /** When the flag already agrees with whether a cache exists, only the flag is written:
      a second WithIsCache with the same value changes nothing. */
  lemma IsCacheIdempotent(s: Settings, b: bool)
    requires Consistent(s) && CacheOnlyIfOn(s)
    ensures s.liveCache.Some? == s.isCache ==> SetIsCache(s, s.isCache) == s
    ensures b == s.liveCache.Some? ==> SetIsCache(s, b) == s.(isCache := b)
    ensures SetIsCache(SetIsCache(s, b), b) == SetIsCache(s, b)
  {
  }

  /** WithCacheLimit always records the limit; a live cache follows only a non-zero limit. */
  lemma CacheLimitEffect(s: Settings, l: int)
    requires Consistent(s)
    ensures var r := SetCacheLimit(s, l);
            && r.cacheLimit == l
            && (r.liveCache != s.liveCache <==> s.liveCache.Some? && l != 0 && s.liveCache.value != l)
            && (s.liveCache.Some? && l != 0 ==> r.liveCache == Some(l))
            && r.(cacheLimit := s.cacheLimit, liveCache := s.liveCache) == s
  {
  }

  /** WithCacheRefreshInterval always records the interval; a live ticker follows only a
      non-zero interval, and keeps running or stopped as it was. */
  lemma CacheRefreshIntervalEffect(s: Settings, d: int)
    requires Consistent(s)
    ensures var r := SetCacheRefreshInterval(s, d);
            && r.cacheRefreshInterval == d && Consistent(r)
            && (s.ticker.Some? && d != 0 ==> r.ticker == Some(TickerState(d, s.ticker.value.running)))
            && (s.ticker.None? || d == 0 ==> r.ticker == s.ticker)
            && r.(cacheRefreshInterval := s.cacheRefreshInterval, ticker := s.ticker) == s
  {
  }

  /** An option fails only by failing to rebuild the client. */
  lemma OptionFailsOnlyOnClient(s: Settings, opt: ConfigOption, ok: bool)
    requires Consistent(s)
    ensures AfterOption(s, opt, ok).error.Some? ==>
              AfterOption(s, opt, ok).error == Some(ClientUnavailable) && !ok &&
              (opt.RegionName? || opt.XRayEnable?)
  {
  }

  /** ApplyWithOptions fails only when the client cannot be built and some option rebuilds it. */
  lemma {:induction false} ApplyAllFailsOnlyOnClient(s: Settings, opts: seq<ConfigOption>, ok: bool)
    requires Consistent(s)
    ensures ApplyAll(s, opts, ok).error.Some? ==>
              ApplyAll(s, opts, ok).error == Some(ClientUnavailable) && !ok &&
              exists i :: 0 <= i < |opts| && (opts[i].RegionName? || opts[i].XRayEnable?)
    decreases |opts|
  {
    if opts != [] {
      var init := opts[..|opts| - 1];
      ApplyAllFailsOnlyOnClient(s, init, ok);
      var before := ApplyAll(s, init, ok);
      if before.error.Some? {
        var i :| 0 <= i < |init| && (init[i].RegionName? || init[i].XRayEnable?);
        assert opts[i] == init[i];
      } else {
        OptionFailsOnlyOnClient(before.settings, opts[|opts| - 1], ok);
      }
    }
  }

  /** Options after the first failing one are never applied. */
  lemma {:induction false} ApplyAllStopsAtFirstError(s: Settings, opts: seq<ConfigOption>,
                                                     rest: seq<ConfigOption>, ok: bool)
    requires Consistent(s) && ApplyAll(s, opts, ok).error.Some?
    ensures ApplyAll(s, opts + rest, ok) == ApplyAll(s, opts, ok)
    decreases |rest|
  {
    if rest != [] {
      var init := rest[..|rest| - 1];
      ApplyAllStopsAtFirstError(s, opts, init, ok);
      assert (opts + rest)[..|opts + rest| - 1] == opts + init;
    } else {
      assert opts + rest == opts;
    }
  }

  /** One more option extends a run that has not failed. */
  lemma ApplyAllStep(s: Settings, opts: seq<ConfigOption>, i: nat, ok: bool)
    requires Consistent(s) && i < |opts| && ApplyAll(s, opts[..i], ok).error.None?
    ensures ApplyAll(s, opts[..i + 1], ok) == AfterOption(ApplyAll(s, opts[..i], ok).settings, opts[i], ok)
  {
    assert opts[..i + 1][..i] == opts[..i];
  }

  /** A run that fails at option `i` is the outcome of the whole list. */
  lemma ApplyAllFailsAt(s: Settings, opts: seq<ConfigOption>, i: nat, ok: bool)
    requires Consistent(s) && i < |opts| && ApplyAll(s, opts[..i + 1], ok).error.Some?
    ensures ApplyAll(s, opts, ok) == ApplyAll(s, opts[..i + 1], ok)
  {
    ApplyAllStopsAtFirstError(s, opts[..i + 1], opts[i + 1..], ok);
    assert opts[..i + 1] + opts[i + 1..] == opts;
  }

  /** Applying options keeps a cache only while caching is on, and a cache always with a ticker. */
  lemma {:induction false} ApplyAllKeepsCacheInvariant(s: Settings, opts: seq<ConfigOption>, ok: bool)
    requires Consistent(s) && CacheOnlyIfOn(s)
    ensures CacheOnlyIfOn(ApplyAll(s, opts, ok).settings)
    decreases |opts|
  {
    if opts != [] {
      ApplyAllKeepsCacheInvariant(s, opts[..|opts| - 1], ok);
    }
  }

  /** A constructed facade has a client for its region and tracing flag, and a cache with a
      started ticker exactly when caching is on. */
  lemma BuiltHasClientAndCacheIffOn(envRegion: string, envEnvironment: string, clientId: string,
                                    opts: seq<ConfigOption>, ok: bool)
    ensures var r := Built(envRegion, envEnvironment, clientId, opts, ok);
            r.Ok? ==> && r.value.client == Some(Client(r.value.regionName, r.value.isXRayEnable))
                      && Consistent(r.value)
                      && (r.value.liveCache.Some? <==> r.value.isCache)
                      && (r.value.ticker.Some? ==> r.value.ticker.value.running)
  {
    var d := Defaults(envRegion, envEnvironment, clientId);
    ApplyAllKeepsCacheInvariant(d, opts, ok);
    ApplyAllTickersRun(d, opts, ok);
    ApplyAllKeepsClientMatching(d, opts, ok);
  }

  /** The construction keeps every field the options left, keeps a client or a cache an
      option already built, builds a missing cache from the current limit and interval, and
      fails when no client was built and none can be. */
  lemma BuiltKeepsOptions(envRegion: string, envEnvironment: string, clientId: string,
                          opts: seq<ConfigOption>, ok: bool)
    ensures var a := ApplyAll(Defaults(envRegion, envEnvironment, clientId), opts, ok);
            var n := a.settings;
            var r := Built(envRegion, envEnvironment, clientId, opts, ok);
            && (r.Ok? ==> r.value.(client := n.client, liveCache := n.liveCache, ticker := n.ticker) == n)
            && (r.Ok? && n.client.Some? ==> r.value.client == n.client)
            && (r.Ok? && n.liveCache.Some? ==> r.value.liveCache == n.liveCache && r.value.ticker == n.ticker)
            && (r.Ok? && n.liveCache.None? && n.isCache ==>
                  r.value.liveCache == Some(n.cacheLimit)
                  && r.value.ticker == Some(TickerState(n.cacheRefreshInterval, true)))
            && (r.Ok? && n.liveCache.None? && !n.isCache ==> r.value.liveCache.None? && r.value.ticker == n.ticker)
            && (a.error.None? && n.regionName != "" && n.applicationName != "" && n.environmentName != ""
                  && n.client.None? && !ok
                ==> r == Err(ClientUnavailable))
  {
  }

  /** Options that succeed never leave a client built for an earlier region or tracing
      flag: the two options that change them rebuild the client or fail. */
  lemma {:induction false} ApplyAllKeepsClientMatching(s: Settings, opts: seq<ConfigOption>, ok: bool)
    requires Consistent(s) && ClientMatches(s)
    ensures var a := ApplyAll(s, opts, ok);
            a.error.None? ==> ClientMatches(a.settings)
    decreases |opts|
  {
    if opts != [] {
      ApplyAllKeepsClientMatching(s, opts[..|opts| - 1], ok);
      var before := ApplyAll(s, opts[..|opts| - 1], ok);
      if before.error.None? {
        OptionKeepsClientMatching(before.settings, opts[|opts| - 1], ok);
      }
    }
  }

  /** One option that succeeds keeps the client matching the region and tracing flag. */
  lemma OptionKeepsClientMatching(s: Settings, opt: ConfigOption, ok: bool)
    requires Consistent(s) && ClientMatches(s)
    ensures var a := AfterOption(s, opt, ok);
            a.error.None? ==> ClientMatches(a.settings)
  {
  }

  /** Options never stop a ticker: any live ticker is running. */
  lemma {:induction false} ApplyAllTickersRun(s: Settings, opts: seq<ConfigOption>, ok: bool)
    requires Consistent(s) && (s.ticker.Some? ==> s.ticker.value.running)
    ensures var r := ApplyAll(s, opts, ok).settings;
            r.ticker.Some? ==> r.ticker.value.running
    decreases |opts|
  {
    if opts != [] {
      ApplyAllTickersRun(s, opts[..|opts| - 1], ok);
    }
  }

  /** With only an application name and both variables set, the defaults stand: caching on
      with limit 500 and a five-minute refresh, a ten-second timeout, no tracing. */
  lemma DefaultConstruction(envRegion: string, envEnvironment: string, clientId: string, app: string)
    requires envRegion != "" && envEnvironment != "" && app != ""
    ensures Built(envRegion, envEnvironment, clientId, [ApplicationName(app)], true) ==
            Ok(Settings(app, envEnvironment, clientId, envRegion, true, 500, 300 * Second, 10 * Second,
                        false, Some(Client(envRegion, false)), Some(500),
                        Some(TickerState(300 * Second, true))))
  {
    var d := Defaults(envRegion, envEnvironment, clientId);
    assert [ApplicationName(app)][..0] == [];
    assert ApplyAll(d, [ApplicationName(app)], true) == Applied(d.(applicationName := app), None);
  }

  /** A cache switched off by an option is not recreated by the construction. */
  lemma CacheOffStaysOff(envRegion: string, envEnvironment: string, clientId: string,
                         opts: seq<ConfigOption>, ok: bool)
    requires var r := Built(envRegion, envEnvironment, clientId, opts + [IsCache(false)], ok);
             r.Ok?
    ensures var r := Built(envRegion, envEnvironment, clientId, opts + [IsCache(false)], ok);
            !r.value.isCache && r.value.liveCache.None? && r.value.ticker.None?
  {
    var d := Defaults(envRegion, envEnvironment, clientId);
    assert (opts + [IsCache(false)])[..|opts|] == opts;
  }
}
