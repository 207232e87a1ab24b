# AWS AppConfig enhanced client — a Dafny model

This project models the client-side logic of the AppConfig part of
`aws-sdk-enhanced-go`. That part has two facades over the AWS AppConfig service.

* **`EnhancedAppConfigAdvance`** (`service/appconfig/advance`) publishes configurations.
  * It resolves names to ids by paging through the service's listings.
  * It records what it learns in four maps shared by the whole process: applications, environments, configuration profiles and deployment strategies.
  * It creates, updates and deletes hosted configurations.
  * A create or an update publishes a new version with the deployment strategy `AllAtOnceNotBake`.
  * A delete first removes every hosted version, page by page.
* **`EnhancedAppConfig`** (`service/appconfig`) reads configurations.
  * It has optional caching with a bounded cache.
  * A periodic ticker refreshes every cached key with the version token the key was fetched with.
  * The refresh evicts keys whose configuration profile no longer exists and overwrites keys whose content changed.
  * It is configured by functional options (`WithIsCache`, `WithCacheLimit`, …).

The files:

* `wrappers.dfy` — `Option`, `Result`, and `Reply`. A `Reply` is the three answers the SDK gives:
  * an output;
  * a nil output without an error;
  * an error.
* `text.dfy` — the string helpers the source relies on:
  * `strings.Contains`;
  * `strings.SplitN(s, sep, 2)[0]`;
  * `fmt.Sprintf("%d")`, proved against `DecimalValue`, the number a digit string denotes.
* `store.dfy` — the AppConfig service as seen by the client.
  * The service is a fixed `Oracle` of answers per request.
  * The `Store` class holds a `log` field recording every request sent, in order.
  * A paginated listing is a sequence of pages, and a next token is the index of the next page.
* `listing.dfy` — the four `list*` pagination loops.
  * They are one method, `ListAll`, proved against the function `PaginateFrom`.
  * The lemmas say which pages are read, where the listing stops, and what lands in the map.
* `advance.dfy` — the publishing facade.
  * The shared maps are the class `NameRegistry`.
  * Each operation is a method whose new state and request log equal a specification function: `StartupSpec`, `Resolve`, `CreateSpec`, `UpdateSpec`, `DeleteSpec`, `DeploySpec` or `DeleteVersionsFrom`.
  * Lemmas state what those functions promise.
* `cache.dfy` — abstract stand-ins for the cache and ticker packages, as far as the facade relies on them. Those packages are not part of this model. `Shrunk` and `AddedTo` say what a resize or an add may do to the residents.
* `options.dfy` — the reading facade's configuration as a value (`Settings`).
  * It covers what each functional option does (`AfterOption`), the option loop (`ApplyAll`) and the whole construction (`Built`).
  * The lemmas cover:
    * the cache and ticker invariants;
    * the defaults;
    * where errors can come from;
    * the order of the required-field checks.
* `appconfig.dfy` — the reading facade.
  * It is the class `EnhancedAppConfig`, with the Go fields.
  * `View()` abstracts the object to `Settings`.
  * Read, refresh and sweep are proved against `ReadSpec`, `RefreshKeySpec` and `SweepSpec`, with lemmas about each.

## Model

| member | source | states |
|---|---|---|
| Text.Contains | service/appconfig/enhanced_app_config.go:186 | true exactly when the marker occurs somewhere in the message |
| Text.BeforeFirst | service/appconfig/advance/enhanced_app_config_advance.go:217 | the result is the longest prefix of `s` that contains no separator. It is all of `s` iff the separator never occurs, and otherwise the separator starts right after it |
| Text.NatToDecimal | service/appconfig/advance/enhanced_app_config_advance.go:187 | decimal digits whose value (`DecimalValue`) is the number; no leading zero, and `"0"` exactly for zero |
| Text.IntToDecimal | service/appconfig/advance/enhanced_app_config_advance.go:187 | a leading minus exactly for a negative number. The digits that follow, or the whole text for a non-negative number, have the number's magnitude as value and no leading zero |
| AppConfigListing.ListAll | service/appconfig/advance/enhanced_app_config_advance.go:338-363 | the map, the error and the requests sent are exactly those of paginating from the first page. The request log grows by one listing request per page read |
| AppConfigListing.PaginateStoresVisited | service/appconfig/advance/enhanced_app_config_advance.go:353-355 | the map after listing is the starting map with every item of every page read stored in page order, so a later item wins |
| AppConfigListing.StoreItemsAppend | service/appconfig/advance/enhanced_app_config_advance.go:353-355 | storing two runs of items equals storing the first, then the second |
| AppConfigListing.StoreItemsKeys | service/appconfig/advance/enhanced_app_config_advance.go:353-355 | storing items adds exactly their names to the keys |
| AppConfigListing.StoreItemsLastWins | service/appconfig/advance/enhanced_app_config_advance.go:353-355 | a name maps to the id of its last occurrence |
| AppConfigListing.StoreItemsElsewhere | service/appconfig/advance/enhanced_app_config_advance.go:353-355 | a name on no listed item keeps its earlier id |
| AppConfigListing.PaginateKeeps | service/appconfig/advance/enhanced_app_config_advance.go:338-363 | listing never removes a name from the map |
| AppConfigListing.PaginateStops | service/appconfig/advance/enhanced_app_config_advance.go:340-361 | every page before the last one read had items and a next token. The last one is an error (the error returned), an empty page or a page without a next token |
| AppConfigAdvance.NameRegistry.constructor | service/appconfig/advance/enhanced_app_config_advance.go:29-33 | the four shared maps start empty |
| AppConfigAdvance.Resolve | service/appconfig/advance/enhanced_app_config_advance.go:143-160 | a known name resolves with no request. An unknown name triggers a full listing. The lookup returns that listing's error, and finds the name iff the listing succeeded and stored it. An error yields no id, and the map only grows |
| AppConfigAdvance.RepeatedMissListsAgain | service/appconfig/advance/enhanced_app_config_advance.go:143-160 | a name on no page is not found twice, and each lookup runs a full listing, because misses are not remembered |
| AppConfigAdvance.PaginateMissesAbsent | service/appconfig/advance/enhanced_app_config_advance.go:338-363 | a listing never adds a name that no page carries |
| AppConfigAdvance.DeploySpec | service/appconfig/advance/enhanced_app_config_advance.go:222-236 | without the `AllAtOnceNotBake` strategy in the map, it fails with no request. Otherwise it sends one StartDeployment with that strategy's id and returns its answer: an output iff the service returned one, and an error iff the service failed, with that failure's message |
| AppConfigAdvance.CreateRefusesExisting | service/appconfig/advance/enhanced_app_config_advance.go:162-172 | a name already mapped is refused with no request and no change |
| AppConfigAdvance.CreateRegistersAfterDeployment | service/appconfig/advance/enhanced_app_config_advance.go:162-198 | on success the map gains the new name and the last request was a deployment that returned an output. Every failure leaves the resolver's map. A refused or failed lookup sends no mutating request |
| AppConfigAdvance.UpdateKeepsMapping | service/appconfig/advance/enhanced_app_config_advance.go:118-141 | update never changes the map, refuses an unresolvable name, and succeeds only for a resolved name |
| AppConfigAdvance.CreateSucceedsIffDeployed | service/appconfig/advance/enhanced_app_config_advance.go:162-198 | for a name not yet known, the outcome follows the service's answers step by step. A failed profile create stops after one request, and a failed version create after two. A missing strategy is refused. Otherwise the profile, version and deployment requests are sent, the version number being the decimal text of the created version. Create succeeds exactly when the deployment returns an output, and then the map gains the name with the created profile's id; a failed deployment reports its message |
| AppConfigAdvance.UpdateSucceedsIffDeployed | service/appconfig/advance/enhanced_app_config_advance.go:118-141 | for a resolved name, a failed version create stops after that request, and a missing strategy is refused. Otherwise the version and deployment requests are sent. Update succeeds exactly when the deployment returns an output, and a failed deployment reports its message |
| AppConfigAdvance.DeleteInputs | service/appconfig/advance/enhanced_app_config_advance.go:293-298 | one delete request per listed version, in order |
| AppConfigAdvance.DeleteItemsAll | service/appconfig/advance/enhanced_app_config_advance.go:293-307 | deleting a page succeeds iff every delete returned an output, and then one delete per version was sent in order |
| AppConfigAdvance.DeleteItemsStopsAt | service/appconfig/advance/enhanced_app_config_advance.go:293-307 | when the deletes before version `j` returned outputs and delete `j` did not, the requests are exactly the deletes up to and including `j`. The error is delete `j`'s error, or the nil-output error naming that version |
| AppConfigAdvance.SweepFailurePages | service/appconfig/advance/enhanced_app_config_advance.go:279-313 | a failing sweep read every earlier page in full and deleted all its versions; the failing page is the last one read. Its listing error, or the error of its deletes, is the sweep's error |
| AppConfigAdvance.SweepFailureLog | service/appconfig/advance/enhanced_app_config_advance.go:279-313 | a failing sweep's requests are `FailureCalls` of the pages read, so nothing is sent after the request that failed |
| AppConfigAdvance.FailureCallsSplit | service/appconfig/advance/enhanced_app_config_advance.go:279-313 | those requests are, page by page, the listing and deletes of the full pages, then the failing page's listing and the deletes tried on it |
| AppConfigAdvance.SweepCallsShape | service/appconfig/advance/enhanced_app_config_advance.go:277-315 | a successful sweep sends, page by page, the listing request followed by one delete per version on that page |
| AppConfigAdvance.SweepFullPagesBeforeLast | service/appconfig/advance/enhanced_app_config_advance.go:279-313 | every page before the last one a successful sweep read had versions and a next token |
| AppConfigAdvance.SweepLastPage | service/appconfig/advance/enhanced_app_config_advance.go:289-312 | a successful sweep stops at an empty page or a page without a next token |
| AppConfigAdvance.DeleteAfterVersions | service/appconfig/advance/enhanced_app_config_advance.go:238-257 | an unresolvable name is refused. A failed version sweep passes its error on, sends no profile delete and keeps the map. After a successful sweep exactly one profile delete is sent: success iff it returned an output, its failure is returned as the error, and the name is forgotten only on success |
| AppConfigAdvance.MissingRequired | service/appconfig/advance/enhanced_app_config_advance.go:55-67 | no error iff all three names are set. Otherwise it names the first missing one in the order application, region, environment |
| AppConfigAdvance.EnhancedAppConfigAdvance.constructor | service/appconfig/advance/enhanced_app_config_advance.go:40-48 | the names given, empty ids |
| AppConfigAdvance.EnhancedAppConfigAdvance.NewWithOptions | service/appconfig/advance/enhanced_app_config_advance.go:39-97 | A missing field fails first, then an unbuildable client, both with no request and no map change. Otherwise the four maps, the request log, the error and both ids are those of `StartupSpec` |
| AppConfigAdvance.StartupResolvesNames | service/appconfig/advance/enhanced_app_config_advance.go:76-96 | a construction that succeeds found both names in the maps it listed and took its ids from them |
| AppConfigAdvance.StartupKeepsNames | service/appconfig/advance/enhanced_app_config_advance.go:76-96 | construction only adds names to the four maps |
| AppConfigAdvance.StartupSendsListings | service/appconfig/advance/enhanced_app_config_advance.go:76-96 | construction sends listing requests only, first for page one of the applications. On success the last request lists the resolved application's profiles |
| AppConfigAdvance.EnhancedAppConfigAdvance.ListApplications | service/appconfig/advance/enhanced_app_config_advance.go:391-415 | the applications map becomes the paginated listing; the other maps are unchanged |
| AppConfigAdvance.EnhancedAppConfigAdvance.ListEnvironments | service/appconfig/advance/enhanced_app_config_advance.go:417-442 | the environments map becomes the listing for the application; the other maps are unchanged |
| AppConfigAdvance.EnhancedAppConfigAdvance.ListConfigurationProfiles | service/appconfig/advance/enhanced_app_config_advance.go:338-363 | the profiles map becomes the listing for the application; the other maps are unchanged |
| AppConfigAdvance.EnhancedAppConfigAdvance.ListDeploymentStrategies | service/appconfig/advance/enhanced_app_config_advance.go:365-389 | the strategies map becomes the paginated listing; the other maps are unchanged |
| AppConfigAdvance.EnhancedAppConfigAdvance.NameToId | service/appconfig/advance/enhanced_app_config_advance.go:317-336 | an unknown application fails with no request. Otherwise the environments are listed, and the ids are set only when both names are known. An error leaves the ids as they were |
| AppConfigAdvance.EnhancedAppConfigAdvance.GetConfigurationProfileId | service/appconfig/advance/enhanced_app_config_advance.go:143-160 | id, found and error are those of `Resolve`, and so are the new profiles map and the requests sent |
| AppConfigAdvance.EnhancedAppConfigAdvance.CreateProfile | service/appconfig/advance/enhanced_app_config_advance.go:200-208 | one CreateConfigurationProfile request with location `hosted` |
| AppConfigAdvance.EnhancedAppConfigAdvance.CreateHostedConfigurationVersion | service/appconfig/advance/enhanced_app_config_advance.go:210-220 | one CreateHostedConfigurationVersion request whose content type is the detected type cut at the first `"; "` |
| AppConfigAdvance.EnhancedAppConfigAdvance.StartDeployment | service/appconfig/advance/enhanced_app_config_advance.go:222-236 | output, error and requests are those of `DeploySpec` |
| AppConfigAdvance.EnhancedAppConfigAdvance.CreateConfiguration | service/appconfig/advance/enhanced_app_config_advance.go:162-198 | result, new profiles map and request log are those of `CreateSpec`; the other maps are unchanged |
| AppConfigAdvance.EnhancedAppConfigAdvance.UpdateConfiguration | service/appconfig/advance/enhanced_app_config_advance.go:118-141 | result, new profiles map and request log are those of `UpdateSpec`; the other maps are unchanged |
| AppConfigAdvance.EnhancedAppConfigAdvance.DeleteVersions | service/appconfig/advance/enhanced_app_config_advance.go:293-307 | error and requests are those of `DeleteItemsSpec` on the page. That function stops at the first error or nil output (`DeleteItemsStopsAt`), and otherwise sends one delete per version (`DeleteItemsAll`) |
| AppConfigAdvance.EnhancedAppConfigAdvance.DeleteAllConfigurationVersion | service/appconfig/advance/enhanced_app_config_advance.go:277-315 | error and request log are those of the whole sweep `DeleteVersionsFrom` from the first page |
| AppConfigAdvance.EnhancedAppConfigAdvance.DeleteProfile | service/appconfig/advance/enhanced_app_config_advance.go:259-275 | the version sweep first. On success, one DeleteConfigurationProfile whose answer is returned |
| AppConfigAdvance.EnhancedAppConfigAdvance.DeleteConfiguration | service/appconfig/advance/enhanced_app_config_advance.go:238-257 | result, new profiles map and request log are those of `DeleteSpec`; the other maps are unchanged |
| AppConfigOptions.Defaults | service/appconfig/enhanced_app_config.go:24-30 | the starting configuration: no application name, caching on, limit 500, 5-minute refresh, 10-second timeout, no tracing. There is no client, cache or ticker yet. Region and environment are the environment variables' values, and the client id is the one given |
| AppConfigOptions.InitClient | service/appconfig/enhanced_app_config.go:116-138 | fails iff no client can be built, leaving everything. Otherwise the client is for the current region and tracing flag |
| AppConfigOptions.InitCache | service/appconfig/enhanced_app_config.go:109-114 | a cache with the current limit and a running ticker with the current interval; nothing else changes |
| AppConfigOptions.AfterOption | service/appconfig/options.go:19-135 | every option keeps the cache and its ticker existing together. It keeps "a cache only while caching is on" and never stops a running ticker |
| AppConfigOptions.ApplyAll | service/appconfig/enhanced_app_config.go:318-326 | applying options in order keeps the cache and its ticker existing together |
| AppConfigOptions.Built | service/appconfig/enhanced_app_config.go:60-107 | an option error comes first. Then the missing-field errors in the order region, application, environment. A built facade carries the non-empty names the options left |
| AppConfigOptions.BuiltKeepsOptions | service/appconfig/enhanced_app_config.go:60-107 | a built facade keeps every setting the options left, apart from client, cache and ticker. A client or a cache an option already built is kept. Otherwise caching builds a cache of the configured size and a running ticker at the refresh interval. With the names present and no client built, construction fails when no client can be constructed |
| AppConfigOptions.SettersChangeOneField | service/appconfig/options.go:32-51 | the application, environment, client id and timeout setters change their own field only and never fail |
| AppConfigOptions.ClientOptionsStoreField | service/appconfig/options.go:19-30 | region and tracing are stored even when the client cannot be rebuilt, and then the error is returned. Otherwise the new client is for the new value |
| AppConfigOptions.IsCacheOffDropsCache | service/appconfig/options.go:57-64 | switching caching off drops the cache and the ticker, keeping limit and interval |
| AppConfigOptions.IsCacheOnCreatesCache | service/appconfig/options.go:65-77 | switching caching on without a cache restores a zero limit or interval to its default. Then it creates a cache with that limit and a running ticker with that interval |
| AppConfigOptions.IsCacheIdempotent | service/appconfig/options.go:53-81 | applying the same `WithIsCache` twice is the same as once. When the new flag agrees with whether a cache exists, only the flag is written |
| AppConfigOptions.CacheLimitEffect | service/appconfig/options.go:83-95 | the limit field is always set. A live cache takes a non-zero limit; otherwise it keeps its limit. Nothing else changes |
| AppConfigOptions.CacheRefreshIntervalEffect | service/appconfig/options.go:97-109 | the interval field is always set. A live ticker takes a non-zero interval and keeps running or not; nothing else changes |
| AppConfigOptions.OptionFailsOnlyOnClient | service/appconfig/options.go:19-135 | an option fails only when it is the region or tracing option and no client can be built |
| AppConfigOptions.ApplyAllFailsOnlyOnClient | service/appconfig/enhanced_app_config.go:318-326 | ApplyWithOptions fails only with the client error, and only if some option is a region or tracing option |
| AppConfigOptions.ApplyAllStopsAtFirstError | service/appconfig/enhanced_app_config.go:319-323 | options after the first failing one have no effect |
| AppConfigOptions.ApplyAllStep | service/appconfig/enhanced_app_config.go:319-323 | one more option extends a run that has not failed by that option's effect |
| AppConfigOptions.ApplyAllFailsAt | service/appconfig/enhanced_app_config.go:319-323 | a run failing at option `i` is the outcome of the whole list |
| AppConfigOptions.ApplyAllKeepsCacheInvariant | service/appconfig/enhanced_app_config.go:318-326 | options keep a live cache only while caching is on |
| AppConfigOptions.ApplyAllTickersRun | service/appconfig/enhanced_app_config.go:318-326 | options never leave a live ticker stopped |
| AppConfigOptions.OptionKeepsClientMatching | service/appconfig/options.go:19-30 | an option that succeeds keeps any client built for the current region and tracing flag |
| AppConfigOptions.ApplyAllKeepsClientMatching | service/appconfig/enhanced_app_config.go:318-326 | options that succeed keep any client built for the current region and tracing flag |
| AppConfigOptions.BuiltHasClientAndCacheIffOn | service/appconfig/enhanced_app_config.go:91-104 | a built facade has a client for its region and tracing flag. It has a cache and a running ticker exactly when caching is on |
| AppConfigOptions.DefaultConstruction | service/appconfig/enhanced_app_config.go:56-107 | with only an application name and both environment variables set, the facade has every default, a client, a 500-entry cache and a running 5-minute ticker |
| AppConfigOptions.CacheOffStaysOff | service/appconfig/enhanced_app_config.go:98-104 | a facade whose last option switched caching off has no cache and no ticker |
| AppConfig.MakeRequest | service/appconfig/enhanced_app_config.go:297-306 | the request carries the facade's application, environment and client id, the name and the version token if any |
| AppConfig.ToConfiguration | service/appconfig/enhanced_app_config.go:281-294 | empty content becomes "no content", otherwise the content. The version token is passed on; not marked cached |
| AppConfig.ReadSpec | service/appconfig/enhanced_app_config.go:221-258 | a non-nil cached value is returned with no request. Otherwise one request is sent. A service error or empty content fails and writes nothing. Content is returned uncached and written back marked cached iff a cache exists |
| AppConfig.ReadThenCached | service/appconfig/enhanced_app_config.go:221-258 | after a read that wrote back, the same read is served from the cache with no request, the same content and the same version |
| AppConfig.Decide | service/appconfig/enhanced_app_config.go:184-207 | evict iff the error names a missing profile. Overwrite iff there is new content and a version token; keep otherwise |
| AppConfig.RefreshKeyIsLocal | service/appconfig/enhanced_app_config.go:172-207 | a refresh touches only its own key and adds no key. It keeps entries with content. It sends a request iff the key holds a non-nil value, and that request carries the cached version |
| AppConfig.RefreshKeyEffect | service/appconfig/enhanced_app_config.go:172-207 | for a non-nil entry: a missing-profile error deletes just that key, and new content with a version token overwrites the entry with the fetched one (not marked cached). Any other answer leaves the cache untouched |
| AppConfig.RefreshUnchangedIsIdentity | service/appconfig/enhanced_app_config.go:202-203 | an "unchanged" answer leaves the cache as it was |
| AppConfig.RefreshDependsOnOwnEntry | service/appconfig/enhanced_app_config.go:172-207 | what a refresh does to its key depends only on that key's entry |
| AppConfig.RefreshCommutes | service/appconfig/enhanced_app_config.go:148-153 | refreshes of two different keys commute, so the concurrent refreshes of one sweep cannot interfere |
| AppConfig.SweepOutsideSnapshot | service/appconfig/enhanced_app_config.go:148-153 | the sweep adds no key and leaves keys outside its snapshot untouched |
| AppConfig.SweepPerKey | service/appconfig/enhanced_app_config.go:148-153 | over a snapshot of distinct keys, each key ends as a lone refresh of it would leave it, whatever the order |
| AppConfig.SweepKeepsContent | service/appconfig/enhanced_app_config.go:148-153 | a sweep keeps "every cached value has content" |
| AppConfig.SweepUnchangedIsIdentity | service/appconfig/enhanced_app_config.go:148-153 | when nothing changed for any key, a sweep (and a second one) leaves the cache as it was |
| AppConfig.SweepRequests | service/appconfig/enhanced_app_config.go:148-153 | at most one request per snapshot key, each for a snapshot key |
| AppConfig.SweepRequestsDistinct | service/appconfig/enhanced_app_config.go:148-153 | over a snapshot without repeated keys, no configuration is requested twice |
| AppConfig.SweepRequestsIffCached | service/appconfig/enhanced_app_config.go:148-153 | over a snapshot without repeated keys, a key is requested exactly when its entry holds a configuration |
| AppConfig.EnhancedAppConfig.View | service/appconfig/enhanced_app_config.go:32-48 | the object as `Settings`, consistent whenever cache and ticker exist together |
| AppConfig.EnhancedAppConfig.Cached | service/appconfig/enhanced_app_config.go:223-230 | a value is found only if the cache exists and holds it for the name |
| AppConfig.EnhancedAppConfig.constructor | service/appconfig/enhanced_app_config.go:61-70 | the object's settings are `Defaults`, with no cache |
| AppConfig.EnhancedAppConfig.InitAppConfigClient | service/appconfig/enhanced_app_config.go:116-138 | the new settings and error are those of `InitClient` |
| AppConfig.EnhancedAppConfig.InitCache | service/appconfig/enhanced_app_config.go:109-114 | a fresh empty cache and a fresh running ticker; the settings become `InitCache` of the old ones |
| AppConfig.EnhancedAppConfig.GetConfigurationWithVersion | service/appconfig/enhanced_app_config.go:275-295 | one request built by `MakeRequest`; the answer converted by `ToConfiguration`, errors passed through |
| AppConfig.EnhancedAppConfig.GetEnhancedConfiguration | service/appconfig/enhanced_app_config.go:221-258 | result, cache write and requests are those of `ReadSpec`, and the settings are unchanged |
| AppConfig.EnhancedAppConfig.GetConfiguration | service/appconfig/enhanced_app_config.go:213-219 | the content of the `ReadSpec` result, with the same cache write and requests |
| AppConfig.EnhancedAppConfig.GetConfigurationIgnoreCache | service/appconfig/enhanced_app_config.go:260-273 | one request with no version token. An error or empty content fails; the cache is not touched |
| AppConfig.EnhancedAppConfig.RefreshKey | service/appconfig/enhanced_app_config.go:161-211 | the cache and requests become those of `RefreshKeySpec`; the settings are unchanged |
| AppConfig.EnhancedAppConfig.RefreshCache | service/appconfig/enhanced_app_config.go:140-155 | takes a distinct snapshot of exactly the resident keys. Cache and requests become those of `SweepSpec` over it |
| AppConfig.EnhancedAppConfig.WithRegionName | service/appconfig/options.go:19-30 | the settings and error become `AfterOption` of the region option |
| AppConfig.EnhancedAppConfig.WithApplicationName | service/appconfig/options.go:32-37 | the settings and error become `AfterOption` of the application option |
| AppConfig.EnhancedAppConfig.WithEnvironmentName | service/appconfig/options.go:39-44 | the settings and error become `AfterOption` of the environment option |
| AppConfig.EnhancedAppConfig.WithClientId | service/appconfig/options.go:46-51 | the settings and error become `AfterOption` of the client id option |
| AppConfig.EnhancedAppConfig.WithIsCache | service/appconfig/options.go:53-81 | settings as `AfterOption`. Switching off drops the cache and stops its ticker. Switching on without a cache builds a fresh empty one with a fresh ticker; otherwise both objects stay |
| AppConfig.EnhancedAppConfig.WithCacheLimit | service/appconfig/options.go:83-95 | settings as `AfterOption`. The cache only loses residents, and none for a zero limit |
| AppConfig.EnhancedAppConfig.WithCacheRefreshInterval | service/appconfig/options.go:97-109 | settings as `AfterOption`; same cache and ticker objects |
| AppConfig.EnhancedAppConfig.WithTimeout | service/appconfig/options.go:111-122 | settings as `AfterOption` of the timeout option |
| AppConfig.EnhancedAppConfig.WithXRayEnable | service/appconfig/options.go:124-135 | settings and error as `AfterOption` of the tracing option |
| AppConfig.EnhancedAppConfig.Apply | service/appconfig/options.go:15-17 | one option's effect is `AfterOption`, and no option puts a configuration into the cache |
| AppConfig.EnhancedAppConfig.ApplyNext | service/appconfig/enhanced_app_config.go:319-323 | one round of the option loop extends the `ApplyAll` prefix, or ends with the whole list's outcome |
| AppConfig.EnhancedAppConfig.ApplyWithOptions | service/appconfig/enhanced_app_config.go:318-326 | settings and error are `ApplyAll` of the old settings. The cache is the old one with only residents lost, or a new empty one |
| AppConfig.EnhancedAppConfig.NewWithOptions | service/appconfig/enhanced_app_config.go:60-107 | failure iff `Built` fails, with its error. Success gives an object whose settings are `Built`'s |

## Left out

- Logging, `fmt.Println` of recovered panics, and X-Ray segments and client instrumentation are I/O. Tracing survives only as the `isXRayEnable` flag recorded in the client.
- `uuid.NewString()` and `os.Getenv` for region and environment are parameters of the constructors.
- Building an AWS session and client is a boolean `clientConstructible`. `session.Must` panicking is not modelled.
- Context timeouts, `time.Now` and the deadline of each GetConfiguration are not modelled. The timeout is only a stored setting.
- The ticker's firing is not modelled. `RefreshCache` is the callback a firing would run, and the ticker itself is only its interval and a running flag.
- RefreshCache: the source runs each refresh in its own goroutine behind a `sync.WaitGroup`. The model runs them one after another over the snapshot. `RefreshCommutes` and `SweepPerKey` show that the order does not matter, because each refresh reads and writes only its own key. Interleavings inside one refresh, against concurrent readers, are not modelled.
- CacheAndTicker.Cache.Add: which resident the bounded cache evicts is left open. The model states only that others may go, and never the added key. LRU order is not modelled.
- CacheAndTicker.Cache.UpdateCacheLimit: it may drop residents. Which ones it drops is left open.
- The cache and ticker packages are not part of this model. `cache.dfy` states no more about them than the facade relies on.
- The advance package's `ApplyOptions` and its option functions live in a file that is not part of this model. `EnhancedAppConfigAdvance.NewWithOptions` takes the three names as those options leave them.
- Both packages' `NewWithApplicationName` is a one-option call of `NewWithOptions`. For the reading facade, `AppConfigOptions.DefaultConstruction` covers that call. Neither has a separate member.
- The oracle's profile and version creates always answer an output or an error, never a nil output. The source dereferences those outputs without a nil test (`service/appconfig/advance/enhanced_app_config_advance.go`, lines 135, 178 and 187), so a nil output there would panic; panics are not modelled.
- The advance package's four name maps are process-wide variables (two plain maps and two `sync.Map`s), shared by every facade and by concurrent calls. The model runs every operation alone, one after another, over one `NameRegistry`.
- The service is a fixed oracle: the same request always gets the same answer. What the service stores, and how that changes between calls, is not modelled.
- Error texts are not modelled. Errors are a datatype naming their cause, and service errors keep their message only where `strings.Contains` inspects it.
- The `configuration == nil` branches after `getConfigurationWithVersion` cannot happen, because that function always returns a value when there is no error. They are not modelled.
- Contents and content types are text, not bytes. `http.DetectContentType` is part of the oracle.
- `int64` and `time.Duration` overflow are not modelled; numbers are unbounded.
- AppConfig.Decide: a new content without a version token keeps the old entry. In the source, the log line before the write dereferences the nil token. The panic is recovered by the goroutine, so the write never happens.
