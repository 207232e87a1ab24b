/** The provisioning side: name-to-id resolution over the four bulk listings, and the
    create, update and delete operations on configuration profiles. */
module AppConfigAdvance {
  import opened Wrappers
  import opened Text
  import opened AppConfigStore
  import opened AppConfigListing

  /** The deployment strategy that must exist before anything is published. */
  const DeploymentStrategyName := "AllAtOnceNotBake"
  /** The only location the profiles are created at. */
  const HostedLocation := "hosted"

  /** The package-level name-to-id maps, shared by every instance of the facade. */
  class NameRegistry {
    var applications: map<string, string>
    var environments: map<string, string>
    var profiles: map<string, string>
    var strategies: map<string, string>

    constructor ()
      ensures applications == map[] && environments == map[]
      ensures profiles == map[] && strategies == map[]
    {
      applications, environments := map[], map[];
      profiles, strategies := map[], map[];
    }
  }

  // ----- resolution -----

  /** The outcome of a lookup that re-lists once on a miss: the id and whether it was
      found, a listing error, the map afterwards and the requests sent. */
  datatype Resolution = Resolution(
    id: string, found: bool, error: Option<string>, ids: map<string, string>, calls: seq<Input>)

  /** Look the name up; on a miss run one bulk listing of `kind` and look again. */
  function Resolve(ids: map<string, string>, name: string, kind: ListKind, pages: seq<Result<Page, string>>)
    : (r: Resolution)
    // a hit answers from the map and sends nothing
    ensures name in ids ==> r.found && r.id == ids[name] && r.ids == ids && r.calls == []
    // a miss runs exactly one bulk listing, whose pages are requested in token order
    ensures name !in ids ==>
              var l := PaginateFrom(ids, pages, 0);
              && r.ids == l.ids && r.calls == ListCalls(kind, l.pagesRead) && |r.calls| >= 1
              // the listing's error is the lookup's error, and a failed listing finds nothing
              && r.error == l.error
              && (r.found <==> l.error.None? && name in l.ids)
    ensures r.found ==> r.error.None? && name in r.ids && r.id == r.ids[name]
    ensures r.error.Some? ==> !r.found && r.id == ""
    // still absent after the listing: not found, and not an error
    ensures !r.found && r.error.None? ==> name !in r.ids && r.id == ""
    ensures ids.Keys <= r.ids.Keys
  {
    if name in ids then Resolution(ids[name], true, None, ids, [])
    else
      var l := PaginateFrom(ids, pages, 0);
      PaginateKeeps(ids, pages, 0);
      PaginateStops(ids, pages, 0);
      var calls := ListCalls(kind, l.pagesRead);
      if l.error.Some? then Resolution("", false, l.error, l.ids, calls)
      else if name in l.ids then Resolution(l.ids[name], true, None, l.ids, calls)
      else Resolution("", false, None, l.ids, calls)
  }

  /** Two lookups of a name that no page carries each run one full listing: the miss is
      not remembered and the second lookup does not stop early. */
  lemma RepeatedMissListsAgain(ids: map<string, string>, name: string, kind: ListKind, pages: seq<Result<Page, string>>)
    requires name !in ids
    requires forall t :: 0 <= t < |pages| && pages[t].Ok? ==> name !in Names(pages[t].value.items)
    ensures var first := Resolve(ids, name, kind, pages);
            var second := Resolve(first.ids, name, kind, pages);
            && !first.found && !second.found
            && first.calls == ListCalls(kind, PaginateFrom(ids, pages, 0).pagesRead)
            && second.calls == ListCalls(kind, PaginateFrom(first.ids, pages, 0).pagesRead)
  {
    var l := PaginateFrom(ids, pages, 0);
    PaginateMissesAbsent(ids, pages, 0, name);
    PaginateMissesAbsent(l.ids, pages, 0, name);
  }

  /** A name on no page is not added by a listing. */
  lemma {:induction false} PaginateMissesAbsent(ids: map<string, string>, pages: seq<Result<Page, string>>, token: nat, name: string)
    requires name !in ids
    requires forall t :: 0 <= t < |pages| && pages[t].Ok? ==> name !in Names(pages[t].value.items)
    ensures name !in PaginateFrom(ids, pages, token).ids
    decreases |pages| - token
  {
    match PageAt(pages, token, EmptyPage)
    case Err(_) =>
    case Ok(p) =>
      if |p.items| > 0 {
        assert token < |pages|;
        StoreItemsKeys(ids, p.items);
        if p.hasNextToken {
          PaginateMissesAbsent(StoreItems(ids, p.items), pages, token + 1, name);
        }
      }
  }

  // ----- publishing -----

  /** The outcome of one step against the store: whether the output pointer was
      non-nil, the error, and the requests sent. */
  datatype Step = Step(output: bool, error: Option<Error>, calls: seq<Input>)

  /** startDeployment: look up the fixed strategy, then start the deployment. */
  function DeploySpec(o: Oracle, applicationId: string, environmentId: string,
                      strategies: map<string, string>, profileId: string, version: string): (r: Step)
    ensures DeploymentStrategyName !in strategies ==>
              r == Step(false, Some(DeploymentStrategyMissing(DeploymentStrategyName)), [])
    ensures DeploymentStrategyName in strategies ==>
              r.calls == [StartDeploymentInput(applicationId, environmentId, profileId, version,
                                               strategies[DeploymentStrategyName])]
    ensures r.output ==> r.error.None?
    ensures DeploymentStrategyName in strategies ==>
              var reply := o.startDeployment(StartDeploymentInput(applicationId, environmentId, profileId, version,
                                                                  strategies[DeploymentStrategyName]));
              && (r.output <==> reply.Done?)
              && (r.error.Some? <==> reply.Failed?)
              && (reply.Failed? ==> r.error == Some(StoreFailure(reply.message)))
  {
    if DeploymentStrategyName !in strategies then
      Step(false, Some(DeploymentStrategyMissing(DeploymentStrategyName)), [])
    else
      var input := StartDeploymentInput(applicationId, environmentId, profileId, version,
                                        strategies[DeploymentStrategyName]);
      match o.startDeployment(input)
      case Failed(m) => Step(false, Some(StoreFailure(m)), [input])
      case NilOutput => Step(false, None, [input])
      case Done(_) => Step(true, None, [input])
  }

  /** The request of createHostedConfigurationVersion: the content type is the detected
      type up to its first "; ". */
  function VersionInput(o: Oracle, applicationId: string, profileId: string, content: string): Input
  {
    CreateHostedConfigurationVersionInput(applicationId, profileId, content,
                                          BeforeFirst(o.detectContentType(content), "; "))
  }

  /** Whether a request changes the store (listings and reads do not). */
  predicate Mutates(input: Input)
  {
    !input.ListInput? && !input.ListHostedConfigurationVersionsInput? && !input.GetConfigurationInput?
  }

  /** The outcome of Create, Update or Delete: the boolean, the error, the profile map
      afterwards and the requests sent. */
  datatype Outcome = Outcome(ok: bool, error: Option<Error>, profiles: map<string, string>, calls: seq<Input>)

  /** CreateConfiguration: resolve, refuse an existing name, create the profile and a
      version, deploy it, and record the new id only when the deployment output is non-nil. */
  function CreateSpec(o: Oracle, applicationId: string, environmentId: string,
                      strategies: map<string, string>, profiles: map<string, string>,
                      name: string, content: string): Outcome
  {
    var kind := ConfigurationProfiles(applicationId);
    var res := Resolve(profiles, name, kind, o.pages(kind));
    if res.error.Some? then Outcome(false, Some(StoreFailure(res.error.value)), res.ids, res.calls)
    else if res.found then Outcome(false, Some(ConfigurationExists(name)), res.ids, res.calls)
    else
      var create := CreateConfigurationProfileInput(applicationId, name, HostedLocation);
      match o.createProfile(create)
      case Err(m) => Outcome(false, Some(StoreFailure(m)), res.ids, res.calls + [create])
      case Ok(profileId) =>
        var version := VersionInput(o, applicationId, profileId, content);
        match o.createVersion(version)
        case Err(m) => Outcome(false, Some(StoreFailure(m)), res.ids, res.calls + [create, version])
        case Ok(n) =>
          var d := DeploySpec(o, applicationId, environmentId, strategies, profileId, IntToDecimal(n));
          var calls := res.calls + [create, version] + d.calls;
          if d.error.Some? then Outcome(false, d.error, res.ids, calls)
          else if d.output then Outcome(true, None, res.ids[name := profileId], calls)
          else Outcome(false, None, res.ids, calls)
  }

  /** An existing name is refused before anything is created. */
  lemma CreateRefusesExisting(o: Oracle, applicationId: string, environmentId: string,
                              strategies: map<string, string>, profiles: map<string, string>,
                              name: string, content: string)
    requires name in profiles
    ensures var r := CreateSpec(o, applicationId, environmentId, strategies, profiles, name, content);
            r == Outcome(false, Some(ConfigurationExists(name)), profiles, [])
  {
  }

  /** Create changes the map left by the resolver only by adding the new name, and only
      when the deployment returned an output; every error leaves that map as it was. */
  lemma CreateRegistersAfterDeployment(o: Oracle, applicationId: string, environmentId: string,
                                       strategies: map<string, string>, profiles: map<string, string>,
                                       name: string, content: string)
    ensures var kind := ConfigurationProfiles(applicationId);
            var res := Resolve(profiles, name, kind, o.pages(kind));
            var r := CreateSpec(o, applicationId, environmentId, strategies, profiles, name, content);
            && (r.error.Some? || !r.ok ==> r.profiles == res.ids)
            && (r.ok ==> && r.error.None? && !res.found
                         && |r.calls| > 0 && r.calls[|r.calls| - 1].StartDeploymentInput?
                         && r.profiles == res.ids[name := r.calls[|r.calls| - 1].profileId]
                         && o.startDeployment(r.calls[|r.calls| - 1]).Done?)
            && (res.found || res.error.Some? ==> forall i :: 0 <= i < |r.calls| ==> !Mutates(r.calls[i]))
  {
  }

  /** After a lookup that found nothing, Create sends the profile create, the version create
      for the new profile and the deployment of that version, stopping at the first error;
      it succeeds exactly when the deployment returned an output, and then the name maps to
      the id the profile create answered. */
  lemma CreateSucceedsIffDeployed(o: Oracle, applicationId: string, environmentId: string,
                                  strategies: map<string, string>, profiles: map<string, string>,
                                  name: string, content: string)
    ensures var kind := ConfigurationProfiles(applicationId);
            var res := Resolve(profiles, name, kind, o.pages(kind));
            var r := CreateSpec(o, applicationId, environmentId, strategies, profiles, name, content);
            var create := CreateConfigurationProfileInput(applicationId, name, HostedLocation);
            res.error.None? && !res.found ==>
              && (o.createProfile(create).Err? ==>
                    r == Outcome(false, Some(StoreFailure(o.createProfile(create).error)), res.ids, res.calls + [create]))
              && (o.createProfile(create).Ok? ==>
                    var id := o.createProfile(create).value;
                    var version := VersionInput(o, applicationId, id, content);
                    && (o.createVersion(version).Err? ==>
                          r == Outcome(false, Some(StoreFailure(o.createVersion(version).error)), res.ids,
                                       res.calls + [create, version]))
                    && (o.createVersion(version).Ok? && DeploymentStrategyName !in strategies ==>
                          r == Outcome(false, Some(DeploymentStrategyMissing(DeploymentStrategyName)), res.ids,
                                       res.calls + [create, version]))
                    && (o.createVersion(version).Ok? && DeploymentStrategyName in strategies ==>
                          var deploy := StartDeploymentInput(applicationId, environmentId, id,
                                                             IntToDecimal(o.createVersion(version).value),
                                                             strategies[DeploymentStrategyName]);
                          && r.calls == res.calls + [create, version, deploy]
                          && (r.ok <==> o.startDeployment(deploy).Done?)
                          && (r.ok ==> r.error.None? && r.profiles == res.ids[name := id])
                          && (!r.ok ==> r.profiles == res.ids)
                          && (o.startDeployment(deploy).Failed? ==>
                                r.error == Some(StoreFailure(o.startDeployment(deploy).message)))))
  {
  }

  /** UpdateConfiguration: resolve, refuse a missing name, create a version and deploy it. */
  function UpdateSpec(o: Oracle, applicationId: string, environmentId: string,
                      strategies: map<string, string>, profiles: map<string, string>,
                      name: string, content: string): Outcome
  {
    var kind := ConfigurationProfiles(applicationId);
    var res := Resolve(profiles, name, kind, o.pages(kind));
    if res.error.Some? then Outcome(false, Some(StoreFailure(res.error.value)), res.ids, res.calls)
    else if !res.found then Outcome(false, Some(ConfigurationMissing(name)), res.ids, res.calls)
    else
      var version := VersionInput(o, applicationId, res.id, content);
      match o.createVersion(version)
      case Err(m) => Outcome(false, Some(StoreFailure(m)), res.ids, res.calls + [version])
      case Ok(n) =>
        var d := DeploySpec(o, applicationId, environmentId, strategies, res.id, IntToDecimal(n));
        Outcome(d.output, d.error, res.ids, res.calls + [version] + d.calls)
  }

  /** Update never changes the map itself, and refuses a name that does not resolve. */
  lemma UpdateKeepsMapping(o: Oracle, applicationId: string, environmentId: string,
                           strategies: map<string, string>, profiles: map<string, string>,
                           name: string, content: string)
    ensures var kind := ConfigurationProfiles(applicationId);
            var res := Resolve(profiles, name, kind, o.pages(kind));
            var r := UpdateSpec(o, applicationId, environmentId, strategies, profiles, name, content);
            && r.profiles == res.ids
            && (res.error.None? && !res.found ==> r.error == Some(ConfigurationMissing(name)) && !r.ok)
            && (r.ok ==> res.found && r.error.None?)
  {
  }

  /** For a resolved name, Update sends the version create for the resolved profile and the
      deployment of that version, stopping at the first error; it succeeds exactly when the
      deployment returned an output. */
  lemma UpdateSucceedsIffDeployed(o: Oracle, applicationId: string, environmentId: string,
                                  strategies: map<string, string>, profiles: map<string, string>,
                                  name: string, content: string)
    ensures var kind := ConfigurationProfiles(applicationId);
            var res := Resolve(profiles, name, kind, o.pages(kind));
            var r := UpdateSpec(o, applicationId, environmentId, strategies, profiles, name, content);
            var version := VersionInput(o, applicationId, res.id, content);
            res.error.None? && res.found ==>
              && (o.createVersion(version).Err? ==>
                    r == Outcome(false, Some(StoreFailure(o.createVersion(version).error)), res.ids, res.calls + [version]))
              && (o.createVersion(version).Ok? && DeploymentStrategyName !in strategies ==>
                    r == Outcome(false, Some(DeploymentStrategyMissing(DeploymentStrategyName)), res.ids,
                                 res.calls + [version]))
              && (o.createVersion(version).Ok? && DeploymentStrategyName in strategies ==>
                    var deploy := StartDeploymentInput(applicationId, environmentId, res.id,
                                                       IntToDecimal(o.createVersion(version).value),
                                                       strategies[DeploymentStrategyName]);
                    && r.calls == res.calls + [version, deploy]
                    && (r.ok <==> o.startDeployment(deploy).Done?)
                    && (r.ok ==> r.error.None?)
                    && (o.startDeployment(deploy).Failed? ==>
                          r.error == Some(StoreFailure(o.startDeployment(deploy).message))))
  {
  }

  // ----- deleting -----

  /** The outcome of deleting versions: the error, the requests sent, the pages read. */
  datatype Sweep = Sweep(error: Option<Error>, calls: seq<Input>, pagesRead: nat)

  function DeleteInput(applicationId: string, v: HostedVersion): Input
  {
    DeleteHostedConfigurationVersionInput(applicationId, v.profileId, v.versionNumber)
  }

  /** The delete requests for a list of versions, in order. */
  function DeleteInputs(applicationId: string, items: seq<HostedVersion>): (r: seq<Input>)
    ensures |r| == |items|
    ensures forall i :: 0 <= i < |items| ==> r[i] == DeleteInput(applicationId, items[i])
  {
    if items == [] then [] else [DeleteInput(applicationId, items[0])] + DeleteInputs(applicationId, items[1..])
  }

  /** Delete the versions of one page in order, stopping at an error or a nil output. */
  function DeleteItemsSpec(o: Oracle, applicationId: string, items: seq<HostedVersion>): Sweep
    decreases |items|
  {
    if items == [] then Sweep(None, [], 0)
    else
      var input := DeleteInput(applicationId, items[0]);
      match o.deleteVersion(input)
      case Failed(m) => Sweep(Some(StoreFailure(m)), [input], 0)
      case NilOutput => Sweep(Some(VersionDeleteFailed(items[0].profileId, items[0].versionNumber)), [input], 0)
      case Done(_) =>
        var rest := DeleteItemsSpec(o, applicationId, items[1..]);
        Sweep(rest.error, [input] + rest.calls, 0)
  }

  const EmptyVersionPage := VersionPage([], false)

  /** deleteAllConfigurationVersion from `token` on: list a page of versions, stop at an
      error or an empty page, delete every version of it, follow the next token. */
  function DeleteVersionsFrom(o: Oracle, applicationId: string, profileId: string, token: nat): Sweep
    decreases |o.versionPages(applicationId, profileId)| - token
  {
    var list := ListHostedConfigurationVersionsInput(applicationId, profileId, token);
    match PageAt(o.versionPages(applicationId, profileId), token, EmptyVersionPage)
    case Err(m) => Sweep(Some(StoreFailure(m)), [list], 1)
    case Ok(p) =>
      if |p.items| == 0 then Sweep(None, [list], 1)
      else
        var d := DeleteItemsSpec(o, applicationId, p.items);
        if d.error.Some? then Sweep(d.error, [list] + d.calls, 1)
        else if !p.hasNextToken then Sweep(None, [list] + d.calls, 1)
        else
          var rest := DeleteVersionsFrom(o, applicationId, profileId, token + 1);
          Sweep(rest.error, [list] + d.calls + rest.calls, rest.pagesRead + 1)
  }

  /** The requests of a sweep that reads `n` pages from `token` and deletes every version
      listed on them: a listing request, then one delete per listed version, page by page. */
  function SweepCalls(o: Oracle, applicationId: string, profileId: string, token: nat, n: nat): seq<Input>
    decreases n
  {
    if n == 0 then []
    else
      var items := match PageAt(o.versionPages(applicationId, profileId), token, EmptyVersionPage)
                   case Ok(p) => p.items
                   case Err(_) => [];
      [ListHostedConfigurationVersionsInput(applicationId, profileId, token)]
        + DeleteInputs(applicationId, items) + SweepCalls(o, applicationId, profileId, token + 1, n - 1)
  }

  /** Deleting a page's versions succeeds only when every delete returned an output,
      and then it sent one delete per version, in order. */
  lemma {:induction false} DeleteItemsAll(o: Oracle, applicationId: string, items: seq<HostedVersion>)
    ensures var d := DeleteItemsSpec(o, applicationId, items);
            d.error.None? <==> forall i :: 0 <= i < |items| ==> o.deleteVersion(DeleteInput(applicationId, items[i])).Done?
    ensures var d := DeleteItemsSpec(o, applicationId, items);
            d.error.None? ==> d.calls == DeleteInputs(applicationId, items)
    decreases |items|
  {
    if items != [] {
      DeleteItemsAll(o, applicationId, items[1..]);
      assert forall i :: 1 <= i < |items| ==> items[1..][i - 1] == items[i];
    }
  }

  /** The deletes of a page stop at the first delete that fails or returns no output:
      that delete is the last request, and its failure is the error returned. */
  lemma {:induction false} DeleteItemsStopsAt(o: Oracle, applicationId: string, items: seq<HostedVersion>, j: nat)
    requires j < |items|
    requires forall i :: 0 <= i < j ==> o.deleteVersion(DeleteInput(applicationId, items[i])).Done?
    requires !o.deleteVersion(DeleteInput(applicationId, items[j])).Done?
    ensures var d := DeleteItemsSpec(o, applicationId, items);
            var reply := o.deleteVersion(DeleteInput(applicationId, items[j]));
            && d.calls == DeleteInputs(applicationId, items[..j + 1])
            && d.error == if reply.Failed? then Some(StoreFailure(reply.message))
                          else Some(VersionDeleteFailed(items[j].profileId, items[j].versionNumber))
    decreases j
  {
    if j > 0 {
      assert forall i :: 0 <= i < j - 1 ==> items[1..][i] == items[i + 1];
      DeleteItemsStopsAt(o, applicationId, items[1..], j - 1);
      assert items[1..][..j] == items[..j + 1][1..];
      var whole := DeleteInputs(applicationId, items[..j + 1]);
      assert whole == [whole[0]] + whole[1..];
    }
  }

  /** The requests for the page on which a sweep failed: its listing request, then the
      deletes tried on it. */
  function FailedPageCalls(o: Oracle, applicationId: string, profileId: string, token: nat): seq<Input>
  {
    [ListHostedConfigurationVersionsInput(applicationId, profileId, token)]
      + match PageAt(o.versionPages(applicationId, profileId), token, EmptyVersionPage)
        case Ok(p) => DeleteItemsSpec(o, applicationId, p.items).calls
        case Err(_) => []
  }

  /** A sweep that fails stops at the page where it failed: every earlier page was read
      in full and all its versions deleted, and the failing page is the last one read:
      its listing failed, or one of its version deletes did. */
  lemma {:induction false} SweepFailurePages(o: Oracle, applicationId: string, profileId: string, token: nat)
    ensures var s := DeleteVersionsFrom(o, applicationId, profileId, token);
            var pages := o.versionPages(applicationId, profileId);
            s.error.Some? ==>
              && s.pagesRead >= 1
              && (forall j :: token <= j < token + s.pagesRead - 1 ==>
                    var pj := PageAt(pages, j, EmptyVersionPage);
                    && pj.Ok? && |pj.value.items| > 0 && pj.value.hasNextToken
                    && DeleteItemsSpec(o, applicationId, pj.value.items).error.None?)
              && var last := PageAt(pages, token + s.pagesRead - 1, EmptyVersionPage);
                 && (last.Err? ==> s.error == Some(StoreFailure(last.error)))
                 && (last.Ok? ==> |last.value.items| > 0
                                  && s.error == DeleteItemsSpec(o, applicationId, last.value.items).error)
    decreases |o.versionPages(applicationId, profileId)| - token
  {
    var pages := o.versionPages(applicationId, profileId);
    var s := DeleteVersionsFrom(o, applicationId, profileId, token);
    var page := PageAt(pages, token, EmptyVersionPage);
    if s.error.Some? && page.Ok? {
      var p := page.value;
      if DeleteItemsSpec(o, applicationId, p.items).error.None? {
        assert token < |pages|;
        var rest := DeleteVersionsFrom(o, applicationId, profileId, token + 1);
        SweepFailurePages(o, applicationId, profileId, token + 1);
        assert s.pagesRead == rest.pagesRead + 1;
      }
    }
  }

  /** The requests of a sweep that failed after reading n pages: the full pages in order,
      then the failing page. */
  function FailureCalls(o: Oracle, applicationId: string, profileId: string, token: nat, n: nat): seq<Input>
    requires n >= 1
    decreases n
  {
    if n == 1 then FailedPageCalls(o, applicationId, profileId, token)
    else
      var items := match PageAt(o.versionPages(applicationId, profileId), token, EmptyVersionPage)
                   case Ok(p) => p.items
                   case Err(_) => [];
      [ListHostedConfigurationVersionsInput(applicationId, profileId, token)]
        + DeleteInputs(applicationId, items) + FailureCalls(o, applicationId, profileId, token + 1, n - 1)
  }

  /** A sweep that fails sends nothing after the listing or the delete that failed: its
      requests are the FailureCalls of the pages it read. */
  lemma {:induction false} SweepFailureLog(o: Oracle, applicationId: string, profileId: string, token: nat)
    ensures var s := DeleteVersionsFrom(o, applicationId, profileId, token);
            s.error.Some? ==>
              s.pagesRead >= 1 && s.calls == FailureCalls(o, applicationId, profileId, token, s.pagesRead)
    decreases |o.versionPages(applicationId, profileId)| - token
  {
    var pages := o.versionPages(applicationId, profileId);
    var page := PageAt(pages, token, EmptyVersionPage);
    if page.Ok? && |page.value.items| > 0 && page.value.hasNextToken
       && DeleteItemsSpec(o, applicationId, page.value.items).error.None? {
      assert token < |pages|;
      SweepFailureLog(o, applicationId, profileId, token + 1);
      DeleteItemsAll(o, applicationId, page.value.items);
      SweepThroughFullPage(o, applicationId, profileId, token);
    }
  }

  /** FailureCalls splits into the SweepCalls of the full pages and the failing page. */
  lemma {:induction false} FailureCallsSplit(o: Oracle, applicationId: string, profileId: string, token: nat, n: nat)
    requires n >= 1
    ensures FailureCalls(o, applicationId, profileId, token, n)
            == SweepCalls(o, applicationId, profileId, token, n - 1)
               + FailedPageCalls(o, applicationId, profileId, token + n - 1)
    decreases n
  {
    if n > 1 {
      FailureCallsSplit(o, applicationId, profileId, token + 1, n - 1);
      var items := match PageAt(o.versionPages(applicationId, profileId), token, EmptyVersionPage)
                   case Ok(p) => p.items
                   case Err(_) => [];
      var head := [ListHostedConfigurationVersionsInput(applicationId, profileId, token)] + DeleteInputs(applicationId, items);
      LogAppend(head, SweepCalls(o, applicationId, profileId, token + 1, n - 2),
                FailedPageCalls(o, applicationId, profileId, token + n - 1));
    }
  }

  /** A sweep over a full page whose deletes all succeeded goes on with the next page. */
  lemma {:induction false} SweepThroughFullPage(o: Oracle, applicationId: string, profileId: string, token: nat)
    requires var page := PageAt(o.versionPages(applicationId, profileId), token, EmptyVersionPage);
             && page.Ok? && |page.value.items| > 0 && page.value.hasNextToken
             && DeleteItemsSpec(o, applicationId, page.value.items).error.None?
             && DeleteItemsSpec(o, applicationId, page.value.items).calls == DeleteInputs(applicationId, page.value.items)
    ensures var items := PageAt(o.versionPages(applicationId, profileId), token, EmptyVersionPage).value.items;
            var rest := DeleteVersionsFrom(o, applicationId, profileId, token + 1);
            DeleteVersionsFrom(o, applicationId, profileId, token)
              == Sweep(rest.error,
                       [ListHostedConfigurationVersionsInput(applicationId, profileId, token)]
                         + DeleteInputs(applicationId, items) + rest.calls,
                       rest.pagesRead + 1)
  {
  }


  /** A successful sweep sent, page by page, the listing request and one delete per
      version listed on that page. */
  lemma {:induction false} SweepCallsShape(o: Oracle, applicationId: string, profileId: string, token: nat)
    ensures var s := DeleteVersionsFrom(o, applicationId, profileId, token);
            s.error.None? ==>
              s.pagesRead >= 1 && s.calls == SweepCalls(o, applicationId, profileId, token, s.pagesRead)
    decreases |o.versionPages(applicationId, profileId)| - token
  {
    var pages := o.versionPages(applicationId, profileId);
    var s := DeleteVersionsFrom(o, applicationId, profileId, token);
    var page := PageAt(pages, token, EmptyVersionPage);
    var list := ListHostedConfigurationVersionsInput(applicationId, profileId, token);
    if page.Ok? && s.error.None? {
      var p := page.value;
      var tail := SweepCalls(o, applicationId, profileId, token + 1, 0);
      assert tail == [];
      if |p.items| == 0 {
        assert DeleteInputs(applicationId, p.items) == [];
        assert SweepCalls(o, applicationId, profileId, token, 1) == [list] + DeleteInputs(applicationId, p.items) + tail;
      } else {
        var d := DeleteItemsSpec(o, applicationId, p.items);
        DeleteItemsAll(o, applicationId, p.items);
        if !p.hasNextToken {
          assert SweepCalls(o, applicationId, profileId, token, 1) == [list] + DeleteInputs(applicationId, p.items) + tail;
        } else {
          assert token < |pages|;
          var rest := DeleteVersionsFrom(o, applicationId, profileId, token + 1);
          assert d.error.None?;
          SweepThroughFullPage(o, applicationId, profileId, token);
          SweepCallsShape(o, applicationId, profileId, token + 1);
          assert SweepCalls(o, applicationId, profileId, token, rest.pagesRead + 1)
              == [list] + DeleteInputs(applicationId, p.items) + SweepCalls(o, applicationId, profileId, token + 1, rest.pagesRead);
        }
      }
    }
  }

  /** Every page a successful sweep read before its last one had versions and a next token. */
  lemma {:induction false} SweepFullPagesBeforeLast(o: Oracle, applicationId: string, profileId: string, token: nat)
    ensures var s := DeleteVersionsFrom(o, applicationId, profileId, token);
            var pages := o.versionPages(applicationId, profileId);
            s.error.None? ==>
              forall j :: token <= j < token + s.pagesRead - 1 ==>
                var pj := PageAt(pages, j, EmptyVersionPage);
                pj.Ok? && |pj.value.items| > 0 && pj.value.hasNextToken
    decreases |o.versionPages(applicationId, profileId)| - token
  {
    var pages := o.versionPages(applicationId, profileId);
    var s := DeleteVersionsFrom(o, applicationId, profileId, token);
    var page := PageAt(pages, token, EmptyVersionPage);
    if page.Ok? && s.error.None? {
      var p := page.value;
      if |p.items| > 0 && p.hasNextToken {
        assert token < |pages|;
        SweepFullPagesBeforeLast(o, applicationId, profileId, token + 1);
      }
    }
  }

  /** A successful sweep stopped at a page without versions or without a next token. */
  lemma {:induction false} SweepLastPage(o: Oracle, applicationId: string, profileId: string, token: nat)
    ensures var s := DeleteVersionsFrom(o, applicationId, profileId, token);
            var pages := o.versionPages(applicationId, profileId);
            s.error.None? ==>
              var last := PageAt(pages, token + s.pagesRead - 1, EmptyVersionPage);
              last.Ok? && (|last.value.items| == 0 || !last.value.hasNextToken)
    decreases |o.versionPages(applicationId, profileId)| - token
  {
    var pages := o.versionPages(applicationId, profileId);
    var s := DeleteVersionsFrom(o, applicationId, profileId, token);
    var page := PageAt(pages, token, EmptyVersionPage);
    if page.Ok? && s.error.None? {
      var p := page.value;
      if |p.items| > 0 && p.hasNextToken {
        assert token < |pages|;
        var rest := DeleteVersionsFrom(o, applicationId, profileId, token + 1);
        SweepLastPage(o, applicationId, profileId, token + 1);
        assert s.pagesRead == rest.pagesRead + 1;
      }
    }
  }

  /** DeleteConfiguration: resolve, refuse a missing name, delete every version, then the
      profile, and forget the name only when the profile delete returned an output. */
  function DeleteSpec(o: Oracle, applicationId: string, profiles: map<string, string>, name: string): Outcome
  {
    var kind := ConfigurationProfiles(applicationId);
    var res := Resolve(profiles, name, kind, o.pages(kind));
    if res.error.Some? then Outcome(false, Some(StoreFailure(res.error.value)), res.ids, res.calls)
    else if !res.found then Outcome(false, Some(ConfigurationMissing(name)), res.ids, res.calls)
    else
      var s := DeleteVersionsFrom(o, applicationId, res.id, 0);
      if s.error.Some? then Outcome(false, s.error, res.ids, res.calls + s.calls)
      else
        var input := DeleteConfigurationProfileInput(applicationId, res.id);
        var calls := res.calls + s.calls + [input];
        match o.deleteProfile(input)
        case Failed(m) => Outcome(false, Some(StoreFailure(m)), res.ids, calls)
        case NilOutput => Outcome(false, None, res.ids, calls)
        case Done(_) => Outcome(true, None, res.ids - {name}, calls)
  }

  /** The profile is deleted only after every listed version was deleted, and the name
      is forgotten exactly when that delete returned an output. A failed sweep passes its
      error on, sends no profile delete and keeps the map. */
  lemma DeleteAfterVersions(o: Oracle, applicationId: string, profiles: map<string, string>, name: string)
    ensures var kind := ConfigurationProfiles(applicationId);
            var res := Resolve(profiles, name, kind, o.pages(kind));
            var r := DeleteSpec(o, applicationId, profiles, name);
            && (res.error.None? && !res.found ==> r.error == Some(ConfigurationMissing(name)) && r.profiles == res.ids)
            && (r.profiles != res.ids ==> r.ok)
            && (r.ok ==> && res.found && r.profiles == res.ids - {name}
                         && var s := DeleteVersionsFrom(o, applicationId, res.id, 0);
                            && s.error.None?
                            && r.calls == res.calls + SweepCalls(o, applicationId, res.id, 0, s.pagesRead)
                                          + [DeleteConfigurationProfileInput(applicationId, res.id)])
            && (res.error.None? && res.found ==>
                  var s := DeleteVersionsFrom(o, applicationId, res.id, 0);
                  var input := DeleteConfigurationProfileInput(applicationId, res.id);
                  && (s.error.Some? ==>
                        !r.ok && r.error == s.error && r.profiles == res.ids && r.calls == res.calls + s.calls)
                  && (s.error.None? ==>
                        && (r.ok <==> o.deleteProfile(input).Done?)
                        && (r.ok ==> r.error.None?)
                        && (!r.ok ==> r.profiles == res.ids)
                        && r.calls == res.calls + s.calls + [input]
                        && (o.deleteProfile(input).Failed? ==>
                              r.error == Some(StoreFailure(o.deleteProfile(input).message)))
                        && (o.deleteProfile(input).NilOutput? ==> r.error.None?)))
  {
    var kind := ConfigurationProfiles(applicationId);
    var res := Resolve(profiles, name, kind, o.pages(kind));
    if res.found && res.error.None? {
      SweepCallsShape(o, applicationId, res.id, 0);
    }
  }

  // ----- the facade -----

  /** The checks of NewWithOptions, in the order it makes them. */
  function MissingRequired(applicationName: string, regionName: string, environmentName: string): (r: Option<Error>)
    ensures r.None? <==> applicationName != "" && regionName != "" && environmentName != ""
    ensures applicationName == "" ==> r == Some(MissingField("ApplicationName"))
    ensures applicationName != "" && regionName == "" ==> r == Some(MissingField("RegionName"))
    ensures applicationName != "" && regionName != "" && environmentName == "" ==>
              r == Some(MissingField("EnvironmentName"))
  {
    if applicationName == "" then Some(MissingField("ApplicationName"))
    else if regionName == "" then Some(MissingField("RegionName"))
    else if environmentName == "" then Some(MissingField("EnvironmentName"))
    else None
  }

  function StoreError(e: Option<string>): Option<Error>
  {
    if e.Some? then Some(StoreFailure(e.value)) else None
  }

  /** What the listings of NewWithOptions leave behind: the four name maps, the requests
      sent, the error that stopped it, and the two ids it resolved. */
  datatype Startup = Startup(
    applications: map<string, string>, strategies: map<string, string>,
    environments: map<string, string>, profiles: map<string, string>,
    calls: seq<Input>, error: Option<Error>, applicationId: string, environmentId: string)

  /** The listings of NewWithOptions in order: applications, deployment strategies, the
      environments of the named application, then its configuration profiles; each step
      runs only when the ones before succeeded. */
  function StartupSpec(o: Oracle, applications: map<string, string>, strategies: map<string, string>,
                       environments: map<string, string>, profiles: map<string, string>,
                       applicationName: string, environmentName: string): Startup
  {
    var apps := PaginateFrom(applications, o.pages(Applications), 0);
    var calls1 := ListCalls(Applications, apps.pagesRead);
    if apps.error.Some? then
      Startup(apps.ids, strategies, environments, profiles, calls1, StoreError(apps.error), "", "")
    else
      var strats := PaginateFrom(strategies, o.pages(DeploymentStrategies), 0);
      var calls2 := calls1 + ListCalls(DeploymentStrategies, strats.pagesRead);
      if strats.error.Some? then
        Startup(apps.ids, strats.ids, environments, profiles, calls2, StoreError(strats.error), "", "")
      else if applicationName !in apps.ids then
        Startup(apps.ids, strats.ids, environments, profiles, calls2,
                Some(ApplicationNotFound(applicationName)), "", "")
      else
        var appId := apps.ids[applicationName];
        var envs := PaginateFrom(environments, o.pages(Environments(appId)), 0);
        var calls3 := calls2 + ListCalls(Environments(appId), envs.pagesRead);
        if envs.error.Some? then
          Startup(apps.ids, strats.ids, envs.ids, profiles, calls3, StoreError(envs.error), "", "")
        else if environmentName !in envs.ids then
          Startup(apps.ids, strats.ids, envs.ids, profiles, calls3,
                  Some(EnvironmentNotFound(environmentName)), "", "")
        else
          var profs := PaginateFrom(profiles, o.pages(ConfigurationProfiles(appId)), 0);
          Startup(apps.ids, strats.ids, envs.ids, profs.ids,
                  calls3 + ListCalls(ConfigurationProfiles(appId), profs.pagesRead),
                  StoreError(profs.error), appId, envs.ids[environmentName])
  }

  /** A construction that succeeds has found both names in the maps it listed, and takes
      its ids from them. */
  lemma StartupResolvesNames(o: Oracle, applications: map<string, string>, strategies: map<string, string>,
                             environments: map<string, string>, profiles: map<string, string>,
                             applicationName: string, environmentName: string)
    ensures var st := StartupSpec(o, applications, strategies, environments, profiles, applicationName, environmentName);
            st.error.None? ==>
              && applicationName in st.applications && st.applicationId == st.applications[applicationName]
              && environmentName in st.environments && st.environmentId == st.environments[environmentName]
  {
    var apps := PaginateFrom(applications, o.pages(Applications), 0);
    var strats := PaginateFrom(strategies, o.pages(DeploymentStrategies), 0);
    if apps.error.None? && strats.error.None? && applicationName in apps.ids {
      var appId := apps.ids[applicationName];
      var envs := PaginateFrom(environments, o.pages(Environments(appId)), 0);
      var profs := PaginateFrom(profiles, o.pages(ConfigurationProfiles(appId)), 0);
      var st := StartupSpec(o, applications, strategies, environments, profiles, applicationName, environmentName);
      if envs.error.None? && environmentName in envs.ids {
        assert st.applications == apps.ids && st.environments == envs.ids && st.applicationId == appId;
      }
    }
  }

  /** Construction only ever adds names to the four maps. */
  lemma StartupKeepsNames(o: Oracle, applications: map<string, string>, strategies: map<string, string>,
                          environments: map<string, string>, profiles: map<string, string>,
                          applicationName: string, environmentName: string)
    ensures var st := StartupSpec(o, applications, strategies, environments, profiles, applicationName, environmentName);
            && applications.Keys <= st.applications.Keys && strategies.Keys <= st.strategies.Keys
            && environments.Keys <= st.environments.Keys && profiles.Keys <= st.profiles.Keys
  {
    var st := StartupSpec(o, applications, strategies, environments, profiles, applicationName, environmentName);
    var apps := PaginateFrom(applications, o.pages(Applications), 0);
    var strats := PaginateFrom(strategies, o.pages(DeploymentStrategies), 0);
    PaginateKeeps(applications, o.pages(Applications), 0);
    PaginateKeeps(strategies, o.pages(DeploymentStrategies), 0);
    if apps.error.Some? {
      assert st == Startup(apps.ids, strategies, environments, profiles, st.calls, st.error, "", "");
    } else if strats.error.Some? || applicationName !in apps.ids {
      assert st == Startup(apps.ids, strats.ids, environments, profiles, st.calls, st.error, "", "");
    } else {
      var appId := apps.ids[applicationName];
      var envs := PaginateFrom(environments, o.pages(Environments(appId)), 0);
      var profs := PaginateFrom(profiles, o.pages(ConfigurationProfiles(appId)), 0);
      PaginateKeeps(environments, o.pages(Environments(appId)), 0);
      PaginateKeeps(profiles, o.pages(ConfigurationProfiles(appId)), 0);
      assert st.applications == apps.ids && st.strategies == strats.ids && st.environments == envs.ids;
      if envs.error.Some? || environmentName !in envs.ids {
        assert st.profiles == profiles;
      } else {
        assert st.profiles == profs.ids;
      }
    }
  }

  /** Every request is a listing request. */
  predicate OnlyListings(calls: seq<Input>)
  {
    forall i :: 0 <= i < |calls| ==> calls[i].ListInput?
  }

  lemma OnlyListingsAppend(a: seq<Input>, b: seq<Input>)
    requires OnlyListings(a) && OnlyListings(b)
    ensures OnlyListings(a + b)
  {
  }

  /** Construction sends listing requests only, starting with the first page of the
      applications; when it succeeds, the last one is for a page of the profiles of the
      application it resolved. */
  lemma StartupSendsListings(o: Oracle, applications: map<string, string>, strategies: map<string, string>,
                             environments: map<string, string>, profiles: map<string, string>,
                             applicationName: string, environmentName: string)
    ensures var st := StartupSpec(o, applications, strategies, environments, profiles, applicationName, environmentName);
            && |st.calls| >= 1 && st.calls[0] == ListInput(Applications, 0)
            && OnlyListings(st.calls)
            && (st.error.None? ==> st.calls[|st.calls| - 1].kind == ConfigurationProfiles(st.applicationId))
  {
    var st := StartupSpec(o, applications, strategies, environments, profiles, applicationName, environmentName);
    var apps := PaginateFrom(applications, o.pages(Applications), 0);
    PaginateStops(applications, o.pages(Applications), 0);
    var calls1 := ListCalls(Applications, apps.pagesRead);
    assert OnlyListings(calls1);
    if apps.error.Some? {
      assert st.calls == calls1;
    } else {
      var strats := PaginateFrom(strategies, o.pages(DeploymentStrategies), 0);
      var calls2 := calls1 + ListCalls(DeploymentStrategies, strats.pagesRead);
      OnlyListingsAppend(calls1, ListCalls(DeploymentStrategies, strats.pagesRead));
      if strats.error.Some? || applicationName !in apps.ids {
        assert st.calls == calls2;
      } else {
        var appId := apps.ids[applicationName];
        var envs := PaginateFrom(environments, o.pages(Environments(appId)), 0);
        var calls3 := calls2 + ListCalls(Environments(appId), envs.pagesRead);
        OnlyListingsAppend(calls2, ListCalls(Environments(appId), envs.pagesRead));
        if envs.error.Some? || environmentName !in envs.ids {
          assert st.calls == calls3;
        } else {
          var profs := PaginateFrom(profiles, o.pages(ConfigurationProfiles(appId)), 0);
          PaginateStops(profiles, o.pages(ConfigurationProfiles(appId)), 0);
          var calls4 := ListCalls(ConfigurationProfiles(appId), profs.pagesRead);
          OnlyListingsAppend(calls3, calls4);
          assert st.calls == calls3 + calls4 && st.applicationId == appId;
        }
      }
    }
  }

  class EnhancedAppConfigAdvance {
    const store: Store
    const registry: NameRegistry
    const regionName: string
    const applicationName: string
    const environmentName: string
    var applicationId: string
    var environmentId: string

    constructor (store: Store, registry: NameRegistry, regionName: string,
                 applicationName: string, environmentName: string)
      ensures this.store == store && this.registry == registry
      ensures this.regionName == regionName && this.applicationName == applicationName
      ensures this.environmentName == environmentName
      ensures applicationId == "" && environmentId == ""
    {
      this.store, this.registry := store, registry;
      this.regionName, this.applicationName, this.environmentName := regionName, applicationName, environmentName;
      applicationId, environmentId := "", "";
    }

    /** NewWithOptions, after the options have set the three names: check them, build the
        client, list applications and strategies, resolve the two ids, and list the profiles. */
    static method NewWithOptions(store: Store, registry: NameRegistry, regionName: string,
                                 applicationName: string, environmentName: string, clientConstructible: bool)
      returns (r: Result<EnhancedAppConfigAdvance, Error>)
      modifies store, registry
      ensures MissingRequired(applicationName, regionName, environmentName).Some? ==>
                && r == Err(MissingRequired(applicationName, regionName, environmentName).value)
                && store.log == old(store.log) && unchanged(registry)
      ensures MissingRequired(applicationName, regionName, environmentName).None? && !clientConstructible ==>
                r == Err(ClientUnavailable) && store.log == old(store.log) && unchanged(registry)
      ensures r.Ok? ==>
                && fresh(r.value) && r.value.store == store && r.value.registry == registry
                && r.value.applicationName == applicationName
                && r.value.environmentName == environmentName
                && r.value.regionName == regionName
                && applicationName in registry.applications
                && r.value.applicationId == registry.applications[applicationName]
                && environmentName in registry.environments
                && r.value.environmentId == registry.environments[environmentName]
      ensures MissingRequired(applicationName, regionName, environmentName).None? && clientConstructible ==>
                var st := StartupSpec(store.oracle, old(registry.applications), old(registry.strategies),
                                      old(registry.environments), old(registry.profiles),
                                      applicationName, environmentName);
                && registry.applications == st.applications && registry.strategies == st.strategies
                && registry.environments == st.environments && registry.profiles == st.profiles
                && store.log == old(store.log) + st.calls
                && (st.error.Some? ==> r == Err(st.error.value))
                && (st.error.None? ==> r.Ok? && r.value.applicationId == st.applicationId
                                            && r.value.environmentId == st.environmentId)
    {
      var missing := MissingRequired(applicationName, regionName, environmentName);
      if missing.Some? {
        return Err(missing.value);
      }
      if !clientConstructible {
        return Err(ClientUnavailable);
      }
      ghost var o, log0 := store.oracle, store.log;
      ghost var strats0, envs0, profs0 := registry.strategies, registry.environments, registry.profiles;
      ghost var st := StartupSpec(o, registry.applications, strats0, envs0, profs0, applicationName, environmentName);
      var facade := new EnhancedAppConfigAdvance(store, registry, regionName, applicationName, environmentName);
      var err := facade.ListApplications();
      ghost var calls := store.log[|log0|..];
      assert store.log == log0 + calls;
      if err.Some? {
        return Err(err.value);
      }
      ghost var before := store.log;
      err := facade.ListDeploymentStrategies();
      LogAppend(log0, calls, store.log[|before|..]);
      calls := calls + store.log[|before|..];
      if err.Some? {
        return Err(err.value);
      }
      before := store.log;
      err := facade.NameToId();
      LogAppend(log0, calls, store.log[|before|..]);
      calls := calls + store.log[|before|..];
      if err.Some? {
        return Err(err.value);
      }
      before := store.log;
      err := facade.ListConfigurationProfiles();
      LogAppend(log0, calls, store.log[|before|..]);
      calls := calls + store.log[|before|..];
      assert calls == st.calls;
      if err.Some? {
        return Err(err.value);
      }
      r := Ok(facade);
    }

    method ListApplications() returns (err: Option<Error>)
      modifies registry, store
      ensures var l := PaginateFrom(old(registry.applications), store.oracle.pages(Applications), 0);
              && registry.applications == l.ids && err == StoreError(l.error)
              && store.log == old(store.log) + ListCalls(Applications, l.pagesRead)
      ensures registry.environments == old(registry.environments)
      ensures registry.profiles == old(registry.profiles)
      ensures registry.strategies == old(registry.strategies)
    {
      var ids, e := ListAll(store, Applications, registry.applications);
      registry.applications := ids;
      err := StoreError(e);
    }

    method ListEnvironments(applicationId: string) returns (err: Option<Error>)
      modifies registry, store
      ensures var l := PaginateFrom(old(registry.environments), store.oracle.pages(Environments(applicationId)), 0);
              && registry.environments == l.ids && err == StoreError(l.error)
              && store.log == old(store.log) + ListCalls(Environments(applicationId), l.pagesRead)
      ensures registry.applications == old(registry.applications)
      ensures registry.profiles == old(registry.profiles)
      ensures registry.strategies == old(registry.strategies)
    {
      var ids, e := ListAll(store, Environments(applicationId), registry.environments);
      registry.environments := ids;
      err := StoreError(e);
    }

    method ListConfigurationProfiles() returns (err: Option<Error>)
      modifies registry, store
      ensures var kind := ConfigurationProfiles(applicationId);
              var l := PaginateFrom(old(registry.profiles), store.oracle.pages(kind), 0);
              && registry.profiles == l.ids && err == StoreError(l.error)
              && store.log == old(store.log) + ListCalls(kind, l.pagesRead)
      ensures registry.applications == old(registry.applications)
      ensures registry.environments == old(registry.environments)
      ensures registry.strategies == old(registry.strategies)
    {
      var ids, e := ListAll(store, ConfigurationProfiles(applicationId), registry.profiles);
      registry.profiles := ids;
      err := StoreError(e);
    }

    method ListDeploymentStrategies() returns (err: Option<Error>)
      modifies registry, store
      ensures var l := PaginateFrom(old(registry.strategies), store.oracle.pages(DeploymentStrategies), 0);
              && registry.strategies == l.ids && err == StoreError(l.error)
              && store.log == old(store.log) + ListCalls(DeploymentStrategies, l.pagesRead)
      ensures registry.applications == old(registry.applications)
      ensures registry.environments == old(registry.environments)
      ensures registry.profiles == old(registry.profiles)
    {
      var ids, e := ListAll(store, DeploymentStrategies, registry.strategies);
      registry.strategies := ids;
      err := StoreError(e);
    }

    /** Resolve the application id, list its environments, resolve the environment id;
        the two id fields are set only when both names were found. */
    method NameToId() returns (err: Option<Error>)
      modifies this, registry, store
      ensures registry.applications == old(registry.applications)
      ensures registry.profiles == old(registry.profiles)
      ensures registry.strategies == old(registry.strategies)
      ensures applicationName !in registry.applications ==>
                && err == Some(ApplicationNotFound(applicationName))
                && store.log == old(store.log) && registry.environments == old(registry.environments)
      ensures err.Some? ==> applicationId == old(applicationId) && environmentId == old(environmentId)
      ensures applicationName in registry.applications ==>
                var appId := registry.applications[applicationName];
                var l := PaginateFrom(old(registry.environments), store.oracle.pages(Environments(appId)), 0);
                && registry.environments == l.ids
                && store.log == old(store.log) + ListCalls(Environments(appId), l.pagesRead)
                && (l.error.Some? ==> err == StoreError(l.error))
                && (l.error.None? && environmentName !in l.ids ==> err == Some(EnvironmentNotFound(environmentName)))
                && (l.error.None? && environmentName in l.ids ==>
                      err.None? && applicationId == appId && environmentId == l.ids[environmentName])
    {
      if applicationName !in registry.applications {
        return Some(ApplicationNotFound(applicationName));
      }
      var appId := registry.applications[applicationName];
      err := ListEnvironments(appId);
      if err.Some? {
        return;
      }
      if environmentName !in registry.environments {
        return Some(EnvironmentNotFound(environmentName));
      }
      applicationId := appId;
      environmentId := registry.environments[environmentName];
    }

    /** getConfigurationProfileId: answer from the map, or list once and look again. */
    method GetConfigurationProfileId(name: string) returns (id: string, found: bool, err: Option<Error>)
      modifies registry, store
      ensures var kind := ConfigurationProfiles(applicationId);
              var res := Resolve(old(registry.profiles), name, kind, store.oracle.pages(kind));
              && id == res.id && found == res.found && err == StoreError(res.error)
              && registry.profiles == res.ids && store.log == old(store.log) + res.calls
      ensures registry.applications == old(registry.applications)
      ensures registry.environments == old(registry.environments)
      ensures registry.strategies == old(registry.strategies)
    {
      if name in registry.profiles {
        return registry.profiles[name], true, None;
      }
      err := ListConfigurationProfiles();
      if err.Some? {
        return "", false, err;
      }
      if name in registry.profiles {
        return registry.profiles[name], true, None;
      }
      return "", false, None;
    }

    method CreateProfile(name: string) returns (r: Result<string, string>)
      modifies store
      ensures var input := CreateConfigurationProfileInput(applicationId, name, HostedLocation);
              store.log == old(store.log) + [input] && r == store.oracle.createProfile(input)
    {
      r := store.CreateConfigurationProfile(CreateConfigurationProfileInput(applicationId, name, HostedLocation));
    }

    method CreateHostedConfigurationVersion(profileId: string, content: string) returns (r: Result<int, string>)
      modifies store
      ensures var input := VersionInput(store.oracle, applicationId, profileId, content);
              store.log == old(store.log) + [input] && r == store.oracle.createVersion(input)
    {
      var contentType := store.oracle.detectContentType(content);
      var input := CreateHostedConfigurationVersionInput(applicationId, profileId, content,
                                                         BeforeFirst(contentType, "; "));
      r := store.CreateHostedConfigurationVersion(input);
    }

    /** startDeployment: nothing is sent unless the fixed strategy has an id. */
    method StartDeployment(profileId: string, version: string) returns (output: bool, err: Option<Error>)
      modifies store
      ensures var d := DeploySpec(store.oracle, applicationId, environmentId, registry.strategies, profileId, version);
              output == d.output && err == d.error && store.log == old(store.log) + d.calls
    {
      if DeploymentStrategyName !in registry.strategies {
        return false, Some(DeploymentStrategyMissing(DeploymentStrategyName));
      }
      var input := StartDeploymentInput(applicationId, environmentId, profileId, version,
                                        registry.strategies[DeploymentStrategyName]);
      var reply := store.StartDeployment(input);
      match reply {
        case Failed(m) => return false, Some(StoreFailure(m));
        case NilOutput => return false, None;
        case Done(_) => return true, None;
      }
    }

    method CreateConfiguration(name: string, content: string) returns (ok: bool, err: Option<Error>)
      modifies registry, store
      ensures var r := CreateSpec(store.oracle, applicationId, environmentId, old(registry.strategies),
                                  old(registry.profiles), name, content);
              && ok == r.ok && err == r.error && registry.profiles == r.profiles
              && store.log == old(store.log) + r.calls
      ensures registry.applications == old(registry.applications)
      ensures registry.environments == old(registry.environments)
      ensures registry.strategies == old(registry.strategies)
    {
      ghost var kind := ConfigurationProfiles(applicationId);
      ghost var res := Resolve(old(registry.profiles), name, kind, store.oracle.pages(kind));
      var _, found, e := GetConfigurationProfileId(name);
      if e.Some? {
        return false, e;
      }
      if found {
        return false, Some(ConfigurationExists(name));
      }
      ghost var create := CreateConfigurationProfileInput(applicationId, name, HostedLocation);
      var created := CreateProfile(name);
      LogAppend(old(store.log), res.calls, [create]);
      if created.Err? {
        return false, Some(StoreFailure(created.error));
      }
      var profileId := created.value;
      ghost var versionInput := VersionInput(store.oracle, applicationId, profileId, content);
      var version := CreateHostedConfigurationVersion(profileId, content);
      LogAppend(old(store.log), res.calls + [create], [versionInput]);
      assert res.calls + [create] + [versionInput] == res.calls + [create, versionInput];
      if version.Err? {
        return false, Some(StoreFailure(version.error));
      }
      ghost var d := DeploySpec(store.oracle, applicationId, environmentId, registry.strategies, profileId,
                                IntToDecimal(version.value));
      var output;
      output, err := StartDeployment(profileId, IntToDecimal(version.value));
      LogAppend(old(store.log), res.calls + [create, versionInput], d.calls);
      if err.Some? {
        return false, err;
      }
      if output {
        registry.profiles := registry.profiles[name := profileId];
      }
      ok := output;
    }

    method UpdateConfiguration(name: string, content: string) returns (ok: bool, err: Option<Error>)
      modifies registry, store
      ensures var r := UpdateSpec(store.oracle, applicationId, environmentId, old(registry.strategies),
                                  old(registry.profiles), name, content);
              && ok == r.ok && err == r.error && registry.profiles == r.profiles
              && store.log == old(store.log) + r.calls
      ensures registry.applications == old(registry.applications)
      ensures registry.environments == old(registry.environments)
      ensures registry.strategies == old(registry.strategies)
    {
      ghost var kind := ConfigurationProfiles(applicationId);
      ghost var res := Resolve(old(registry.profiles), name, kind, store.oracle.pages(kind));
      var profileId, found, e := GetConfigurationProfileId(name);
      if e.Some? {
        return false, e;
      }
      if !found {
        return false, Some(ConfigurationMissing(name));
      }
      ghost var versionInput := VersionInput(store.oracle, applicationId, profileId, content);
      var version := CreateHostedConfigurationVersion(profileId, content);
      LogAppend(old(store.log), res.calls, [versionInput]);
      if version.Err? {
        return false, Some(StoreFailure(version.error));
      }
      ghost var d := DeploySpec(store.oracle, applicationId, environmentId, registry.strategies, profileId,
                                IntToDecimal(version.value));
      ok, err := StartDeployment(profileId, IntToDecimal(version.value));
      LogAppend(old(store.log), res.calls + [versionInput], d.calls);
    }

    /** The inner loop of deleteAllConfigurationVersion: delete the versions of one page
        in order, stopping at the first error or nil output. */
    method DeleteVersions(items: seq<HostedVersion>) returns (err: Option<Error>)
      modifies store
      ensures var d := DeleteItemsSpec(store.oracle, applicationId, items);
              err == d.error && store.log == old(store.log) + d.calls
    {
      ghost var o := store.oracle;
      for j := 0 to |items|
        invariant var d0 := DeleteItemsSpec(o, applicationId, items);
                  var dj := DeleteItemsSpec(o, applicationId, items[j..]);
                  d0.error == dj.error && old(store.log) + d0.calls == store.log + dj.calls
      {
        var input := DeleteHostedConfigurationVersionInput(applicationId, items[j].profileId, items[j].versionNumber);
        var reply := store.DeleteHostedConfigurationVersion(input);
        assert items[j..][1..] == items[j + 1..];
        if reply.Failed? {
          return Some(StoreFailure(reply.message));
        }
        if reply.NilOutput? {
          return Some(VersionDeleteFailed(items[j].profileId, items[j].versionNumber));
        }
      }
      assert items[|items|..] == [];
      err := None;
    }

    /** deleteAllConfigurationVersion: page through the versions, deleting each. */
    method DeleteAllConfigurationVersion(profileId: string) returns (err: Option<Error>)
      modifies store
      ensures var s := DeleteVersionsFrom(store.oracle, applicationId, profileId, 0);
              err == s.error && store.log == old(store.log) + s.calls
    {
      ghost var o := store.oracle;
      ghost var pages := o.versionPages(applicationId, profileId);
      var token := 0;
      while true
        invariant token <= |pages|
        invariant var s0 := DeleteVersionsFrom(o, applicationId, profileId, 0);
                  var st := DeleteVersionsFrom(o, applicationId, profileId, token);
                  s0.error == st.error && old(store.log) + s0.calls == store.log + st.calls
        decreases |pages| - token
      {
        ghost var before := store.log;
        ghost var list := ListHostedConfigurationVersionsInput(applicationId, profileId, token);
        var output := store.ListHostedConfigurationVersions(applicationId, profileId, token);
        if output.Err? {
          return Some(StoreFailure(output.error));
        }
        var items := output.value.items;
        if |items| == 0 {
          return None;
        }
        ghost var d := DeleteItemsSpec(o, applicationId, items);
        err := DeleteVersions(items);
        LogAppend(before, [list], d.calls);
        if err.Some? {
          return;
        }
        if !output.value.hasNextToken {
          return None;
        }
        LogAppend(before, [list] + d.calls, DeleteVersionsFrom(o, applicationId, profileId, token + 1).calls);
        token := token + 1;
      }
    }

    /** deleteConfigurationProfile: every version first, then the profile. */
    method DeleteProfile(profileId: string) returns (output: bool, err: Option<Error>)
      modifies store
      ensures var s := DeleteVersionsFrom(store.oracle, applicationId, profileId, 0);
              var input := DeleteConfigurationProfileInput(applicationId, profileId);
              && (s.error.Some? ==> !output && err == s.error && store.log == old(store.log) + s.calls)
              && (s.error.None? ==>
                    && store.log == old(store.log) + s.calls + [input]
                    && output == store.oracle.deleteProfile(input).Done?
                    && err == (if store.oracle.deleteProfile(input).Failed?
                               then Some(StoreFailure(store.oracle.deleteProfile(input).message)) else None))
    {
      err := DeleteAllConfigurationVersion(profileId);
      if err.Some? {
        return false, err;
      }
      var reply := store.DeleteConfigurationProfile(DeleteConfigurationProfileInput(applicationId, profileId));
      match reply {
        case Failed(m) => return false, Some(StoreFailure(m));
        case NilOutput => return false, None;
        case Done(_) => return true, None;
      }
    }

    method DeleteConfiguration(name: string) returns (ok: bool, err: Option<Error>)
      modifies registry, store
      ensures var r := DeleteSpec(store.oracle, applicationId, old(registry.profiles), name);
              && ok == r.ok && err == r.error && registry.profiles == r.profiles
              && store.log == old(store.log) + r.calls
      ensures registry.applications == old(registry.applications)
      ensures registry.environments == old(registry.environments)
      ensures registry.strategies == old(registry.strategies)
    {
      var profileId, found, e := GetConfigurationProfileId(name);
      if e.Some? {
        return false, e;
      }
      if !found {
        return false, Some(ConfigurationMissing(name));
      }
      ghost var kind := ConfigurationProfiles(applicationId);
      ghost var res := Resolve(old(registry.profiles), name, kind, store.oracle.pages(kind));
      ghost var s := DeleteVersionsFrom(store.oracle, applicationId, profileId, 0);
      var output;
      output, err := DeleteProfile(profileId);
      LogAppend(old(store.log), res.calls, s.calls);
      if err.Some? {
        return false, err;
      }
      LogAppend(old(store.log), res.calls + s.calls, [DeleteConfigurationProfileInput(applicationId, profileId)]);
      if output {
        registry.profiles := registry.profiles - {name};
      }
      ok := output;
    }
  }
}
