/** The boundary to the AWS AppConfig service: the requests the two facades send, the answers they
    can receive, and a store object that answers from a fixed script and records every
    request in the order it arrived. */
module AppConfigStore {
  import opened Wrappers

  /** The error outcomes of the facades' operations. Message wording is not modelled;
      an error that comes back from the service keeps its text. */
  datatype Error =
    | StoreFailure(message: string)
    | MissingField(field: string)
    | ClientUnavailable
    | ApplicationNotFound(applicationName: string)
    | EnvironmentNotFound(environmentName: string)
    | ConfigurationExists(configurationName: string)
    | ConfigurationMissing(configurationName: string)
    | DeploymentStrategyMissing(strategyName: string)
    | VersionDeleteFailed(profileId: string, versionNumber: int)
    | ConfigurationFetchFailed(configurationName: string)

  /** One listed resource: its name and its identifier. */
  datatype Item = Item(name: string, id: string)

  /** One page of a listing; `hasNextToken` says whether the answer carried a next token. */
  datatype Page = Page(items: seq<Item>, hasNextToken: bool)

  /** One listed hosted configuration version. */
  datatype HostedVersion = HostedVersion(profileId: string, versionNumber: int)

  datatype VersionPage = VersionPage(items: seq<HostedVersion>, hasNextToken: bool)

  /** The four listings that feed the name-to-id maps. */
  datatype ListKind =
    | Applications
    | Environments(applicationId: string)
    | ConfigurationProfiles(applicationId: string)
    | DeploymentStrategies

  /** The input of GetConfiguration; the client version is absent unless one is supplied. */
  datatype GetRequest = GetRequest(
    application: string,
    environment: string,
    clientId: string,
    configuration: string,
    clientConfigurationVersion: Option<string>)

  /** The output of GetConfiguration: the content bytes (as text) and the version token. */
  datatype GetOutput = GetOutput(content: string, configurationVersion: Option<string>)

  /** Every request the facades send; the continuation token of a listing is the page index. */
  datatype Input =
    | ListInput(kind: ListKind, token: nat)
    | ListHostedConfigurationVersionsInput(applicationId: string, profileId: string, token: nat)
    | CreateConfigurationProfileInput(applicationId: string, name: string, locationUri: string)
    | CreateHostedConfigurationVersionInput(applicationId: string, profileId: string, content: string, contentType: string)
    | StartDeploymentInput(applicationId: string, environmentId: string, profileId: string,
                           configurationVersion: string, strategyId: string)
    | DeleteHostedConfigurationVersionInput(applicationId: string, profileId: string, versionNumber: int)
    | DeleteConfigurationProfileInput(applicationId: string, profileId: string)
    | GetConfigurationInput(request: GetRequest)

  /** What the service answers. The service's own state is not modelled: each request
      has one fixed answer. Creating a profile and a version returns an output (or an
      error) because the advance package dereferences those outputs without a nil test. */
  datatype Oracle = Oracle(
    pages: ListKind -> seq<Result<Page, string>>,
    versionPages: (string, string) -> seq<Result<VersionPage, string>>,
    createProfile: Input -> Result<string, string>,
    createVersion: Input -> Result<int, string>,
    startDeployment: Input -> Reply<()>,
    deleteVersion: Input -> Reply<()>,
    deleteProfile: Input -> Reply<()>,
    getConfiguration: GetRequest -> Result<GetOutput, string>,
    detectContentType: string -> string)

  /** The page answered for `token`: beyond the scripted pages, an empty page without a token. */
  function PageAt<P>(pages: seq<Result<P, string>>, token: nat, empty: P): Result<P, string>
  {
    if token < |pages| then pages[token] else Ok(empty)
  }

  /** The requests of one listing that read pages 0 .. n-1. */
  function ListCalls(kind: ListKind, n: nat): (r: seq<Input>)
    ensures |r| == n
    ensures forall i :: 0 <= i < n ==> r[i] == ListInput(kind, i)
  {
    if n == 0 then [] else ListCalls(kind, n - 1) + [ListInput(kind, n - 1)]
  }

  /** Regrouping the requests appended to a log. */
  lemma LogAppend(log: seq<Input>, a: seq<Input>, b: seq<Input>)
    ensures log + a + b == log + (a + b)
  {
  }

  /** The AppConfig client: every call appends its request to `log` and returns the
      oracle's answer. */
  class Store {
    const oracle: Oracle
    var log: seq<Input>

    constructor (oracle: Oracle)
      ensures this.oracle == oracle && log == []
    {
      this.oracle := oracle;
      log := [];
    }

    method List(kind: ListKind, token: nat) returns (r: Result<Page, string>)
      modifies this
      ensures log == old(log) + [ListInput(kind, token)]
      ensures r == PageAt(oracle.pages(kind), token, Page([], false))
    {
      log := log + [ListInput(kind, token)];
      r := PageAt(oracle.pages(kind), token, Page([], false));
    }

    method ListHostedConfigurationVersions(applicationId: string, profileId: string, token: nat)
      returns (r: Result<VersionPage, string>)
      modifies this
      ensures log == old(log) + [ListHostedConfigurationVersionsInput(applicationId, profileId, token)]
      ensures r == PageAt(oracle.versionPages(applicationId, profileId), token, VersionPage([], false))
    {
      log := log + [ListHostedConfigurationVersionsInput(applicationId, profileId, token)];
      r := PageAt(oracle.versionPages(applicationId, profileId), token, VersionPage([], false));
    }

    method CreateConfigurationProfile(input: Input) returns (r: Result<string, string>)
      requires input.CreateConfigurationProfileInput?
      modifies this
      ensures log == old(log) + [input] && r == oracle.createProfile(input)
    {
      log := log + [input];
      r := oracle.createProfile(input);
    }

    method CreateHostedConfigurationVersion(input: Input) returns (r: Result<int, string>)
      requires input.CreateHostedConfigurationVersionInput?
      modifies this
      ensures log == old(log) + [input] && r == oracle.createVersion(input)
    {
      log := log + [input];
      r := oracle.createVersion(input);
    }

    method StartDeployment(input: Input) returns (r: Reply<()>)
      requires input.StartDeploymentInput?
      modifies this
      ensures log == old(log) + [input] && r == oracle.startDeployment(input)
    {
      log := log + [input];
      r := oracle.startDeployment(input);
    }

    method DeleteHostedConfigurationVersion(input: Input) returns (r: Reply<()>)
      requires input.DeleteHostedConfigurationVersionInput?
      modifies this
      ensures log == old(log) + [input] && r == oracle.deleteVersion(input)
    {
      log := log + [input];
      r := oracle.deleteVersion(input);
    }

    method DeleteConfigurationProfile(input: Input) returns (r: Reply<()>)
      requires input.DeleteConfigurationProfileInput?
      modifies this
      ensures log == old(log) + [input] && r == oracle.deleteProfile(input)
    {
      log := log + [input];
      r := oracle.deleteProfile(input);
    }

    method GetConfiguration(request: GetRequest) returns (r: Result<GetOutput, string>)
      modifies this
      ensures log == old(log) + [GetConfigurationInput(request)]
      ensures r == oracle.getConfiguration(request)
    {
      log := log + [GetConfigurationInput(request)];
      r := oracle.getConfiguration(request);
    }
  }
}
