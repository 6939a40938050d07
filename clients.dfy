/** The collaborators the core calls but does not define: the registry's HTTP
    API client, the image-transfer (docker) tool, the configuration that
    builds a client, and the JSON models a response decodes into.

    Each client is an abstract object. It records every call it receives in
    a ghost trace, and the answer to its n-th call comes from a stub
    function fixed when the client is built, so that the workflows can be
    stated for every possible behaviour of the registry and of the tool. */
module Clients {
  import opened Common

  /** The settings an API client is built from (`client.APIClientConfig`). */
  datatype ApiClientConfig = ApiClientConfig(
    username: string,
    password: string,
    caFile: string,
    certFile: string,
    keyFile: string,
    proxy: string)

  /** A request sent through the API client. */
  datatype Request = HttpGet(url: string) | HttpPost(url: string) | HttpDelete(url: string)

  /** One entry of an artifact's scan overview (`models.NativeReportSummary`);
      only its status is used. */
  datatype NativeReportSummary = NativeReportSummary(status: string)

  /** An artifact as the registry describes it (`models.Tag`); only its scan
      overview, a possibly nil map from report type to summary, is used. */
  datatype Artifact = Artifact(scanOverview: Option<map<string, NativeReportSummary>>)

  /** A repository of a project (`models.Repository`), known by its name. */
  datatype Repository = Repository(name: string)

  /** A response body, as `json.Unmarshal` sees it: one artifact, a list of
      artifacts, a list of repositories, or something that decodes as none. */
  datatype Body =
    | ArtifactBody(artifact: Artifact)
    | ArtifactListBody(artifacts: seq<Artifact>)
    | RepositoryListBody(repositories: seq<Repository>)
    | Unreadable

  const DECODE_ERROR := "json: cannot unmarshal response"

  /** `json.Unmarshal` into a `models.Tag`. */
  function DecodeArtifact(b: Body): (r: Result<Artifact>)
    ensures r.Ok? <==> b.ArtifactBody?
  {
    if b.ArtifactBody? then Ok(b.artifact) else Fail(DECODE_ERROR)
  }

  /** `json.Unmarshal` into a `[]models.Tag`. */
  function DecodeArtifactList(b: Body): (r: Result<seq<Artifact>>)
    ensures r.Ok? <==> b.ArtifactListBody?
  {
    if b.ArtifactListBody? then Ok(b.artifacts) else Fail(DECODE_ERROR)
  }

  /** `json.Unmarshal` into a `[]models.Repository`. */
  function DecodeRepositoryList(b: Body): (r: Result<seq<Repository>>)
    ensures r.Ok? <==> b.RepositoryListBody?
  {
    if b.RepositoryListBody? then Ok(b.repositories) else Fail(DECODE_ERROR)
  }

  /** The registry's HTTP API client (`client.APIClient`). */
  class APIClient {
    const config: ApiClientConfig
    /** The registry's answer to the n-th request: a body or a transport error. */
    const reply: (nat, Request) -> Result<Body>
    /** Every request sent so far, oldest first. */
    ghost var requests: seq<Request>
    var sent: nat

    ghost predicate Valid()
      reads this
    {
      sent == |requests|
    }

    constructor (config: ApiClientConfig, reply: (nat, Request) -> Result<Body>)
      ensures Valid() && requests == []
      ensures this.config == config && this.reply == reply
    {
      this.config := config;
      this.reply := reply;
      requests := [];
      sent := 0;
    }

    method Send(req: Request) returns (r: Result<Body>)
      requires Valid()
      modifies this
      ensures Valid() && requests == old(requests) + [req]
      ensures r == reply(old(sent), req)
    {
      r := reply(sent, req);
      requests := requests + [req];
      sent := sent + 1;
    }
  }

  /** A call on the image-transfer tool (`client.DockerClient`). */
  datatype Call =
    | Status
    | Pull(ref: string)
    | Login(user: string, password: string, host: string)
    | Tag(source: string, target: string)
    | Push(ref: string)

  /** The image-transfer tool. */
  class DockerTool {
    /** The tool's answer to its n-th call. */
    const reply: (nat, Call) -> Error
    /** Every call made so far, oldest first. */
    ghost var trace: seq<Call>
    var calls: nat

    ghost predicate Valid()
      reads this
    {
      calls == |trace|
    }

    constructor (reply: (nat, Call) -> Error)
      ensures Valid() && trace == [] && this.reply == reply
    {
      this.reply := reply;
      trace := [];
      calls := 0;
    }

    method Invoke(c: Call) returns (err: Error)
      requires Valid()
      modifies this
      ensures Valid() && trace == old(trace) + [c]
      ensures err == reply(old(calls), c)
    {
      err := reply(calls, c);
      trace := trace + [c];
      calls := calls + 1;
    }
  }

  /** The behaviour of the outside world: which client configurations
      `client.NewAPIClient` rejects (and with what error), how the registry
      answers requests, and how the tool answers calls. */
  datatype Provider = Provider(
    refuse: ApiClientConfig -> Error,
    http: (nat, Request) -> Result<Body>,
    docker: (nat, Call) -> Error)

  /** `client.NewAPIClient`: a fresh client for `cfg`, or the construction error. */
  method NewAPIClient(p: Provider, cfg: ApiClientConfig) returns (r: Result<APIClient>)
    ensures r.Fail? <==> p.refuse(cfg) != Nil
    ensures r.Fail? ==> p.refuse(cfg) == Err(r.msg)
    ensures r.Ok? ==> fresh(r.value) && r.value.Valid() && r.value.requests == []
    ensures r.Ok? ==> r.value.config == cfg && r.value.reply == p.http
  {
    var e := p.refuse(cfg);
    if e.Err? {
      r := Fail(e.msg);
    } else {
      var c := new APIClient(cfg, p.http);
      r := Ok(c);
    }
  }
}
