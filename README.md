# Harbor end-to-end tests: environment, image workflows and scan wait

This project models the core of an end-to-end test suite for a Harbor
registry (Go, Ginkgo). The core has three parts:

- **The testing environment** (`envs/environment.go`). `HarborEnvironment` is
  an object holding:
  - the configuration (host, protocol, accounts, TLS files, proxy, image
    coordinates);
  - the registry's API client and the image-transfer (docker) tool;
  - a `loaded` flag.

  `NewHarborEnvironment` installs defaults and builds the clients through
  `Init`. `Load` overlays the configuration from the process environment,
  field by field. A field takes its variable's value only when that value is
  not blank after trimming. The proxy variable is chosen by the protocol as it
  stands after the overlay, with an upper-case fallback. `Load` builds the
  clients only while `loaded` is false. `RootURI` formats
  `<protocol>://<hostname>`.
- **The image workflows** (`lib/dockerclient.go`). `PushImage` makes the calls
  Status, Pull, Login, Tag, Push on the tool. `PullImage` makes Status, Login,
  Pull. Each stops at the first failing call and returns that call's error.
  The image references are built by concatenation.
- **The repository and scan operations** (`lib/image.go`):
  - `NewImageUtil`;
  - `DeleteRepo`, `GetRepos` and `GetTags`, with their input checks and
    addresses;
  - `ScanArtifact`, which starts a scan and then reads the artifact once a
    second. The reads stop at the first read that fails or does not decode,
    or when the native report says "Success". The caller waits until it is
    told of success or 300 seconds have passed.

The files:

- `common.dfy` holds `Option`, `Result` and the Go `error` (`Nil | Err(msg)`).
- `text.dfy` models the pieces of `strings` and `fmt` the core uses:
  `TrimSpace` with Go's white-space set, `ToUpper` on ASCII letters, and `%d`.
  It also has the search functions used to state that formatted strings can
  be taken apart again.
- `clients.dfy` models the collaborators:
  - the API client and the docker tool are objects that record every call in
    a ghost trace;
  - the answer to the n-th call comes from a stub function fixed when the
    object is built, so every workflow is proved for every possible behaviour
    of the registry and of the tool;
  - `client.NewAPIClient` is a constructor that can fail, decided by a stub;
  - the JSON models are cut down to the fields the core reads.
- `environment.dfy` holds the `HarborEnvironment` class. Its fields are
  updated in place by its methods. `Overlay` is the pure function of the
  configuration and the environment map that `Load` is proved to compute.
- `dockerclient.dfy` holds the two workflows as methods over the tool object.
  `Run` is the specification: a fixed list of calls, made until one fails.
- `image.dfy` holds the `ImageUtil` class. Each operation is specified by a
  function of the registry's answers that gives the requests sent and the
  result (`DeleteExchange`, `ScanExchange`, `ReposExchange`, `TagsExchange`,
  and `Poll` for the wait). The methods are proved to do exactly that. The
  lemmas then state the operations' promises in terms of those functions.

A failed read does not end the wait. In `lib/image.go:70-97` the watcher
sends the error on `errchan`, which the waiting `select` never reads, and
stops. The caller therefore always returns either nil or
"Scan timeout after 300 seconds". `Poll` and `PollOutcome` state that
behaviour.

## Model

| member | source | states |
|---|---|---|
| Text.TrimSpaceIsInnerSlice | envs/environment.go:184-186 | trimming keeps exactly the stretch of the string between its first and last non-space characters; everything cut off is white space |
| Text.Blank | envs/environment.go:184-186 | a string is blank when every character is white space; `isNotEmpty` is its negation and the `len(strings.TrimSpace(s)) == 0` guards of lib/image.go are it (the agreement is `TrimSpaceEmptyIff`) |
| Text.TrimSpaceEmptyIff | envs/environment.go:184-186 | a string trims to nothing exactly when it is blank, so `isNotEmpty` holds exactly when something is left after `TrimSpace` and a value of only white space counts as blank |
| Text.NatToDecimalRoundTrip | lib/image.go:112 | the `%d` digits of a natural number read back as that number |
| Text.IntToDecimalInjective | lib/image.go:112 | `%d` of two different integers gives two different strings |
| Clients.APIClient.Send | lib/image.go:72-76 | one request is appended to the client's record, and the answer is the registry's answer to that request at its place in the sequence |
| Clients.DockerTool.Invoke | lib/dockerclient.go:15-18 | one call is appended to the tool's trace, and the answer is the tool's answer to that call at its place in the sequence |
| Clients.NewAPIClient | envs/environment.go:72-76 | fails exactly when the provider refuses the configuration, and then with that error; otherwise gives a fresh client with no requests, bound to that configuration |
| Envs.Overlay | envs/environment.go:84-154 | the configuration a load leaves, from the one it finds and the environment: the twelve plain fields first, then the proxy by the protocol as it then stands; its properties are the `Overlay...` lemmas below |
| Envs.UpperProxyVar | envs/environment.go:150 | the upper-case fallback names are `HTTP_PROXY` for protocol "http" and `HTTPS_PROXY` otherwise |
| Envs.OverlayFieldwise | envs/environment.go:84-142 | each of the twelve fields with a variable of its own takes that variable's value when it is non-blank and is otherwise unchanged |
| Envs.OverlayKeepsDigestAndRegistry | envs/environment.go:83-177 | loading never changes the image digest or the source-registry prefix, whatever the environment holds |
| Envs.OverlayProxy | envs/environment.go:144-154 | the proxy comes from `http_proxy`/`HTTP_PROXY` exactly when the protocol after the overlay is "http", otherwise from `https_proxy`/`HTTPS_PROXY`; the lower-case name wins when non-blank, the upper-case name is the fallback, and the proxy is unchanged when both are blank |
| Envs.UpperCaseProxyFallback | envs/environment.go:148-154 | with protocol "https" and only `HTTPS_PROXY` set, the proxy takes that value |
| Envs.HttpProtocolSelectsHttpProxy | envs/environment.go:124-154 | a protocol switched to "http" by the environment makes `http_proxy` the variable consulted, even when `https_proxy` is set too |
| Envs.OverlayIdempotent | envs/environment.go:84-154 | overlaying the same environment twice gives the configuration that overlaying once gives |
| Envs.OverlayOfEmptyEnvironment | envs/environment.go:84-154 | an environment with nothing set leaves the configuration unchanged |
| Envs.ClientConfig | envs/environment.go:63-70 | the client configuration built from an environment: user name and password are the admin account and admin password, then the CA, certificate and key files and the proxy; both `Init` and `Load` build from it (envs/environment.go:157-164) |
| Envs.Defaults | envs/environment.go:40-54 | the starting configuration: protocol "https", the given host, accounts "user001"/"Harbor12345" and "admin" with the given admin password, project "smoketest", source prefix "registry.goharbor.io/harbor-ci/", image "nginx:latest" with its fixed digest, CA file "ca.crt", no certificate or key file, and the given proxy |
| Envs.HarborEnvironment.constructor | envs/environment.go:39-60 | the configuration is the defaults plus the host, admin password and proxy given; `loaded` is false; both clients are fresh and built from the admin credentials, TLS files and proxy |
| Envs.HarborEnvironment.Init | envs/environment.go:62-80 | builds both clients afresh from the admin credentials, TLS files and proxy whatever `loaded` says, and never changes `loaded` or the configuration; on a construction error it returns that error and leaves both clients unchanged |
| Envs.HarborEnvironment.LoadAccounts | envs/environment.go:84-107 | host, account, password, admin and admin password each take their variable's value when it is non-blank |
| Envs.HarborEnvironment.LoadImage | envs/environment.go:109-122 | testing project, image name and image tag each take their variable's value when it is non-blank |
| Envs.HarborEnvironment.LoadTransport | envs/environment.go:124-142 | protocol, CA file, key file and certificate file each take their variable's value when it is non-blank |
| Envs.HarborEnvironment.LoadFields | envs/environment.go:84-142 | all twelve plainly overlaid fields, as in the three methods above, and no other field |
| Envs.HarborEnvironment.LoadProxy | envs/environment.go:144-154 | the proxy takes the value of the variable the current protocol selects, with the upper-case fallback, when that is non-blank |
| Envs.HarborEnvironment.BuildClientsOnce | envs/environment.go:156-174 | when already loaded: no error and the clients are untouched; otherwise the clients are built as by `Init`, with `loaded` set on success and unchanged clients and `loaded` still false on error |
| Envs.HarborEnvironment.Load | envs/environment.go:83-177 | the configuration becomes `Overlay` of the old one; clients are built, and `loaded` is set, only when it was false; a construction error is returned with `loaded` false and the clients unchanged; an already loaded environment never changes its clients |
| Envs.HarborEnvironment.RootURI | envs/environment.go:180-182 | the root address: the protocol, `://` and the host; `RootURIRoundTrip` shows the two parts can be recovered |
| Envs.HarborEnvironment.RootURIRoundTrip | envs/environment.go:180-182 | the root address `<protocol>://<hostname>` splits back into protocol and host when the protocol has no colon |
| Envs.LoadTwice | envs/environment.go:83-177 | two loads with the same environment leave the configuration of one load; when the first succeeds, the second succeeds too, and the environment is left loaded with a configuration a further overlay does not change |
| Envs.LoadAgain | envs/environment.go:83-177 | a load of an environment already loaded with the same variables (what a successful first load leaves) succeeds, changes no field and keeps the very clients the environment held before it |
| Docker.SourceRef | lib/dockerclient.go:20 | the reference pulled from the public registry: the registry prefix and the image name with nothing between them, a colon and the tag; `SourceRefRoundTrip` takes it apart |
| Docker.TargetRef | lib/dockerclient.go:31-35 | the reference in the testing project, `host/project/name:tag`; `TargetRefRoundTrip` and `TargetRefInjective` state what it determines |
| Docker.PushSteps | lib/dockerclient.go:16-45 | the calls of a push, in order: Status, Pull of the source, Login with the non-admin account on the host, Tag of the source as the target, Push of the target |
| Docker.PullSteps | lib/dockerclient.go:53-69 | the calls of a pull, in order: Status, Login with the non-admin account on the host, Pull of the target |
| Docker.Run | lib/dockerclient.go:13-72 | the abort-on-first-failure rule both workflows follow: the calls are made in order, each answered by the tool at its place in the sequence, until one returns an error, which ends the workflow with that error; when none fails the result is nil |
| Docker.RunMakesPrefix | lib/dockerclient.go:13-48 | a workflow makes a prefix of its calls, in their declared order |
| Docker.RunCompletes | lib/dockerclient.go:13-48 | a workflow that succeeds has made every one of its calls |
| Docker.RunFailsAtLastCall | lib/dockerclient.go:13-48 | a workflow that fails returns, unchanged, the error of the last call it made |
| Docker.RunSucceedsIff | lib/dockerclient.go:13-72 | a workflow returns nil exactly when every one of its calls succeeds |
| Docker.RunStopsAtFirstFailure | lib/dockerclient.go:16-45 | when call k is the first to fail, exactly the calls up to k are made, nothing after it, and call k's error is returned |
| Docker.RunFive | lib/dockerclient.go:16-47 | a five-call workflow, case by case: which calls are made and what is returned for each first failing call, and success with all five made |
| Docker.RunThree | lib/dockerclient.go:53-71 | the same for a three-call workflow |
| Docker.PushImage | lib/dockerclient.go:13-48 | the tool receives Status, Pull of `prefix+name:tag`, Login with the account, password and host, Tag of source to `host/project/name:tag`, and Push of the target, stopping at the first failure, whose error is returned; the environment is unchanged |
| Docker.PullImage | lib/dockerclient.go:51-72 | the tool receives Status, Login with the account, password and host, and Pull of `host/project/name:tag`, stopping at the first failure, whose error is returned; the environment is unchanged |
| Docker.PushLoginFailureSkipsTagAndPush | lib/dockerclient.go:26-45 | a push whose login fails has checked the tool and pulled the source, returns the login error, and never tags or pushes |
| Docker.StatusFailureStopsAll | lib/dockerclient.go:16-18 | a failing tool check ends either workflow before any other call, with that error |
| Docker.LoginPrecedesTarget | lib/dockerclient.go:26-45 | every tag and every push of the target reference in a push, and the pull of the target reference in a pull, comes after the login with the non-admin account |
| Docker.SourceRefRoundTrip | lib/dockerclient.go:20 | the source reference splits at its last colon into registry prefix plus name, with no separator inserted, and the tag |
| Docker.TargetRefRoundTrip | lib/dockerclient.go:31-35 | the target reference splits back into host, project, image name and tag, when host and project have no slash and the tag has no colon |
| Docker.TargetRefInjective | lib/dockerclient.go:31-35 | under the same conditions, different hosts, projects, names or tags give different target references |
| Image.RepoURL | lib/image.go:43 | the repository address `<root>/api/v2.0/projects/<project>/repositories/<repo>` |
| Image.ScanURL | lib/image.go:60 | the scan-start address `<root>/api/v2.0/projects/<project>/repositories/<repo>/artifacts/<digest>/scan` |
| Image.OverviewURL | lib/image.go:69 | the address the wait reads, `<root>/api/v2.0/projects/<project>/repositories/<repo>/artifacts/<digest>?with_scan_overview=true&with_accessory=true` |
| Image.TagsURL | lib/image.go:132 | the tag-list address `<root>/api/v2.0/repositories/<repo>/tags` |
| Image.ReposURL | lib/image.go:112 | the repository-list address `<root>/api/v2.0/repositories?project_id=<id>`, with the id in decimal as `%d` writes it, a minus sign included |
| Image.ScanAndOverviewShareArtifact | lib/image.go:60-69 | the scan-start and overview addresses both begin with the artifact's address and are different |
| Image.ReposURLRoundTrip | lib/image.go:112 | the project id reads back from the repository-list address |
| Image.ReposURLInjective | lib/image.go:112 | different project ids give different repository-list addresses |
| Image.ScanSucceeded | lib/image.go:83-88 | a scan has finished when the overview is not nil, holds the native report type, and that report's status is exactly "Success"; `TickOf`, `UnfinishedReportKeepsPolling` and `MissingReportKeepsPolling` state its consequences |
| Image.Poll | lib/image.go:70-97 | the wait, over the looks before the deadline: each look is one read; the first that finds the scan done ends it with nil, the first failed read or undecodable body stops the reads and leaves the timeout error; its properties are the `Poll...` lemmas below |
| Image.TickOf | lib/image.go:72-88 | a look finds the scan done exactly when the read succeeds and decodes to an artifact whose overview has a native report with status "Success"; the watcher stops exactly when the read or the decoding fails |
| Image.UnfinishedReportKeepsPolling | lib/image.go:83-88 | a native report with any status other than "Success" (for example "Error") keeps the watcher looking |
| Image.MissingReportKeepsPolling | lib/image.go:83-88 | an artifact with no overview, or with no native report in it, keeps the watcher looking |
| Image.PollOutcome | lib/image.go:70-97 | the wait ends with success or with the timeout error and never with any other error; a failed read does not reach the caller |
| Image.PollRequests | lib/image.go:70-90 | the wait sends only reads of the overview address, at most one per look, and at least one when there is a look before the deadline |
| Image.PollFirstDecisive | lib/image.go:70-97 | when look k is the first that is not pending, k+1 reads are made in all and the wait succeeds exactly when that look found the scan done |
| Image.PollAllPending | lib/image.go:70-97 | when every look finds the scan pending, each look reads once and the wait times out |
| Image.PollSucceedsIff | lib/image.go:70-97 | the wait succeeds exactly when some look before the deadline finds the scan done and every earlier look found it pending |
| Image.DeleteExchange | lib/image.go:38-49 | what `DeleteRepo` sends and returns: nothing and "Empty repo name for deleting" for a blank repository name; otherwise one delete of `RepoURL`, whose error, or nil, is the result; `DeleteBehaviour` states it |
| Image.ScanExchange | lib/image.go:52-98 | what `ScanArtifact` sends and returns: a blank repository name, then a blank digest, each refused with its own message and nothing sent; otherwise a post to `ScanURL`, whose error ends it, and then the wait `Poll` on `OverviewURL`; the `Scan...` lemmas state it |
| Image.ReposExchange | lib/image.go:101-124 | what `GetRepos` sends and returns: a blank project name, then a lookup id of -1, each refused with its own message and nothing sent; otherwise one read of `ReposURL`, whose error or decoded repository list is the result; `ReposSucceedIff` states it |
| Image.TagsExchange | lib/image.go:127-144 | what `GetTags` sends and returns: a blank repository name is refused with nothing sent; otherwise one read of `TagsURL`, whose error or decoded tag list is the result; `TagsSucceedIff` states it |
| Image.DeleteBehaviour | lib/image.go:38-49 | a blank repository name is refused before any request; otherwise exactly one delete of `root/api/v2.0/projects/p/repositories/r` is sent, and the operation succeeds exactly when it does |
| Image.ScanChecksNamesInOrder | lib/image.go:53-59 | the repository name is checked before the digest, each blank name gives its own error, and neither sends anything; with both given, the first request is the scan start |
| Image.ScanStartFailure | lib/image.go:60-63 | a scan start that fails returns the registry's error unchanged and sends nothing more |
| Image.ScanAfterStart | lib/image.go:60-97 | once the scan has started, the result is success or the timeout error, after the start and at most one read of the overview address per look |
| Image.ScanSucceedsIff | lib/image.go:52-98 | a scan succeeds exactly when both names are non-blank, the start succeeds and the wait after it succeeds |
| Image.ReposSucceedIff | lib/image.go:101-124 | the repositories are returned exactly when the project name is non-blank, the lookup found an id, and the read succeeded with a repository list, which is what is returned; a failed lookup is reported by project name and sends nothing |
| Image.TagsSucceedIff | lib/image.go:127-144 | the tags are returned exactly when the repository name is non-blank and the read of `root/api/v2.0/repositories/r/tags` succeeded with a tag list, which is what is returned; a blank name sends nothing |
| Image.ImageUtil.constructor | lib/image.go:31-34 | the utility holds the root address and the client it is given |
| Image.ImageUtil.DeleteRepo | lib/image.go:38-49 | sends exactly the requests of `DeleteExchange` and returns its result |
| Image.ImageUtil.ScanArtifact | lib/image.go:52-98 | sends exactly the requests of `ScanExchange` (checks, start, then the wait) and returns its result |
| Image.ImageUtil.WatchScan | lib/image.go:65-97 | the loop of reads sends exactly the requests of `Poll` and returns its result |
| Image.ImageUtil.GetRepos | lib/image.go:101-124 | sends exactly the requests of `ReposExchange` and returns its result |
| Image.ImageUtil.GetTags | lib/image.go:127-144 | sends exactly the requests of `TagsExchange` and returns its result |
| Image.NewImageUtil | lib/image.go:26-35 | no utility exactly when the root address is blank or the client is missing; otherwise a new one holding both |

## Left out

- The goroutine, the ticker, the channels and the `time.After` race in `ScanArtifact` (lib/image.go:65-97) are concurrency and wall-clock time. They are replaced by the number of looks that fall before the deadline, `ticks`. A read sent before the deadline whose answer comes after it is not counted, so `ticks == 0` stands for no requests at all, although the source sends its first read at second 1. The goroutine left running after the wait ends and the blocked channel sends are not modelled.
- Image.ImageUtil.ScanArtifact: `ticks` is at most 300 (one look a second for 300 seconds). Whether the look at second 300 happens before the deadline is not decided by the model.
- Image.ImageUtil.WatchScan: when the watcher stops at a failed read, the model returns the timeout error at once and sends nothing more. The source waits for the deadline first. Both send no further requests and return the same error.
- The HTTP client behind `client.APIClient` (`Get`/`Post`/`Delete`, TLS, proxies) is not part of this model. So is the docker command line behind `client.DockerClient`. Both are stub functions of the call number and the request.
- `client.NewAPIClient` is not part of this model. Its outcome is the stub `Provider.refuse`, and the clients it builds hold only their configuration and answers.
- `encoding/json` and the full `models.Tag` and `models.Repository` types are not modelled. A body is one of the shapes the core decodes, or unreadable, and only the scan overview's status is kept. `DecodeArtifact`, `DecodeArtifactList` and `DecodeRepositoryList` are stubs for `json.Unmarshal` over these shapes: they succeed exactly on the body of their shape. Their failure message, `DECODE_ERROR`, is a stand-in for the error text `json.Unmarshal` returns, which `GetRepos` and `GetTags` pass on (lib/image.go:119-120, 139-140).
- `os.Getenv` reads the process environment; here the environment is a map passed in.
- `strings.ToUpper` is modelled for ASCII letters only. It is applied only to the names `http_proxy` and `https_proxy`.
- The `fmt.Println` and `fmt.Printf` logging in `NewHarborEnvironment`, `Init` and `PushImage` is left out, because it is output only.
- Envs.HarborEnvironment.constructor: the source panics when `Init` fails. The constructor instead requires that the provider accepts the default client configuration.
- Image.ImageUtil.GetRepos: the project lookup `ProjectUtil.GetProjectID` (lib/image.go:106-107) is not part of this model. Its result is the parameter `pid`, and the requests it sends are not recorded.
- Docker.PushImage: requires `Valid()` of the environment, that both its clients exist. Every environment comes from `NewHarborEnvironment`, which sets `DockerClient` (envs/environment.go:78) or panics (envs/environment.go:55-58). So the precondition holds at every call site (harbor_test.go:31, 69). What the source does with a missing tool depends on `client.DockerClient`, which is not part of this model.
- Docker.PullImage: the same precondition, which holds at its call sites (harbor_test.go:77, 85).
- The body of `Load` is split into `LoadFields` (built from `LoadAccounts`, `LoadImage` and `LoadTransport`), `LoadProxy` and `BuildClientsOnce`. The statements follow the source in order. Each `isNotEmpty` guard becomes `Pick`, which is the conditional assignment.
- `BuildClientsOnce` builds the clients through `Init`. The source repeats `Init`'s body in `Load` without its log line.
- harbor_test.go and ginkgo_harbor_suite_test.go, the scenario scaffolding that drives a live registry, are not part of this model.
