/** The repository and artifact operations of lib/image.go, made through the
    registry's HTTP API client: deleting a repository, scanning an artifact
    and waiting for the scan to finish, and listing the repositories of a
    project and the tags of a repository.

    Each operation is specified by a function of the registry's answers that
    gives the requests the operation sends and what it returns (an
    `Exchange`); the methods are proved to do exactly that, and the lemmas
    state what the operations promise in terms of those functions. */
module Image {
  import opened Common
  import opened Text
  import opened Clients

  /** The report type whose summary tells whether a scan has finished. */
  const MIME_TYPE_NATIVE_REPORT := "application/vnd.security.vulnerability.report; version=1.1"

  /** How long `ScanArtifact` waits, and how often it looks, in seconds. */
  const SCAN_TIMEOUT_SECONDS: nat := 300
  const POLL_INTERVAL_SECONDS: nat := 1

  const SCAN_TIMEOUT_ERROR := "Scan timeout after 300 seconds"
  const EMPTY_REPO_DELETE_ERROR := "Empty repo name for deleting"
  const EMPTY_REPO_SCAN_ERROR := "Empty repo name for scanning"
  const EMPTY_DIGEST_SCAN_ERROR := "Empty image digest for scanning"
  const EMPTY_PROJECT_REPOS_ERROR := "Empty project name for getting repos"
  const EMPTY_REPO_TAGS_ERROR := "Empty repository name for getting tags"
  const NO_PROJECT_ID_ERROR := "Failed to get project ID with name "

  /** The value a failed project lookup gives. */
  const NO_PROJECT_ID: int := -1

  /** The requests an operation sends, in order, and what it returns. */
  datatype Exchange<T> = Exchange(requests: seq<Request>, outcome: T)

  /** The requests `sent` followed by the exchange `e`. */
  function Prepend<T>(sent: seq<Request>, e: Exchange<T>): Exchange<T>
  {
    Exchange(sent + e.requests, e.outcome)
  }

  // ---------------------------------------------------------------------
  // The addresses of the API.

  /** `<root>/api/v2.0/projects/<project>/repositories/<repo>`. */
  function RepoURL(root: string, project: string, repo: string): string
  {
    root + "/api/v2.0/projects/" + project + "/repositories/" + repo
  }

  /** The artifact `dig` of a repository. */
  function ArtifactURL(root: string, project: string, repo: string, dig: string): string
  {
    RepoURL(root, project, repo) + "/artifacts/" + dig
  }

  /** The address a scan is started at. */
  function ScanURL(root: string, project: string, repo: string, dig: string): string
  {
    ArtifactURL(root, project, repo, dig) + "/scan"
  }

  /** The address the artifact is read at, with its scan overview. */
  function OverviewURL(root: string, project: string, repo: string, dig: string): string
  {
    ArtifactURL(root, project, repo, dig) + "?with_scan_overview=true&with_accessory=true"
  }

  /** The tags of a repository. */
  function TagsURL(root: string, repo: string): string
  {
    root + "/api/v2.0/repositories/" + repo + "/tags"
  }

  const REPOS_QUERY := "/api/v2.0/repositories?project_id="

  /** The repositories of the project with id `pid`. */
  function ReposURL(root: string, pid: int): string
  {
    root + REPOS_QUERY + IntToDecimal(pid)
  }

  /** Starting the scan and reading the overview address the same artifact,
      and differ in what follows its address. */
  lemma ScanAndOverviewShareArtifact(root: string, project: string, repo: string, dig: string)
    ensures var a := ArtifactURL(root, project, repo, dig);
            && ScanURL(root, project, repo, dig)[..|a|] == a
            && OverviewURL(root, project, repo, dig)[..|a|] == a
            && ScanURL(root, project, repo, dig) != OverviewURL(root, project, repo, dig)
  {
    var a := ArtifactURL(root, project, repo, dig);
    var s := ScanURL(root, project, repo, dig);
    var o := OverviewURL(root, project, repo, dig);
    assert s[..|a|] == a;
    assert o[..|a|] == a;
    assert s[|a|] == "/scan"[0];
    assert o[|a|] == "?with_scan_overview=true&with_accessory=true"[0];
  }

  /** The project id can be read back from the repository-list address. */
  lemma ReposURLRoundTrip(root: string, pid: nat)
    ensures var url := ReposURL(root, pid);
            var digits := url[|root + REPOS_QUERY|..];
            && (forall i :: 0 <= i < |digits| ==> '0' <= digits[i] <= '9')
            && ParseDecimal(digits) == pid
  {
    var url := ReposURL(root, pid);
    assert url[|root + REPOS_QUERY|..] == NatToDecimal(pid);
    NatToDecimalRoundTrip(pid);
  }

  /** Different project ids give different repository-list addresses. */
  lemma ReposURLInjective(root: string, p: int, q: int)
    requires ReposURL(root, p) == ReposURL(root, q)
    ensures p == q
  {
    var n := |root + REPOS_QUERY|;
    assert IntToDecimal(p) == ReposURL(root, p)[n..];
    assert IntToDecimal(q) == ReposURL(root, q)[n..];
    IntToDecimalInjective(p, q);
  }

  // ---------------------------------------------------------------------
  // Waiting for a scan.

  /** A scan has finished when the artifact's overview has a native report
      whose status is "Success". */
  predicate ScanSucceeded(a: Artifact)
  {
    && a.scanOverview.Some?
    && MIME_TYPE_NATIVE_REPORT in a.scanOverview.value
    && a.scanOverview.value[MIME_TYPE_NATIVE_REPORT].status == "Success"
  }

  /** What one look at the artifact leads to: the watcher stops (the read
      failed or did not decode), the scan is done, or it is still pending. */
  datatype Tick = Stopped | Done | Pending

  function TickOf(r: Result<Body>): (t: Tick)
    ensures t == Done <==> r.Ok? && r.value.ArtifactBody? && ScanSucceeded(r.value.artifact)
    ensures t == Stopped <==> r.Fail? || !r.value.ArtifactBody?
  {
    if r.Fail? then Stopped
    else
      match DecodeArtifact(r.value)
      case Fail(_) => Stopped
      case Ok(tag) => if ScanSucceeded(tag) then Done else Pending
  }

  /** A native report with any status but "Success" (a failed scan
      included) keeps the watcher looking. */
  lemma UnfinishedReportKeepsPolling(overview: map<string, NativeReportSummary>, status: string)
    requires status != "Success"
    ensures TickOf(Ok(ArtifactBody(Artifact(Some(overview[MIME_TYPE_NATIVE_REPORT := NativeReportSummary(status)])))))
            == Pending
  {
  }

  /** An artifact without an overview, or whose overview has no native
      report, keeps the watcher looking too. */
  lemma MissingReportKeepsPolling(overview: map<string, NativeReportSummary>)
    requires MIME_TYPE_NATIVE_REPORT !in overview
    ensures TickOf(Ok(ArtifactBody(Artifact(None)))) == Pending
    ensures TickOf(Ok(ArtifactBody(Artifact(Some(overview))))) == Pending
  {
  }

  /** The wait of `ScanArtifact`, given the `ticks` looks at the artifact
      that fall before the deadline: each look reads `url`; a finished scan
      ends the wait with success; a failed read or a body that does not
      decode stops the watcher, after which the wait can only end at the
      deadline; and so does running out of looks. */
  function Poll(reply: (nat, Request) -> Result<Body>, from: nat, url: string, ticks: nat)
    : Exchange<Error>
    decreases ticks
  {
    if ticks == 0 then Exchange([], Err(SCAN_TIMEOUT_ERROR))
    else
      match TickOf(reply(from, HttpGet(url)))
      case Stopped => Exchange([HttpGet(url)], Err(SCAN_TIMEOUT_ERROR))
      case Done => Exchange([HttpGet(url)], Nil)
      case Pending => Prepend([HttpGet(url)], Poll(reply, from + 1, url, ticks - 1))
  }

  /** `n` reads of `url`. */
  function Reads(url: string, n: nat): (r: seq<Request>)
    ensures |r| == n && forall i :: 0 <= i < n ==> r[i] == HttpGet(url)
  {
    seq(n, _ => HttpGet(url))
  }

  /** The wait ends either with success or with the timeout error; no other
      error ever reaches the caller. */
  lemma {:induction false} PollOutcome(reply: (nat, Request) -> Result<Body>, from: nat, url: string, ticks: nat)
    ensures var e := Poll(reply, from, url, ticks);
            e.outcome == Nil || e.outcome == Err(SCAN_TIMEOUT_ERROR)
    decreases ticks
  {
    if ticks > 0 && TickOf(reply(from, HttpGet(url))) == Pending {
      PollOutcome(reply, from + 1, url, ticks - 1);
    }
  }

  /** The wait sends between one and `ticks` reads of the artifact (none
      when there is no look before the deadline), and nothing else. */
  lemma {:induction false} PollRequests(reply: (nat, Request) -> Result<Body>, from: nat, url: string, ticks: nat)
    ensures var e := Poll(reply, from, url, ticks);
            && (ticks == 0 <==> |e.requests| == 0) && |e.requests| <= ticks
            && e.requests == Reads(url, |e.requests|)
    decreases ticks
  {
    if ticks > 0 && TickOf(reply(from, HttpGet(url))) == Pending {
      PollRequests(reply, from + 1, url, ticks - 1);
      var rest := Poll(reply, from + 1, url, ticks - 1);
      assert [HttpGet(url)] + rest.requests == Reads(url, |rest.requests| + 1);
    } else if ticks > 0 {
      assert [HttpGet(url)] == Reads(url, 1);
    }
  }

  /** What look `j` of a wait that starts after `from` requests finds. */
  function Look(reply: (nat, Request) -> Result<Body>, from: nat, url: string, j: nat): Tick
  {
    TickOf(reply(from + j, HttpGet(url)))
  }

  /** The looks before `k` all found the scan still pending. */
  ghost predicate PendingBefore(reply: (nat, Request) -> Result<Body>, from: nat, url: string, k: nat)
  {
    forall j :: 0 <= j < k ==> Look(reply, from, url, j) == Pending
  }

  /** When look `k` is the first that is not pending, the wait has made
      `k + 1` reads and succeeds exactly when that look found the scan done. */
  lemma {:induction false} PollFirstDecisive(reply: (nat, Request) -> Result<Body>, from: nat, url: string,
                                             ticks: nat, k: nat)
    requires k < ticks && PendingBefore(reply, from, url, k)
    requires Look(reply, from, url, k) != Pending
    ensures var e := Poll(reply, from, url, ticks);
            && e.requests == Reads(url, k + 1)
            && (e.outcome == Nil <==> Look(reply, from, url, k) == Done)
            && (e.outcome != Nil ==> e.outcome == Err(SCAN_TIMEOUT_ERROR))
    decreases k
  {
    if k == 0 {
      assert [HttpGet(url)] == Reads(url, 1);
    } else {
      assert Look(reply, from, url, 0) == Pending;
      var next := from + 1;
      forall j | 0 <= j < k - 1 ensures Look(reply, next, url, j) == Pending {
        assert Look(reply, from, url, j + 1) == Pending;
      }
      PollFirstDecisive(reply, from + 1, url, ticks - 1, k - 1);
      assert [HttpGet(url)] + Reads(url, k) == Reads(url, k + 1);
    }
  }

  /** When every look before the deadline finds the scan pending, the wait
      reads the artifact `ticks` times and times out. */
  lemma {:induction false} PollAllPending(reply: (nat, Request) -> Result<Body>, from: nat, url: string, ticks: nat)
    requires PendingBefore(reply, from, url, ticks)
    ensures Poll(reply, from, url, ticks) == Exchange(Reads(url, ticks), Err(SCAN_TIMEOUT_ERROR))
    decreases ticks
  {
    if ticks > 0 {
      assert Look(reply, from, url, 0) == Pending;
      var next := from + 1;
      forall j | 0 <= j < ticks - 1 ensures Look(reply, next, url, j) == Pending {
        assert Look(reply, from, url, j + 1) == Pending;
      }
      PollAllPending(reply, from + 1, url, ticks - 1);
      assert [HttpGet(url)] + Reads(url, ticks - 1) == Reads(url, ticks);
    }
  }

  /** The wait succeeds exactly when some look before the deadline finds
      the scan done and every earlier look found it pending; a failed read
      before that look makes the wait time out however the scan goes. */
  lemma PollSucceedsIff(reply: (nat, Request) -> Result<Body>, from: nat, url: string, ticks: nat)
    ensures Poll(reply, from, url, ticks).outcome == Nil <==>
              exists k :: 0 <= k < ticks && PendingBefore(reply, from, url, k)
                          && Look(reply, from, url, k) == Done
  {
    if Poll(reply, from, url, ticks).outcome == Nil {
      if PendingBefore(reply, from, url, ticks) {
        PollAllPending(reply, from, url, ticks);
      } else {
        var k := FirstNotPending(reply, from, url, ticks);
        PollFirstDecisive(reply, from, url, ticks, k);
      }
    } else {
      forall k | 0 <= k < ticks && PendingBefore(reply, from, url, k)
        ensures Look(reply, from, url, k) != Done
      {
        if Look(reply, from, url, k) == Done {
          PollFirstDecisive(reply, from, url, ticks, k);
        }
      }
    }
  }

  /** The first look, below `ticks`, that is not pending, when there is one. */
  lemma FirstNotPending(reply: (nat, Request) -> Result<Body>, from: nat, url: string, ticks: nat)
    returns (k: nat)
    requires !PendingBefore(reply, from, url, ticks)
    ensures k < ticks && PendingBefore(reply, from, url, k)
    ensures Look(reply, from, url, k) != Pending
  {
    k := 0;
    while Look(reply, from, url, k) == Pending
      invariant k < ticks && PendingBefore(reply, from, url, k)
      decreases ticks - k
    {
      k := k + 1;
      if k == ticks {
        assert PendingBefore(reply, from, url, ticks);
        assert false;
      }
    }
  }

  /** After `i` pending looks, the wait is `i` reads followed by the wait
      from look `i` on. */
  ghost predicate PolledSoFar(reply: (nat, Request) -> Result<Body>, from: nat, url: string,
                              ticks: nat, i: nat)
  {
    i <= ticks && Poll(reply, from, url, ticks) == Prepend(Reads(url, i), Poll(reply, from + i, url, ticks - i))
  }

  lemma PolledStart(reply: (nat, Request) -> Result<Body>, from: nat, url: string, ticks: nat)
    ensures PolledSoFar(reply, from, url, ticks, 0)
  {
    assert Reads(url, 0) == [];
  }

  lemma PolledNext(reply: (nat, Request) -> Result<Body>, from: nat, url: string, ticks: nat, i: nat)
    requires PolledSoFar(reply, from, url, ticks, i) && i < ticks
    requires Look(reply, from, url, i) == Pending
    ensures PolledSoFar(reply, from, url, ticks, i + 1)
  {
    assert Reads(url, i) + [HttpGet(url)] == Reads(url, i + 1);
  }

  lemma PolledStop(reply: (nat, Request) -> Result<Body>, from: nat, url: string, ticks: nat, i: nat)
    requires PolledSoFar(reply, from, url, ticks, i) && i < ticks
    requires Look(reply, from, url, i) != Pending
    ensures Poll(reply, from, url, ticks)
            == Exchange(Reads(url, i + 1), if Look(reply, from, url, i) == Done then Nil else Err(SCAN_TIMEOUT_ERROR))
  {
    assert Reads(url, i) + [HttpGet(url)] == Reads(url, i + 1);
  }

  lemma PolledEnd(reply: (nat, Request) -> Result<Body>, from: nat, url: string, ticks: nat)
    requires PolledSoFar(reply, from, url, ticks, ticks)
    ensures Poll(reply, from, url, ticks) == Exchange(Reads(url, ticks), Err(SCAN_TIMEOUT_ERROR))
  {
    assert Reads(url, ticks) + [] == Reads(url, ticks);
  }

  // ---------------------------------------------------------------------
  // The operations, as functions of the registry's answers.

  /** `DeleteRepo`. */
  function DeleteExchange(reply: (nat, Request) -> Result<Body>, from: nat,
                          root: string, project: string, repo: string): Exchange<Error>
  {
    if Blank(repo) then Exchange([], Err(EMPTY_REPO_DELETE_ERROR))
    else
      var del := HttpDelete(RepoURL(root, project, repo));
      Exchange([del], ErrorOf(reply(from, del)))
  }

  /** `ScanArtifact`: the two names are checked in order, the scan is
      started, and a failure to start it is returned as it is; then the
      wait decides. */
  function ScanExchange(reply: (nat, Request) -> Result<Body>, from: nat,
                        root: string, project: string, repo: string, dig: string,
                        ticks: nat): Exchange<Error>
  {
    if Blank(repo) then Exchange([], Err(EMPTY_REPO_SCAN_ERROR))
    else if Blank(dig) then Exchange([], Err(EMPTY_DIGEST_SCAN_ERROR))
    else
      var post := HttpPost(ScanURL(root, project, repo, dig));
      var r := reply(from, post);
      if r.Fail? then Exchange([post], Err(r.msg))
      else Prepend([post], Poll(reply, from + 1, OverviewURL(root, project, repo, dig), ticks))
  }

  /** `GetRepos`, given the id the project lookup found. */
  function ReposExchange(reply: (nat, Request) -> Result<Body>, from: nat,
                         root: string, project: string, pid: int): Exchange<Result<seq<Repository>>>
  {
    if Blank(project) then Exchange([], Fail(EMPTY_PROJECT_REPOS_ERROR))
    else if pid == NO_PROJECT_ID then Exchange([], Fail(NO_PROJECT_ID_ERROR + project))
    else
      var get := HttpGet(ReposURL(root, pid));
      var r := reply(from, get);
      Exchange([get], if r.Fail? then Fail(r.msg) else DecodeRepositoryList(r.value))
  }

  /** `GetTags`. */
  function TagsExchange(reply: (nat, Request) -> Result<Body>, from: nat,
                        root: string, repo: string): Exchange<Result<seq<Artifact>>>
  {
    if Blank(repo) then Exchange([], Fail(EMPTY_REPO_TAGS_ERROR))
    else
      var get := HttpGet(TagsURL(root, repo));
      var r := reply(from, get);
      Exchange([get], if r.Fail? then Fail(r.msg) else DecodeArtifactList(r.value))
  }

  // ---------------------------------------------------------------------
  // What the operations promise.

  /** A blank repository name is refused before anything is sent; otherwise
      exactly one delete of that repository is sent and its error returned. */
  lemma DeleteBehaviour(reply: (nat, Request) -> Result<Body>, from: nat,
                        root: string, project: string, repo: string)
    ensures var e := DeleteExchange(reply, from, root, project, repo);
            && (Blank(repo) ==> e.requests == [] && e.outcome == Err(EMPTY_REPO_DELETE_ERROR))
            && (!Blank(repo) ==>
                  e.requests == [HttpDelete(RepoURL(root, project, repo))]
                  && (e.outcome == Nil <==> reply(from, e.requests[0]).Ok?))
  {
  }

  /** The repository name is checked before the digest: a blank repository
      name is reported whatever the digest, a blank digest only for a
      non-blank name, and neither sends anything. */
  lemma ScanChecksNamesInOrder(reply: (nat, Request) -> Result<Body>, from: nat,
                               root: string, project: string, repo: string, dig: string, ticks: nat)
    ensures var e := ScanExchange(reply, from, root, project, repo, dig, ticks);
            && (Blank(repo) ==> e == Exchange([], Err(EMPTY_REPO_SCAN_ERROR)))
            && (!Blank(repo) && Blank(dig) ==> e == Exchange([], Err(EMPTY_DIGEST_SCAN_ERROR)))
            && (!Blank(repo) && !Blank(dig) ==>
                  |e.requests| > 0 && e.requests[0] == HttpPost(ScanURL(root, project, repo, dig)))
  {
  }

  /** A scan that cannot be started returns the registry's error unchanged
      and does not wait. */
  lemma ScanStartFailure(reply: (nat, Request) -> Result<Body>, from: nat,
                         root: string, project: string, repo: string, dig: string, ticks: nat)
    requires !Blank(repo) && !Blank(dig)
    requires reply(from, HttpPost(ScanURL(root, project, repo, dig))).Fail?
    ensures var e := ScanExchange(reply, from, root, project, repo, dig, ticks);
            && e.requests == [HttpPost(ScanURL(root, project, repo, dig))]
            && e.outcome == Err(reply(from, HttpPost(ScanURL(root, project, repo, dig))).msg)
  {
  }

  /** Once the scan has started, the operation ends with success or with
      the timeout error, having read the overview address at most `ticks`
      times after the start (and at least once when there was a look). */
  lemma ScanAfterStart(reply: (nat, Request) -> Result<Body>, from: nat,
                       root: string, project: string, repo: string, dig: string, ticks: nat)
    requires !Blank(repo) && !Blank(dig)
    requires reply(from, HttpPost(ScanURL(root, project, repo, dig))).Ok?
    ensures var e := ScanExchange(reply, from, root, project, repo, dig, ticks);
            var overview := OverviewURL(root, project, repo, dig);
            && (e.outcome == Nil || e.outcome == Err(SCAN_TIMEOUT_ERROR))
            && 1 <= |e.requests| <= ticks + 1
            && e.requests == [HttpPost(ScanURL(root, project, repo, dig))] + Reads(overview, |e.requests| - 1)
  {
    var overview := OverviewURL(root, project, repo, dig);
    PollOutcome(reply, from + 1, overview, ticks);
    PollRequests(reply, from + 1, overview, ticks);
  }

  /** The scan succeeds exactly when both names are given, the scan starts,
      and the wait after it succeeds (which `PollSucceedsIff` characterizes). */
  lemma ScanSucceedsIff(reply: (nat, Request) -> Result<Body>, from: nat,
                        root: string, project: string, repo: string, dig: string, ticks: nat)
    ensures ScanExchange(reply, from, root, project, repo, dig, ticks).outcome == Nil <==>
              && !Blank(repo) && !Blank(dig)
              && reply(from, HttpPost(ScanURL(root, project, repo, dig))).Ok?
              && Poll(reply, from + 1, OverviewURL(root, project, repo, dig), ticks).outcome == Nil
  {
  }

  /** The repositories are returned exactly when the project name is given,
      the lookup found an id, the read succeeded and the body is a list of
      repositories, and they are that list; a failed lookup is reported by
      the project's name and sends nothing. */
  lemma ReposSucceedIff(reply: (nat, Request) -> Result<Body>, from: nat,
                        root: string, project: string, pid: int)
    ensures var e := ReposExchange(reply, from, root, project, pid);
            var r := reply(from, HttpGet(ReposURL(root, pid)));
            && (e.outcome.Ok? <==> !Blank(project) && pid != NO_PROJECT_ID && r.Ok? && r.value.RepositoryListBody?)
            && (e.outcome.Ok? ==> e.outcome.value == r.value.repositories)
            && (!Blank(project) && pid == NO_PROJECT_ID ==>
                  e == Exchange([], Fail(NO_PROJECT_ID_ERROR + project)))
            && (!Blank(project) && pid != NO_PROJECT_ID ==> e.requests == [HttpGet(ReposURL(root, pid))])
  {
  }

  /** The tags are returned exactly when the repository name is given, the
      read succeeded and the body is a list of tags, and they are that list. */
  lemma TagsSucceedIff(reply: (nat, Request) -> Result<Body>, from: nat, root: string, repo: string)
    ensures var e := TagsExchange(reply, from, root, repo);
            var r := reply(from, HttpGet(TagsURL(root, repo)));
            && (e.outcome.Ok? <==> !Blank(repo) && r.Ok? && r.value.ArtifactListBody?)
            && (e.outcome.Ok? ==> e.outcome.value == r.value.artifacts)
            && (Blank(repo) ==> e.requests == [])
            && (!Blank(repo) ==> e.requests == [HttpGet(TagsURL(root, repo))])
  {
  }

  // ---------------------------------------------------------------------
  // The utility object.

  /** `ImageUtil`: the registry's root address and the client it talks
      through. */
  class ImageUtil {
    const rootURI: string
    const testingClient: APIClient

    constructor (rootURI: string, testingClient: APIClient)
      ensures this.rootURI == rootURI && this.testingClient == testingClient
    {
      this.rootURI := rootURI;
      this.testingClient := testingClient;
    }

    /** `DeleteRepo`. */
    method DeleteRepo(projectName: string, repoName: string) returns (err: Error)
      requires testingClient.Valid()
      modifies testingClient
      ensures testingClient.Valid()
      ensures var e := DeleteExchange(testingClient.reply, old(testingClient.sent), rootURI, projectName, repoName);
              testingClient.requests == old(testingClient.requests) + e.requests && err == e.outcome
    {
      if Blank(repoName) {
        return Err(EMPTY_REPO_DELETE_ERROR);
      }
      var url := rootURI + "/api/v2.0/projects/" + projectName + "/repositories/" + repoName;
      var r := testingClient.Send(HttpDelete(url));
      if r.Fail? {
        return Err(r.msg);
      }
      return Nil;
    }

    /** `ScanArtifact`, where `ticks` is the number of looks at the artifact
        that fall before the deadline (one a second for at most 300 seconds).
        The watcher runs in the caller's place: when it stops at a failed
        read, the caller can only wait for the deadline, so the timeout error
        is what it returns and nothing more is sent. */
    method ScanArtifact(projectName: string, repoName: string, dig: string, ticks: nat)
      returns (err: Error)
      requires ticks <= SCAN_TIMEOUT_SECONDS / POLL_INTERVAL_SECONDS
      requires testingClient.Valid()
      modifies testingClient
      ensures testingClient.Valid()
      ensures var e := ScanExchange(testingClient.reply, old(testingClient.sent), rootURI,
                                    projectName, repoName, dig, ticks);
              testingClient.requests == old(testingClient.requests) + e.requests && err == e.outcome
    {
      if Blank(repoName) {
        return Err(EMPTY_REPO_SCAN_ERROR);
      }
      if Blank(dig) {
        return Err(EMPTY_DIGEST_SCAN_ERROR);
      }
      var url := rootURI + "/api/v2.0/projects/" + projectName + "/repositories/" + repoName
                 + "/artifacts/" + dig + "/scan";
      var posted := testingClient.Send(HttpPost(url));
      if posted.Fail? {
        return Err(posted.msg);
      }

      url := rootURI + "/api/v2.0/projects/" + projectName + "/repositories/" + repoName
             + "/artifacts/" + dig + "?with_scan_overview=true&with_accessory=true";
      err := WatchScan(url, ticks);
    }

    /** The watcher of `ScanArtifact` and the wait for it: one read of `url`
        per look until the scan is done or the watcher stops, and the timeout
        error unless the scan was found done. */
    method WatchScan(url: string, ticks: nat) returns (err: Error)
      requires testingClient.Valid()
      modifies testingClient
      ensures testingClient.Valid()
      ensures var e := Poll(testingClient.reply, old(testingClient.sent), url, ticks);
              testingClient.requests == old(testingClient.requests) + e.requests && err == e.outcome
    {
      ghost var start := testingClient.sent;
      ghost var reply := testingClient.reply;
      PolledStart(reply, start, url, ticks);
      var i := 0;
      while i < ticks
        invariant testingClient.Valid() && testingClient.reply == reply
        invariant testingClient.sent == start + i
        invariant testingClient.requests == old(testingClient.requests) + Reads(url, i)
        invariant PolledSoFar(reply, start, url, ticks, i)
      {
        var data := testingClient.Send(HttpGet(url));
        assert Reads(url, i) + [HttpGet(url)] == Reads(url, i + 1);
        if data.Fail? {
          PolledStop(reply, start, url, ticks, i);
          return Err(SCAN_TIMEOUT_ERROR);
        }
        var tag := DecodeArtifact(data.value);
        if tag.Fail? {
          PolledStop(reply, start, url, ticks, i);
          return Err(SCAN_TIMEOUT_ERROR);
        }
        if ScanSucceeded(tag.value) {
          PolledStop(reply, start, url, ticks, i);
          return Nil;
        }
        PolledNext(reply, start, url, ticks, i);
        i := i + 1;
      }
      PolledEnd(reply, start, url, ticks);
      return Err(SCAN_TIMEOUT_ERROR);
    }

    /** `GetRepos`, given the id `pid` the project lookup returns. */
    method GetRepos(projectName: string, pid: int) returns (r: Result<seq<Repository>>)
      requires testingClient.Valid()
      modifies testingClient
      ensures testingClient.Valid()
      ensures var e := ReposExchange(testingClient.reply, old(testingClient.sent), rootURI, projectName, pid);
              testingClient.requests == old(testingClient.requests) + e.requests && r == e.outcome
    {
      if Blank(projectName) {
        return Fail(EMPTY_PROJECT_REPOS_ERROR);
      }
      if pid == NO_PROJECT_ID {
        return Fail(NO_PROJECT_ID_ERROR + projectName);
      }
      var url := rootURI + "/api/v2.0/repositories?project_id=" + IntToDecimal(pid);
      var data := testingClient.Send(HttpGet(url));
      if data.Fail? {
        return Fail(data.msg);
      }
      r := DecodeRepositoryList(data.value);
    }

    /** `GetTags`. */
    method GetTags(repoName: string) returns (r: Result<seq<Artifact>>)
      requires testingClient.Valid()
      modifies testingClient
      ensures testingClient.Valid()
      ensures var e := TagsExchange(testingClient.reply, old(testingClient.sent), rootURI, repoName);
              testingClient.requests == old(testingClient.requests) + e.requests && r == e.outcome
    {
      if Blank(repoName) {
        return Fail(EMPTY_REPO_TAGS_ERROR);
      }
      var url := rootURI + "/api/v2.0/repositories/" + repoName + "/tags";
      var tagData := testingClient.Send(HttpGet(url));
      if tagData.Fail? {
        return Fail(tagData.msg);
      }
      r := DecodeArtifactList(tagData.value);
    }
  }

  /** `NewImageUtil`: no utility for a blank root address or a missing
      client; otherwise one holding both. */
  method NewImageUtil(rootURI: string, httpClient: APIClient?) returns (u: ImageUtil?)
    ensures u == null <==> Blank(rootURI) || httpClient == null
    ensures u != null ==> fresh(u) && u.rootURI == rootURI && u.testingClient == httpClient
  {
    if Blank(rootURI) || httpClient == null {
      return null;
    }
    u := new ImageUtil(rootURI, httpClient);
  }
}
