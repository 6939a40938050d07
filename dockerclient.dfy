/** The image workflows of lib/dockerclient.go: pushing the test image from
    the public registry into the testing project, and pulling it back.

    Each workflow is a fixed list of calls on the environment's image tool,
    made in order until one fails; the first failure is returned as it is
    and nothing after it is attempted. `Run` states that rule once, and the
    two methods are proved to follow it. */
module Docker {
  import opened Common
  import opened Text
  import opened Clients
  import opened Envs

  /** The calls a workflow made, in order, and the error it returned. */
  datatype Execution = Execution(invoked: seq<Call>, result: Error)

  /** Making `steps` in order on a tool that has already answered `from`
      calls, stopping at the first call that fails. */
  function Run(steps: seq<Call>, from: nat, reply: (nat, Call) -> Error): Execution
    decreases |steps|
  {
    if steps == [] then Execution([], Nil)
    else
      var err := reply(from, steps[0]);
      if err != Nil then Execution([steps[0]], err)
      else
        var rest := Run(steps[1..], from + 1, reply);
        Execution([steps[0]] + rest.invoked, rest.result)
  }

  /** A workflow makes a prefix of its calls, in their order. */
  lemma {:induction false} RunMakesPrefix(steps: seq<Call>, from: nat, reply: (nat, Call) -> Error)
    ensures var e := Run(steps, from, reply);
            |e.invoked| <= |steps| && e.invoked == steps[..|e.invoked|]
    decreases |steps|
  {
    if steps != [] && reply(from, steps[0]) == Nil {
      var r := Run(steps[1..], from + 1, reply);
      RunMakesPrefix(steps[1..], from + 1, reply);
      assert steps[..|r.invoked| + 1] == [steps[0]] + steps[1..][..|r.invoked|];
    }
  }

  /** A workflow that succeeds has made every one of its calls. */
  lemma {:induction false} RunCompletes(steps: seq<Call>, from: nat, reply: (nat, Call) -> Error)
    ensures Run(steps, from, reply).result == Nil ==> Run(steps, from, reply).invoked == steps
    decreases |steps|
  {
    if steps != [] && reply(from, steps[0]) == Nil {
      RunCompletes(steps[1..], from + 1, reply);
      assert [steps[0]] + steps[1..] == steps;
    }
  }

  /** A workflow that fails returns the answer to the last call it made. */
  lemma {:induction false} RunFailsAtLastCall(steps: seq<Call>, from: nat, reply: (nat, Call) -> Error)
    ensures var e := Run(steps, from, reply);
            e.result != Nil ==>
              0 < |e.invoked| <= |steps|
              && e.result == reply(from + |e.invoked| - 1, steps[|e.invoked| - 1])
    decreases |steps|
  {
    if steps != [] && reply(from, steps[0]) == Nil {
      var r := Run(steps[1..], from + 1, reply);
      RunFailsAtLastCall(steps[1..], from + 1, reply);
      if r.result != Nil {
        assert steps[|r.invoked|] == steps[1..][|r.invoked| - 1];
      }
    }
  }

  /** A workflow succeeds exactly when every one of its calls succeeds, and
      then it has made all of them. */
  lemma {:induction false} RunSucceedsIff(steps: seq<Call>, from: nat, reply: (nat, Call) -> Error)
    ensures Run(steps, from, reply).result == Nil <==>
              forall i :: 0 <= i < |steps| ==> reply(from + i, steps[i]) == Nil
    decreases |steps|
  {
    if steps != [] && reply(from, steps[0]) == Nil {
      RunSucceedsIff(steps[1..], from + 1, reply);
      forall i | 1 <= i < |steps| ensures steps[i] == steps[1..][i - 1] { }
    }
  }

  /** When call `k` is the first to fail, the workflow has made exactly the
      calls up to and including it and returns its error unchanged. */
  lemma {:induction false} RunStopsAtFirstFailure(steps: seq<Call>, from: nat,
                                                  reply: (nat, Call) -> Error, k: nat)
    requires k < |steps|
    requires forall i :: 0 <= i < k ==> reply(from + i, steps[i]) == Nil
    requires reply(from + k, steps[k]) != Nil
    ensures Run(steps, from, reply) == Execution(steps[..k + 1], reply(from + k, steps[k]))
    decreases k
  {
    if k > 0 {
      assert reply(from, steps[0]) == Nil;
      forall i | 0 <= i < k - 1 ensures reply(from + 1 + i, steps[1..][i]) == Nil {
        assert reply(from + (i + 1), steps[i + 1]) == Nil;
      }
      RunStopsAtFirstFailure(steps[1..], from + 1, reply, k - 1);
      assert [steps[0]] + steps[1..][..k] == steps[..k + 1];
    }
  }

  /** The reference the test image is pulled from: the source-registry
      prefix, the image name, a colon and the tag. */
  function SourceRef(c: Config): string
  {
    c.gcrProjectName + c.imageName + ":" + c.imageTag
  }

  /** The reference of the image in the testing project:
      `<host>/<project>/<name>:<tag>`. */
  function TargetRef(c: Config): string
  {
    c.hostname + "/" + c.testingProject + "/" + c.imageName + ":" + c.imageTag
  }

  /** The login of both workflows: the non-admin account, on the host. */
  function UserLogin(c: Config): Call
  {
    Login(c.account, c.password, c.hostname)
  }

  /** The calls `PushImage` makes, in order. */
  function PushSteps(c: Config): seq<Call>
  {
    [Status, Pull(SourceRef(c)), UserLogin(c), Tag(SourceRef(c), TargetRef(c)), Push(TargetRef(c))]
  }

  /** The calls `PullImage` makes, in order. */
  function PullSteps(c: Config): seq<Call>
  {
    [Status, UserLogin(c), Pull(TargetRef(c))]
  }

  /** The trace after call `k` of a workflow, when the calls before it
      were the workflow's own. */
  lemma Extend(t0: seq<Call>, steps: seq<Call>, k: nat, t: seq<Call>)
    requires k < |steps| && t == t0 + steps[..k] + [steps[k]]
    ensures t == t0 + steps[..k + 1]
  {
    assert steps[..k + 1] == steps[..k] + [steps[k]];
  }

  /** `Run` on a five-call workflow, case by case. */
  lemma RunFive(s: seq<Call>, from: nat, reply: (nat, Call) -> Error)
    requires |s| == 5
    ensures Run(s, from, reply) ==
              if reply(from, s[0]) != Nil then Execution(s[..1], reply(from, s[0]))
              else if reply(from + 1, s[1]) != Nil then Execution(s[..2], reply(from + 1, s[1]))
              else if reply(from + 2, s[2]) != Nil then Execution(s[..3], reply(from + 2, s[2]))
              else if reply(from + 3, s[3]) != Nil then Execution(s[..4], reply(from + 3, s[3]))
              else if reply(from + 4, s[4]) != Nil then Execution(s[..5], reply(from + 4, s[4]))
              else Execution(s, Nil)
  {
    if reply(from, s[0]) != Nil {
      RunStopsAtFirstFailure(s, from, reply, 0);
    } else if reply(from + 1, s[1]) != Nil {
      RunStopsAtFirstFailure(s, from, reply, 1);
    } else {
      RunFiveAfterTwo(s, from, reply);
    }
  }

  /** The five-call case once the first two calls have succeeded. */
  lemma RunFiveAfterTwo(s: seq<Call>, from: nat, reply: (nat, Call) -> Error)
    requires |s| == 5 && reply(from, s[0]) == Nil && reply(from + 1, s[1]) == Nil
    ensures Run(s, from, reply) ==
              if reply(from + 2, s[2]) != Nil then Execution(s[..3], reply(from + 2, s[2]))
              else if reply(from + 3, s[3]) != Nil then Execution(s[..4], reply(from + 3, s[3]))
              else if reply(from + 4, s[4]) != Nil then Execution(s[..5], reply(from + 4, s[4]))
              else Execution(s, Nil)
  {
    if reply(from + 2, s[2]) != Nil {
      RunStopsAtFirstFailure(s, from, reply, 2);
    } else if reply(from + 3, s[3]) != Nil {
      RunStopsAtFirstFailure(s, from, reply, 3);
    } else if reply(from + 4, s[4]) != Nil {
      RunStopsAtFirstFailure(s, from, reply, 4);
    } else {
      RunSucceedsIff(s, from, reply);
      RunCompletes(s, from, reply);
    }
  }

  /** `Run` on a three-call workflow, case by case. */
  lemma RunThree(s: seq<Call>, from: nat, reply: (nat, Call) -> Error)
    requires |s| == 3
    ensures Run(s, from, reply) ==
              if reply(from, s[0]) != Nil then Execution(s[..1], reply(from, s[0]))
              else if reply(from + 1, s[1]) != Nil then Execution(s[..2], reply(from + 1, s[1]))
              else if reply(from + 2, s[2]) != Nil then Execution(s[..3], reply(from + 2, s[2]))
              else Execution(s, Nil)
  {
    if reply(from, s[0]) != Nil {
      RunStopsAtFirstFailure(s, from, reply, 0);
    } else {
      RunThreeAfterOne(s, from, reply);
    }
  }

  /** The three-call case once the first call has succeeded. */
  lemma RunThreeAfterOne(s: seq<Call>, from: nat, reply: (nat, Call) -> Error)
    requires |s| == 3 && reply(from, s[0]) == Nil
    ensures Run(s, from, reply) ==
              if reply(from + 1, s[1]) != Nil then Execution(s[..2], reply(from + 1, s[1]))
              else if reply(from + 2, s[2]) != Nil then Execution(s[..3], reply(from + 2, s[2]))
              else Execution(s, Nil)
  {
    if reply(from + 1, s[1]) != Nil {
      RunStopsAtFirstFailure(s, from, reply, 1);
    } else if reply(from + 2, s[2]) != Nil {
      RunStopsAtFirstFailure(s, from, reply, 2);
    } else {
      RunSucceedsIff(s, from, reply);
      RunCompletes(s, from, reply);
    }
  }

  /** `PushImage`: checks the tool, pulls the test image from the public
      registry, logs in to the registry under test, tags the image for the
      testing project and pushes it; it stops at the first failing call and
      returns that call's error. The environment itself is not changed. */
  method PushImage(env: HarborEnvironment) returns (err: Error)
    requires env.Valid() && env.dockerClient.Valid()
    modifies env.dockerClient
    ensures env.dockerClient.Valid()
    ensures env.Snapshot() == old(env.Snapshot()) && env.dockerClient == old(env.dockerClient)
    ensures var e := Run(PushSteps(old(env.Snapshot())), old(env.dockerClient.calls), env.dockerClient.reply);
            env.dockerClient.trace == old(env.dockerClient.trace) + e.invoked && err == e.result
  {
    var docker := env.dockerClient;
    ghost var steps := PushSteps(env.Snapshot());
    ghost var t0 := docker.trace;
    RunFive(steps, docker.calls, docker.reply);
    err := docker.Invoke(Status);
    Extend(t0, steps, 0, docker.trace);
    if err != Nil {
      return;
    }

    var imagePulling := env.gcrProjectName + env.imageName + ":" + env.imageTag;
    err := docker.Invoke(Pull(imagePulling));
    Extend(t0, steps, 1, docker.trace);
    if err != Nil {
      return;
    }

    err := docker.Invoke(Login(env.account, env.password, env.hostname));
    Extend(t0, steps, 2, docker.trace);
    if err != Nil {
      return;
    }

    var imagePushing := env.hostname + "/" + env.testingProject + "/" + env.imageName + ":" + env.imageTag;
    err := docker.Invoke(Tag(imagePulling, imagePushing));
    Extend(t0, steps, 3, docker.trace);
    if err != Nil {
      return;
    }

    err := docker.Invoke(Push(imagePushing));
    Extend(t0, steps, 4, docker.trace);
    assert steps[..5] == steps;
  }

  /** `PullImage`: checks the tool, logs in to the registry under test and
      pulls the image of the testing project; it stops at the first failing
      call and returns that call's error. */
  method PullImage(env: HarborEnvironment) returns (err: Error)
    requires env.Valid() && env.dockerClient.Valid()
    modifies env.dockerClient
    ensures env.dockerClient.Valid()
    ensures env.Snapshot() == old(env.Snapshot()) && env.dockerClient == old(env.dockerClient)
    ensures var e := Run(PullSteps(env.Snapshot()), old(env.dockerClient.calls), env.dockerClient.reply);
            env.dockerClient.trace == old(env.dockerClient.trace) + e.invoked && err == e.result
  {
    var docker := env.dockerClient;
    ghost var steps := PullSteps(env.Snapshot());
    ghost var t0 := docker.trace;
    RunThree(steps, docker.calls, docker.reply);
    err := docker.Invoke(Status);
    Extend(t0, steps, 0, docker.trace);
    if err != Nil {
      return;
    }

    err := docker.Invoke(Login(env.account, env.password, env.hostname));
    Extend(t0, steps, 1, docker.trace);
    if err != Nil {
      return;
    }

    var imagePulling := env.hostname + "/" + env.testingProject + "/" + env.imageName + ":" + env.imageTag;
    err := docker.Invoke(Pull(imagePulling));
    Extend(t0, steps, 2, docker.trace);
    assert steps[..3] == steps;
  }

  /** A push whose login fails has checked the tool and pulled the source
      image, returns the login error, and never tags or pushes anything. */
  lemma PushLoginFailureSkipsTagAndPush(c: Config, from: nat, reply: (nat, Call) -> Error)
    requires reply(from, Status) == Nil && reply(from + 1, Pull(SourceRef(c))) == Nil
    requires reply(from + 2, UserLogin(c)) != Nil
    ensures var e := Run(PushSteps(c), from, reply);
            && e.invoked == [Status, Pull(SourceRef(c)), UserLogin(c)]
            && e.result == reply(from + 2, UserLogin(c))
            && forall i :: 0 <= i < |e.invoked| ==> !e.invoked[i].Tag? && !e.invoked[i].Push?
  {
    RunStopsAtFirstFailure(PushSteps(c), from, reply, 2);
  }

  /** A failing tool check ends either workflow before anything else. */
  lemma StatusFailureStopsAll(c: Config, from: nat, reply: (nat, Call) -> Error)
    requires reply(from, Status) != Nil
    ensures Run(PushSteps(c), from, reply) == Execution([Status], reply(from, Status))
    ensures Run(PullSteps(c), from, reply) == Execution([Status], reply(from, Status))
  {
    RunStopsAtFirstFailure(PushSteps(c), from, reply, 0);
    RunStopsAtFirstFailure(PullSteps(c), from, reply, 0);
  }

  /** Both workflows log in with the non-admin account before they touch
      the registry under test: every push or pull of the target reference
      comes after the login in the calls a workflow makes. */
  lemma LoginPrecedesTarget(c: Config, from: nat, reply: (nat, Call) -> Error)
    ensures var e := Run(PushSteps(c), from, reply);
            forall i :: 0 <= i < |e.invoked| && (e.invoked[i] == Push(TargetRef(c)) || e.invoked[i].Tag?) ==>
              exists j :: 0 <= j < i && e.invoked[j] == UserLogin(c)
    ensures var e := Run(PullSteps(c), from, reply);
            forall i :: 0 <= i < |e.invoked| && e.invoked[i] == Pull(TargetRef(c)) ==>
              exists j :: 0 <= j < i && e.invoked[j] == UserLogin(c)
  {
    var e := Run(PushSteps(c), from, reply);
    RunMakesPrefix(PushSteps(c), from, reply);
    forall i | 0 <= i < |e.invoked| && (e.invoked[i] == Push(TargetRef(c)) || e.invoked[i].Tag?)
      ensures exists j :: 0 <= j < i && e.invoked[j] == UserLogin(c)
    {
      assert e.invoked[i] == PushSteps(c)[i];
      assert i >= 3;
      assert e.invoked[2] == UserLogin(c);
    }
    var f := Run(PullSteps(c), from, reply);
    RunMakesPrefix(PullSteps(c), from, reply);
    forall i | 0 <= i < |f.invoked| && f.invoked[i] == Pull(TargetRef(c))
      ensures exists j :: 0 <= j < i && f.invoked[j] == UserLogin(c)
    {
      assert f.invoked[i] == PullSteps(c)[i];
      assert f.invoked[1] == UserLogin(c);
    }
  }

  /** A reference taken apart at its last colon: repository and tag. */
  function SplitTag(ref: string): Option<(string, string)>
  {
    var k := LastIndexOf(ref, ':');
    if k == |ref| then None else Some((ref[..k], ref[k + 1..]))
  }

  /** A target reference taken apart: host, project, image name and tag. */
  function SplitTarget(ref: string): Option<(string, string, string, string)>
  {
    var i := IndexOf(ref, '/');
    if i == |ref| then None
    else
      var rest := ref[i + 1..];
      var j := IndexOf(rest, '/');
      if j == |rest| then None
      else
        match SplitTag(rest[j + 1..])
        case None => None
        case Some((name, tag)) => Some((ref[..i], rest[..j], name, tag))
  }

  /** A reference with a tag that has no colon splits back into the two. */
  lemma SplitTagRoundTrip(repo: string, tag: string)
    requires ':' !in tag
    ensures SplitTag(repo + ":" + tag) == Some((repo, tag))
  {
    assert repo + ":" + tag == repo + [':'] + tag;
    LastIndexOfBefore(repo, ':', tag);
  }

  /** The source reference names the registry prefix with the image name,
      and the tag, when the tag has no colon of its own. */
  lemma SourceRefRoundTrip(c: Config)
    requires ':' !in c.imageTag
    ensures SplitTag(SourceRef(c)) == Some((c.gcrProjectName + c.imageName, c.imageTag))
  {
    SplitTagRoundTrip(c.gcrProjectName + c.imageName, c.imageTag);
  }

  /** `<host>/<project>/<name>:<tag>` splits back into its four parts when
      host and project have no slash and the tag has no colon. */
  lemma SplitTargetRoundTrip(host: string, project: string, name: string, tag: string)
    requires '/' !in host && '/' !in project && ':' !in tag
    ensures SplitTarget(host + ['/'] + (project + ['/'] + (name + ":" + tag)))
              == Some((host, project, name, tag))
  {
    var tail := name + ":" + tag;
    IndexOfAfter(host, '/', project + ['/'] + tail);
    IndexOfAfter(project, '/', tail);
    SplitTagRoundTrip(name, tag);
  }

  /** The target reference takes apart into the host, the testing project,
      the image name and the tag, when host and project have no slash and
      the tag has no colon. */
  lemma TargetRefRoundTrip(c: Config)
    requires '/' !in c.hostname && '/' !in c.testingProject && ':' !in c.imageTag
    ensures SplitTarget(TargetRef(c)) == Some((c.hostname, c.testingProject, c.imageName, c.imageTag))
  {
    var tail := c.imageName + ":" + c.imageTag;
    assert TargetRef(c) == c.hostname + ['/'] + (c.testingProject + ['/'] + tail);
    SplitTargetRoundTrip(c.hostname, c.testingProject, c.imageName, c.imageTag);
  }

  /** Different hosts, projects, names or tags give different target
      references, under the same conditions. */
  lemma TargetRefInjective(c: Config, d: Config)
    requires '/' !in c.hostname && '/' !in c.testingProject && ':' !in c.imageTag
    requires '/' !in d.hostname && '/' !in d.testingProject && ':' !in d.imageTag
    requires TargetRef(c) == TargetRef(d)
    ensures c.hostname == d.hostname && c.testingProject == d.testingProject
    ensures c.imageName == d.imageName && c.imageTag == d.imageTag
  {
    TargetRefRoundTrip(c);
    TargetRefRoundTrip(d);
  }
}
