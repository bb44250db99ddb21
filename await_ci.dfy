/** The await_ci stage: with a commit to watch, poll its build statuses up to
    CI_POLL_MAX_ATTEMPTS times; all green finishes the run as DONE, a failed build or
    the end of the attempts notifies and suspends for a retry-or-close decision. */
module AwaitCiNode {
  import opened Wrappers
  import opened Domain
  import opened State
  import opened Stage

  predicate AllSuccessful(b: seq<BuildStatus>) {
    |b| > 0 && forall i :: 0 <= i < |b| ==> b[i].state == Successful
  }

  predicate HasFailed(b: seq<BuildStatus>) {
    exists i :: 0 <= i < |b| && b[i].state == BuildFailed
  }

  /** `builds.find(b => b.state === "FAILED")`. */
  function FirstFailed(b: seq<BuildStatus>): (f: BuildStatus)
    requires HasFailed(b)
    ensures f in b && f.state == BuildFailed
    ensures exists i :: 0 <= i < |b| && b[i] == f && forall j :: 0 <= j < i ==> b[j].state != BuildFailed
  {
    if b[0].state == BuildFailed then b[0]
    else
      assert HasFailed(b[1..]) by {
        var i :| 0 <= i < |b| && b[i].state == BuildFailed;
        assert b[1..][i - 1] == b[i];
      }
      var f := FirstFailed(b[1..]);
      var i :| 0 <= i < |b[1..]| && b[1..][i] == f && forall j :: 0 <= j < i ==> b[1..][j].state != BuildFailed;
      assert b[i + 1] == f;
      assert forall j :: 0 <= j < i + 1 ==> b[j].state != BuildFailed by {
        forall j | 0 <= j < i + 1 ensures b[j].state != BuildFailed {
          if j > 0 { assert b[j] == b[1..][j - 1]; }
        }
      }
      f
  }

  /** A poll that ends the loop: green builds, or a failure among non-empty builds. */
  predicate Settled(b: seq<BuildStatus>) {
    AllSuccessful(b) || HasFailed(b)
  }

  /** How the polling ended and after how many status requests. */
  datatype PollEnd = AllPassed(url: string, polls: nat) | GaveUp(lastUrl: Option<string>, polls: nat)

  /** The polling loop from `attempt` on, `last` being the URL of the first build of the
      latest non-empty answer. `builds(k)` is the answer to the k-th request. */
  function PollFrom(builds: nat -> seq<BuildStatus>, attempt: nat, last: Option<string>): (r: PollEnd)
    requires attempt <= CI_POLL_MAX_ATTEMPTS
    ensures attempt <= r.polls <= CI_POLL_MAX_ATTEMPTS
    decreases CI_POLL_MAX_ATTEMPTS - attempt
  {
    if attempt == CI_POLL_MAX_ATTEMPTS then GaveUp(last, attempt)
    else
      var b := builds(attempt);
      if |b| == 0 then PollFrom(builds, attempt + 1, last)
      else if AllSuccessful(b) then AllPassed(b[0].url, attempt + 1)
      else if HasFailed(b) then GaveUp(Some(FirstFailed(b).url), attempt + 1)
      else PollFrom(builds, attempt + 1, Some(b[0].url))
  }

  /** Polling stops at the first settled answer: every earlier answer was unsettled; all
      green passes with the first build's URL; a failure gives up with the first failed
      build's URL; giving up without a settled last answer means the attempts ran out. */
  lemma {:induction false} PollFromSpec(builds: nat -> seq<BuildStatus>, attempt: nat, last: Option<string>)
    requires attempt <= CI_POLL_MAX_ATTEMPTS
    ensures var r := PollFrom(builds, attempt, last);
      && (forall k :: attempt <= k < r.polls - 1 ==> !Settled(builds(k)))
      && (r.AllPassed? ==> r.polls > attempt && AllSuccessful(builds(r.polls - 1)) && r.url == builds(r.polls - 1)[0].url)
      && (r.GaveUp? && r.polls > attempt && Settled(builds(r.polls - 1)) ==>
            HasFailed(builds(r.polls - 1)) && !AllSuccessful(builds(r.polls - 1))
            && r.lastUrl == Some(FirstFailed(builds(r.polls - 1)).url))
      && (r.GaveUp? && (r.polls == attempt || !Settled(builds(r.polls - 1))) ==> r.polls == CI_POLL_MAX_ATTEMPTS)
    decreases CI_POLL_MAX_ATTEMPTS - attempt
  {
    if attempt < CI_POLL_MAX_ATTEMPTS {
      var b := builds(attempt);
      if |b| == 0 {
        PollFromSpec(builds, attempt + 1, last);
      } else if !AllSuccessful(b) && !HasFailed(b) {
        PollFromSpec(builds, attempt + 1, Some(b[0].url));
      }
    }
  }

  /** The polling loop as the stage runs it. */
  method PollBuilds(builds: nat -> seq<BuildStatus>) returns (r: PollEnd)
    ensures r == PollFrom(builds, 0, None)
  {
    var last: Option<string> := None;
    var attempt: nat := 0;
    while attempt < CI_POLL_MAX_ATTEMPTS
      invariant attempt <= CI_POLL_MAX_ATTEMPTS
      invariant PollFrom(builds, attempt, last) == PollFrom(builds, 0, None)
    {
      var b := builds(attempt);
      if |b| == 0 {
        attempt := attempt + 1;
        continue;
      }
      last := Some(b[0].url);
      if AllSuccessful(b) {
        return AllPassed(b[0].url, attempt + 1);
      }
      if HasFailed(b) {
        last := Some(FirstFailed(b).url);
        attempt := attempt + 1;
        return GaveUp(last, attempt);
      }
      attempt := attempt + 1;
    }
    r := GaveUp(last, attempt);
  }

  /** Polling that never sees a build gives up after every attempt with no URL. */
  lemma {:induction false} NoBuildsTimesOut(builds: nat -> seq<BuildStatus>, attempt: nat)
    requires attempt <= CI_POLL_MAX_ATTEMPTS
    requires forall k :: attempt <= k < CI_POLL_MAX_ATTEMPTS ==> builds(k) == []
    ensures PollFrom(builds, attempt, None) == GaveUp(None, CI_POLL_MAX_ATTEMPTS)
    decreases CI_POLL_MAX_ATTEMPTS - attempt
  {
    if attempt < CI_POLL_MAX_ATTEMPTS {
      NoBuildsTimesOut(builds, attempt + 1);
    }
  }

  /** A URL is reported after polling exactly when some answer had builds (or one was
      already known). */
  lemma {:induction false} UrlIffBuildsSeen(builds: nat -> seq<BuildStatus>, attempt: nat, last: Option<string>)
    requires attempt <= CI_POLL_MAX_ATTEMPTS
    ensures var r := PollFrom(builds, attempt, last);
      r.GaveUp? ==> (r.lastUrl.Some? <==> last.Some? || exists k :: attempt <= k < r.polls && builds(k) != [])
    decreases CI_POLL_MAX_ATTEMPTS - attempt
  {
    if attempt < CI_POLL_MAX_ATTEMPTS {
      var b := builds(attempt);
      if |b| == 0 {
        UrlIffBuildsSeen(builds, attempt + 1, last);
        var r := PollFrom(builds, attempt + 1, last);
        if r.GaveUp? && exists k :: attempt <= k < r.polls && builds(k) != [] {
          var k :| attempt <= k < r.polls && builds(k) != [];
          assert k != attempt;
        }
      } else if !AllSuccessful(b) && !HasFailed(b) {
        UrlIffBuildsSeen(builds, attempt + 1, Some(b[0].url));
      }
    }
  }

  /** The poll results, the one world fact the stage needs. */
  datatype World = World(builds: nat -> seq<BuildStatus>)

  const CiPassedStatus: string := "SUCCESSFUL"
  const CiFailedStatus: string := "FAILED"

  /** "CI failed: <url>" when a URL is known, else the timeout text. */
  function FailureMessage(last: Option<string>): string {
    if Truthy(last) then "CI failed: " + last.value else "CI timed out waiting for build status"
  }

  /** The retry and close buttons of the failure notification. */
  function FailureActions(runId: string): seq<NotifyAction> {
    [ NotifyAction("\U{1F504} Повторить", ResumeEndpoint(runId), map["action" := "retry"]),
      NotifyAction("\U{2705} Закрыть", ResumeEndpoint(runId), map["action" := "close"]) ]
  }

  /** One status request per poll. */
  function Requests(commitHash: string, n: nat): (r: seq<Effect>)
    ensures |r| == n && forall i :: 0 <= i < n ==> r[i] == GetBuildStatus(commitHash)
  {
    if n == 0 then [] else Requests(commitHash, n - 1) + [GetBuildStatus(commitHash)]
  }

  function AwaitCi(s: CodingState, w: World, resume: Option<ResumePayload>): (r: StageResult)
    ensures !Truthy(s.context.commitHash) ==>
      r == StageResult([], Updated(NoUpdate.(status := Put(Done), ciStatus := Put(Some(CiPassedStatus)))))
    ensures Truthy(s.context.commitHash) ==>
      var p := PollFrom(w.builds, 0, None);
      r.effects == [Notify(NotifyFor(s.context, "waiting_for_ci", "Waiting for CI build status...", NoData, []))]
        + Requests(s.context.commitHash.value, p.polls)
        + [Notify(if p.AllPassed? then NotifyFor(s.context, "ci_passed", "CI passed", NoData, [])
                  else NotifyFor(s.context, "ci_failed", FailureMessage(p.lastUrl), NoData, FailureActions(s.context.runId)))]
    ensures Truthy(s.context.commitHash) && PollFrom(w.builds, 0, None).AllPassed? ==>
      r.outcome == Updated(NoUpdate.(status := Put(Done), ciStatus := Put(Some(CiPassedStatus)),
        ciBuildUrl := Put(Some(PollFrom(w.builds, 0, None).url))))
    ensures Truthy(s.context.commitHash) && PollFrom(w.builds, 0, None).GaveUp? && resume.None? ==>
      NotifiesThenSuspends(r, CiFailure(CiFailedStatus, PollFrom(w.builds, 0, None).lastUrl))
    ensures Truthy(s.context.commitHash) && PollFrom(w.builds, 0, None).GaveUp? && resume.Some? ==>
      r.outcome == Updated(NoUpdate.(resumeAction := Put(Some(resume.value.action)),
        ciStatus := Put(Some(CiFailedStatus)), ciBuildUrl := Put(PollFrom(w.builds, 0, None).lastUrl)))
  {
    var ctx := s.context;
    if !Truthy(ctx.commitHash) then
      StageResult([], Updated(NoUpdate.(status := Put(Done), ciStatus := Put(Some(CiPassedStatus)))))
    else
      var commit := ctx.commitHash.value;
      var waiting := Notify(NotifyFor(ctx, "waiting_for_ci", "Waiting for CI build status...", NoData, []));
      var p := PollFrom(w.builds, 0, None);
      match p
      case AllPassed(url, polls) =>
        StageResult([waiting] + Requests(commit, polls) + [Notify(NotifyFor(ctx, "ci_passed", "CI passed", NoData, []))],
          Updated(NoUpdate.(status := Put(Done), ciStatus := Put(Some(CiPassedStatus)), ciBuildUrl := Put(Some(url)))))
      case GaveUp(last, polls) =>
        var effects := [waiting] + Requests(commit, polls)
          + [Notify(NotifyFor(ctx, "ci_failed", FailureMessage(last), NoData, FailureActions(ctx.runId)))];
        if resume.None? then StageResult(effects, Suspend(CiFailure(CiFailedStatus, last)))
        else StageResult(effects, Updated(NoUpdate.(resumeAction := Put(Some(resume.value.action)),
          ciStatus := Put(Some(CiFailedStatus)), ciBuildUrl := Put(last))))
  }

  /** The stage never touches the iteration counters, and it asks for a build status at
      most CI_POLL_MAX_ATTEMPTS times. */
  lemma AwaitCiBounded(s: CodingState, w: World, resume: Option<ResumePayload>)
    ensures var r := AwaitCi(s, w, resume);
      |r.effects| <= CI_POLL_MAX_ATTEMPTS + 2
      && (r.outcome.Updated? ==> r.outcome.update.codeIterations == Keep && r.outcome.update.reviewIterations == Keep)
  {
  }
}
