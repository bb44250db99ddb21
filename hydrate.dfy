/** The hydrate stage: fetch the issue, resolve its repository, prepare the mirror
    and worktree, read the repository's own configuration, collect linked
    Confluence pages and Loop threads, announce the start and build the run
    context. */
module HydrateNode {
  import opened Wrappers
  import opened Text
  import opened Domain
  import opened State
  import opened Stage
  import opened Knowledge

  // ─── Link extraction ───

  /** Characters that end a link: whitespace, '"', '\'' and ')'. */
  predicate StopChar(c: char) { IsSpace(c) || c == '"' || c == '\'' || c == ')' }

  /** The end of the run of non-stop characters starting at `i`. */
  function TokenEnd(s: string, i: nat): (e: nat)
    requires i <= |s|
    ensures i <= e <= |s|
    ensures forall k :: i <= k < e ==> !StopChar(s[k])
    ensures e < |s| ==> StopChar(s[e])
    decreases |s| - i
  {
    if i < |s| && !StopChar(s[i]) then TokenEnd(s, i + 1) else i
  }

  /** The length of the `https?://` scheme at `i`, or 0 when there is none. */
  function SchemeLength(s: string, i: nat): (n: nat)
    ensures n == 0 || n == 7 || n == 8
    ensures n == 8 ==> OccursAt(s, "https://", i)
    ensures n == 7 ==> OccursAt(s, "http://", i)
  {
    if OccursAt(s, "https://", i) then 8 else if OccursAt(s, "http://", i) then 7 else 0
  }

  /** One of the markers occurs in `t` with at least one character after it. */
  predicate MarkerIn(t: string, markers: seq<string>) {
    exists m, j :: m in markers && 0 <= j <= |t| && OccursAt(t, m, j) && j + |m| < |t|
  }

  predicate IsLink(u: string, markers: seq<string>) {
    (StartsWith(u, "https://") && MarkerIn(u[8..], markers)) ||
    (StartsWith(u, "http://") && MarkerIn(u[7..], markers))
  }

  /** The global matches, from position `i` on, of `https?://` followed by a run of
      non-stop characters that contains a marker with at least one character after
      it; a match runs to the end of its run and the search resumes there. */
  function LinksFrom(s: string, i: nat, markers: seq<string>): (r: seq<string>)
    requires i <= |s|
    ensures forall u :: u in r ==> IsLink(u, markers) && exists a :: i <= a <= |s| && OccursAt(s, u, a)
    decreases |s| - i
  {
    if i == |s| then []
    else
      var n := SchemeLength(s, i);
      if n > 0 && MarkerIn(s[i + n..TokenEnd(s, i + n)], markers) then
        var e := TokenEnd(s, i + n);
        var u := s[i..e];
        assert u[n..] == s[i + n..e];
        assert OccursAt(s, u, i);
        [u] + LinksFrom(s, e, markers)
      else LinksFrom(s, i + 1, markers)
  }

  const ConfluenceMarkers: seq<string> := ["/wiki/", "/confluence/", "?pageId=", "&pageId="]
  const LoopMarkers: seq<string> := ["onetwotrip.loop.ru", "/pl/"]

  /** The description and the issue's links, joined by spaces. */
  function SearchText(issue: JiraIssue): string {
    Join([issue.description] + issue.links, " ")
  }

  /** The distinct Confluence links, in first-occurrence order. */
  function ConfluenceUrls(issue: JiraIssue): (r: seq<string>)
    ensures forall i, j :: 0 <= i < j < |r| ==> r[i] != r[j]
    ensures forall u :: u in r ==> IsLink(u, ConfluenceMarkers)
  {
    Dedup(LinksFrom(SearchText(issue), 0, ConfluenceMarkers))
  }

  /** The distinct Loop links, in first-occurrence order. */
  function LoopUrls(issue: JiraIssue): (r: seq<string>)
    ensures forall i, j :: 0 <= i < j < |r| ==> r[i] != r[j]
    ensures forall u :: u in r ==> IsLink(u, LoopMarkers)
  {
    Dedup(LinksFrom(SearchText(issue), 0, LoopMarkers))
  }

  // ─── Collecting fetch results ───

  /** The present results, in order (the `if (page) pages.push(page)` loop). */
  function Present<T(!new)>(results: seq<Option<T>>): (r: seq<T>)
    ensures |r| <= |results|
    ensures forall x :: x in r <==> Some(x) in results
  {
    if results == [] then []
    else
      var rest := Present(results[1..]);
      assert forall o :: o in results <==> o == results[0] || o in results[1..];
      if results[0].Some? then [results[0].value] + rest else rest
  }

  /** The push loop over the fetch results. */
  method CollectPresent<T(!new)>(results: seq<Option<T>>) returns (kept: seq<T>)
    ensures kept == Present(results)
  {
    kept := [];
    var i := 0;
    while i < |results|
      invariant 0 <= i <= |results|
      invariant kept + Present(results[i..]) == Present(results)
    {
      assert results[i..][1..] == results[i + 1..];
      if results[i].Some? {
        kept := kept + [results[i].value];
      }
      i := i + 1;
    }
    assert results[i..] == [];
  }

  function MapOver<A, B>(xs: seq<A>, f: A -> B): (r: seq<B>)
    ensures |r| == |xs| && forall i :: 0 <= i < |xs| ==> r[i] == f(xs[i])
  {
    if xs == [] then [] else [f(xs[0])] + MapOver(xs[1..], f)
  }

  // ─── The stage ───

  /** What the collaborators answer during one hydrate step: the fetched issue, the
      loaded registry, the mirror and worktree paths, the repository's configuration
      file, and the optional page and thread fetchers. The "In Progress" transition's
      outcome is not among them: its failure is caught and only logged, so the stage
      cannot observe it. */
  datatype World = World(
    issue: JiraIssue,
    registry: Registry,
    mirrorPath: string,
    worktreePath: string,
    repoConfig: Option<RepoConfig>,
    fetchPage: Option<string -> Option<Page>>,
    fetchThread: Option<string -> Option<string>>)

  /** The pages fetched for the Confluence links, when a fetcher is configured. */
  function Pages(w: World): seq<Page> {
    var urls := ConfluenceUrls(w.issue);
    if w.fetchPage.Some? && |urls| > 0 then Present(MapOver(urls, w.fetchPage.value)) else []
  }

  /** A fetched thread as the `if (thread)` test sees it: a thread with no posts
      joins to "", which is falsy and dropped like a missing one. */
  function TruthyThread(o: Option<string>): (r: Option<string>)
    ensures r.Some? <==> Truthy(o)
    ensures r.Some? ==> r == o
  {
    if Truthy(o) then o else None
  }

  /** The threads fetched for the Loop links, when a fetcher is configured, with the
      empty ones dropped. */
  function Threads(w: World): seq<string> {
    var urls := LoopUrls(w.issue);
    if w.fetchThread.Some? && |urls| > 0 then
      Present(MapOver(urls, (u: string) => TruthyThread(w.fetchThread.value(u))))
    else []
  }

  function PageFetches(w: World): seq<Effect> {
    var urls := ConfluenceUrls(w.issue);
    if w.fetchPage.Some? && |urls| > 0 then MapOver(urls, (u: string) => FetchPage(u)) else []
  }

  function ThreadFetches(w: World): seq<Effect> {
    var urls := LoopUrls(w.issue);
    if w.fetchThread.Some? && |urls| > 0 then MapOver(urls, (u: string) => FetchThread(u)) else []
  }

  function BranchFor(issue: JiraIssue): string {
    "minions/" + issue.key
  }

  function UnresolvedReason(issue: JiraIssue): string {
    "Could not resolve repo for issue " + issue.key
  }

  /** The "started" announcement, with a cancel button. */
  function StartedNotice(s: CodingState, issue: JiraIssue): NotifyPayload {
    NotifyPayload(s.runId, "started", "Задача " + issue.key + " взята в работу",
      Some(s.payload.chatId), Some(s.payload.requesterId), Some(issue.key), Some(s.payload.ticketUrl),
      NoData, [NotifyAction("❌ Отменить", CancelEndpoint(s.runId), map[])])
  }

  /** The context after a successful hydrate: every earlier field kept, the identity
      fields taken from the run, the repository fields added. */
  function HydratedContext(s: CodingState, w: World, m: RepoMatch): RunContext {
    var config := w.repoConfig;
    s.context.(
      runId := s.runId,
      ticketUrl := s.payload.ticketUrl,
      chatId := s.payload.chatId,
      requesterId := s.payload.requesterId,
      jiraIssue := Some(w.issue),
      repoUrl := Some(m.repoUrl),
      targetBranch := Some(m.targetBranch),
      worktreePath := Some(w.worktreePath),
      mirrorPath := Some(w.mirrorPath),
      validationCommands := Some(if config.Some? && config.value.commands.Some? then config.value.commands.value else []),
      figmaLinks := Some(w.issue.figmaLinks),
      projectKey := Some(m.projectKey),
      repoSlug := Some(m.repoSlug),
      confluencePages := Some(Pages(w)),
      loopThreads := Some(Threads(w)),
      repoDescription := m.repoDescription,
      additionalRepos := m.additionalRepos,
      repoConventions := if config.Some? then config.value.conventions else None)
  }

  /** The calls made before the repository is resolved. */
  function Preamble(s: CodingState, w: World): seq<Effect> {
    [VpnUp, FetchIssue(s.payload.ticketUrl), TransitionIssue(w.issue.key, "In Progress")]
  }

  function Hydrate(s: CodingState, w: World): (r: StageResult)
    ensures r.outcome.Updated?
    ensures |r.effects| >= 3 && r.effects[..3] == Preamble(s, w)
  {
    match Resolution(w.registry, w.issue)
    case None =>
      StageResult(Preamble(s, w),
        Updated(NoUpdate.(status := Put(Escalated), escalationReason := Put(Some(UnresolvedReason(w.issue))))))
    case Some(m) =>
      var effects := Preamble(s, w) + [
        EnsureMirror(m.repoUrl),
        AddWorktree(w.mirrorPath, BranchFor(w.issue), m.targetBranch),
        LoadRepoConfig(w.worktreePath)]
        + PageFetches(w) + ThreadFetches(w)
        + [Notify(StartedNotice(s, w.issue))];
      StageResult(effects, Updated(NoUpdate.(status := Put(Planning), context := Put(HydratedContext(s, w, m)))))
  }

  /** An unresolved repository ends hydrate with ESCALATED and a reason naming the
      issue, before any mirror, worktree or notification call. */
  lemma HydrateUnresolved(s: CodingState, w: World)
    requires Resolution(w.registry, w.issue).None?
    ensures Hydrate(s, w).outcome.update.status == Put(Escalated)
    ensures Hydrate(s, w).outcome.update.escalationReason == Put(Some("Could not resolve repo for issue " + w.issue.key))
    ensures Hydrate(s, w).outcome.update.context.Keep?
    ensures forall e :: e in Hydrate(s, w).effects ==> !e.EnsureMirror? && !e.AddWorktree? && !e.Notify?
  {
  }

  /** A resolved repository gives PLANNING and the hydrated context; the worktree is
      added on branch "minions/KEY" from the resolved target branch; the validation
      commands are the configuration's list untouched, or none. */
  lemma HydrateResolved(s: CodingState, w: World)
    requires Resolution(w.registry, w.issue).Some?
    ensures var r := Hydrate(s, w);
      var m := Resolution(w.registry, w.issue).value;
      && r.outcome.update == NoUpdate.(status := Put(Planning), context := Put(HydratedContext(s, w, m)))
      && r.effects[3] == EnsureMirror(m.repoUrl)
      && r.effects[4] == AddWorktree(w.mirrorPath, "minions/" + w.issue.key, m.targetBranch)
      && r.effects[|r.effects| - 1] == Notify(StartedNotice(s, w.issue))
    ensures var c := HydratedContext(s, w, Resolution(w.registry, w.issue).value);
      && c.validationCommands == Some(if w.repoConfig.Some? && w.repoConfig.value.commands.Some? then w.repoConfig.value.commands.value else [])
      && c.runId == s.runId && c.ticketUrl == s.payload.ticketUrl
      && c.chatId == s.payload.chatId && c.requesterId == s.payload.requesterId
      && c.branchName == s.context.branchName && c.planMarkdown == s.context.planMarkdown
      && c.prUrl == s.context.prUrl && c.commitHash == s.context.commitHash
      && c.confluencePages == Some(Pages(w)) && c.loopThreads == Some(Threads(w))
  {
  }

  /** Each distinct link is fetched once. */
  lemma FetchesDeduplicated(w: World)
    ensures forall i, j :: 0 <= i < j < |PageFetches(w)| ==> PageFetches(w)[i] != PageFetches(w)[j]
    ensures forall i, j :: 0 <= i < j < |ThreadFetches(w)| ==> ThreadFetches(w)[i] != ThreadFetches(w)[j]
  {
  }

  /** The present results of fetching every URL are exactly the values some URL fetched. */
  lemma PresentOfMap<R(!new)>(urls: seq<string>, fetch: string -> Option<R>, x: R)
    ensures x in Present(MapOver(urls, fetch)) <==> exists u :: u in urls && fetch(u) == Some(x)
  {
    var results := MapOver(urls, fetch);
    if Some(x) in results {
      var i :| 0 <= i < |results| && results[i] == Some(x);
      assert urls[i] in urls;
    }
    if exists u :: u in urls && fetch(u) == Some(x) {
      var u :| u in urls && fetch(u) == Some(x);
      var i :| 0 <= i < |urls| && urls[i] == u;
      assert results[i] == Some(x);
    }
  }

  /** Only truthy results are kept: the pages are exactly what the page fetcher
      returned for some link, and the threads exactly the non-empty texts the thread
      fetcher returned for some link. */
  lemma KeptResults(w: World)
    ensures forall p :: p in Pages(w) <==>
      w.fetchPage.Some? && exists u :: u in ConfluenceUrls(w.issue) && w.fetchPage.value(u) == Some(p)
    ensures forall t :: t in Threads(w) <==>
      t != "" && w.fetchThread.Some? && exists u :: u in LoopUrls(w.issue) && w.fetchThread.value(u) == Some(t)
  {
    forall p ensures p in Pages(w) <==>
      w.fetchPage.Some? && exists u :: u in ConfluenceUrls(w.issue) && w.fetchPage.value(u) == Some(p)
    {
      if w.fetchPage.Some? {
        PresentOfMap(ConfluenceUrls(w.issue), w.fetchPage.value, p);
      }
    }
    forall t ensures t in Threads(w) <==>
      t != "" && w.fetchThread.Some? && exists u :: u in LoopUrls(w.issue) && w.fetchThread.value(u) == Some(t)
    {
      if w.fetchThread.Some? {
        var fetch := w.fetchThread.value;
        var kept := (u: string) => TruthyThread(fetch(u));
        PresentOfMap(LoopUrls(w.issue), kept, t);
        if exists u :: u in LoopUrls(w.issue) && kept(u) == Some(t) {
          var u :| u in LoopUrls(w.issue) && kept(u) == Some(t);
          assert fetch(u) == Some(t) && t != "";
        }
        if t != "" && exists u :: u in LoopUrls(w.issue) && fetch(u) == Some(t) {
          var u :| u in LoopUrls(w.issue) && fetch(u) == Some(t);
          assert kept(u) == Some(t);
        }
      }
    }
  }

  /** A Loop link whose thread comes back empty or missing contributes nothing: when
      every link's thread is falsy, the hydrated context has no threads. */
  lemma FalsyThreadsDropped(w: World)
    requires w.fetchThread.Some?
    requires forall u :: u in LoopUrls(w.issue) ==> !Truthy(w.fetchThread.value(u))
    ensures Threads(w) == []
  {
    var results := MapOver(LoopUrls(w.issue), (u: string) => TruthyThread(w.fetchThread.value(u)));
    assert forall o :: o in results ==> o.None?;
    HeadIsElement(Present(results));
  }

  lemma HeadIsElement<T>(r: seq<T>)
    ensures r != [] ==> r[0] in r
  {
  }
}
