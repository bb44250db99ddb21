/** The repository registry: choosing the repository an issue belongs to (the
    longest package scope named in its description wins, else the project's
    default), the extra repositories other matching scopes name, the
    validation commands of a repository, and the branch and squash-commit
    formats. */
module Knowledge {
  import opened Wrappers
  import opened Text
  import opened Domain

  datatype RepoEntry = RepoEntry(description: Option<string>, branch: string)

  datatype GitConventions = GitConventions(branchFormat: string, commitFormat: string, squashCommitFormat: string)

  /** One `packageScopes` entry, in the registry's key order. */
  datatype ScopeEntry = ScopeEntry(scope: string, slugs: seq<string>)

  datatype Registry = Registry(
    bitbucketProject: string,
    baseCloneUrl: string,
    git: GitConventions,
    packageScopes: Option<seq<ScopeEntry>>,
    repos: map<string, RepoEntry>,
    projects: map<string, string>)

  datatype RepoMatch = RepoMatch(
    repoUrl: string,
    targetBranch: string,
    projectKey: string,
    repoSlug: string,
    repoDescription: Option<string>,
    additionalRepos: Option<seq<string>>)

  /** A repository's `.minions.yaml`: `validation.commands` is collapsed to one optional list. */
  datatype RepoConfig = RepoConfig(description: Option<string>, commands: Option<seq<string>>, conventions: Option<string>)

  // ─── Validation commands ───

  const FrontAviaCommands: seq<string> := [
    "pnpm run lint:eslint",
    "pnpm run lint:prettier",
    "pnpm run lint:stylelint",
    "pnpm run lint:circular",
    "pnpm run typecheck",
    "pnpm run dicts",
    "pnpm run test"]

  /** The built-in per-repository defaults: only "front-avia" has any. */
  function DefaultCommands(slug: string): Option<seq<string>> {
    if slug == "front-avia" then Some(FrontAviaCommands) else None
  }

  /** `commands.map(trim).filter(Boolean)`. */
  function Cleaned(commands: seq<string>): (r: seq<string>)
    ensures forall x :: x in r <==> x != "" && exists c :: c in commands && Trim(c) == x
    ensures |r| <= |commands|
  {
    if commands == [] then []
    else
      var rest := Cleaned(commands[1..]);
      assert forall c :: c in commands[1..] ==> c in commands;
      assert forall c :: c in commands ==> c == commands[0] || c in commands[1..];
      if Trim(commands[0]) == "" then rest else [Trim(commands[0])] + rest
  }

  /** The repository's own non-blank commands, trimmed, when there are any; else the
      built-in defaults for the slug; else nothing. */
  function ResolveValidationCommands(slug: string, config: Option<RepoConfig>): (r: seq<string>)
    ensures var own := if config.Some? && config.value.commands.Some? then config.value.commands.value else [];
      && (Cleaned(own) != [] ==> r == Cleaned(own))
      && (Cleaned(own) == [] && slug == "front-avia" ==> r == FrontAviaCommands)
      && (r == [] <==> Cleaned(own) == [] && slug != "front-avia")
  {
    var own := if config.Some? && config.value.commands.Some? then config.value.commands.value else [];
    var fromRepo := Cleaned(own);
    if |fromRepo| > 0 then fromRepo else DefaultCommands(slug).GetOr([])
  }

  /** Every command taken from the repository is non-empty and has no surrounding whitespace. */
  lemma CleanedAreTrimmed(commands: seq<string>)
    ensures forall x :: x in Cleaned(commands) ==> x != "" && Trim(x) == x
  {
    forall x | x in Cleaned(commands) ensures Trim(x) == x {
      var c :| c in commands && Trim(c) == x;
      TrimIdempotent(c);
    }
  }

  // ─── Scope order ───

  /** Scope `i` is tried before scope `j`: longer first (in UTF-16 code units, as
      `length` counts), and in key order among equal lengths, which is what a stable
      sort by descending length yields. */
  predicate Before(scopes: seq<ScopeEntry>, i: nat, j: nat) {
    i < |scopes| && j < |scopes| &&
    (Utf16Length(scopes[i].scope) > Utf16Length(scopes[j].scope) || (Utf16Length(scopes[i].scope) == Utf16Length(scopes[j].scope) && i < j))
  }

  predicate SortedBy(scopes: seq<ScopeEntry>, order: seq<nat>) {
    forall a, b :: 0 <= a < b < |order| ==> Before(scopes, order[a], order[b])
  }

  /** Inserts scope index `x` into an order sorted by `Before`. */
  function Insert(scopes: seq<ScopeEntry>, x: nat, order: seq<nat>): (r: seq<nat>)
    requires x < |scopes| && x !in order
    requires forall y :: y in order ==> y < |scopes|
    requires SortedBy(scopes, order)
    ensures forall y :: y in r <==> y == x || y in order
    ensures |r| == |order| + 1
    ensures SortedBy(scopes, r)
  {
    if order == [] then [x]
    else if Before(scopes, x, order[0]) then
      assert forall b :: 0 < b < |order| ==> Before(scopes, order[0], order[b]);
      [x] + order
    else
      assert forall y :: y in order[1..] ==> y in order;
      var rest := Insert(scopes, x, order[1..]);
      assert order[0] in order && order[0] != x;
      assert Before(scopes, order[0], x);
      assert forall b :: 0 <= b < |rest| ==> Before(scopes, order[0], rest[b]) by {
        forall b | 0 <= b < |rest| ensures Before(scopes, order[0], rest[b]) {
          assert rest[b] in rest;
          if rest[b] != x {
            var k :| 0 <= k < |order[1..]| && order[1..][k] == rest[b];
            assert order[k + 1] == rest[b];
          }
        }
      }
      [order[0]] + rest
  }

  /** The scope indices `k..` in the order they are tried. */
  function SortFrom(scopes: seq<ScopeEntry>, k: nat): (r: seq<nat>)
    ensures forall y :: y in r <==> k <= y < |scopes|
    ensures SortedBy(scopes, r)
    decreases |scopes| - k
  {
    if k >= |scopes| then [] else Insert(scopes, k, SortFrom(scopes, k + 1))
  }

  /** Every entry of `order` is a scope index. */
  predicate ValidOrder(scopes: seq<ScopeEntry>, order: seq<nat>) {
    forall p :: 0 <= p < |order| ==> order[p] < |scopes|
  }

  /** `Object.keys(packageScopes).sort((a, b) => b.length - a.length)`, as indices. */
  function ScopeOrder(scopes: seq<ScopeEntry>): (order: seq<nat>)
    ensures forall y: nat :: y in order <==> y < |scopes|
    ensures ValidOrder(scopes, order)
    ensures SortedBy(scopes, order)
  {
    var order := SortFrom(scopes, 0);
    assert forall p :: 0 <= p < |order| ==> order[p] in order;
    order
  }

  /** The position in `order` of the first scope the description contains. */
  function FirstMatch(scopes: seq<ScopeEntry>, order: seq<nat>, description: string): (r: Option<nat>)
    requires ValidOrder(scopes, order)
    ensures r.Some? ==> r.value < |order| && Contains(description, scopes[order[r.value]].scope)
    ensures r.Some? ==> forall p :: 0 <= p < r.value ==> !Contains(description, scopes[order[p]].scope)
    ensures r.None? ==> forall p :: 0 <= p < |order| ==> !Contains(description, scopes[order[p]].scope)
  {
    if order == [] then None
    else if Contains(description, scopes[order[0]].scope) then Some(0)
    else
      match FirstMatch(scopes, order[1..], description)
      case None => None
      case Some(p) => Some(p + 1)
  }

  /** The scope the description selects: the first contained scope in the tried order. */
  function SelectedScope(scopes: seq<ScopeEntry>, description: string): Option<nat> {
    var order := ScopeOrder(scopes);
    match FirstMatch(scopes, order, description)
    case None => None
    case Some(p) => Some(order[p])
  }

  /** The selected scope is the longest scope the description contains, the earliest
      in key order among equally long ones; there is none iff no scope is contained. */
  lemma {:induction false} SelectedScopeIsLongest(scopes: seq<ScopeEntry>, description: string)
    ensures SelectedScope(scopes, description).None? <==>
      forall j :: 0 <= j < |scopes| ==> !Contains(description, scopes[j].scope)
    ensures SelectedScope(scopes, description).Some? ==>
      var m := SelectedScope(scopes, description).value;
      && m < |scopes| && Contains(description, scopes[m].scope)
      && forall j :: 0 <= j < |scopes| && Contains(description, scopes[j].scope) ==>
           Utf16Length(scopes[j].scope) < Utf16Length(scopes[m].scope) || (Utf16Length(scopes[j].scope) == Utf16Length(scopes[m].scope) && m <= j)
  {
    var order := ScopeOrder(scopes);
    var fm := FirstMatch(scopes, order, description);
    if fm.None? {
      forall j | 0 <= j < |scopes| ensures !Contains(description, scopes[j].scope) {
        assert j in order;
        var p :| 0 <= p < |order| && order[p] == j;
      }
    } else {
      var m := order[fm.value];
      forall j | 0 <= j < |scopes| && Contains(description, scopes[j].scope)
        ensures Utf16Length(scopes[j].scope) < Utf16Length(scopes[m].scope) || (Utf16Length(scopes[j].scope) == Utf16Length(scopes[m].scope) && m <= j)
      {
        assert j in order;
        var p :| 0 <= p < |order| && order[p] == j;
        if p != fm.value {
          assert fm.value < p;
          assert Before(scopes, m, j);
        }
      }
    }
  }

  // ─── Resolution ───

  /** `key.split("-")[0]`: the part before the first dash, or the whole key. */
  function ProjectPrefix(key: string): (p: string)
    ensures StartsWith(key, p)
    ensures !Contains(p, "-")
  {
    match IndexOf(key, "-")
    case None => key
    case Some(i) =>
      assert forall j :: 0 <= j < i ==> !OccursAt(key, "-", j);
      assert forall j :: OccursAt(key[..i], "-", j) ==> OccursAt(key, "-", j);
      key[..i]
  }

  /** The slug chosen by the selected scope: its first listed slug, when that is truthy. */
  function ScopeSlug(reg: Registry, description: string): Option<string> {
    if reg.packageScopes.Some? && description != "" then
      var scopes := reg.packageScopes.value;
      match SelectedScope(scopes, description)
      case None => None
      case Some(m) => if |scopes[m].slugs| > 0 && scopes[m].slugs[0] != "" then Some(scopes[m].slugs[0]) else None
    else None
  }

  /** Adds the slugs that are neither the primary nor already present, in order. */
  function AddSlugs(slugs: seq<string>, primary: string, extras: seq<string>): (r: seq<string>)
    ensures forall x :: x in r <==> x in extras || (x in slugs && x != primary)
    ensures (forall i, j :: 0 <= i < j < |extras| ==> extras[i] != extras[j]) ==>
      forall i, j :: 0 <= i < j < |r| ==> r[i] != r[j]
    ensures primary !in extras ==> primary !in r
  {
    if slugs == [] then extras
    else
      assert forall x :: x in slugs <==> x == slugs[0] || x in slugs[1..];
      AddSlugs(slugs[1..], primary, if slugs[0] != primary && slugs[0] !in extras then extras + [slugs[0]] else extras)
  }

  /** Some scope the description contains lists slug `x`. */
  predicate ListedByMatch(scopes: seq<ScopeEntry>, description: string, x: string) {
    exists k :: 0 <= k < |scopes| && Contains(description, scopes[k].scope) && x in scopes[k].slugs
  }

  /** The extras collected from the matching entries `scopes`, starting from `extras`. */
  function CollectScopeRepos(scopes: seq<ScopeEntry>, description: string, primary: string, extras: seq<string>): (r: seq<string>)
    ensures forall x :: x in r <==> x in extras || (x != primary && ListedByMatch(scopes, description, x))
    ensures (forall i, j :: 0 <= i < j < |extras| ==> extras[i] != extras[j]) ==>
      forall i, j :: 0 <= i < j < |r| ==> r[i] != r[j]
    ensures primary !in extras ==> primary !in r
  {
    if scopes == [] then extras
    else
      var next := if Contains(description, scopes[0].scope) then AddSlugs(scopes[0].slugs, primary, extras) else extras;
      var r := CollectScopeRepos(scopes[1..], description, primary, next);
      forall x | x != primary && ListedByMatch(scopes, description, x)
        ensures x in r
      {
        var k :| 0 <= k < |scopes| && Contains(description, scopes[k].scope) && x in scopes[k].slugs;
        if k > 0 { assert scopes[1..][k - 1] == scopes[k]; }
      }
      forall x | x in r && x !in extras
        ensures x != primary && ListedByMatch(scopes, description, x)
      {
        if x !in next {
          var k :| 0 <= k < |scopes[1..]| && Contains(description, scopes[1..][k].scope) && x in scopes[1..][k].slugs;
          assert scopes[k + 1] == scopes[1..][k];
        }
      }
      r
  }

  /** `findScopeRepos`: every slug of every scope the description contains, except the
      primary, once each; nothing when there are no scopes or the description is empty. */
  function ScopeRepos(reg: Registry, description: string, primary: string): (r: seq<string>)
    ensures primary !in r
    ensures forall i, j :: 0 <= i < j < |r| ==> r[i] != r[j]
    ensures forall x :: x in r <==>
      (reg.packageScopes.Some? && description != "" && x != primary && ListedByMatch(reg.packageScopes.value, description, x))
  {
    if reg.packageScopes.None? || description == "" then []
    else CollectScopeRepos(reg.packageScopes.value, description, primary, [])
  }

  /** The loop of `findScopeRepos`, over the entries in key order and their slugs. */
  method FindScopeRepos(reg: Registry, description: string, primary: string) returns (extras: seq<string>)
    ensures extras == ScopeRepos(reg, description, primary)
  {
    if reg.packageScopes.None? || description == "" {
      return [];
    }
    var scopes := reg.packageScopes.value;
    extras := [];
    var k := 0;
    while k < |scopes|
      invariant 0 <= k <= |scopes|
      invariant CollectScopeRepos(scopes[k..], description, primary, extras) == ScopeRepos(reg, description, primary)
    {
      assert scopes[k..][1..] == scopes[k + 1..];
      if Contains(description, scopes[k].scope) {
        extras := AppendSlugs(scopes[k].slugs, primary, extras);
      }
      k := k + 1;
    }
    assert scopes[k..] == [];
  }

  /** The inner loop of `findScopeRepos`: pushes each slug of one entry that is neither
      the primary nor already collected. */
  method AppendSlugs(slugs: seq<string>, primary: string, extras: seq<string>) returns (r: seq<string>)
    ensures r == AddSlugs(slugs, primary, extras)
  {
    r := extras;
    var i := 0;
    while i < |slugs|
      invariant 0 <= i <= |slugs|
      invariant AddSlugs(slugs[i..], primary, r) == AddSlugs(slugs, primary, extras)
    {
      assert slugs[i..][1..] == slugs[i + 1..];
      var s := slugs[i];
      if s != primary && s !in r {
        r := r + [s];
      }
      i := i + 1;
    }
    assert slugs[i..] == [];
  }

  /** `resolveRepo`: None when the key's project is unregistered or the chosen slug has
      no repos entry; otherwise the match for the chosen slug. */
  function Resolution(reg: Registry, issue: JiraIssue): (r: Option<RepoMatch>)
    ensures ProjectPrefix(issue.key) !in reg.projects ==> r.None?
  {
    var prefix := ProjectPrefix(issue.key);
    if prefix !in reg.projects then None
    else
      var scopeSlug := ScopeSlug(reg, issue.description);
      var slug := if scopeSlug.Some? then scopeSlug.value else reg.projects[prefix];
      if slug !in reg.repos then None
      else
        var extras := ScopeRepos(reg, issue.description, slug);
        Some(RepoMatch(
          reg.baseCloneUrl + "/" + slug + ".git",
          reg.repos[slug].branch,
          reg.bitbucketProject,
          slug,
          reg.repos[slug].description,
          if |extras| > 0 then Some(extras) else None))
  }

  /** The slug `Resolution` settles on: the selected scope's first slug when truthy,
      else the project's default. */
  function ChosenSlug(reg: Registry, issue: JiraIssue): string
    requires ProjectPrefix(issue.key) in reg.projects
  {
    var scopeSlug := ScopeSlug(reg, issue.description);
    if scopeSlug.Some? then scopeSlug.value else reg.projects[ProjectPrefix(issue.key)]
  }

  /** What a resolved match holds: the chosen slug's clone URL, branch and description,
      the Bitbucket project, and the other matching scopes' slugs, absent when there are
      none. */
  lemma ResolutionFields(reg: Registry, issue: JiraIssue)
    ensures Resolution(reg, issue).Some? <==>
      ProjectPrefix(issue.key) in reg.projects && ChosenSlug(reg, issue) in reg.repos
    ensures Resolution(reg, issue).Some? ==>
      var m := Resolution(reg, issue).value;
      var slug := ChosenSlug(reg, issue);
      && m.repoSlug == slug
      && m.repoUrl == reg.baseCloneUrl + "/" + slug + ".git"
      && m.targetBranch == reg.repos[slug].branch
      && m.projectKey == reg.bitbucketProject
      && m.repoDescription == reg.repos[slug].description
      && (m.additionalRepos.None? <==> ScopeRepos(reg, issue.description, slug) == [])
      && (m.additionalRepos.Some? ==> m.additionalRepos.value == ScopeRepos(reg, issue.description, slug))
  {
  }

  /** The project default is used when there are no scopes, the description is empty,
      no scope is contained in it, or the selected scope lists no truthy first slug. */
  lemma DefaultWhenNoScope(reg: Registry, issue: JiraIssue)
    requires ProjectPrefix(issue.key) in reg.projects
    requires reg.packageScopes.None? || issue.description == "" ||
      (forall k :: 0 <= k < |reg.packageScopes.value| ==> !Contains(issue.description, reg.packageScopes.value[k].scope))
    ensures ChosenSlug(reg, issue) == reg.projects[ProjectPrefix(issue.key)]
  {
    if reg.packageScopes.Some? && issue.description != "" {
      SelectedScopeIsLongest(reg.packageScopes.value, issue.description);
    }
  }

  /** When some scope is contained in the description and the longest one (earliest
      among equals) lists a truthy first slug, that slug is chosen. */
  lemma LongestScopeWins(reg: Registry, issue: JiraIssue, m: nat)
    requires ProjectPrefix(issue.key) in reg.projects
    requires reg.packageScopes.Some? && issue.description != ""
    requires m < |reg.packageScopes.value| && Contains(issue.description, reg.packageScopes.value[m].scope)
    requires forall j :: 0 <= j < |reg.packageScopes.value| && Contains(issue.description, reg.packageScopes.value[j].scope) ==>
      Utf16Length(reg.packageScopes.value[j].scope) < Utf16Length(reg.packageScopes.value[m].scope) ||
      (Utf16Length(reg.packageScopes.value[j].scope) == Utf16Length(reg.packageScopes.value[m].scope) && m <= j)
    requires |reg.packageScopes.value[m].slugs| > 0 && reg.packageScopes.value[m].slugs[0] != ""
    ensures ChosenSlug(reg, issue) == reg.packageScopes.value[m].slugs[0]
  {
    var scopes := reg.packageScopes.value;
    SelectedScopeIsLongest(scopes, issue.description);
    var s := SelectedScope(scopes, issue.description).value;
    assert s == m;
  }

  /** The loop of `resolveRepo` over the tried order, stopping at the first contained scope. */
  method ResolveRepo(reg: Registry, issue: JiraIssue) returns (r: Option<RepoMatch>)
    ensures r == Resolution(reg, issue)
  {
    var prefix := ProjectPrefix(issue.key);
    if prefix !in reg.projects {
      return None;
    }
    var slug: Option<string> := None;
    if reg.packageScopes.Some? && issue.description != "" {
      var scopes := reg.packageScopes.value;
      var order := ScopeOrder(scopes);
      var p := 0;
      while p < |order|
        invariant 0 <= p <= |order|
        invariant forall q :: 0 <= q < p ==> !Contains(issue.description, scopes[order[q]].scope)
        invariant FirstMatch(scopes, order, issue.description).None? ||
          p <= FirstMatch(scopes, order, issue.description).value
      {
        var scope := scopes[order[p]];
        if Contains(issue.description, scope.scope) {
          slug := if |scope.slugs| > 0 then Some(scope.slugs[0]) else None;
          break;
        }
        p := p + 1;
      }
      assert slug.Some? ==> slug.value != "" ==> ScopeSlug(reg, issue.description) == slug;
    }
    var chosen := if slug.Some? && slug.value != "" then slug.value else reg.projects[prefix];
    assert chosen == ChosenSlug(reg, issue);
    if chosen !in reg.repos {
      return None;
    }
    var extras := FindScopeRepos(reg, issue.description, chosen);
    r := Some(RepoMatch(
      reg.baseCloneUrl + "/" + chosen + ".git",
      reg.repos[chosen].branch,
      reg.bitbucketProject,
      chosen,
      reg.repos[chosen].description,
      if |extras| > 0 then Some(extras) else None));
  }

  // ─── Branch and commit formats ───

  /** The characters whose runs a branch-name step collapses: `\s` or `-`. */
  datatype RunKind = Spaces | Dashes

  predicate InRun(kind: RunKind, c: char) {
    match kind
    case Spaces => IsSpace(c)
    case Dashes => c == '-'
  }

  predicate BranchChar(c: char) { IsLower(c) || IsDigit(c) || c == '-' }

  /** Every character of `s` may appear in a branch name. */
  predicate AllBranchChars(s: string) {
    forall i :: 0 <= i < |s| ==> BranchChar(s[i])
  }

  /** Replaces each maximal run of characters of `kind` with one dash
      (`.replace(/\s+/g, "-")` for whitespace, `.replace(/-+/g, "-")` for dashes): no
      dash of the result is followed by a character of `kind`, and the result starts
      as `s` does. */
  function DashRuns(s: string, kind: RunKind): (r: string)
    ensures forall i :: 0 <= i < |r| - 1 && r[i] == '-' ==> !InRun(kind, r[i + 1])
    ensures |r| > 0 ==> |s| > 0 && (InRun(kind, s[0]) ==> r[0] == '-') && (!InRun(kind, s[0]) ==> r[0] == s[0])
    ensures |r| <= |s|
    ensures AllBranchChars(s) ==> AllBranchChars(r)
    decreases |s|
  {
    if s == [] then []
    else if InRun(kind, s[0]) then
      var rest := DropWhile(s[1..], kind);
      SuffixKeepsBranchChars(s, |s| - |rest|);
      var tail := DashRuns(rest, kind);
      ConsKeepsRuns('-', tail, kind);
      "-" + tail
    else
      SuffixKeepsBranchChars(s, 1);
      var tail := DashRuns(s[1..], kind);
      ConsKeepsRuns(s[0], tail, kind);
      [s[0]] + tail
  }

  /** A suffix of branch characters is made of branch characters. */
  lemma SuffixKeepsBranchChars(s: string, k: nat)
    requires k <= |s|
    ensures AllBranchChars(s) ==> AllBranchChars(s[k..])
  {
  }

  /** Putting `c` in front of a run-collapsed `t` keeps it collapsed, unless a dash is
      put before a character of `kind`. */
  lemma ConsKeepsRuns(c: char, t: string, kind: RunKind)
    requires forall i :: 0 <= i < |t| - 1 && t[i] == '-' ==> !InRun(kind, t[i + 1])
    requires c == '-' && t != [] ==> !InRun(kind, t[0])
    ensures var r := [c] + t; forall i :: 0 <= i < |r| - 1 && r[i] == '-' ==> !InRun(kind, r[i + 1])
    ensures AllBranchChars(t) && BranchChar(c) ==> AllBranchChars([c] + t)
  {
    var r := [c] + t;
    forall i | 0 <= i < |r| - 1 && r[i] == '-'
      ensures !InRun(kind, r[i + 1])
    {
      if i > 0 { assert r[i] == t[i - 1] && r[i + 1] == t[i]; }
    }
  }

  /** `s` without its leading characters of `kind`. */
  function DropWhile(s: string, kind: RunKind): (r: string)
    ensures |r| <= |s| && r == s[|s| - |r|..]
    ensures r != [] ==> !InRun(kind, r[0])
  {
    if s != [] && InRun(kind, s[0]) then DropWhile(s[1..], kind) else s
  }

  /** `s` without its trailing characters of `kind`. */
  function DropWhileEnd(s: string, kind: RunKind): (r: string)
    ensures |r| <= |s| && r == s[..|r|]
    ensures r != [] ==> !InRun(kind, r[|r| - 1])
  {
    if s != [] && InRun(kind, s[|s| - 1]) then DropWhileEnd(s[..|s| - 1], kind) else s
  }

  /** `.replace(/[^a-z0-9-]/g, "")`. */
  function KeepBranchChars(s: string): (r: string)
    ensures AllBranchChars(r)
  {
    if s == [] then [] else (if BranchChar(s[0]) then [s[0]] else []) + KeepBranchChars(s[1..])
  }

  predicate NoDoubleDash(s: string) {
    forall i :: 0 <= i < |s| - 1 ==> !(s[i] == '-' && s[i + 1] == '-')
  }

  /** Collapses dash runs, then strips leading and trailing dashes (`/-+/g` then `/^-+|-+$/g`). */
  function TidyDashes(s: string): (r: string)
    ensures NoDoubleDash(r)
    ensures r != [] ==> r[0] != '-' && r[|r| - 1] != '-'
    ensures AllBranchChars(s) ==> AllBranchChars(r)
  {
    var collapsed := DashRuns(s, Dashes);
    var front := DropWhile(collapsed, Dashes);
    SliceKeepsNoDoubleDash(collapsed, |collapsed| - |front|, |collapsed|);
    var r := DropWhileEnd(front, Dashes);
    SliceKeepsNoDoubleDash(front, 0, |r|);
    r
  }

  lemma SliceKeepsNoDoubleDash(s: string, i: nat, j: nat)
    requires i <= j <= |s|
    requires NoDoubleDash(s)
    ensures NoDoubleDash(s[i..j])
  {
    var t := s[i..j];
    forall k | 0 <= k < |t| - 1 ensures !(t[k] == '-' && t[k + 1] == '-') {
      assert t[k] == s[i + k] && t[k + 1] == s[i + k + 1];
    }
  }

  /** The description part of a branch name: lower-cased, whitespace runs as dashes,
      only [a-z0-9-], no doubled, leading or trailing dash, "task" when nothing is left. */
  function BranchDescription(shortDesc: string): (r: string)
    ensures r != []
    ensures AllBranchChars(r)
    ensures NoDoubleDash(r) && r[0] != '-' && r[|r| - 1] != '-'
  {
    var kept := KeepBranchChars(DashRuns(ToLower(shortDesc), Spaces));
    var normalized := TidyDashes(kept);
    if normalized == [] then TaskIsBranchName(); "task" else normalized
  }

  /** The fallback description is a well-formed branch part. */
  lemma TaskIsBranchName()
    ensures AllBranchChars("task") && NoDoubleDash("task")
    ensures "task"[0] != '-' && "task"[|"task"| - 1] != '-'
  {
    var t := "task";
    assert t[0] == 't' && t[1] == 'a' && t[2] == 's' && t[3] == 'k';
  }

  /** `formatBranch`: the template with the first {{TICKET_KEY}} and {{SHORT_DESCRIPTION}}
      filled in, then its dashes tidied; the result never has a doubled, leading or
      trailing dash. */
  function FormatBranch(git: GitConventions, ticketKey: string, shortDesc: string): (r: string)
    ensures NoDoubleDash(r)
    ensures r != [] ==> r[0] != '-' && r[|r| - 1] != '-'
  {
    FillBranch(git.branchFormat, ticketKey, BranchDescription(shortDesc))
  }

  /** The branch template with the first {{TICKET_KEY}} and {{SHORT_DESCRIPTION}} filled
      in and its dashes tidied. */
  function FillBranch(format: string, ticketKey: string, desc: string): (r: string)
    ensures NoDoubleDash(r)
    ensures r != [] ==> r[0] != '-' && r[|r| - 1] != '-'
  {
    TidyDashes(ReplaceFirst(ReplaceFirst(format, "{{TICKET_KEY}}", ticketKey), "{{SHORT_DESCRIPTION}}", desc))
  }

  /** `formatSquashCommit`: the first {{TICKET_KEY}} and the first {{SUMMARY}} filled in. */
  function FormatSquashCommit(git: GitConventions, ticketKey: string, summary: string): string {
    ReplaceFirst(ReplaceFirst(git.squashCommitFormat, "{{TICKET_KEY}}", ticketKey), "{{SUMMARY}}", summary)
  }

  /** With the customary "{{TICKET_KEY}}: {{SUMMARY}}" format the squash message is the
      key, ": " and the summary, each with its `$` patterns expanded as `replace` expands
      them ("$$" is one dollar, "$`" the text before the placeholder, and so on). */
  lemma SquashCommitDefault(ticketKey: string, summary: string)
    requires '{' !in Expand(ticketKey, "{{TICKET_KEY}}", "", ": {{SUMMARY}}")
    ensures var key := Expand(ticketKey, "{{TICKET_KEY}}", "", ": {{SUMMARY}}");
      FormatSquashCommit(GitConventions("", "", "{{TICKET_KEY}}: {{SUMMARY}}"), ticketKey, summary)
      == key + ": " + Expand(summary, "{{SUMMARY}}", key + ": ", "")
  {
    var key := Expand(ticketKey, "{{TICKET_KEY}}", "", ": {{SUMMARY}}");
    assert "{{TICKET_KEY}}: {{SUMMARY}}" == "{{TICKET_KEY}}" + ": {{SUMMARY}}";
    ReplaceLeading("{{TICKET_KEY}}", ": {{SUMMARY}}", ticketKey);
    assert key + ": {{SUMMARY}}" == (key + ": ") + "{{SUMMARY}}";
    assert '{' !in key + ": ";
    ReplaceAfterBraceFree(key + ": ", "{{SUMMARY}}", summary);
  }

  /** Without dollar signs or braces the squash message is exactly "KEY: summary". */
  lemma SquashCommitPlain(ticketKey: string, summary: string)
    requires '{' !in ticketKey && '$' !in ticketKey && '$' !in summary
    ensures FormatSquashCommit(GitConventions("", "", "{{TICKET_KEY}}: {{SUMMARY}}"), ticketKey, summary)
      == ticketKey + ": " + summary
  {
    ExpandPlain(ticketKey, "{{TICKET_KEY}}", "", ": {{SUMMARY}}");
    ExpandPlain(summary, "{{SUMMARY}}", ticketKey + ": ", "");
    SquashCommitDefault(ticketKey, summary);
  }

  /** A doubled dollar in the summary reaches the message as one. */
  lemma SquashCommitDollars(ticketKey: string, lead: string, tail: string)
    requires '{' !in ticketKey && '$' !in ticketKey && '$' !in lead && '$' !in tail
    ensures FormatSquashCommit(GitConventions("", "", "{{TICKET_KEY}}: {{SUMMARY}}"), ticketKey, lead + "$$" + tail)
      == ticketKey + ": " + lead + "$" + tail
  {
    ExpandPlain(ticketKey, "{{TICKET_KEY}}", "", ": {{SUMMARY}}");
    SquashCommitDefault(ticketKey, lead + "$$" + tail);
    ExpandDoubleDollar(lead, tail, "{{SUMMARY}}", ticketKey + ": ", "");
  }

  /** Dash tidying leaves a string that is already tidy unchanged. */
  lemma {:induction false} DashRunsOfTidy(s: string)
    requires NoDoubleDash(s)
    ensures DashRuns(s, Dashes) == s
    decreases |s|
  {
    if s != [] {
      SliceKeepsNoDoubleDash(s, 1, |s|);
      assert s[1..|s|] == s[1..];
      DashRunsOfTidy(s[1..]);
      DashRunsStep(s);
    }
  }

  /** A head that does not start a double dash is copied, so collapsing a text whose
      tail collapses to itself gives the text back. */
  lemma DashRunsStep(s: string)
    requires s != [] && (|s| > 1 ==> !(s[0] == '-' && s[1] == '-'))
    ensures DashRuns(s[1..], Dashes) == s[1..] ==> DashRuns(s, Dashes) == s
  {
    var tail := s[1..];
    if s[0] == '-' {
      assert tail != [] ==> tail[0] == s[1];
      assert DropWhile(tail, Dashes) == tail;
    }
    assert s == [s[0]] + tail;
  }

  lemma TidyIdentity(s: string)
    requires NoDoubleDash(s) && (s != [] ==> s[0] != '-' && s[|s| - 1] != '-')
    ensures TidyDashes(s) == s
  {
    DashRunsOfTidy(s);
  }

  /** With the "{{TICKET_KEY}}/{{SHORT_DESCRIPTION}}" format and a tidy key without dollar
      signs or braces, the branch is the key, a slash and the normalised description. */
  lemma BranchSlashFormat(ticketKey: string, shortDesc: string)
    requires '{' !in ticketKey && '$' !in ticketKey
    requires NoDoubleDash(ticketKey) && (ticketKey != [] ==> ticketKey[0] != '-' && ticketKey[|ticketKey| - 1] != '-')
    ensures FormatBranch(GitConventions("{{TICKET_KEY}}/{{SHORT_DESCRIPTION}}", "", ""), ticketKey, shortDesc)
      == ticketKey + "/" + BranchDescription(shortDesc)
  {
    var d := BranchDescription(shortDesc);
    assert '$' !in d by {
      forall k | 0 <= k < |d| ensures d[k] != '$' { assert BranchChar(d[k]); }
    }
    FillSlashFormat(ticketKey, d);
  }

  lemma FillSlashFormat(ticketKey: string, d: string)
    requires '{' !in ticketKey && '$' !in ticketKey && '$' !in d
    requires NoDoubleDash(ticketKey) && (ticketKey != [] ==> ticketKey[0] != '-' && ticketKey[|ticketKey| - 1] != '-')
    requires d != [] && NoDoubleDash(d) && d[0] != '-' && d[|d| - 1] != '-'
    ensures FillBranch("{{TICKET_KEY}}/{{SHORT_DESCRIPTION}}", ticketKey, d) == ticketKey + "/" + d
  {
    assert "{{TICKET_KEY}}/{{SHORT_DESCRIPTION}}" == "{{TICKET_KEY}}" + "/{{SHORT_DESCRIPTION}}";
    FillKeyFirst(ticketKey);
    FillDescriptionAfter(ticketKey, d);
    TidyJoin(ticketKey, d);
  }

  lemma FillKeyFirst(ticketKey: string)
    requires '$' !in ticketKey
    ensures ReplaceFirst("{{TICKET_KEY}}" + "/{{SHORT_DESCRIPTION}}", "{{TICKET_KEY}}", ticketKey)
      == (ticketKey + "/") + "{{SHORT_DESCRIPTION}}"
  {
    ReplaceLeadingPlain("{{TICKET_KEY}}", "/{{SHORT_DESCRIPTION}}", ticketKey);
  }

  lemma FillDescriptionAfter(ticketKey: string, d: string)
    requires '{' !in ticketKey && '$' !in d
    ensures ReplaceFirst((ticketKey + "/") + "{{SHORT_DESCRIPTION}}", "{{SHORT_DESCRIPTION}}", d) == ticketKey + "/" + d
  {
    assert '{' !in ticketKey + "/";
    ReplaceAfterBraceFree(ticketKey + "/", "{{SHORT_DESCRIPTION}}", d);
    ExpandPlain(d, "{{SHORT_DESCRIPTION}}", ticketKey + "/", "");
  }

  /** A tidy key and a tidy description joined by a slash are tidy. */
  lemma TidyJoin(key: string, d: string)
    requires NoDoubleDash(key) && (key != [] ==> key[0] != '-' && key[|key| - 1] != '-')
    requires d != [] && NoDoubleDash(d) && d[0] != '-' && d[|d| - 1] != '-'
    ensures TidyDashes(key + "/" + d) == key + "/" + d
  {
    var filled := key + "/" + d;
    var i := |key| + 1;
    forall k | 0 <= k < |filled| - 1 ensures !(filled[k] == '-' && filled[k + 1] == '-') {
      if k + 1 < |key| {
        assert filled[k] == key[k] && filled[k + 1] == key[k + 1];
      } else if k + 1 == |key| {
        assert filled[k + 1] == '/';
      } else if k == |key| {
        assert filled[k] == '/';
      } else {
        assert filled[k] == d[k - i] && filled[k + 1] == d[k + 1 - i];
      }
    }
    assert filled[|filled| - 1] == d[|d| - 1];
    assert key != [] ==> filled[0] == key[0];
    assert key == [] ==> filled[0] == '/';
    TidyIdentity(filled);
  }
}
