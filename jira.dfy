/** The Jira client: reading the ticket key out of a ticket URL, turning the
    issue the REST API returns into the run's JiraIssue (with the Figma links
    found in its description), choosing a workflow transition by name, and the
    error each request can end in. HTTP is an input: a response per endpoint. */
module Jira {
  import opened Wrappers
  import opened Text
  import opened Domain

  /** The `[A-Z]` class. */
  predicate AllUpper(s: string) { forall i :: 0 <= i < |s| ==> IsUpper(s[i]) }

  /** `^[A-Z]+-\d+$`: upper-case letters, one dash, digits, both parts non-empty. */
  ghost predicate IsTicketKey(k: string) {
    exists i :: 0 < i < |k| - 1 && k[i] == '-' && AllUpper(k[..i]) && AllDigits(k[i + 1..])
  }

  /** The length of the run of upper-case letters at the start of `s[from..]`. */
  function UpperRun(s: string, from: nat): (n: nat)
    requires from <= |s|
    ensures from + n <= |s|
    ensures forall i :: from <= i < from + n ==> IsUpper(s[i])
    ensures from + n == |s| || !IsUpper(s[from + n])
    decreases |s| - from
  {
    if from == |s| || !IsUpper(s[from]) then 0 else 1 + UpperRun(s, from + 1)
  }

  /** The key test as a left-to-right scan: letters, then the dash, then digits to the end. */
  function MatchesKey(k: string): bool {
    var n := UpperRun(k, 0);
    0 < n < |k| - 1 && k[n] == '-' && AllDigits(k[n + 1..])
  }

  /** The scan accepts exactly the keys. */
  lemma MatchesKeyIff(k: string)
    ensures MatchesKey(k) <==> IsTicketKey(k)
  {
    var n := UpperRun(k, 0);
    if MatchesKey(k) {
      assert AllUpper(k[..n]);
    }
    if IsTicketKey(k) {
      var i :| 0 < i < |k| - 1 && k[i] == '-' && AllUpper(k[..i]) && AllDigits(k[i + 1..]);
      UpperRunOf(k, i);
    }
  }

  lemma UpperRunOf(k: string, i: nat)
    requires i < |k| && AllUpper(k[..i]) && !IsUpper(k[i])
    ensures UpperRun(k, 0) == i
  {
    assert forall j :: 0 <= j < i ==> k[..i][j] == k[j];
    UpperRunFrom(k, 0, i);
  }

  lemma {:induction false} UpperRunFrom(k: string, from: nat, i: nat)
    requires from <= i < |k| && !IsUpper(k[i])
    requires forall j :: from <= j < i ==> IsUpper(k[j])
    ensures UpperRun(k, from) == i - from
    decreases i - from
  {
    if from < i {
      UpperRunFrom(k, from + 1, i);
    }
  }

  /** The non-empty parts of a split path (`filter(Boolean)`). */
  function NonEmptyParts(parts: seq<string>): (r: seq<string>)
    ensures forall i :: 0 <= i < |r| ==> r[i] != ""
    ensures forall x :: x in r <==> x in parts && x != ""
  {
    if parts == [] then []
    else if parts[0] == "" then NonEmptyParts(parts[1..])
    else [parts[0]] + NonEmptyParts(parts[1..])
  }

  /** `parseTicketKey`: the last non-empty segment of the URL's path, which must be a key.
      `pathname` is the parsed URL's path, absent when the URL does not parse. */
  function ParseTicketKey(ticketUrl: string, pathname: Option<string>): (r: Result<string>)
    ensures pathname.None? ==> r == Err("Invalid URL")
    ensures pathname.Some? ==> var segs := NonEmptyParts(Split(pathname.value));
      (r.Ok? <==> segs != [] && IsTicketKey(segs[|segs| - 1]))
      && (r.Ok? ==> r.value == segs[|segs| - 1])
      && (r.Err? ==> r.message == "Cannot parse Jira ticket key from URL: " + ticketUrl)
  {
    if pathname.None? then Err("Invalid URL")
    else
      var segs := NonEmptyParts(Split(pathname.value));
      if segs == [] then Err("Cannot parse Jira ticket key from URL: " + ticketUrl)
      else
        MatchesKeyIff(segs[|segs| - 1]);
        if !MatchesKey(segs[|segs| - 1]) then Err("Cannot parse Jira ticket key from URL: " + ticketUrl)
        else Ok(segs[|segs| - 1])
  }

  /** Splitting distributes over a '/' between two texts. */
  lemma {:induction false} SplitAround(a: string, b: string)
    ensures Split(a + "/" + b) == Split(a) + Split(b)
    decreases |a|
  {
    if a == [] {
      assert a + "/" + b == "/" + b;
      assert ("/" + b)[1..] == b;
    } else {
      assert (a + "/" + b)[1..] == a[1..] + "/" + b;
      SplitAround(a[1..], b);
    }
  }

  lemma {:induction false} NonEmptyPartsAppend(p: seq<string>, q: seq<string>)
    ensures NonEmptyParts(p + q) == NonEmptyParts(p) + NonEmptyParts(q)
    decreases |p|
  {
    if p == [] {
      assert p + q == q;
    } else {
      assert (p + q)[1..] == p[1..] + q;
      NonEmptyPartsAppend(p[1..], q);
    }
  }

  /** A trailing slash does not change the key. */
  lemma TrailingSlashIgnored(ticketUrl: string, path: string)
    ensures ParseTicketKey(ticketUrl, Some(path + "/")) == ParseTicketKey(ticketUrl, Some(path))
  {
    SplitAround(path, "");
    assert path + "/" + "" == path + "/";
    NonEmptyPartsAppend(Split(path), [""]);
    assert NonEmptyParts([""]) == [];
    assert NonEmptyParts(Split(path)) + [] == NonEmptyParts(Split(path));
  }

  /** A key that ends the path is found, whatever path precedes it. */
  lemma KeyAtEndParsed(ticketUrl: string, path: string, key: string)
    requires NoSlash(key) && IsTicketKey(key)
    ensures ParseTicketKey(ticketUrl, Some(path + "/" + key)) == Ok(key)
  {
    SplitAround(path, key);
    SplitNoSlash(key);
    NonEmptyPartsAppend(Split(path), [key]);
    assert key != "";
    assert NonEmptyParts([key]) == [key];
  }

  /** A path with no key-shaped last segment, such as a bare host, is refused. */
  lemma RootPathRefused(ticketUrl: string)
    ensures ParseTicketKey(ticketUrl, Some("/")).Err?
  {
    assert "/"[1..] == "";
    assert Split("/") == ["", ""];
    assert NonEmptyParts(["", ""]) == [];
  }

  /** A key whose letters are not upper case is refused. */
  lemma LowerCaseKeyRefused(k: string)
    requires |k| > 0 && IsLower(k[0])
    ensures !IsTicketKey(k)
  {
    forall i | 0 < i < |k| ensures !AllUpper(k[..i]) {
      assert k[..i][0] == k[0];
    }
  }

  /** The start of every Figma link. */
  const FigmaPrefix: string := "https://www.figma.com/"

  /** The class `[^\s"')]`. */
  predicate LinkChar(c: char) { !IsSpace(c) && c != '"' && c != '\'' && c != ')' }

  function LinkRun(s: string, from: nat): (n: nat)
    requires from <= |s|
    ensures from + n <= |s|
    ensures forall i :: from <= i < from + n ==> LinkChar(s[i])
    ensures from + n == |s| || !LinkChar(s[from + n])
    decreases |s| - from
  {
    if from == |s| || !LinkChar(s[from]) then 0 else 1 + LinkRun(s, from + 1)
  }

  /** A whole match of the Figma pattern: the prefix followed by at least one link character. */
  predicate IsFigmaLink(m: string) {
    |m| > |FigmaPrefix| && m[..|FigmaPrefix|] == FigmaPrefix
    && forall i :: |FigmaPrefix| <= i < |m| ==> LinkChar(m[i])
  }

  /** `m` occurs at `j` in `text` and cannot be extended by another link character. */
  predicate GreedyAt(text: string, m: string, j: int) {
    OccursAt(text, m, j) && (j + |m| == |text| || !LinkChar(text[j + |m|]))
  }

  /** The matches of the global Figma pattern in `text` from position `from` on, in order. */
  function FigmaMatches(text: string, from: nat): (r: seq<string>)
    requires from <= |text|
    ensures forall k :: 0 <= k < |r| ==> IsFigmaLink(r[k])
    decreases |text| - from
  {
    if from == |text| then []
    else if OccursAt(text, FigmaPrefix, from) && LinkRun(text, from + |FigmaPrefix|) > 0 then
      var end := from + |FigmaPrefix| + LinkRun(text, from + |FigmaPrefix|);
      HeadMatch(text, from, end);
      [text[from..end]] + FigmaMatches(text, end)
    else FigmaMatches(text, from + 1)
  }

  /** Every match is text found in `text`, and greedy: the character after it is not a
      link character. */
  lemma {:induction false} MatchesOccur(text: string, from: nat)
    requires from <= |text|
    ensures forall m :: m in FigmaMatches(text, from) ==> exists j: int :: GreedyAt(text, m, j)
    decreases |text| - from
  {
    if from == |text| {
    } else if OccursAt(text, FigmaPrefix, from) && LinkRun(text, from + |FigmaPrefix|) > 0 {
      var end := from + |FigmaPrefix| + LinkRun(text, from + |FigmaPrefix|);
      HeadMatch(text, from, end);
      MatchesOccur(text, end);
      assert FigmaMatches(text, from) == [text[from..end]] + FigmaMatches(text, end);
    } else {
      MatchesOccur(text, from + 1);
    }
  }

  lemma HeadMatch(text: string, from: nat, end: nat)
    requires OccursAt(text, FigmaPrefix, from) && LinkRun(text, from + |FigmaPrefix|) > 0
    requires end == from + |FigmaPrefix| + LinkRun(text, from + |FigmaPrefix|)
    ensures IsFigmaLink(text[from..end]) && GreedyAt(text, text[from..end], from)
  {
    var m := text[from..end];
    assert m[..|FigmaPrefix|] == text[from..from + |FigmaPrefix|];
    assert forall i :: |FigmaPrefix| <= i < |m| ==> m[i] == text[from + i];
  }

  /** `extractFigmaLinks`: every match once, in first-occurrence order. */
  function ExtractFigmaLinks(text: string): (r: seq<string>)
    ensures forall i, j :: 0 <= i < j < |r| ==> r[i] != r[j]
    ensures forall x :: x in r <==> x in FigmaMatches(text, 0)
    ensures forall x :: x in r ==> IsFigmaLink(x) && exists j: int :: GreedyAt(text, x, j)
  {
    MatchesOccur(text, 0);
    Dedup(FigmaMatches(text, 0))
  }

  /** A text in which the prefix does not occur has no Figma links. */
  lemma {:induction false} NoPrefixNoLinks(text: string, from: nat)
    requires from <= |text|
    requires forall j :: from <= j ==> !OccursAt(text, FigmaPrefix, j)
    ensures FigmaMatches(text, from) == []
    decreases |text| - from
  {
    if from < |text| {
      NoPrefixNoLinks(text, from + 1);
    }
  }

  /** A repeated link is reported once. */
  lemma RepeatedLinkOnce(text: string)
    ensures forall x :: x in ExtractFigmaLinks(text) ==> multiset(ExtractFigmaLinks(text))[x] == 1
  {
    var r := ExtractFigmaLinks(text);
    forall x | x in r ensures multiset(r)[x] == 1 {
      CountDistinct(r, x);
    }
  }

  lemma {:induction false} CountDistinct(r: seq<string>, x: string)
    requires forall i, j :: 0 <= i < j < |r| ==> r[i] != r[j]
    requires x in r
    ensures multiset(r)[x] == 1
    decreases |r|
  {
    assert r == [r[0]] + r[1..];
    if r[0] == x {
      assert x !in r[1..];
      assert multiset(r[1..])[x] == 0;
    } else {
      CountDistinct(r[1..], x);
    }
  }

  /** An issue link: the URL of the issue on either side, when there is one. */
  datatype IssueLink = IssueLink(outward: Option<string>, inward: Option<string>)

  /** The issue as the REST API returns it; missing fields are absent. */
  datatype ApiIssue = ApiIssue(
    key: string,
    summary: string,
    description: Option<string>,
    components: Option<seq<string>>,
    labels: Option<seq<string>>,
    issuelinks: Option<seq<IssueLink>>)

  /** One link's URLs: outward first, then inward, each only when truthy. */
  function OwnUrls(l: IssueLink): seq<string> {
    (if Truthy(l.outward) then [l.outward.value] else []) + (if Truthy(l.inward) then [l.inward.value] else [])
  }

  /** The `flatMap` over the issue links. */
  function LinkUrls(links: seq<IssueLink>): (r: seq<string>)
    ensures |r| <= 2 * |links|
    ensures forall u :: u in r ==> u != ""
    ensures forall u :: u in r <==> exists i :: 0 <= i < |links| && u in OwnUrls(links[i])
  {
    if links == [] then []
    else
      var rest := LinkUrls(links[1..]);
      assert forall i :: 0 < i < |links| ==> links[1..][i - 1] == links[i];
      OwnUrls(links[0]) + rest
  }

  /** The mapping of `fetchIssue`: a missing description becomes "", components become
      their names, missing lists become empty, and the Figma links come from the
      description. The key is the one the server returns. */
  function ToIssue(api: ApiIssue): (issue: JiraIssue)
    ensures issue.key == api.key && issue.summary == api.summary
    ensures issue.description == api.description.GetOr("")
    ensures issue.components == api.components.GetOr([])
    ensures issue.labels == api.labels.GetOr([])
    ensures issue.links == LinkUrls(api.issuelinks.GetOr([]))
    ensures issue.figmaLinks == ExtractFigmaLinks(api.description.GetOr(""))
  {
    var description := api.description.GetOr("");
    JiraIssue(api.key, api.summary, description, api.components.GetOr([]), api.labels.GetOr([]),
      LinkUrls(api.issuelinks.GetOr([])), ExtractFigmaLinks(description))
  }

  /** What a request to the Jira server comes back with: no answer, or a status, the
      body's text and what reading that text as the expected JSON gives (the value, or
      the message of the error `json()` rejects with, as for the empty body of a 204). */
  datatype Response<T> = NetworkFailure | Reply(status: int, text: string, body: Result<T>)

  /** `fetch`'s `ok`. */
  predicate IsOk(status: int) { 200 <= status <= 299 }

  /** `request`: a network failure and a status outside 2xx are errors naming the endpoint
      or the status and the body text; otherwise the parsed body, and a body that does not
      parse fails with the parser's error. */
  function Request<T>(endpoint: string, response: Response<T>): (r: Result<T>)
    ensures response.NetworkFailure? ==> r == Err("Jira request failed: " + endpoint)
    ensures response.Reply? && !IsOk(response.status) ==>
      r == Err("Jira API " + IntToString(response.status) + ": " + response.text)
    ensures response.Reply? && IsOk(response.status) ==> r == response.body
    ensures r.Ok? <==> response.Reply? && IsOk(response.status) && response.body.Ok?
  {
    match response
    case NetworkFailure => Err("Jira request failed: " + endpoint)
    case Reply(status, text, body) =>
      if !IsOk(status) then Err("Jira API " + IntToString(status) + ": " + text) else body
  }

  function IssueEndpoint(key: string): string {
    "/rest/api/2/issue/" + key
  }

  /** `fetchIssue`: the key is parsed first, so a bad URL makes no request; then the issue
      is requested under that key and mapped. */
  function FetchIssue(ticketUrl: string, pathname: Option<string>, server: string -> Response<ApiIssue>): (r: Result<JiraIssue>)
    ensures ParseTicketKey(ticketUrl, pathname).Err? ==> r == Err(ParseTicketKey(ticketUrl, pathname).message)
    ensures ParseTicketKey(ticketUrl, pathname).Ok? ==>
      var endpoint := IssueEndpoint(ParseTicketKey(ticketUrl, pathname).value);
      (r.Ok? <==> Request(endpoint, server(endpoint)).Ok?)
      && (r.Ok? ==> r.value == ToIssue(server(endpoint).body.value))
  {
    var key := ParseTicketKey(ticketUrl, pathname);
    if key.Err? then Err(key.message)
    else
      var endpoint := IssueEndpoint(key.value);
      var data := Request(endpoint, server(endpoint));
      if data.Err? then Err(data.message) else Ok(ToIssue(data.value))
  }

  datatype Transition = Transition(id: string, name: string)

  /** The first transition whose name equals the wanted one ignoring case. */
  function FindTransition(ts: seq<Transition>, wanted: string): (r: Option<nat>)
    ensures r.Some? ==> r.value < |ts| && ToLower(ts[r.value].name) == ToLower(wanted)
    ensures r.Some? ==> forall j :: 0 <= j < r.value ==> ToLower(ts[j].name) != ToLower(wanted)
    ensures r.None? ==> forall j :: 0 <= j < |ts| ==> ToLower(ts[j].name) != ToLower(wanted)
  {
    if ts == [] then None
    else if ToLower(ts[0].name) == ToLower(wanted) then Some(0)
    else
      match FindTransition(ts[1..], wanted)
      case None => None
      case Some(i) => Some(i + 1)
  }

  function Names(ts: seq<Transition>): (r: seq<string>)
    ensures |r| == |ts| && forall i :: 0 <= i < |ts| ==> r[i] == ts[i].name
  {
    if ts == [] then [] else [ts[0].name] + Names(ts[1..])
  }

  function TransitionsEndpoint(issueKey: string): string {
    "/rest/api/2/issue/" + issueKey + "/transitions"
  }

  /** `transitionIssue`: the available transitions are listed, the one named (ignoring case)
      is chosen, and its id is posted; no match is an error listing what is available.
      On success the result is the id that was posted. */
  function TransitionIssue(issueKey: string, transitionName: string,
                           listed: Response<seq<Transition>>, posted: Response<()>): (r: Result<string>)
    ensures var list := Request(TransitionsEndpoint(issueKey), listed);
      (list.Err? ==> r == Err(list.message))
      && (list.Ok? && FindTransition(list.value, transitionName).None? ==>
        r == Err("Transition \"" + transitionName + "\" not available for " + issueKey
          + ". Available: " + Join(Names(list.value), ", ")))
      && (r.Ok? <==> (list.Ok? && FindTransition(list.value, transitionName).Some?
        && Request(TransitionsEndpoint(issueKey), posted).Ok?))
      && (r.Ok? ==> r.value == list.value[FindTransition(list.value, transitionName).value].id)
  {
    var endpoint := TransitionsEndpoint(issueKey);
    var list := Request(endpoint, listed);
    if list.Err? then Err(list.message)
    else
      match FindTransition(list.value, transitionName)
      case None =>
        Err("Transition \"" + transitionName + "\" not available for " + issueKey
          + ". Available: " + Join(Names(list.value), ", "))
      case Some(i) =>
        var sent := Request(endpoint, posted);
        if sent.Err? then Err(sent.message) else Ok(list.value[i].id)
  }

  /** Names that differ only in case choose the same transition. */
  lemma TransitionCaseInsensitive(ts: seq<Transition>, a: string, b: string)
    requires ToLower(a) == ToLower(b)
    ensures FindTransition(ts, a) == FindTransition(ts, b)
  {
  }

  /** A transition that the server performs but answers with an empty 204 body still
      fails, with the error reading that body raised. */
  lemma NoContentTransitionFails(issueKey: string, transitionName: string,
                                 ts: seq<Transition>, listText: string, parseError: string)
    requires FindTransition(ts, transitionName).Some?
    ensures TransitionIssue(issueKey, transitionName, Reply(200, listText, Ok(ts)), Reply(204, "", Err(parseError)))
      == Err(parseError)
  {
  }

  function CommentEndpoint(issueKey: string): string {
    "/rest/api/2/issue/" + issueKey + "/comment"
  }

  /** `addComment`: one post to the issue's comment endpoint; its failures are the
      request's, and the comment body is not part of this model. */
  function AddComment(issueKey: string, posted: Response<()>): (r: Result<()>)
    ensures r.Ok? <==> posted.Reply? && IsOk(posted.status) && posted.body.Ok?
    ensures posted.Reply? && IsOk(posted.status) ==> r == posted.body
    ensures posted.NetworkFailure? ==> r == Err("Jira request failed: " + CommentEndpoint(issueKey))
    ensures posted.Reply? && !IsOk(posted.status) ==>
      r == Err("Jira API " + IntToString(posted.status) + ": " + posted.text)
  {
    Request(CommentEndpoint(issueKey), posted)
  }

  /** The constructor's base URL: one trailing slash is removed, if there is one. */
  function BaseUrl(configured: string): (r: string)
    ensures EndsWith(configured, "/") ==> configured == r + "/"
    ensures !EndsWith(configured, "/") ==> r == configured
  {
    if EndsWith(configured, "/") then configured[..|configured| - 1] else configured
  }

  /** Only one slash goes: a doubled slash leaves one behind. */
  lemma OneSlashRemoved(url: string)
    ensures BaseUrl(url + "//") == url + "/"
  {
    assert (url + "//")[..|url| + 1] == url + "/";
  }
}
