/** The reviewer stage: run the reviewer agent on the diff and the plan, approve when
    the answer contains the word APPROVED, and otherwise record the text after
    "REJECTED:" (or the whole answer) as the error. Both outcomes count one review. */
module ReviewerNode {
  import opened Wrappers
  import opened Text
  import opened Domain
  import opened State
  import opened Stage
  import opened Routing

  /** `/\bAPPROVED\b/.test(s)`. */
  predicate Approved(s: string) {
    exists i :: 0 <= i <= |s| - 8 && OccursAt(s, "APPROVED", i) && BoundaryBefore(s, i) && BoundaryAfter(s, i + 8)
  }

  /** A match of `/\bREJECTED:\s*(.+)/s` can start at `i`: a boundary, the marker, and at
      least one character after it. */
  predicate RejectedAt(s: string, i: nat) {
    i + 9 < |s| && OccursAt(s, "REJECTED:", i) && BoundaryBefore(s, i)
  }

  /** The leftmost position at or after `from` where a rejection match starts. */
  function FirstRejected(s: string, from: nat): (r: Option<nat>)
    requires from <= |s|
    ensures r.Some? ==> from <= r.value && RejectedAt(s, r.value)
    ensures r.Some? ==> forall i :: from <= i < r.value ==> !RejectedAt(s, i)
    ensures r.None? ==> forall i :: from <= i <= |s| ==> !RejectedAt(s, i)
    decreases |s| - from
  {
    if RejectedAt(s, from) then Some(from)
    else if from == |s| then None
    else FirstRejected(s, from + 1)
  }

  /** The feedback: the trimmed capture after "REJECTED:" when it matches (the capture
      is the rest of the text after the greedy `\s*`, whose leading whitespace the trim
      removes anyway), else the whole answer. */
  function Feedback(output: string): string {
    var m := FirstRejected(output, 0);
    if m.None? then output else Trim(output[m.value + 9..])
  }

  /** The diff (None when `git diff HEAD` fails) and the reviewer agent's answer. */
  datatype World = World(diff: Option<string>, output: string)

  /** The reviewer sees only the run's identity fields and the issue. */
  function ReviewContext(ctx: RunContext): RunContext {
    BareContext(ctx.runId, ctx.ticketUrl, ctx.chatId, ctx.requesterId).(jiraIssue := ctx.jiraIssue)
  }

  /** The diff handed to the reviewer: "" without a worktree or when the command fails. */
  function DiffText(s: CodingState, w: World): string {
    if Truthy(s.context.worktreePath) then w.diff.GetOr("") else ""
  }

  function Reviewer(s: CodingState, w: World): (r: StageResult)
    ensures r.outcome.Updated? && r.outcome.update.reviewIterations == Put(1)
    ensures Approved(w.output) ==>
      r.outcome.update == NoUpdate.(status := Put(Finalizing), reviewIterations := Put(1), error := Put(None))
    ensures !Approved(w.output) ==>
      r.outcome.update == NoUpdate.(reviewIterations := Put(1), error := Put(Some(Feedback(w.output))))
    ensures |r.effects| > 0 && r.effects[|r.effects| - 1] ==
      RunAgent(ReviewerRole, s.context.worktreePath.GetOr(""), ReviewContext(s.context),
        Some(map["diff" := DiffText(s, w), "plan" := s.plan.GetOr("")]))
  {
    var ctx := s.context;
    var diffCall := if Truthy(ctx.worktreePath) then [GitDiff(ctx.worktreePath.value)] else [];
    var effects := diffCall + [RunAgent(ReviewerRole, ctx.worktreePath.GetOr(""), ReviewContext(ctx),
      Some(map["diff" := DiffText(s, w), "plan" := s.plan.GetOr("")]))];
    if Approved(w.output) then
      StageResult(effects, Updated(NoUpdate.(status := Put(Finalizing), reviewIterations := Put(1), error := Put(None))))
    else
      StageResult(effects, Updated(NoUpdate.(reviewIterations := Put(1), error := Put(Some(Feedback(w.output))))))
  }

  /** APPROVED as a word anywhere approves, whatever else the answer says (a
      "REJECTED:" before or after it included): the error is cleared, so the review
      router finalizes. */
  lemma ApprovedWinsOverRejected(s: CodingState, w: World, before: string, after: string)
    requires w.output == before + "APPROVED" + after
    requires before == [] || !IsWordChar(before[|before| - 1])
    requires after == [] || !IsWordChar(after[0])
    ensures Approved(w.output)
    ensures Reduce(s, Reviewer(s, w).outcome.update).status == Finalizing
    ensures RouteAfterReview(Reduce(s, Reviewer(s, w).outcome.update)) == "finalize"
  {
    var o := w.output;
    var i := |before|;
    assert o[i..i + 8] == "APPROVED";
    assert i > 0 ==> o[i - 1] == before[|before| - 1];
    assert i + 8 < |o| ==> o[i + 8] == after[0];
    assert OccursAt(o, "APPROVED", i) && BoundaryBefore(o, i) && BoundaryAfter(o, i + 8);
  }

  /** In a single word APPROVED can match only as the whole word. */
  lemma WordApprovalIsWhole(word: string, i: nat)
    requires forall j :: 0 <= j < |word| ==> IsWordChar(word[j])
    requires i <= |word| - 8
    ensures OccursAt(word, "APPROVED", i) && BoundaryBefore(word, i) && BoundaryAfter(word, i + 8) ==> word == "APPROVED"
  {
    if OccursAt(word, "APPROVED", i) && BoundaryBefore(word, i) && BoundaryAfter(word, i + 8) {
      assert i == 0 && i + 8 == |word|;
      assert word == word[i..i + 8];
    }
  }

  /** A single word merely containing APPROVED (such as UNAPPROVED or APPROVED_LATER)
      is no approval. */
  lemma EmbeddedWordIsNoApproval(word: string)
    requires forall j :: 0 <= j < |word| ==> IsWordChar(word[j])
    requires word != "APPROVED"
    ensures !Approved(word)
  {
    forall i | 0 <= i <= |word| - 8
      ensures OccursAt(word, "APPROVED", i) && BoundaryBefore(word, i) && BoundaryAfter(word, i + 8) ==> word == "APPROVED"
    {
      WordApprovalIsWhole(word, i);
    }
  }

  /** "REJECTED:" and whitespace contain no APPROVED. */
  lemma BlankRejectionHasNoApproval(o: string, ws: string)
    requires o == "REJECTED:" + ws && Blank(ws)
    ensures !Approved(o)
  {
    forall i | 0 <= i <= |o| - 8 ensures !OccursAt(o, "APPROVED", i) {
      assert o[i] != 'A';
      assert o[i..i + 8][0] == o[i];
    }
  }

  /** An empty answer, or "REJECTED:" followed only by whitespace (at least one
      character of it), gives the error "", which the router treats as a pass: the run
      goes on to finalize. */
  lemma EmptyFeedbackPasses(s: CodingState, w: World, ws: string)
    requires w.output == "" || (w.output == "REJECTED:" + ws && ws != [] && Blank(ws))
    ensures Reduce(s, Reviewer(s, w).outcome.update).error == Some("")
    ensures RouteAfterReview(Reduce(s, Reviewer(s, w).outcome.update)) == "finalize"
  {
    if w.output != "" {
      var o := w.output;
      BlankRejectionHasNoApproval(o, ws);
      assert o[..9] == "REJECTED:";
      assert RejectedAt(o, 0);
      assert o[9..] == ws;
      TrimEmptyIffBlank(ws);
    }
  }
}
