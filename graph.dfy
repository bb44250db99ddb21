/** The coding workflow's stages and its fixed edge table: the entry edge, the
    unconditional edges, and for each conditional edge the map from the key its
    router returns to the destination. */
module Graph {
  import opened Wrappers

  datatype Node =
    | Hydrate | Clarify | AwaitClarification | Architect | AwaitApproval | Coder
    | Validate | Reviewer | Finalize | AwaitCi | Cleanup | Escalate
  {
    /** The stage's registered name. */
    function Name(): string {
      match this
      case Hydrate => "hydrate"
      case Clarify => "clarify"
      case AwaitClarification => "await_clarification"
      case Architect => "architect"
      case AwaitApproval => "await_approval"
      case Coder => "coder"
      case Validate => "validate"
      case Reviewer => "reviewer"
      case Finalize => "finalize"
      case AwaitCi => "await_ci"
      case Cleanup => "cleanup"
      case Escalate => "escalate"
    }
  }

  /** Where an edge leads: a stage or the end of the run. */
  datatype Dest = To(node: Node) | End

  /** An outgoing edge: fixed, or chosen by a router's key through a path map. */
  datatype Edge = Fixed(dest: Dest) | Conditional(paths: map<string, Dest>)

  /** The stage the run starts in. */
  const Entry: Node := Hydrate

  /** The edge table, one outgoing edge per stage. */
  function OutEdge(n: Node): Edge {
    match n
    case Hydrate => Fixed(To(Clarify))
    case Clarify => Conditional(map["await_clarification" := To(AwaitClarification), "architect" := To(Architect)])
    case AwaitClarification => Conditional(map["architect" := To(Architect), "__end__" := End])
    case Architect => Fixed(To(AwaitApproval))
    case Coder => Fixed(To(Validate))
    case Finalize => Fixed(To(AwaitCi))
    case AwaitCi => Conditional(map["await_ci" := To(AwaitCi), "cleanup" := To(Cleanup)])
    case Cleanup => Fixed(End)
    case Escalate => Fixed(To(Cleanup))
    case AwaitApproval => Conditional(map["coder" := To(Coder), "architect" := To(Architect), "cleanup" := To(Cleanup)])
    case Validate => Conditional(map["reviewer" := To(Reviewer), "escalate" := To(Escalate), "coder" := To(Coder)])
    case Reviewer => Conditional(map["finalize" := To(Finalize), "escalate" := To(Escalate), "coder" := To(Coder)])
  }

  /** The destination the edge out of `n` takes for a router key; None when the key
      is not in the path map. A fixed edge ignores the key. */
  function Follow(n: Node, key: string): Option<Dest> {
    match OutEdge(n)
    case Fixed(d) => Some(d)
    case Conditional(paths) => if key in paths then Some(paths[key]) else None
  }

  /** Every destination the edge out of `n` can lead to. */
  function Successors(n: Node): (succ: set<Dest>)
    ensures forall d :: d in succ <==> exists key :: Follow(n, key) == Some(d)
  {
    match OutEdge(n)
    case Fixed(d) =>
      assert Follow(n, "") == Some(d);
      {d}
    case Conditional(paths) =>
      forall d | d in paths.Values ensures exists key :: Follow(n, key) == Some(d) {
        var key :| key in paths && paths[key] == d;
        assert Follow(n, key) == Some(d);
      }
      paths.Values
  }

  /** hydrate is entered first and always continues to clarify; architect always leads
      to await_approval, coder to validate, finalize to await_ci, escalate to cleanup,
      cleanup to the end. */
  lemma FixedEdges()
    ensures Entry == Hydrate
    ensures forall key :: Follow(Hydrate, key) == Some(To(Clarify))
    ensures forall key :: Follow(Architect, key) == Some(To(AwaitApproval))
    ensures forall key :: Follow(Coder, key) == Some(To(Validate))
    ensures forall key :: Follow(Finalize, key) == Some(To(AwaitCi))
    ensures forall key :: Follow(Escalate, key) == Some(To(Cleanup))
    ensures forall key :: Follow(Cleanup, key) == Some(End)
  {
  }

  /** The successor sets of the conditional edges. */
  lemma ValidateSuccessors()
    ensures Successors(Validate) == {To(Reviewer), To(Escalate), To(Coder)}
  {
    Values3("reviewer", "escalate", "coder", To(Reviewer), To(Escalate), To(Coder));
  }

  lemma ReviewerSuccessors()
    ensures Successors(Reviewer) == {To(Finalize), To(Escalate), To(Coder)}
  {
    Values3("finalize", "escalate", "coder", To(Finalize), To(Escalate), To(Coder));
  }

  lemma ApprovalSuccessors()
    ensures Successors(AwaitApproval) == {To(Coder), To(Architect), To(Cleanup)}
  {
    Values3("coder", "architect", "cleanup", To(Coder), To(Architect), To(Cleanup));
  }

  lemma CiSuccessors()
    ensures Successors(AwaitCi) == {To(AwaitCi), To(Cleanup)}
  {
    Values2("await_ci", "cleanup", To(AwaitCi), To(Cleanup));
  }

  lemma ClarifySuccessors()
    ensures Successors(Clarify) == {To(AwaitClarification), To(Architect)}
  {
    Values2("await_clarification", "architect", To(AwaitClarification), To(Architect));
  }

  lemma ClarificationSuccessors()
    ensures Successors(AwaitClarification) == {To(Architect), End}
  {
    Values2("architect", "__end__", To(Architect), End);
  }

  /** Every successor set. */
  lemma AllSuccessors(n: Node)
    ensures n == Validate ==> Successors(n) == {To(Reviewer), To(Escalate), To(Coder)}
    ensures n == Reviewer ==> Successors(n) == {To(Finalize), To(Escalate), To(Coder)}
    ensures n == AwaitApproval ==> Successors(n) == {To(Coder), To(Architect), To(Cleanup)}
    ensures n == AwaitCi ==> Successors(n) == {To(AwaitCi), To(Cleanup)}
    ensures n == Clarify ==> Successors(n) == {To(AwaitClarification), To(Architect)}
    ensures n == AwaitClarification ==> Successors(n) == {To(Architect), End}
    ensures n.Hydrate? || n.Architect? || n.Coder? || n.Finalize? || n.Escalate? || n.Cleanup? ==>
      Successors(n) == {OutEdge(n).dest}
  {
    match n
    case Validate => ValidateSuccessors();
    case Reviewer => ReviewerSuccessors();
    case AwaitApproval => ApprovalSuccessors();
    case AwaitCi => CiSuccessors();
    case Clarify => ClarifySuccessors();
    case AwaitClarification => ClarificationSuccessors();
    case _ =>
  }

  lemma Values2(k1: string, k2: string, v1: Dest, v2: Dest)
    requires k1 != k2
    ensures map[k1 := v1, k2 := v2].Values == {v1, v2}
  {
    var m := map[k1 := v1, k2 := v2];
    assert m[k1] == v1 && m[k2] == v2;
  }

  lemma Values3(k1: string, k2: string, k3: string, v1: Dest, v2: Dest, v3: Dest)
    requires k1 != k2 && k1 != k3 && k2 != k3
    ensures map[k1 := v1, k2 := v2, k3 := v3].Values == {v1, v2, v3}
  {
    var m := map[k1 := v1, k2 := v2, k3 := v3];
    assert m[k1] == v1 && m[k2] == v2 && m[k3] == v3;
  }

  /** The only self-loop is await_ci to await_ci. */
  lemma OnlySelfLoop(n: Node)
    ensures To(n) in Successors(n) <==> n == AwaitCi
  {
    AllSuccessors(n);
  }

  /** The end is reached only from cleanup and from await_clarification. */
  lemma EndPredecessors(n: Node)
    ensures End in Successors(n) <==> n == Cleanup || n == AwaitClarification
  {
    AllSuccessors(n);
  }

  /** The approval edge maps coder, architect and cleanup only: the "__end__" key its
      router returns for any action other than approve or revise leads nowhere. */
  lemma ApprovalEndUnmapped()
    ensures Follow(AwaitApproval, "__end__") == None
    ensures Follow(AwaitApproval, "coder") == Some(To(Coder))
    ensures Follow(AwaitApproval, "architect") == Some(To(Architect))
    ensures Follow(AwaitApproval, "cleanup") == Some(To(Cleanup))
  {
  }
}
