/** The run store: a table of runs keyed by id, kept in insertion order, and an
    append-only table of run events. */
module RunStore {
  import opened Wrappers
  import opened Domain

  /** A stored run (the timestamps are not modelled). */
  datatype Run = Run(id: string, status: RunStatus, payload: RunPayload, context: RunContext, plan: Option<string>)

  /** A stored event; `data` is the JSON object it carries, as a map of its fields. */
  datatype RunEvent = RunEvent(runId: string, eventType: string, data: map<string, string>)

  /** The row `create` inserts: status RECEIVED, the payload, and a context holding the
      run id and the payload's three fields. */
  function CreatedRun(id: string, payload: RunPayload): (r: Run)
    ensures r.id == id && r.status == Received && r.payload == payload && r.plan.None?
    ensures r.context == BareContext(id, payload.ticketUrl, payload.chatId, payload.requesterId)
  {
    Run(id, Received, payload, BareContext(id, payload.ticketUrl, payload.chatId, payload.requesterId), None)
  }

  /** Whether a run is selected by a `list` filter: no filter selects every run. */
  predicate Selected(r: Run, status: Option<RunStatus>) {
    status.None? || r.status == status.value
  }

  /** The runs `list` returns: the stored runs in row order that the filter selects. */
  function Listed(runs: map<string, Run>, order: seq<string>, status: Option<RunStatus>): (r: seq<Run>)
    ensures |r| <= |order|
    ensures forall x :: x in r ==> Selected(x, status)
    decreases |order|
  {
    if order == [] then []
    else
      var rest := Listed(runs, order[..|order| - 1], status);
      var id := order[|order| - 1];
      if id in runs && Selected(runs[id], status) then rest + [runs[id]] else rest
  }

  /** A run is listed exactly when it is stored under an id in the row order and the
      filter selects it. */
  lemma {:induction false} ListedIff(runs: map<string, Run>, order: seq<string>, status: Option<RunStatus>, x: Run)
    ensures x in Listed(runs, order, status) <==>
      Selected(x, status) && exists i :: 0 <= i < |order| && order[i] in runs && runs[order[i]] == x
    decreases |order|
  {
    if order != [] {
      var init := order[..|order| - 1];
      ListedIff(runs, init, status, x);
      if exists i :: 0 <= i < |init| && init[i] in runs && runs[init[i]] == x {
        var i :| 0 <= i < |init| && init[i] in runs && runs[init[i]] == x;
        assert order[i] == init[i];
      }
      if exists i :: 0 <= i < |order| && order[i] in runs && runs[order[i]] == x {
        var i :| 0 <= i < |order| && order[i] in runs && runs[order[i]] == x;
        if i < |init| {
          assert init[i] == order[i];
        }
      }
    }
  }

  /** The row order without `id`. */
  function Without(order: seq<string>, id: string): (r: seq<string>)
    ensures forall x :: x in r <==> x in order && x != id
  {
    if order == [] then []
    else if order[0] == id then Without(order[1..], id)
    else [order[0]] + Without(order[1..], id)
  }

  /** No id appears twice in the row order. */
  predicate Distinct(order: seq<string>) {
    order == [] || (order[0] !in order[1..] && Distinct(order[1..]))
  }

  /** Appending an id the order does not hold keeps the ids distinct. */
  lemma {:induction false} AppendDistinct(order: seq<string>, id: string)
    requires Distinct(order) && id !in order
    ensures Distinct(order + [id])
  {
    if order != [] {
      AppendDistinct(order[1..], id);
      assert (order + [id])[1..] == order[1..] + [id];
    }
  }

  /** Removing an id keeps the remaining ids distinct. */
  lemma {:induction false} WithoutDistinct(order: seq<string>, id: string)
    requires Distinct(order)
    ensures Distinct(Without(order, id))
  {
    if order != [] {
      WithoutDistinct(order[1..], id);
      if order[0] != id {
        var rest := Without(order[1..], id);
        assert Without(order, id)[1..] == rest;
      }
    }
  }

  class Store {
    var runs: map<string, Run>
    var order: seq<string>
    var events: seq<RunEvent>

    /** Every stored run is listed once in the row order and stored under its own id. */
    ghost predicate Valid()
      reads this
    {
      && Distinct(order)
      && (forall id :: id in runs <==> id in order)
      && (forall id :: id in runs ==> runs[id].id == id)
    }

    constructor()
      ensures Valid() && runs == map[] && order == [] && events == []
    {
      runs := map[];
      order := [];
      events := [];
    }

    /** Inserts a new run under `id` (a fresh UUID); a taken id violates the primary key
        and nothing changes. */
    method Create(payload: RunPayload, id: string) returns (r: Result<string>)
      requires Valid()
      modifies this
      ensures Valid() && events == old(events)
      ensures id in old(runs) ==> r.Err? && runs == old(runs) && order == old(order)
      ensures id !in old(runs) ==> r == Ok(id) && runs == old(runs)[id := CreatedRun(id, payload)] && order == old(order) + [id]
    {
      if id in runs {
        return Err("UNIQUE constraint failed: runs.id");
      }
      AppendDistinct(order, id);
      runs := runs[id := CreatedRun(id, payload)];
      order := order + [id];
      r := Ok(id);
    }

    function Get(id: string): (r: Option<Run>)
      reads this
      ensures r.Some? <==> id in runs
      ensures r.Some? ==> r.value == runs[id]
    {
      if id in runs then Some(runs[id]) else None
    }

    /** The runs with the given status, or all runs, in row order. */
    method List(status: Option<RunStatus>) returns (result: seq<Run>)
      requires Valid()
      ensures result == Listed(runs, order, status)
    {
      result := [];
      var i := 0;
      while i < |order|
        invariant 0 <= i <= |order|
        invariant result == Listed(runs, order[..i], status)
      {
        var id := order[i];
        assert order[..i + 1][..i] == order[..i];
        if id in runs && Selected(runs[id], status) {
          result := result + [runs[id]];
        }
        i := i + 1;
      }
      assert order[..|order|] == order;
    }

    method UpdateStatus(id: string, status: RunStatus)
      requires Valid()
      modifies this
      ensures Valid() && order == old(order) && events == old(events)
      ensures runs == if id in old(runs) then old(runs)[id := old(runs)[id].(status := status)] else old(runs)
    {
      if id in runs {
        runs := runs[id := runs[id].(status := status)];
      }
    }

    method UpdatePlan(id: string, plan: string)
      requires Valid()
      modifies this
      ensures Valid() && order == old(order) && events == old(events)
      ensures runs == if id in old(runs) then old(runs)[id := old(runs)[id].(plan := Some(plan))] else old(runs)
    {
      if id in runs {
        runs := runs[id := runs[id].(plan := Some(plan))];
      }
    }

    method UpdateContext(id: string, ctx: RunContext)
      requires Valid()
      modifies this
      ensures Valid() && order == old(order) && events == old(events)
      ensures runs == if id in old(runs) then old(runs)[id := old(runs)[id].(context := ctx)] else old(runs)
    {
      if id in runs {
        runs := runs[id := runs[id].(context := ctx)];
      }
    }

    /** Appends an event; the run table is untouched and no run need exist. */
    method AddEvent(id: string, eventType: string, data: map<string, string>)
      requires Valid()
      modifies this
      ensures Valid() && runs == old(runs) && order == old(order)
      ensures events == old(events) + [RunEvent(id, eventType, data)]
    {
      events := events + [RunEvent(id, eventType, data)];
    }

    /** Removes the run; its events stay. */
    method Delete(id: string)
      requires Valid()
      modifies this
      ensures Valid() && events == old(events)
      ensures runs == old(runs) - {id} && order == Without(old(order), id)
      ensures Get(id).None?
    {
      WithoutDistinct(order, id);
      runs := runs - {id};
      order := Without(order, id);
    }
  }

  /** The status filter lists exactly the stored runs with that status, and no filter
      lists every stored run. */
  lemma ListSemantics(s: Store, status: RunStatus, x: Run)
    requires s.Valid()
    ensures x in Listed(s.runs, s.order, Some(status)) <==> x in s.runs.Values && x.status == status
    ensures x in Listed(s.runs, s.order, None) <==> x in s.runs.Values
  {
    ListedIff(s.runs, s.order, Some(status), x);
    ListedIff(s.runs, s.order, None, x);
    if x in s.runs.Values {
      var id :| id in s.runs && s.runs[id] == x;
      var i :| 0 <= i < |s.order| && s.order[i] == id;
    }
  }
}
