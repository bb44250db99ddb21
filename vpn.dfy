/** The VPN service: a reference count of the runs that need the tunnel. The first
    `up` starts the systemd unit when it is not already active and waits for it;
    the `down` that brings the count to zero stops it. The unit's activity as seen
    by `systemctl is-active` is an input, and the systemctl start/stop commands
    issued are recorded in order. */
module Vpn {
  import opened Wrappers

  /** How many times `up` checks for the tunnel after starting the unit (every 500 ms). */
  const START_CHECKS: nat := 30

  /** A `sudo systemctl` command the service issues. */
  datatype Command = Start | Stop

  /** A call on the service, for reasoning about sequences of calls. */
  datatype Call = Up | Down

  /** The count after one call: `up` adds one, `down` takes one away but not below zero. */
  function CountAfter(count: nat, call: Call): nat {
    match call
    case Up => count + 1
    case Down => if count == 0 then 0 else count - 1
  }

  /** The count after a sequence of calls. */
  function CountAfterAll(count: nat, calls: seq<Call>): nat
    decreases |calls|
  {
    if calls == [] then count else CountAfterAll(CountAfter(count, calls[0]), calls[1..])
  }

  /** After n calls to `up` and no `down`, the count has grown by n. */
  lemma {:induction false} UpsCount(count: nat, calls: seq<Call>)
    requires forall i :: 0 <= i < |calls| ==> calls[i] == Up
    ensures CountAfterAll(count, calls) == count + |calls|
    decreases |calls|
  {
    if calls != [] {
      UpsCount(count + 1, calls[1..]);
    }
  }

  /** Matched calls cancel: k calls to `up` followed by k calls to `down` restore the count. */
  lemma {:induction false} BalancedCallsRestore(count: nat, ups: seq<Call>, downs: seq<Call>)
    requires forall i :: 0 <= i < |ups| ==> ups[i] == Up
    requires forall i :: 0 <= i < |downs| ==> downs[i] == Down
    requires |ups| == |downs|
    ensures CountAfterAll(count, ups + downs) == count
  {
    AfterConcat(count, ups, downs);
    UpsCount(count, ups);
    DownsCount(count + |ups|, downs);
  }

  lemma {:induction false} DownsCount(count: nat, calls: seq<Call>)
    requires forall i :: 0 <= i < |calls| ==> calls[i] == Down
    ensures CountAfterAll(count, calls) == if count >= |calls| then count - |calls| else 0
    decreases |calls|
  {
    if calls != [] {
      DownsCount(CountAfter(count, Down), calls[1..]);
    }
  }

  lemma {:induction false} AfterConcat(count: nat, a: seq<Call>, b: seq<Call>)
    ensures CountAfterAll(count, a + b) == CountAfterAll(CountAfterAll(count, a), b)
    decreases |a|
  {
    if a == [] {
      assert a + b == b;
    } else {
      assert (a + b)[1..] == a[1..] + b;
      AfterConcat(CountAfter(count, a[0]), a[1..], b);
    }
  }

  class VpnService {
    /** The number of `up` calls not yet matched by a `down`. */
    var refCount: nat
    /** The systemctl commands issued so far. */
    var commands: seq<Command>

    constructor()
      ensures refCount == 0 && commands == []
    {
      refCount := 0;
      commands := [];
    }

    /** `up`. `activeNow` is whether the unit is active when the count first becomes one;
        `probe(i)` is whether it is active at the i-th check after starting it. The count
        goes up even when the tunnel never comes up. `checks` is the number of checks
        made after starting the unit. */
    method Up(activeNow: bool, probe: nat -> bool) returns (r: Result<()>, checks: nat)
      modifies this
      ensures refCount == CountAfter(old(refCount), Call.Up)
      ensures commands == old(commands) + (if old(refCount) == 0 && !activeNow then [Start] else [])
      ensures r.Ok? <==> old(refCount) > 0 || activeNow || exists i :: 0 <= i < START_CHECKS && probe(i)
      ensures r.Err? ==> r.message == "VPN failed to come up within 15s" && checks == START_CHECKS
      ensures checks <= START_CHECKS
      ensures checks > 0 ==> probe(checks - 1) || checks == START_CHECKS
      ensures forall i :: 0 <= i < checks - 1 ==> !probe(i)
    {
      refCount := refCount + 1;
      checks := 0;
      if refCount > 1 || activeNow {
        return Ok(()), 0;
      }
      commands := commands + [Start];
      while checks < START_CHECKS
        invariant checks <= START_CHECKS
        invariant forall i :: 0 <= i < checks ==> !probe(i)
      {
        checks := checks + 1;
        if probe(checks - 1) {
          return Ok(()), checks;
        }
      }
      r := Err("VPN failed to come up within 15s");
    }

    /** `down`. `activeNow` is whether the unit is active when the count reaches zero. */
    method Down(activeNow: bool)
      modifies this
      ensures refCount == CountAfter(old(refCount), Call.Down)
      ensures commands == old(commands) + (if refCount == 0 && activeNow then [Stop] else [])
    {
      refCount := if refCount == 0 then 0 else refCount - 1;
      if refCount > 0 || !activeNow {
        return;
      }
      commands := commands + [Stop];
    }
  }
}
