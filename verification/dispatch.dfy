/** The per-record device loop, independent of what a call is made of: each
    device in order gets the call its intent names (or none), each call is
    classified by its response, and the first failing call ends the loop. */
module Dispatch {
  import opened Values
  import opened Devices
  import opened Transport

  datatype Outcome = Ok | Err(error: Error)

  /** The calls made for one record, in order, and how processing ended. */
  datatype Run = Run(trace: seq<Call>, outcome: Outcome)

  /** The call a device is to receive, if any. */
  type Intent = Device -> Option<Call>

  /** The status of the call at a given position of the trace. */
  type Responder = (nat, Call) -> DeviceStatus

  /** The calls an optional call contributes to a trace. */
  function CallsOf(c: Option<Call>): (r: seq<Call>)
    ensures |r| <= 1
    ensures c.Some? <==> |r| == 1
    ensures c.Some? ==> r[0] == c.value
  {
    if c.Some? then [c.value] else []
  }

  /** The loop; `sent` calls were made before it. A run makes no more calls
      than there are devices, and can only fail on a call it made. (That each
      device makes at most one call is `DispatchFollowsPlan`: the trace is a
      prefix of the plan, whose pieces have length at most one.) */
  function DispatchAll(devices: seq<Device>, intent: Intent, respond: Responder, sent: nat): (r: Run)
    ensures |r.trace| <= |devices|
    ensures r.outcome.Err? ==> |r.trace| > 0
    decreases |devices|
  {
    if |devices| == 0 then Run([], Ok)
    else
      match intent(devices[0])
      case None => DispatchAll(devices[1..], intent, respond, sent)
      case Some(c) =>
        var s := respond(sent, c);
        if s.Failed? then Run([c], Err(s.error))
        else
          var rest := DispatchAll(devices[1..], intent, respond, sent + 1);
          Run([c] + rest.trace, rest.outcome)
  }

  /** The calls the devices ask for, whatever the responses. */
  function Plan(devices: seq<Device>, intent: Intent): seq<Call>
    decreases |devices|
  {
    if |devices| == 0 then []
    else CallsOf(intent(devices[0])) + Plan(devices[1..], intent)
  }

  /** The calls at positions `0` to `to` of a trace all succeeded. */
  predicate AllSucceed(trace: seq<Call>, respond: Responder, sent: nat, to: nat)
    requires to <= |trace|
  {
    forall i :: 0 <= i < to ==> !respond(sent + i, trace[i]).Failed?
  }

  /** A run makes no more calls than the plan holds, and the plan no more than
      there are devices. */
  lemma {:induction false} DispatchAllBounded(devices: seq<Device>, intent: Intent, respond: Responder, sent: nat)
    ensures |DispatchAll(devices, intent, respond, sent).trace| <= |Plan(devices, intent)| <= |devices|
    decreases |devices|
  {
    if |devices| > 0 {
      DispatchAllBounded(devices[1..], intent, respond, sent);
      DispatchAllBounded(devices[1..], intent, respond, sent + 1);
    }
  }

  /** The run follows the plan: its trace is a prefix of the planned calls,
      and the whole plan when it ends well. */
  lemma {:induction false} DispatchFollowsPlan(devices: seq<Device>, intent: Intent, respond: Responder, sent: nat)
    ensures DispatchAll(devices, intent, respond, sent).trace <= Plan(devices, intent)
    ensures DispatchAll(devices, intent, respond, sent).outcome.Ok? ==>
      DispatchAll(devices, intent, respond, sent).trace == Plan(devices, intent)
    decreases |devices|
  {
    if |devices| > 0 {
      match intent(devices[0])
      case None =>
        DispatchFollowsPlan(devices[1..], intent, respond, sent);
      case Some(c) =>
        assert Plan(devices, intent) == [c] + Plan(devices[1..], intent);
        DispatchFollowsPlan(devices[1..], intent, respond, sent + 1);
    }
  }

  /** Success of a trace splits into success of its first call and of the rest. */
  lemma AllSucceedCons(c: Call, rest: seq<Call>, respond: Responder, sent: nat, k: nat)
    requires k <= |rest|
    requires !respond(sent, c).Failed?
    requires AllSucceed(rest, respond, sent + 1, k)
    ensures AllSucceed([c] + rest, respond, sent, k + 1)
  {
  }

  /** The run stops at the first failure: every call before the last succeeded;
      the run fails exactly when the last call made failed, and with its error. */
  lemma {:induction false} DispatchStopsAtFirstFailure(devices: seq<Device>, intent: Intent, respond: Responder, sent: nat)
    ensures var r := DispatchAll(devices, intent, respond, sent);
      && (r.outcome.Ok? ==> AllSucceed(r.trace, respond, sent, |r.trace|))
      && (r.outcome.Err? ==>
            && |r.trace| > 0
            && AllSucceed(r.trace, respond, sent, |r.trace| - 1)
            && respond(sent + |r.trace| - 1, r.trace[|r.trace| - 1]) == Failed(r.outcome.error))
    decreases |devices|
  {
    if |devices| > 0 {
      match intent(devices[0])
      case None =>
        DispatchStopsAtFirstFailure(devices[1..], intent, respond, sent);
      case Some(c) =>
        var s := respond(sent, c);
        if !s.Failed? {
          var rest := DispatchAll(devices[1..], intent, respond, sent + 1);
          DispatchStopsAtFirstFailure(devices[1..], intent, respond, sent + 1);
          var t := [c] + rest.trace;
          assert DispatchAll(devices, intent, respond, sent) == Run(t, rest.outcome);
          if rest.outcome.Err? {
            AllSucceedCons(c, rest.trace, respond, sent, |rest.trace| - 1);
            assert t[|t| - 1] == rest.trace[|rest.trace| - 1];
            assert sent + |t| - 1 == sent + 1 + |rest.trace| - 1;
          } else {
            AllSucceedCons(c, rest.trace, respond, sent, |rest.trace|);
          }
        }
    }
  }

  /** Devices that ask for no call leave the run empty and successful. */
  lemma {:induction false} DispatchNothingPlanned(devices: seq<Device>, intent: Intent, respond: Responder, sent: nat)
    requires Plan(devices, intent) == []
    ensures DispatchAll(devices, intent, respond, sent) == Run([], Ok)
    decreases |devices|
  {
    if |devices| > 0 {
      assert intent(devices[0]).None?;
      DispatchNothingPlanned(devices[1..], intent, respond, sent);
    }
  }

  /** One turn of the loop from device `i`. */
  lemma DispatchStep(devices: seq<Device>, i: nat, intent: Intent, respond: Responder, sent: nat)
    requires i < |devices|
    ensures DispatchAll(devices[i..], intent, respond, sent) ==
      match intent(devices[i])
      case None => DispatchAll(devices[i + 1..], intent, respond, sent)
      case Some(c) =>
        if respond(sent, c).Failed? then Run([c], Err(respond(sent, c).error))
        else
          var rest := DispatchAll(devices[i + 1..], intent, respond, sent + 1);
          Run([c] + rest.trace, rest.outcome)
  {
  }

  /** The loop written as a loop, an error ending it early; its result is the
      run `DispatchAll` describes. */
  method DispatchLoop(devices: seq<Device>, intent: Intent, respond: Responder)
    returns (trace: seq<Call>, outcome: Outcome)
    ensures Run(trace, outcome) == DispatchAll(devices, intent, respond, 0)
  {
    trace := [];
    var i := 0;
    while i < |devices|
      invariant 0 <= i <= |devices|
      invariant var rest := DispatchAll(devices[i..], intent, respond, |trace|);
        DispatchAll(devices, intent, respond, 0) == Run(trace + rest.trace, rest.outcome)
    {
      DispatchStep(devices, i, intent, respond, |trace|);
      var call := intent(devices[i]);
      if call.Some? {
        var status := respond(|trace|, call.value);
        if status.Failed? {
          return trace + [call.value], Err(status.error);
        }
        var rest := DispatchAll(devices[i + 1..], intent, respond, |trace| + 1);
        assert trace + ([call.value] + rest.trace) == (trace + [call.value]) + rest.trace;
        trace := trace + [call.value];
      }
      i := i + 1;
    }
    assert devices[i..] == [];
    outcome := Ok;
  }
}
