/** `TidbytSink.process_record` and `send_to_tidbyt`: validate the record,
    resolve the target devices, and make at most one call per device, in list
    order, stopping at the first device whose call fails. */
module Sink {
  import opened Values
  import opened Normalize
  import opened Devices
  import opened Transport
  import opened Dispatch

  /** The record keys the sink reads. */
  datatype Record = Record(imageData: Field<string>, installationId: Field<string>, background: Field<bool>)

  /** The remote side: the response to the call at a given position of the trace. */
  type Network = (nat, Call) -> Response

  /** `record.get("image_data", "")`. */
  function ImageData(record: Record): (r: Option<string>)
    ensures record.imageData.Absent? ==> r == Some("")
    ensures r.None? <==> record.imageData.Null?
    ensures record.imageData.Present? ==> r == Some(record.imageData.value)
    ensures Truthy(r) <==> HasImage(record)
  {
    record.imageData.GetWithDefault("")
  }

  /** The installation id after normalisation. */
  function InstallationId(record: Record): Option<string>
  {
    NormalizeInstallationId(record.installationId.Get())
  }

  /** `record.get("background", True)`. */
  function Background(record: Record): (r: Option<bool>)
    ensures record.background.Absent? ==> r == Some(true)
    ensures r.None? <==> record.background.Null?
    ensures record.background.Present? ==> r == Some(record.background.value)
  {
    record.background.GetWithDefault(true)
  }

  /** The record carries a non-empty image. */
  predicate HasImage(record: Record)
  {
    record.imageData.Present? && record.imageData.value != ""
  }

  /** The record names an installation with at least one non-separator character. */
  predicate HasInstallation(record: Record)
  {
    record.installationId.Present? && HasNonDash(record.installationId.value)
  }

  /** The call `send_to_tidbyt` makes for `device`: a push when there is an image,
      otherwise a delete when the normalised installation id is non-empty,
      otherwise none. */
  function IntendedCall(record: Record, device: Device): (c: Option<Call>)
    ensures c.Some? <==> HasImage(record) || HasInstallation(record)
    ensures c.Some? ==> c.value.deviceId == device.id && c.value.token == device.token
  {
    var image := ImageData(record);
    var inst := InstallationId(record);
    if Truthy(image) then
      Some(Push(device.id, device.token, Payload(image.value, inst, Background(record))))
    else if Truthy(inst) then
      Some(Delete(device.id, device.token, inst.value))
    else
      None
  }

  /** What the call carries: a push holds the record's image, its installation id
      with the separators removed (null when the record has none) and its
      background flag (true when the key is missing); a delete is addressed by
      the non-empty normalised installation id. */
  lemma IntendedCallContents(record: Record, device: Device)
    ensures var c := IntendedCall(record, device);
      c.Some? && c.value.Push? <==> HasImage(record)
    ensures var c := IntendedCall(record, device);
      c.Some? && c.value.Push? ==>
      && c.value.payload.image == record.imageData.value
      && (c.value.payload.installationId.None? <==> !record.installationId.Present?)
      && (c.value.payload.installationId.Some? ==>
            c.value.payload.installationId.value == StripDashes(record.installationId.value))
      && (record.background.Absent? ==> c.value.payload.background == Some(true))
      && (record.background.Null? ==> c.value.payload.background == None)
      && (record.background.Present? ==> c.value.payload.background == Some(record.background.value))
    ensures var c := IntendedCall(record, device);
      c.Some? && c.value.Delete? ==>
      && !HasImage(record)
      && c.value.installationId != ""
      && c.value.installationId == StripDashes(record.installationId.value)
  {
  }

  /** The record's intent, device by device. */
  function IntentOf(record: Record): Intent
  {
    (d: Device) => IntendedCall(record, d)
  }

  /** The status of each call, given what the network answers: `raise_for_status`
      for a push, the softened rule for a delete. */
  function StatusOf(net: Network): Responder
  {
    (i: nat, c: Call) => Classify(c, net(i, c))
  }

  /** `process_record`: a record without an `image_data` key fails before any
      device is resolved or contacted; otherwise the targets are sent to in order. */
  function ProcessRecord(record: Record, config: Config, net: Network): (r: Run)
    ensures record.imageData.Absent? <==> r.outcome == Err(MissingImageData)
    ensures record.imageData.Absent? ==> r.trace == []
    ensures |r.trace| <= |Targets(config)|
  {
    if record.imageData.Absent? then Run([], Err(MissingImageData))
    else
      var targets := Targets(config);
      DispatchStopsAtFirstFailure(targets, IntentOf(record), StatusOf(net), 0);
      var r := DispatchAll(targets, IntentOf(record), StatusOf(net), 0);
      assert r.outcome != Err(MissingImageData) by {
        if r.outcome.Err? {
          var k := |r.trace| - 1;
          assert StatusOf(net)(k, r.trace[k]) == Classify(r.trace[k], net(k, r.trace[k]));
        }
      }
      r
  }

  /** Whether a call is made does not depend on the device: either every
      device gets exactly one call, the i-th one addressed to devices[i], or
      no device gets any. */
  lemma {:induction false} PlanShape(record: Record, devices: seq<Device>)
    ensures HasImage(record) || HasInstallation(record) ==>
      && |Plan(devices, IntentOf(record))| == |devices|
      && forall i :: 0 <= i < |devices| ==> IntendedCall(record, devices[i]) == Some(Plan(devices, IntentOf(record))[i])
    ensures !(HasImage(record) || HasInstallation(record)) ==> Plan(devices, IntentOf(record)) == []
    decreases |devices|
  {
    if |devices| > 0 {
      PlanShape(record, devices[1..]);
      var p := Plan(devices, IntentOf(record));
      var tail := Plan(devices[1..], IntentOf(record));
      assert p == CallsOf(IntendedCall(record, devices[0])) + tail;
      if HasImage(record) || HasInstallation(record) {
        forall i | 0 <= i < |devices|
          ensures IntendedCall(record, devices[i]) == Some(p[i])
        {
          if i > 0 {
            assert devices[i] == devices[1..][i - 1];
            assert p[i] == tail[i - 1];
          }
        }
      }
    }
  }

  /** The `for device in devices` loop over the targets, with no try/except:
      the calls made are a prefix of the planned calls (all of them when the
      record ends well), every call but the last succeeded, and a failing
      record failed on its last call, with that call's error. */
  lemma ProcessRecordFollowsPlan(record: Record, config: Config, net: Network)
    requires !record.imageData.Absent?
    ensures var r := ProcessRecord(record, config, net);
      var plan := Plan(Targets(config), IntentOf(record));
      && r.trace <= plan
      && (r.outcome.Ok? ==> r.trace == plan && AllSucceed(r.trace, StatusOf(net), 0, |r.trace|))
      && (r.outcome.Err? ==>
            && |r.trace| > 0
            && AllSucceed(r.trace, StatusOf(net), 0, |r.trace| - 1)
            && var last := r.trace[|r.trace| - 1];
               Classify(last, net(|r.trace| - 1, last)) == Failed(r.outcome.error))
  {
    DispatchFollowsPlan(Targets(config), IntentOf(record), StatusOf(net), 0);
    DispatchStopsAtFirstFailure(Targets(config), IntentOf(record), StatusOf(net), 0);
  }

  /** Devices are reached once each, in list order: the i-th call of a run goes
      to the i-th target, a run that ends well reaches every target, and in one
      that fails only the last call failed, so no target after it is reached. */
  lemma ProcessRecordReachesTargetsInOrder(record: Record, config: Config, net: Network)
    requires !record.imageData.Absent?
    requires HasImage(record) || HasInstallation(record)
    ensures var r := ProcessRecord(record, config, net);
      var targets := Targets(config);
      && |r.trace| <= |targets|
      && (forall i :: 0 <= i < |r.trace| ==>
            r.trace[i].deviceId == targets[i].id && r.trace[i].token == targets[i].token)
      && (r.outcome.Ok? ==> |r.trace| == |targets|)
      && (r.outcome.Err? ==>
            && |r.trace| > 0
            && AllSucceed(r.trace, StatusOf(net), 0, |r.trace| - 1)
            && StatusOf(net)(|r.trace| - 1, r.trace[|r.trace| - 1]).Failed?)
  {
    DispatchStopsAtFirstFailure(Targets(config), IntentOf(record), StatusOf(net), 0);
    var targets := Targets(config);
    var r := ProcessRecord(record, config, net);
    var p := Plan(targets, IntentOf(record));
    DispatchFollowsPlan(targets, IntentOf(record), StatusOf(net), 0);
    PlanShape(record, targets);
    forall i | 0 <= i < |r.trace|
      ensures r.trace[i].deviceId == targets[i].id && r.trace[i].token == targets[i].token
    {
      assert r.trace[i] == p[i];
      assert IntendedCall(record, targets[i]) == Some(p[i]);
    }
  }

  /** A record with neither an image nor a usable installation id reaches every
      target without a call and without an error. */
  lemma NothingToDoIsNoOp(record: Record, config: Config, net: Network)
    requires !record.imageData.Absent?
    requires !HasImage(record) && !HasInstallation(record)
    ensures ProcessRecord(record, config, net) == Run([], Ok)
  {
    PlanShape(record, Targets(config));
    DispatchNothingPlanned(Targets(config), IntentOf(record), StatusOf(net), 0);
  }

  /** A valid record whose targets are empty makes no call and does not fail. */
  lemma NoTargetsNoCalls(record: Record, config: Config, net: Network)
    requires !record.imageData.Absent?
    requires Targets(config) == []
    ensures ProcessRecord(record, config, net) == Run([], Ok)
  {
  }
}
