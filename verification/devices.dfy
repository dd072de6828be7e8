/** Device-set resolution of `process_record`: the configured `devices` list,
    or else one synthesised "default" device, then the optional `device_names`
    allow-list applied as an order-preserving filter. */
module Devices {
  import opened Values

  /** One entry of the device list; each key may be missing (`device.get` gives None). */
  datatype Device = Device(name: Option<string>, id: Option<string>, token: Option<string>)

  /** The sink configuration keys the core reads. */
  datatype Config = Config(
    devices: Option<seq<Device>>,
    deviceId: Option<string>,
    token: Option<string>,
    deviceNames: Option<seq<string>>)

  const DefaultName: string := "default"

  /** The configuration carries a truthy `devices` list. */
  predicate HasConfiguredDevices(config: Config)
  {
    config.devices.Some? && |config.devices.value| > 0
  }

  /** The device list before filtering: the configured list when it is non-empty,
      otherwise the single inline device built from `device_id` and `token`. */
  function Resolve(config: Config): (r: seq<Device>)
    ensures |r| > 0
    ensures HasConfiguredDevices(config) ==> r == config.devices.value
    ensures !HasConfiguredDevices(config) ==>
      |r| == 1 && r[0].name == Some(DefaultName) && r[0].id == config.deviceId && r[0].token == config.token
  {
    if HasConfiguredDevices(config) then config.devices.value
    else [Device(Some(DefaultName), config.deviceId, config.token)]
  }

  /** `device.get("name") in device_names`: a device without a name never matches. */
  predicate Selected(d: Device, names: seq<string>)
  {
    d.name.Some? && d.name.value in names
  }

  /** `[device for device in devices if device.get("name") in names]`. */
  function Select(devices: seq<Device>, names: seq<string>): (r: seq<Device>)
    ensures |r| <= |devices|
    ensures forall d :: d in r <==> d in devices && Selected(d, names)
  {
    if |devices| == 0 then []
    else
      assert devices == [devices[0]] + devices[1..];
      (if Selected(devices[0], names) then [devices[0]] else []) + Select(devices[1..], names)
  }

  /** The name filter: applied only when `device_names` is truthy (present and non-empty). */
  function FilterByName(devices: seq<Device>, names: Option<seq<string>>): (r: seq<Device>)
    ensures names.None? || |names.value| == 0 ==> r == devices
    ensures names.Some? && |names.value| > 0 ==>
      forall d :: d in r <==> d in devices && Selected(d, names.value)
    ensures names.Some? && |names.value| > 0 ==> r == Select(devices, names.value)
  {
    if names.Some? && |names.value| > 0 then Select(devices, names.value) else devices
  }

  /** The devices a record is sent to. */
  function Targets(config: Config): seq<Device>
  {
    FilterByName(Resolve(config), config.deviceNames)
  }

  /** The filter keeps the surviving devices in their original order. */
  lemma {:induction false} SelectIsSubsequence(devices: seq<Device>, names: seq<string>)
    ensures IsSubsequence(Select(devices, names), devices)
    decreases |devices|
  {
    if |devices| > 0 {
      SelectIsSubsequence(devices[1..], names);
      var r := Select(devices, names);
      if Selected(devices[0], names) {
        assert r[0] == devices[0] && r[1..] == Select(devices[1..], names);
      } else {
        assert r == Select(devices[1..], names);
      }
    }
  }

  /** The filter keeps every copy of a selected device and no copy of any other device. */
  lemma {:induction false} SelectCounts(devices: seq<Device>, names: seq<string>, d: Device)
    ensures multiset(Select(devices, names))[d] == if Selected(d, names) then multiset(devices)[d] else 0
    decreases |devices|
  {
    if |devices| > 0 {
      SelectCounts(devices[1..], names, d);
      assert devices == [devices[0]] + devices[1..];
    }
  }

  /** Filtering with names that cover every device is the identity. */
  lemma {:induction false} SelectAllNames(devices: seq<Device>, names: seq<string>)
    requires forall i :: 0 <= i < |devices| ==> Selected(devices[i], names)
    ensures Select(devices, names) == devices
    decreases |devices|
  {
    if |devices| > 0 {
      SelectAllNames(devices[1..], names);
      assert devices == [devices[0]] + devices[1..];
    }
  }

  /** Names that match no device are silently ignored. */
  lemma {:induction false} SelectIgnoresUnmatched(devices: seq<Device>, names: seq<string>, extra: seq<string>)
    requires forall i :: 0 <= i < |devices| ==> devices[i].name.None? || devices[i].name.value !in extra
    ensures Select(devices, names + extra) == Select(devices, names)
    decreases |devices|
  {
    if |devices| > 0 {
      SelectIgnoresUnmatched(devices[1..], names, extra);
      assert Selected(devices[0], names + extra) == Selected(devices[0], names);
    }
  }

  /** Filtering twice by the same names is filtering once. */
  lemma SelectIdempotent(devices: seq<Device>, names: seq<string>)
    ensures Select(Select(devices, names), names) == Select(devices, names)
  {
    var r := Select(devices, names);
    forall i | 0 <= i < |r|
      ensures Selected(r[i], names)
    {
      assert r[i] in r;
    }
    SelectAllNames(r, names);
  }
}
