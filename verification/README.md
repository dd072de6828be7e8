# target-tidbyt record sink, modelled in Dafny

This project models the record sink of the `target-tidbyt` Singer target:
`TidbytSink.process_record` and `TidbytSink.send_to_tidbyt` in
`target_tidbyt/sinks.py`. For each incoming record the sink does four things:

1. It rejects a record that has no `image_data` key.
2. It resolves the devices to send to. This is the configured `devices` list,
   or else one device named `"default"` built from `device_id` and `token`.
   The list is then narrowed by the optional `device_names` allow-list.
3. It strips every `-` from the record's installation id.
4. It pushes the image to each device in order. With no image and an
   installation id that is non-empty after stripping, it deletes that
   installation instead. With
   neither, it does nothing. A push fails on any 4xx/5xx response. A delete
   also fails on 4xx/5xx, except that HTTP 500 with the message
   `"installation not found"` counts as success. The first failure ends the
   record.

The network is not modelled as I/O. Each call the sink would make is recorded
as a value (`Transport.Call`) in the run's trace. The responses come from a
caller-supplied function `Sink.Network`. It maps the position of a call in the
trace, together with the call, to a status and a body. So every property below
holds for all possible server behaviours.

Modules, leaves first:

- `values.dfy` — `Values`: `Option`; `Field`, the three states of a JSON key
  (missing, null, value) with Python's `d.get(k)` and `d.get(k, default)`;
  Python truthiness of strings; subsequences.
- `normalize.dfy` — `Normalize`: `installation_id.replace("-", "")` and its laws.
- `devices.dfy` — `Devices`: the device and configuration records, resolution,
  and the name filter.
- `transport.dfy` — `Transport`: calls, payloads, URLs, the `Authorization`
  header, responses, and the push and delete classifiers.
- `dispatch.dfy` — `Dispatch`: the per-record device loop. It is written for
  any per-device intent and any response classifier. It comes as a function
  (`DispatchAll`), as a loop (`DispatchLoop`), and with the laws relating the
  run to the planned calls.
- `sink.dfy` — `Sink`: the record, the per-device decision of `send_to_tidbyt`,
  and `process_record`.
- `scenarios.dfy` — `Scenarios`: whole-record behaviour on concrete inputs.

Python values are modelled as follows:

- Record keys and device keys can be missing or null. A record that has
  `image_data` set to null passes validation and counts as "no image".
- `record.get("background", True)` falls back to `True` only when the key is
  missing. An explicit null is sent as null.
- An installation id of `""` is sent as `""` in a push, not as null.
- `"%s" % None` renders as `None` in URLs and headers.
- Status 500 on a delete reads the body before anything else. If the body is
  not a JSON object, that read raises. The model reports this as
  `UnreadableBody`.
- `raise_for_status` rejects exactly the statuses 400 to 599.

## Behaviour worth knowing

- **Where devices come from.** `devices` is read only from the configuration
  key (sinks.py:27). There is no device-list file and no `$VAR` indirection for
  `id` or `token`.
- **No deduplication.** The resolved device list is used as it is. A device
  listed twice is called twice.
- **The first failure ends the record.** Nothing catches an exception around
  the loop (sinks.py:41-42). The first failing call ends the record, and later
  devices get no call.
- **`image_data` must be present.** A record without an `image_data` key
  raises before any call, even when it has an `installation_id`. A delete or
  a no-op needs `image_data` present but empty or null. See
  `Scenarios.MissingImageKeyFails`, `Scenarios.DeleteAlreadyGone` and
  `Sink.NothingToDoIsNoOp`.

## Model

| member | source | states |
|---|---|---|
| Values.Field.Get | target_tidbyt/sinks.py:47-51 | `d.get(k)`: the result is present exactly when the key holds a value, and then it is that value; a missing key and an explicit null both read as None |
| Values.Field.GetWithDefault | target_tidbyt/sinks.py:45-54 | `d.get(k, default)`: a missing key reads as the default, an explicit null as None, and a held value as itself |
| Normalize.StripDashes | target_tidbyt/sinks.py:53 | the result contains no `-`; its length is the original length minus the number of `-`; every other character occurs as often as in the original |
| Normalize.StripDashesIsSubsequence | target_tidbyt/sinks.py:53 | the stripped id keeps the remaining characters in their original order |
| Normalize.StripDashesAppend | target_tidbyt/sinks.py:53 | stripping works character by character: it distributes over concatenation |
| Normalize.StripDashesFixesDashFree | target_tidbyt/sinks.py:53 | an id with no `-` is left unchanged |
| Normalize.StripDashesIdempotent | target_tidbyt/sinks.py:53 | stripping twice is the same as stripping once |
| Normalize.StripDashesEmpty | target_tidbyt/sinks.py:52-53 | the stripped id is empty exactly when the original has no character other than `-` |
| Normalize.NormalizeInstallationId | target_tidbyt/sinks.py:51-53 | an absent id stays absent and `""` stays `""`; otherwise the result has no `-`, keeps the other characters in order, and is shorter than the original by the number of `-`; it is truthy exactly when the original has a character other than `-` |
| Normalize.NormalizeInstallationIdIdempotent | target_tidbyt/sinks.py:52-53 | normalising an already normalised id changes nothing |
| Devices.Resolve | target_tidbyt/sinks.py:27-35 | the list is never empty; a non-empty configured `devices` list is used unchanged; otherwise the list is exactly one device named `"default"` carrying `device_id` and `token` |
| Devices.Select | target_tidbyt/sinks.py:39 | a device survives exactly when it was in the list and its name is one of the given names; the list never grows |
| Devices.FilterByName | target_tidbyt/sinks.py:37-39 | an absent or empty `device_names` leaves the list unchanged; otherwise the result is the name selection, so a device survives exactly when its name is listed and the order and count lemmas of `Select` apply |
| Devices.SelectIsSubsequence | target_tidbyt/sinks.py:39 | the filtered list keeps the original order |
| Devices.SelectCounts | target_tidbyt/sinks.py:39 | every copy of a selected device is kept and no copy of any other device |
| Devices.SelectAllNames | target_tidbyt/sinks.py:37-39 | filtering by names that cover every device is the identity |
| Devices.SelectIgnoresUnmatched | target_tidbyt/sinks.py:39 | adding names that match no device does not change the result |
| Devices.SelectIdempotent | target_tidbyt/sinks.py:39 | filtering twice by the same names is the same as filtering once |
| Transport.ClassifyPush | target_tidbyt/sinks.py:73 | a push fails exactly on a 4xx/5xx status, with that status as an HTTP error; otherwise it succeeds |
| Transport.ClassifyDelete | target_tidbyt/sinks.py:83-87 | a delete is benign exactly on a 500 with message `"installation not found"`; it succeeds exactly on non-4xx/5xx; a 500 whose body is not a JSON object fails while being read; every other 4xx/5xx is an HTTP error |
| Transport.DeleteSoftensPush | target_tidbyt/sinks.py:73-87 | a delete fails only where a push with the same response would; the two differ in success exactly on the not-found 500, and in the error exactly on a 500 whose body is not a JSON object |
| Transport.SoftenedDeleteOnly | target_tidbyt/sinks.py:83-87 | a 500 with any message fails a push; the same 500 is benign for a delete only when the message is `"installation not found"` |
| Transport.Classify | target_tidbyt/sinks.py:73-87 | a push is classified by `raise_for_status`, a delete by the softened rule; whatever the response, a failing call fails with a transport error (an HTTP error or an unreadable body), never with the validation error |
| Transport.Url | target_tidbyt/sinks.py:65-78 | every request goes under `https://api.tidbyt.com/v0/devices/`; a push URL ends in `/push`, a delete URL in `/installations/` and the installation id |
| Transport.PushUrlAddressesDevice | target_tidbyt/sinks.py:65-66 | a push URL is the API base, then `"%s" % device_id`, then `/push` |
| Transport.DeleteUrlAddressesInstallation | target_tidbyt/sinks.py:77-78 | a delete URL is the API base, then `"%s" % device_id`, then `/installations/`, then the normalised installation id |
| Transport.Authorization | target_tidbyt/sinks.py:68-70 | the header is `Bearer ` followed by `"%s" % token` |
| Sink.ImageData | target_tidbyt/sinks.py:45 | a missing `image_data` reads as `""`, a null one as null, any other value as itself; the result is truthy exactly when the record has a non-empty image |
| Sink.Background | target_tidbyt/sinks.py:54 | a missing `background` reads as true, a null one as null, any other value as itself |
| Sink.IntendedCall | target_tidbyt/sinks.py:44-89 | a device gets a call exactly when the record has a non-empty image or an installation id with a character other than `-`; the call carries that device's id and token |
| Sink.IntendedCallContents | target_tidbyt/sinks.py:45-82 | the call is a push exactly when there is an image; a push carries the image, the id stripped of `-` (null when the key is missing or null) and the background flag (true when missing, null when null); a delete carries the non-empty stripped id |
| Sink.PlanShape | target_tidbyt/sinks.py:44-89 | whether a call is made depends only on the record, so either every target gets exactly one call, the i-th addressed to the i-th target, or no target gets any |
| Sink.ProcessRecord | target_tidbyt/sinks.py:24-42 | the record fails with the validation error exactly when `image_data` is missing, and then no call is made; no more calls are made than there are targets |
| Sink.ProcessRecordFollowsPlan | target_tidbyt/sinks.py:41-42 | the calls made are a prefix of the planned calls, and all of them when the record ends well; every call but the last succeeded; a failing record failed on its last call, with that call's error |
| Sink.ProcessRecordReachesTargetsInOrder | target_tidbyt/sinks.py:41-42 | the i-th call goes to the i-th target; a successful record reaches every target; in a failed record every call but the last succeeded and the last failed, so no target after the failing one is reached |
| Sink.NothingToDoIsNoOp | target_tidbyt/sinks.py:88-89 | a valid record with no image and no usable installation id makes no call and does not fail |
| Sink.NoTargetsNoCalls | target_tidbyt/sinks.py:37-42 | when the filter leaves no device, no call is made and the record does not fail |
| Dispatch.DispatchAll | target_tidbyt/sinks.py:41-42 | a run makes no more calls than there are devices, and fails only after making a call; that each device gets at most one call is `DispatchFollowsPlan` |
| Dispatch.DispatchLoop | target_tidbyt/sinks.py:41-42 | the imperative loop that stops at the first failing call produces exactly the run `DispatchAll` describes |
| Dispatch.DispatchAllBounded | target_tidbyt/sinks.py:41-42 | the trace is no longer than the plan, and the plan is no longer than the device list |
| Dispatch.DispatchFollowsPlan | target_tidbyt/sinks.py:41-42 | the trace is a prefix of the planned calls, and the whole plan when the run ends well |
| Dispatch.DispatchStopsAtFirstFailure | target_tidbyt/sinks.py:41-42 | every call before the last succeeded; a run fails only on its last call, and with that call's error |
| Dispatch.DispatchNothingPlanned | target_tidbyt/sinks.py:88-89 | devices that ask for no call yield an empty, successful run |
| Scenarios.DashedIdNormalized | target_tidbyt/sinks.py:52-53 | `"ab-12-cd"` is sent as `"ab12cd"` |
| Scenarios.PushWithDashedInstallation | target_tidbyt/sinks.py:51-73 | an image with id `"ab-12-cd"` and one inline device makes exactly one push, with `installationID` `"ab12cd"` and background true |
| Scenarios.DeleteAlreadyGone | target_tidbyt/sinks.py:74-84 | an empty image with id `"xyz"` makes one delete; a 500 `"installation not found"` leaves the record successful |
| Scenarios.DeleteOtherServerError | target_tidbyt/sinks.py:83-87 | the same delete answered by a 500 with another message fails the record with HTTP 500 |
| Scenarios.MissingImageKeyFails | target_tidbyt/sinks.py:24-25 | without an `image_data` key the record fails with no call, whatever the installation id and configuration |
| Scenarios.DashOnlyInstallationIsNoOp | target_tidbyt/sinks.py:52-89 | an empty image with id `"--"` makes no call and does not fail, because the emptiness check follows normalisation |
| Scenarios.NameFilterSelectsOne | target_tidbyt/sinks.py:37-42 | with devices `a` and `b` configured and only `a` named, only `a` is called |

## Left out

- `target_tidbyt/target.py`: a JSON-schema declaration and CLI entry point, with no logic.
- HTTP transport: the `requests` calls, JSON encoding of the push body and the
  URL scheme are not executed. Calls are recorded as values and responses are
  a parameter.
- Network exceptions raised by `requests.post` or `requests.delete`, such as
  connection errors and timeouts, are not modelled. Every call yields a response.
- Response bodies are reduced to "a JSON object with an optional string
  `message`" or "not a JSON object". A non-string `message` counts the same as
  an absent one, because neither equals the not-found literal.
- Logging (`self.logger.info`): no behavioural effect.
- The Singer `RecordSink` lifecycle and the `context` argument: framework plumbing.
- Python's dynamic typing: record and configuration values have fixed types
  (strings, booleans, lists of device entries). A record whose `image_data` is
  a number, or a `devices` value that is not a list, is outside the model.
- Device-list files, `devices_path` and `$VAR` indirection do not exist in this
  code, so they are not modelled.
- Concurrency across devices: the code is sequential.
