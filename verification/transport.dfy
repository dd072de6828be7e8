/** The two remote calls of `send_to_tidbyt` and the classification of their
    responses. A call is recorded as data; the HTTP exchange itself is outside
    the model and its response is supplied by the caller. */
module Transport {
  import opened Values

  /** The JSON body of a push: `{"image": …, "installationID": …, "background": …}`;
      None stands for a JSON null. */
  datatype Payload = Payload(image: string, installationId: Option<string>, background: Option<bool>)

  /** One intended network call, with the device fields it is addressed by. */
  datatype Call =
    | Push(deviceId: Option<string>, token: Option<string>, payload: Payload)
    | Delete(deviceId: Option<string>, token: Option<string>, installationId: string)

  /** What `response.json()` yields: an object with an optional string `message`,
      or something `.get('message')` cannot be applied to (not JSON, or not an object). */
  datatype Body = JsonObject(message: Option<string>) | NotJsonObject

  datatype Response = Response(status: int, body: Body)

  /** Why a record failed: the `ValueError` of the validation step, the `HTTPError`
      of `raise_for_status`, or the exception raised while reading a 500 body. */
  datatype Error = MissingImageData | HttpError(status: int) | UnreadableBody(status: int)

  /** What a call's response means for its device. */
  datatype DeviceStatus = Pushed | Deleted | AlreadyGone | Failed(error: Error)

  const ApiBase: string := "https://api.tidbyt.com/v0/devices/"
  const PushSuffix: string := "/push"
  const InstallationsInfix: string := "/installations/"
  const BearerPrefix: string := "Bearer "
  const NotFoundMessage: string := "installation not found"

  /** Python's `"%s" % v` for an optional string. */
  function Show(v: Option<string>): string
  {
    if v.Some? then v.value else "None"
  }

  /** The request URL of a call: every request goes under the devices base; a
      push ends in "/push", a delete in "/installations/" and the installation id. */
  function Url(c: Call): (u: string)
    ensures |ApiBase| < |u| && u[..|ApiBase|] == ApiBase
    ensures c.Push? ==> |u| >= |ApiBase| + |PushSuffix| && u[|u| - |PushSuffix|..] == PushSuffix
    ensures c.Delete? ==>
      var tail := InstallationsInfix + c.installationId;
      |u| >= |ApiBase| + |tail| && u[|u| - |tail|..] == tail
  {
    match c
    case Push(id, _, _) => ApiBase + Show(id) + PushSuffix
    case Delete(id, _, inst) => ApiBase + Show(id) + InstallationsInfix + inst
  }

  /** The `Authorization` header of a call: the bearer prefix, then the
      device token as `"%s"` renders it. */
  function Authorization(c: Call): (h: string)
    ensures |h| >= |BearerPrefix|
    ensures h[..|BearerPrefix|] == BearerPrefix
    ensures h[|BearerPrefix|..] == Show(c.token)
  {
    BearerPrefix + Show(c.token)
  }

  /** `response.raise_for_status()` raises exactly for 4xx and 5xx statuses. */
  predicate RaisesForStatus(status: int)
  {
    400 <= status < 600
  }

  /** The softened delete case: HTTP 500 whose JSON message says the installation is gone. */
  predicate InstallationNotFound(resp: Response)
  {
    resp.status == 500 && resp.body == JsonObject(Some(NotFoundMessage))
  }

  /** Errors that come from talking to the device rather than from the record. */
  predicate IsTransportError(e: Error)
  {
    e.HttpError? || e.UnreadableBody?
  }

  /** A push succeeds unless `raise_for_status` rejects its status. */
  function ClassifyPush(resp: Response): (s: DeviceStatus)
    ensures s.Failed? <==> RaisesForStatus(resp.status)
    ensures s.Failed? ==> s.error == HttpError(resp.status)
    ensures !s.Failed? ==> s == Pushed
  {
    if RaisesForStatus(resp.status) then Failed(HttpError(resp.status)) else Pushed
  }

  /** A delete: a 500 body is read first; "installation not found" is benign,
      a body that is not a JSON object raises while being read, and every other
      response goes through `raise_for_status`. */
  function ClassifyDelete(resp: Response): (s: DeviceStatus)
    ensures s == AlreadyGone <==> InstallationNotFound(resp)
    ensures s == Deleted <==> !RaisesForStatus(resp.status)
    ensures s == Failed(UnreadableBody(500)) <==> resp.status == 500 && resp.body.NotJsonObject?
    ensures s == Failed(HttpError(resp.status)) <==>
      RaisesForStatus(resp.status) && !(resp.status == 500 && (resp.body.NotJsonObject? || InstallationNotFound(resp)))
  {
    if resp.status == 500 && resp.body.NotJsonObject? then Failed(UnreadableBody(500))
    else if InstallationNotFound(resp) then AlreadyGone
    else if RaisesForStatus(resp.status) then Failed(HttpError(resp.status))
    else Deleted
  }

  /** The status of a call given the response it received. */
  function Classify(c: Call, resp: Response): (s: DeviceStatus)
    ensures s.Failed? ==> IsTransportError(s.error)
  {
    match c
    case Push(_, _, _) => ClassifyPush(resp)
    case Delete(_, _, _) => ClassifyDelete(resp)
  }

  /** A push URL is the devices base, then the device id as `"%s"` renders it, then "/push". */
  lemma PushUrlAddressesDevice(c: Call)
    requires c.Push?
    ensures var u := Url(c);
      && |ApiBase| + |PushSuffix| <= |u|
      && u[..|ApiBase|] == ApiBase
      && u[|u| - |PushSuffix|..] == PushSuffix
      && u[|ApiBase|..|u| - |PushSuffix|] == Show(c.deviceId)
  {
    var u := Url(c);
    assert u == ApiBase + Show(c.deviceId) + PushSuffix;
  }

  /** A delete URL is the devices base, the device id as `"%s"` renders it,
      "/installations/", then the normalised installation id. */
  lemma DeleteUrlAddressesInstallation(c: Call)
    requires c.Delete?
    ensures var u := Url(c);
      var n := |ApiBase| + |Show(c.deviceId)|;
      && n + |InstallationsInfix| + |c.installationId| == |u|
      && u[..|ApiBase|] == ApiBase
      && u[|ApiBase|..n] == Show(c.deviceId)
      && u[n..n + |InstallationsInfix|] == InstallationsInfix
      && u[n + |InstallationsInfix|..] == c.installationId
  {
    var u := Url(c);
    assert u == ApiBase + Show(c.deviceId) + InstallationsInfix + c.installationId;
  }

  /** The softened rule belongs to delete alone and to its one message: the same
      500 fails a push, and a 500 with any other message fails a delete. */
  lemma SoftenedDeleteOnly(m: Option<string>)
    ensures ClassifyPush(Response(500, JsonObject(m))) == Failed(HttpError(500))
    ensures ClassifyDelete(Response(500, JsonObject(m))) ==
      if m == Some(NotFoundMessage) then AlreadyGone else Failed(HttpError(500))
  {
  }

  /** Delete classification is push classification with one exception carved
      out and one added: a delete fails only where a push would, the two part
      ways on success exactly for the not-found 500, and on failure exactly for
      a 500 whose body cannot be read. */
  lemma DeleteSoftensPush(resp: Response)
    ensures ClassifyDelete(resp).Failed? ==> ClassifyPush(resp).Failed?
    ensures ClassifyPush(resp).Failed? && !ClassifyDelete(resp).Failed? <==> InstallationNotFound(resp)
    ensures ClassifyDelete(resp).Failed? && ClassifyDelete(resp) != ClassifyPush(resp) <==>
      resp.status == 500 && resp.body.NotJsonObject?
  {
  }
}
