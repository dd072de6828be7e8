/** Whole-record behaviour on concrete records and configurations. */
module Scenarios {
  import opened Values
  import opened Normalize
  import opened Devices
  import opened Transport
  import opened Dispatch
  import opened Sink

  /** A configuration with only the inline `device_id` and `token`. */
  function InlineConfig(): Config
  {
    Config(None, Some("dev1"), Some("tok1"), None)
  }

  /** "ab-12-cd" goes on the wire as "ab12cd". */
  lemma DashedIdNormalized()
    ensures NormalizeInstallationId(Some("ab-12-cd")) == Some("ab12cd")
  {
    assert StripDashes("ab-12-cd") == "ab12cd";
  }

  /** An image with a dashed installation id pushes once, with the dashes
      removed and the background flag defaulted to true. */
  lemma PushWithDashedInstallation(net: Network)
    requires var c := Push(Some("dev1"), Some("tok1"), Payload("PNG...", Some("ab12cd"), Some(true)));
      !RaisesForStatus(net(0, c).status)
    ensures ProcessRecord(Record(Present("PNG..."), Present("ab-12-cd"), Absent), InlineConfig(), net)
      == Run([Push(Some("dev1"), Some("tok1"), Payload("PNG...", Some("ab12cd"), Some(true)))], Ok)
  {
    var record := Record(Present("PNG..."), Present("ab-12-cd"), Absent);
    var device := Device(Some(DefaultName), Some("dev1"), Some("tok1"));
    DashedIdNormalized();
    assert IntendedCall(record, device) ==
      Some(Push(Some("dev1"), Some("tok1"), Payload("PNG...", Some("ab12cd"), Some(true))));
    assert Targets(InlineConfig()) == [device];
    var c := Push(Some("dev1"), Some("tok1"), Payload("PNG...", Some("ab12cd"), Some(true)));
    assert IntentOf(record)(device) == Some(c);
    assert !StatusOf(net)(0, c).Failed?;
    assert DispatchAll([device][1..], IntentOf(record), StatusOf(net), 1) == Run([], Ok);
  }

  /** An empty image with an installation id deletes it; a 500 saying the
      installation is not found ends the record well. */
  lemma DeleteAlreadyGone(net: Network)
    requires net(0, Delete(Some("dev1"), Some("tok1"), "xyz")) == Response(500, JsonObject(Some(NotFoundMessage)))
    ensures ProcessRecord(Record(Present(""), Present("xyz"), Absent), InlineConfig(), net)
      == Run([Delete(Some("dev1"), Some("tok1"), "xyz")], Ok)
  {
    assert StripDashes("xyz") == "xyz";
    assert HasNonDash("xyz") by { assert "xyz"[0] != Separator; }
  }

  /** The same delete answered with a 500 carrying another message fails the record. */
  lemma DeleteOtherServerError(net: Network)
    requires net(0, Delete(Some("dev1"), Some("tok1"), "xyz")) == Response(500, JsonObject(Some("boom")))
    ensures ProcessRecord(Record(Present(""), Present("xyz"), Absent), InlineConfig(), net)
      == Run([Delete(Some("dev1"), Some("tok1"), "xyz")], Err(HttpError(500)))
  {
    assert StripDashes("xyz") == "xyz";
    assert HasNonDash("xyz") by { assert "xyz"[0] != Separator; }
  }

  /** A record without the `image_data` key fails without any call, even when it
      names an installation to delete. */
  lemma MissingImageKeyFails(installationId: Field<string>, config: Config, net: Network)
    ensures ProcessRecord(Record(Absent, installationId, Absent), config, net) == Run([], Err(MissingImageData))
  {
  }

  /** An empty image with an installation id made only of separators makes no
      call and does not fail: the emptiness check comes after normalisation. */
  lemma DashOnlyInstallationIsNoOp(config: Config, net: Network)
    ensures ProcessRecord(Record(Present(""), Present("--"), Absent), config, net) == Run([], Ok)
  {
    var record := Record(Present(""), Present("--"), Absent);
    assert !HasNonDash("--");
    NothingToDoIsNoOp(record, config, net);
  }

  /** With devices "a" and "b" configured and only "a" named, only "a" is called. */
  lemma NameFilterSelectsOne(net: Network)
    requires var c := Push(Some("ida"), Some("ta"), Payload("img", None, Some(true)));
      !RaisesForStatus(net(0, c).status)
    ensures var a := Device(Some("a"), Some("ida"), Some("ta"));
      var b := Device(Some("b"), Some("idb"), Some("tb"));
      ProcessRecord(Record(Present("img"), Absent, Absent), Config(Some([a, b]), None, None, Some(["a"])), net)
        == Run([Push(Some("ida"), Some("ta"), Payload("img", None, Some(true)))], Ok)
  {
    var a := Device(Some("a"), Some("ida"), Some("ta"));
    var b := Device(Some("b"), Some("idb"), Some("tb"));
    var record := Record(Present("img"), Absent, Absent);
    var config := Config(Some([a, b]), None, None, Some(["a"]));
    var c := Push(Some("ida"), Some("ta"), Payload("img", None, Some(true)));
    assert Select([a, b], ["a"]) == [a];
    assert Targets(config) == [a];
    assert IntentOf(record)(a) == Some(c);
    assert !StatusOf(net)(0, c).Failed?;
    assert DispatchAll([a][1..], IntentOf(record), StatusOf(net), 1) == Run([], Ok);
  }
}
