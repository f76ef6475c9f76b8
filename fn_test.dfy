/** The two cases of fn_test.go, stated against the model. */
module FnTest {
  import opened Wrappers
  import opened Composite
  import opened Manifests
  import opened Composed
  import Responses
  import Fn

  /** Collaborators for which every conversion and serialization succeeds. */
  const Reliable: Fn.Sdk := Fn.Sdk((m: Manifest) => Pass, (d: Desired) => Pass)

  /** The "Success" case's request: a full composite, nothing observed, nothing desired yet. */
  function SuccessRequest(): Fn.Request {
    Fn.Request(
      Composite.Resource("XSeCaStorage", map[
        "spec.workspace" := Str("test-ws"),
        "spec.region" := Str("de/txl"),
        "spec.tenant" := Str("test-tenant"),
        "spec.image" := Str("test-image"),
        "spec.sizeGB" := Int(50),
        "spec.name" := Str("test-volume")]),
      map[], map[])
  }

  /** The datacenter the "Success" case expects. */
  function ExpectedDatacenter(): Datacenter {
    Datacenter(
      ObjectMeta("test-ws-datacenter", map[
        "ionos-cloud-datacenter-name" := "test-ws-datacenter",
        "ionos-cloud-dc" := "test-ws",
        "ionos-cloud-region" := "de/txl",
        "ionos-cloud-tenant" := "test-tenant"]),
      DatacenterParameters("Datacenter for test-ws", "de/txl", "test-ws-datacenter"))
  }

  /** The volume the "Success" case expects, as the fixture writes it, named "test-ws_volume". */
  function FixtureVolume(): Volume {
    Volume(
      ObjectMeta("test-ws_volume", map[]),
      VolumeParameters(
        None, Some(Selector(map["ionos-cloud-dc" := "test-ws"])),
        "SSD", "test-image", "thisisnotapassword", "test-volume", 50))
  }

  /** The fixture's volume with the name fn.go gives it, "test-ws-volume". */
  function CorrectedFixtureVolume(): Volume {
    FixtureVolume().(metadata := ObjectMeta("test-ws-volume", map[]))
  }

  /** The "Success" composite extracts to the six fields the fixture gives. */
  lemma SuccessFields()
    ensures Fn.Extract(SuccessRequest().composite)
      == Ok(Fn.Spec("test-ws", "de/txl", "test-tenant", "test-image", 50, "test-volume"))
  {
  }

  /** The keys the "Success" fixture expects are the ones fn.go builds, and they are distinct, so
      the volume does not replace the datacenter. */
  lemma SuccessKeys()
    ensures Fn.DatacenterKey("test-ws") == "xservers-test-ws-datacenter"
    ensures Fn.VolumeKey("test-volume") == "xservers-test-volume"
    ensures Fn.DatacenterKey("test-ws") != Fn.VolumeKey("test-volume")
  {
    assert "xservers-test-volume"[15] != "xservers-test-ws-datacenter"[15];
  }

  /** Every step of the "Success" case passes: the fields are read, both manifests convert and the
      desired resources serialize. */
  lemma SuccessPasses()
    ensures Fn.AllStepsPass(SuccessRequest(), Reliable)
  {
    SuccessFields();
  }

  /** The "Success" case's datacenter is the fixture's. */
  lemma SuccessDatacenter()
    ensures DatacenterFor("test-ws", "de/txl", "test-tenant") == ExpectedDatacenter()
  {
    SuccessLocation();
    SuccessNames();
    SuccessLabels();
    assert "Datacenter for " + "test-ws" == "Datacenter for test-ws";
  }

  /** "de/txl" has no dash, so it is its own location. */
  lemma SuccessLocation()
    ensures Location("de/txl") == "de/txl"
  {
  }

  /** The names the "Success" case derives from workspace "test-ws". */
  lemma SuccessNames()
    ensures DatacenterName("test-ws") == "test-ws-datacenter"
  {
  }

  /** The "Success" case's datacenter labels are the fixture's. */
  lemma SuccessLabels()
    ensures DatacenterFor("test-ws", "de/txl", "test-tenant").metadata.labels == ExpectedDatacenter().metadata.labels
  {
    SuccessNames();
  }

  /** The "Success" case: no result, the success condition, exactly the two expected keys, and
      the expected datacenter, not ready because nothing is observed. */
  lemma SuccessCase()
    ensures var rsp := Fn.Transform(SuccessRequest(), Reliable);
      && rsp.results == []
      && rsp.conditions == [Responses.Condition("FunctionSuccess", StatusTrue, "Success", Responses.TargetCompositeAndClaim)]
      && rsp.desired.Keys == {"xservers-test-volume", "xservers-test-ws-datacenter"}
      && rsp.desired["xservers-test-ws-datacenter"] == DesiredComposed(DatacenterManifest(ExpectedDatacenter()), ReadyUnspecified)
  {
    var req := SuccessRequest();
    SuccessFields();
    SuccessKeys();
    SuccessPasses();
    Fn.FatalOrSuccess(req, Reliable);
    Fn.SuccessMerge(req, Reliable);
    SuccessDatacenter();
  }

  /** The fixture's volume is not what fn.go produces for the "Success" case: only its name differs. */
  lemma SuccessFixtureVolumeDisagrees()
    ensures var rsp := Fn.Transform(SuccessRequest(), Reliable);
      && "xservers-test-volume" in rsp.desired
      && rsp.desired["xservers-test-volume"].resource != VolumeManifest(FixtureVolume())
      && rsp.desired["xservers-test-volume"].resource.volume.metadata.name == "test-ws-volume"
  {
    SuccessFixtureCorrected();
  }

  /** With the name corrected to fn.go's separator, the fixture's volume is exactly what fn.go produces. */
  lemma SuccessFixtureCorrected()
    ensures var rsp := Fn.Transform(SuccessRequest(), Reliable);
      && "xservers-test-volume" in rsp.desired
      && rsp.desired["xservers-test-volume"] == DesiredComposed(VolumeManifest(CorrectedFixtureVolume()), ReadyUnspecified)
  {
    var req := SuccessRequest();
    SuccessFields();
    SuccessKeys();
    SuccessPasses();
    Fn.FatalOrSuccess(req, Reliable);
    Fn.SuccessMerge(req, Reliable);
    SuccessVolume();
  }

  /** The "Success" case's volume is the corrected fixture's. */
  lemma SuccessVolume()
    ensures VolumeFor("test-ws", "test-image", 50, "test-volume") == CorrectedFixtureVolume()
  {
  }

  /** The "FatalMissingWorkspace" case: a composite with no spec gives one fatal result naming
      spec.workspace and the kind, with no desired resources and no condition. */
  lemma FatalMissingWorkspaceCase()
    ensures var rsp := Fn.Transform(Fn.Request(Composite.Resource("XSeCaStorage", map[]), map[], map[]), Reliable);
      && rsp.desired == map[]
      && rsp.conditions == []
      && |rsp.results| == 1
      && rsp.results[0].severity == Responses.SeverityFatal
      && rsp.results[0].target == Responses.TargetComposite
      && rsp.results[0].message
         == "cannot read " + "spec.workspace" + " field of " + "XSeCaStorage" + ": " + ErrorText(NoSuchField("spec.workspace"))
  {
  }
}
