/** fn.go's RunFunction: read six fields of the composite resource, derive a datacenter and a
    volume from them, carry each one's observed readiness over, merge both into the desired
    resources of the earlier pipeline steps, and answer with either one fatal result or a success
    condition. */
module Fn {
  import opened Wrappers
  import opened Composite
  import opened Manifests
  import opened Composed
  import Responses

  /** The six composite fields the function reads. */
  datatype Spec = Spec(
    workspace: string, region: string, tenant: string, image: string, sizeGB: Int64, name: string)

  /** A decoded request: the observed composite, the observed composed resources and the desired
      composed resources handed on by earlier pipeline steps. */
  datatype Request = Request(composite: Composite.Resource, observed: Observed, desired: Desired)

  /** The foreign operations that may fail: `composed.From`, which turns a typed manifest into a
      composed resource, and the serialization inside `response.SetDesiredComposedResources`. */
  datatype Sdk = Sdk(convert: Manifest -> Outcome, serialize: Desired -> Outcome)

  const KeyPrefix: string := "xservers-"
  const SuccessType: string := "FunctionSuccess"
  const SuccessReason: string := "Success"
  const ConvertDatacenterContext: string := "cannot convert *v1alpha1.Datacenter to *composed.Unstructured"
  const ConvertVolumeContext: string := "cannot convert v1alpha1.Volume to *composed.Unstructured"
  const SetDesiredContext: string := "cannot set desired composed resources in *v1.RunFunctionResponse"

  /** The desired and observed key of the datacenter. */
  function DatacenterKey(workspace: string): Name {
    KeyPrefix + DatacenterName(workspace)
  }

  /** The desired and observed key of the volume: built from `spec.name`, not from the volume's
      metadata name. */
  function VolumeKey(name: string): Name {
    KeyPrefix + name
  }

  /** The context fn.go wraps a field's read error in. */
  function CannotReadContext(path: string, kind: string): string {
    "cannot read " + path + " field of " + kind
  }

  /** The fatal message for a field that could not be read from a composite of kind `kind`. */
  function ReadFailure(kind: string, e: AccessError): string {
    Responses.Wrapf(CannotReadContext(e.Path(), kind), ErrorText(e))
  }

  /** The success condition RunFunction ends with. */
  function SuccessCondition(): Responses.Condition {
    Responses.Condition(SuccessType, StatusTrue, SuccessReason, Responses.TargetCompositeAndClaim)
  }

  // ---------------------------------------------------------------------------------------------
  // Field extraction (fn.go:50-86)

  /** The fields, read in fn.go's order; the first one that cannot be read ends the extraction. */
  function Extract(xr: Composite.Resource): Result<Spec, AccessError> {
    var workspace :- GetString(xr, "spec.workspace");
    var region :- GetString(xr, "spec.region");
    var tenant :- GetString(xr, "spec.tenant");
    var image :- GetString(xr, "spec.image");
    var sizeGB :- GetInteger(xr, "spec.sizeGB");
    var name :- GetString(xr, "spec.name");
    Ok(Spec(workspace, region, tenant, image, sizeGB, name))
  }

  datatype FieldKind = StringField | IntegerField

  /** The fields in the order fn.go reads them, with the accessor it uses for each. */
  const SpecFields: seq<(string, FieldKind)> := [
    ("spec.workspace", StringField),
    ("spec.region", StringField),
    ("spec.tenant", StringField),
    ("spec.image", StringField),
    ("spec.sizeGB", IntegerField),
    ("spec.name", StringField)]

  /** The error the field's accessor reports, or None when the field can be read. */
  function Access(xr: Composite.Resource, field: (string, FieldKind)): Option<AccessError> {
    match field.1
    case StringField => (match GetString(xr, field.0) case Ok(_) => None case Err(e) => Some(e))
    case IntegerField => (match GetInteger(xr, field.0) case Ok(_) => None case Err(e) => Some(e))
  }

  /** The position of the first field, at or after `from`, that cannot be read. */
  function FirstUnreadable(xr: Composite.Resource, from: nat): (r: Option<nat>)
    requires from <= |SpecFields|
    ensures r.Some? ==>
      && from <= r.value < |SpecFields|
      && Access(xr, SpecFields[r.value]).Some?
      && forall j :: from <= j < r.value ==> Access(xr, SpecFields[j]).None?
    ensures r.None? ==> forall j :: from <= j < |SpecFields| ==> Access(xr, SpecFields[j]).None?
    decreases |SpecFields| - from
  {
    if from == |SpecFields| then None
    else if Access(xr, SpecFields[from]).Some? then Some(from)
    else FirstUnreadable(xr, from + 1)
  }

  /** First error wins: extraction fails exactly when some field cannot be read, and then with the
      error of the first such field in fn.go's order. */
  lemma ExtractFailsAtFirstUnreadable(xr: Composite.Resource)
    ensures Extract(xr).Err? <==> FirstUnreadable(xr, 0).Some?
    ensures Extract(xr).Err? ==>
      var i := FirstUnreadable(xr, 0).value;
      && Access(xr, SpecFields[i]) == Some(Extract(xr).error)
      && Extract(xr).error.Path() == SpecFields[i].0
  {
  }

  /** The composite's value at `path`, if any. */
  function Lookup(xr: Composite.Resource, path: string): Option<FieldValue> {
    if path in xr.fields then Some(xr.fields[path]) else None
  }

  /** `xr` and `other` have the same kind and agree on the first `n` fields of SpecFields. */
  predicate AgreeOnFirst(xr: Composite.Resource, other: Composite.Resource, n: nat) {
    && xr.kind == other.kind
    && forall j :: 0 <= j < n && j < |SpecFields| ==>
         Lookup(xr, SpecFields[j].0) == Lookup(other, SpecFields[j].0)
  }

  /** No field after the first unreadable one is read: changing any of them leaves the failure as it is. */
  lemma ExtractIgnoresLaterFields(xr: Composite.Resource, other: Composite.Resource)
    requires FirstUnreadable(xr, 0).Some?
    requires AgreeOnFirst(xr, other, FirstUnreadable(xr, 0).value + 1)
    ensures Extract(other) == Extract(xr)
  {
  }

  /** The composite document holding exactly the given fields. */
  function Encode(kind: string, spec: Spec): Composite.Resource {
    Composite.Resource(kind, map[
      "spec.workspace" := Str(spec.workspace),
      "spec.region" := Str(spec.region),
      "spec.tenant" := Str(spec.tenant),
      "spec.image" := Str(spec.image),
      "spec.sizeGB" := Int(spec.sizeGB),
      "spec.name" := Str(spec.name)])
  }

  /** Extraction reads back exactly the fields of a document that holds them, and a successful
      extraction returns exactly what the document holds at the six paths. */
  lemma ExtractRoundTrip(kind: string, spec: Spec, xr: Composite.Resource)
    ensures Extract(Encode(kind, spec)) == Ok(spec)
    ensures Extract(xr).Ok? ==>
      var enc := Encode(xr.kind, Extract(xr).value);
      forall p :: p in enc.fields ==> p in xr.fields && xr.fields[p] == enc.fields[p]
  {
  }

  // ---------------------------------------------------------------------------------------------
  // Derivation, readiness and merge (fn.go:89-164)

  /** The datacenter's desired entry, with the readiness observed under its key. */
  function DatacenterEntry(spec: Spec, observed: Observed): DesiredComposed {
    DesiredComposed(
      DatacenterManifest(DatacenterFor(spec.workspace, spec.region, spec.tenant)),
      ReadyFromObserved(observed, DatacenterKey(spec.workspace)))
  }

  /** The volume's desired entry, with the readiness observed under its key. */
  function VolumeEntry(spec: Spec, observed: Observed): DesiredComposed {
    DesiredComposed(
      VolumeManifest(VolumeFor(spec.workspace, spec.image, spec.sizeGB, spec.name)),
      ReadyFromObserved(observed, VolumeKey(spec.name)))
  }

  /** The desired resources after both keyed writes, the volume's last. */
  function Merged(desired: Desired, spec: Spec, observed: Observed): Desired {
    desired[DatacenterKey(spec.workspace) := DatacenterEntry(spec, observed)]
           [VolumeKey(spec.name) := VolumeEntry(spec, observed)]
  }

  /** The two keys coincide exactly when `spec.name` is the datacenter's name. */
  lemma KeysCollideIff(workspace: string, name: string)
    ensures VolumeKey(name) == DatacenterKey(workspace) <==> name == DatacenterName(workspace)
  {
    if VolumeKey(name) == DatacenterKey(workspace) {
      assert name == VolumeKey(name)[|KeyPrefix|..];
      assert DatacenterName(workspace) == DatacenterKey(workspace)[|KeyPrefix|..];
    }
  }

  /** The volume's key agrees with its metadata name only when `spec.name` is the workspace
      followed by "-volume". */
  lemma VolumeKeyIgnoresMetadataName(workspace: string, image: string, sizeGB: int, name: string)
    ensures var vol := VolumeFor(workspace, image, sizeGB, name);
      && VolumeKey(name) == KeyPrefix + vol.forProvider.name
      && (VolumeKey(name) == KeyPrefix + vol.metadata.name <==> name == workspace + "-volume")
  {
    var vol := VolumeFor(workspace, image, sizeGB, name);
    if VolumeKey(name) == KeyPrefix + vol.metadata.name {
      assert name == VolumeKey(name)[|KeyPrefix|..];
      assert vol.metadata.name == (KeyPrefix + vol.metadata.name)[|KeyPrefix|..];
    }
  }

  // ---------------------------------------------------------------------------------------------
  // The whole pass (fn.go:30-178)

  /** What RunFunction answers to a request. */
  function Transform(req: Request, sdk: Sdk): Responses.Response {
    var rsp := Responses.To(req.desired);
    match Extract(req.composite)
    case Err(e) => Responses.Fatal(rsp, ReadFailure(req.composite.kind, e))
    case Ok(spec) =>
      match sdk.convert(DatacenterEntry(spec, req.observed).resource)
      case Fail(err) => Responses.Fatal(rsp, Responses.Wrapf(ConvertDatacenterContext, err))
      case Pass =>
        match sdk.convert(VolumeEntry(spec, req.observed).resource)
        case Fail(err) => Responses.Fatal(rsp, Responses.Wrapf(ConvertVolumeContext, err))
        case Pass =>
          var desired := Merged(req.desired, spec, req.observed);
          match sdk.serialize(desired)
          case Fail(err) => Responses.Fatal(rsp, Responses.Wrapf(SetDesiredContext, err))
          case Pass =>
            Responses.ConditionTrueForCompositeAndClaim(
              Responses.SetDesiredComposedResources(rsp, desired), SuccessType, SuccessReason)
  }

  /** Every step of the pass went through: the fields were read, both manifests converted and the
      desired resources serialized. */
  predicate AllStepsPass(req: Request, sdk: Sdk) {
    && Extract(req.composite).Ok?
    && var spec := Extract(req.composite).value;
    && sdk.convert(DatacenterEntry(spec, req.observed).resource).Pass?
    && sdk.convert(VolumeEntry(spec, req.observed).resource).Pass?
    && sdk.serialize(Merged(req.desired, spec, req.observed)).Pass?
  }

  /** A response is either a success, with no result and exactly the success condition, or a
      failure, with exactly one fatal result on the composite, no condition and the request's
      desired resources untouched; it is a success exactly when every step passed. */
  lemma FatalOrSuccess(req: Request, sdk: Sdk)
    ensures var rsp := Transform(req, sdk);
      && (rsp.results == [] <==> AllStepsPass(req, sdk))
      && (rsp.results == [] ==> rsp.conditions == [SuccessCondition()])
      && (rsp.results != [] ==>
            && |rsp.results| == 1
            && rsp.results[0].severity == Responses.SeverityFatal
            && rsp.results[0].target == Responses.TargetComposite
            && rsp.conditions == []
            && rsp.desired == req.desired)
  {
  }

  /** A field that cannot be read gives one fatal result naming the first such field and the
      composite's kind, and nothing else. */
  lemma ReadFailureIsFatal(req: Request, sdk: Sdk)
    requires FirstUnreadable(req.composite, 0).Some?
    ensures var field := SpecFields[FirstUnreadable(req.composite, 0).value];
      var e := Access(req.composite, field).value;
      && e.Path() == field.0
      && Transform(req, sdk) == Responses.Response(
           req.desired,
           [Responses.Result(
              Responses.SeverityFatal,
              "cannot read " + field.0 + " field of " + req.composite.kind + ": " + ErrorText(e),
              Responses.TargetComposite)],
           [])
  {
  }

  /** The fatal response for a step after the reads: its message is the step's context wrapped
      around the collaborator's error. */
  lemma StepFailureIsFatal(req: Request, sdk: Sdk)
    requires Extract(req.composite).Ok?
    ensures var spec := Extract(req.composite).value;
      var dc := sdk.convert(DatacenterEntry(spec, req.observed).resource);
      dc.Fail? ==> Transform(req, sdk) == FailedWith(req, Responses.Wrapf(ConvertDatacenterContext, dc.error))
    ensures var spec := Extract(req.composite).value;
      var vol := sdk.convert(VolumeEntry(spec, req.observed).resource);
      sdk.convert(DatacenterEntry(spec, req.observed).resource).Pass? && vol.Fail? ==>
        Transform(req, sdk) == FailedWith(req, Responses.Wrapf(ConvertVolumeContext, vol.error))
    ensures var spec := Extract(req.composite).value;
      var ser := sdk.serialize(Merged(req.desired, spec, req.observed));
      sdk.convert(DatacenterEntry(spec, req.observed).resource).Pass? &&
      sdk.convert(VolumeEntry(spec, req.observed).resource).Pass? && ser.Fail? ==>
        Transform(req, sdk) == FailedWith(req, Responses.Wrapf(SetDesiredContext, ser.error))
  {
  }

  /** A response with the request's desired resources, one fatal result on the composite and no
      condition. */
  function FailedWith(req: Request, message: string): Responses.Response {
    Responses.Response(req.desired, [Responses.Result(Responses.SeverityFatal, message, Responses.TargetComposite)], [])
  }

  /** On success the desired resources are the request's with the two keys written, the volume's
      last, and every other entry as it was. */
  lemma SuccessMerge(req: Request, sdk: Sdk)
    requires Transform(req, sdk).results == []
    ensures Extract(req.composite).Ok?
    ensures var spec := Extract(req.composite).value;
      var out := Transform(req, sdk).desired;
      var dcKey, volKey := DatacenterKey(spec.workspace), VolumeKey(spec.name);
      && out.Keys == req.desired.Keys + {dcKey, volKey}
      && (forall k :: k in req.desired && k != dcKey && k != volKey ==> out[k] == req.desired[k])
      && out[volKey] == VolumeEntry(spec, req.observed)
      && (dcKey != volKey ==> out[dcKey] == DatacenterEntry(spec, req.observed))
  {
  }

  /** When `spec.name` is the datacenter's name, the volume's entry replaces the datacenter's. */
  lemma VolumeReplacesDatacenter(req: Request, sdk: Sdk)
    requires Transform(req, sdk).results == []
    requires Extract(req.composite).Ok?
    requires Extract(req.composite).value.name == DatacenterName(Extract(req.composite).value.workspace)
    ensures var spec := Extract(req.composite).value;
      Transform(req, sdk).desired[DatacenterKey(spec.workspace)] == VolumeEntry(spec, req.observed)
  {
  }

  /** On success each derived entry is Ready exactly when the runtime reports the resource under
      the same key as present, non-nil and Ready=True, and otherwise keeps the default. */
  lemma ReadinessPropagates(req: Request, sdk: Sdk)
    requires Transform(req, sdk).results == []
    ensures Extract(req.composite).Ok?
    ensures var spec := Extract(req.composite).value;
      var out := Transform(req, sdk).desired;
      var dcKey, volKey := DatacenterKey(spec.workspace), VolumeKey(spec.name);
      && (out[volKey].ready == ReadyTrue <==> ObservedReady(req.observed, volKey))
      && (out[volKey].ready != ReadyTrue ==> out[volKey].ready == ReadyUnspecified)
      && (dcKey != volKey ==>
            && (out[dcKey].ready == ReadyTrue <==> ObservedReady(req.observed, dcKey))
            && (out[dcKey].ready != ReadyTrue ==> out[dcKey].ready == ReadyUnspecified))
  {
  }

  /** Re-invoking with another observed state rewrites the same manifests: only Ready flags can
      differ, and every entry the function does not own is identical. */
  lemma BodiesIgnoreObserved(req: Request, observed: Observed, sdk: Sdk)
    requires Transform(req, sdk).results == []
    requires Transform(req.(observed := observed), sdk).results == []
    ensures var out1, out2 := Transform(req, sdk).desired, Transform(req.(observed := observed), sdk).desired;
      && out1.Keys == out2.Keys
      && (forall k :: k in out1 ==> out1[k].resource == out2[k].resource)
      && (forall k :: k in out1 && out1[k].ready != out2[k].ready ==>
            var spec := Extract(req.composite).value;
            k == DatacenterKey(spec.workspace) || k == VolumeKey(spec.name))
  {
    SuccessMerge(req, sdk);
    SuccessMerge(req.(observed := observed), sdk);
  }

  /** On success the derived manifests carry the composite's own field values: the volume its
      image, size and name, the datacenter (unless the volume replaced it) its workspace, region
      and tenant labels and the location derived from the region. */
  lemma SuccessReflectsComposite(req: Request, sdk: Sdk)
    requires Transform(req, sdk).results == []
    ensures Extract(req.composite).Ok?
    ensures var spec := Extract(req.composite).value;
      var xr, out := req.composite, Transform(req, sdk).desired;
      var vol := out[VolumeKey(spec.name)].resource;
      && vol.VolumeManifest?
      && xr.fields["spec.image"] == Str(vol.volume.forProvider.imageName)
      && xr.fields["spec.sizeGB"] == Int(vol.volume.forProvider.size)
      && xr.fields["spec.name"] == Str(vol.volume.forProvider.name)
      && (spec.name != DatacenterName(spec.workspace) ==>
            var dc := out[DatacenterKey(spec.workspace)].resource;
            && dc.DatacenterManifest?
            && xr.fields["spec.workspace"] == Str(dc.datacenter.metadata.labels[WorkspaceLabel])
            && xr.fields["spec.region"] == Str(dc.datacenter.metadata.labels[RegionLabel])
            && xr.fields["spec.tenant"] == Str(dc.datacenter.metadata.labels[TenantLabel])
            && dc.datacenter.forProvider.location == Location(dc.datacenter.metadata.labels[RegionLabel]))
  {
    var spec := Extract(req.composite).value;
    SuccessMerge(req, sdk);
    ExtractRoundTrip(req.composite.kind, spec, req.composite);
    KeysCollideIff(spec.workspace, spec.name);
    var enc := Encode(req.composite.kind, spec);
    assert "spec.image" in enc.fields && "spec.sizeGB" in enc.fields && "spec.name" in enc.fields;
    assert "spec.workspace" in enc.fields && "spec.region" in enc.fields && "spec.tenant" in enc.fields;
    DatacenterIdentity(spec.workspace, spec.region, spec.tenant);
  }

  /** RunFunction as fn.go writes it: a straight line of steps, each failure appending a fatal
      result and returning at once, the desired map updated by keyed assignment. */
  method RunFunction(req: Request, sdk: Sdk) returns (rsp: Responses.Response)
    ensures rsp == Transform(req, sdk)
  {
    rsp := Responses.To(req.desired);
    var observed, desired, xr := req.observed, req.desired, req.composite;

    var workspace := GetString(xr, "spec.workspace");
    if workspace.Err? {
      assert Extract(xr) == Err(workspace.error) && workspace.error.Path() == "spec.workspace";
      rsp := Responses.Fatal(rsp, Responses.Wrapf(CannotReadContext("spec.workspace", xr.kind), ErrorText(workspace.error)));
      return;
    }
    var region := GetString(xr, "spec.region");
    if region.Err? {
      assert Extract(xr) == Err(region.error) && region.error.Path() == "spec.region";
      rsp := Responses.Fatal(rsp, Responses.Wrapf(CannotReadContext("spec.region", xr.kind), ErrorText(region.error)));
      return;
    }
    var tenant := GetString(xr, "spec.tenant");
    if tenant.Err? {
      assert Extract(xr) == Err(tenant.error) && tenant.error.Path() == "spec.tenant";
      rsp := Responses.Fatal(rsp, Responses.Wrapf(CannotReadContext("spec.tenant", xr.kind), ErrorText(tenant.error)));
      return;
    }
    var image := GetString(xr, "spec.image");
    if image.Err? {
      assert Extract(xr) == Err(image.error) && image.error.Path() == "spec.image";
      rsp := Responses.Fatal(rsp, Responses.Wrapf(CannotReadContext("spec.image", xr.kind), ErrorText(image.error)));
      return;
    }
    var sizeGB := GetInteger(xr, "spec.sizeGB");
    if sizeGB.Err? {
      assert Extract(xr) == Err(sizeGB.error) && sizeGB.error.Path() == "spec.sizeGB";
      rsp := Responses.Fatal(rsp, Responses.Wrapf(CannotReadContext("spec.sizeGB", xr.kind), ErrorText(sizeGB.error)));
      return;
    }
    var name := GetString(xr, "spec.name");
    if name.Err? {
      assert Extract(xr) == Err(name.error) && name.error.Path() == "spec.name";
      rsp := Responses.Fatal(rsp, Responses.Wrapf(CannotReadContext("spec.name", xr.kind), ErrorText(name.error)));
      return;
    }
    ghost var spec := Spec(workspace.value, region.value, tenant.value, image.value, sizeGB.value, name.value);
    assert Extract(xr) == Ok(spec);

    var datacenterName := workspace.value + "-datacenter";
    var datacenter := DatacenterFor(workspace.value, region.value, tenant.value);
    var converted := sdk.convert(DatacenterManifest(datacenter));
    if converted.Fail? {
      rsp := Responses.Fatal(rsp, Responses.Wrapf(ConvertDatacenterContext, converted.error));
      return;
    }
    var desiredDatacenter := DesiredComposed(DatacenterManifest(datacenter), ReadyUnspecified);
    var datacenterKey := "xservers-" + datacenterName;
    if datacenterKey in observed && observed[datacenterKey].resource.Some? {
      if GetCondition(observed[datacenterKey].resource.value, TypeReady) == StatusTrue {
        desiredDatacenter := desiredDatacenter.(ready := ReadyTrue);
      }
    }
    desired := desired[datacenterKey := desiredDatacenter];

    var vol := VolumeFor(workspace.value, image.value, sizeGB.value, name.value);
    converted := sdk.convert(VolumeManifest(vol));
    if converted.Fail? {
      rsp := Responses.Fatal(rsp, Responses.Wrapf(ConvertVolumeContext, converted.error));
      return;
    }
    var desiredVolume := DesiredComposed(VolumeManifest(vol), ReadyUnspecified);
    var volumeKey := "xservers-" + name.value;
    if volumeKey in observed && observed[volumeKey].resource.Some? {
      if GetCondition(observed[volumeKey].resource.value, TypeReady) == StatusTrue {
        desiredVolume := desiredVolume.(ready := ReadyTrue);
      }
    }
    desired := desired[volumeKey := desiredVolume];
    assert desired == Merged(req.desired, spec, observed);

    var serialized := sdk.serialize(desired);
    if serialized.Fail? {
      rsp := Responses.Fatal(rsp, Responses.Wrapf(SetDesiredContext, serialized.error));
      return;
    }
    rsp := Responses.SetDesiredComposedResources(rsp, desired);
    rsp := Responses.ConditionTrueForCompositeAndClaim(rsp, SuccessType, SuccessReason);
  }

  /** Two runs on the same request give the same response: the function keeps no state. This
      follows at once from RunFunction's postcondition, which fixes the response as a function of
      the request and the collaborators; it is stated here as what a caller may rely on. */
  method RunTwice(req: Request, sdk: Sdk) returns (first: Responses.Response, second: Responses.Response)
    ensures first == second
  {
    first := RunFunction(req, sdk);
    second := RunFunction(req, sdk);
  }
}
