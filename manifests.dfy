/** The two managed resources the function derives, shaped like the IONOS Cloud provider's
    `compute/v1alpha1` Datacenter and Volume, and how fn.go fills them in from the composite's fields. */
module Manifests {
  import opened Wrappers
  import Strings

  datatype ObjectMeta = ObjectMeta(name: string, labels: map<string, string>)

  datatype DatacenterParameters = DatacenterParameters(description: string, location: string, name: string)

  datatype Datacenter = Datacenter(metadata: ObjectMeta, forProvider: DatacenterParameters)

  /** A label selector: it matches resources carrying all of `matchLabels`. */
  datatype Selector = Selector(matchLabels: map<string, string>)

  /** The volume's parameters. `datacenterId` is the provider's direct reference to a datacenter;
      fn.go never sets it and relies on `datacenterIdSelector` instead. */
  datatype VolumeParameters = VolumeParameters(
    datacenterId: Option<string>,
    datacenterIdSelector: Option<Selector>,
    diskType: string,
    imageName: string,
    imagePassword: string,
    name: string,
    size: int)

  datatype Volume = Volume(metadata: ObjectMeta, forProvider: VolumeParameters)

  const DatacenterNameLabel: string := "ionos-cloud-datacenter-name"
  const WorkspaceLabel: string := "ionos-cloud-dc"
  const RegionLabel: string := "ionos-cloud-region"
  const TenantLabel: string := "ionos-cloud-tenant"
  const DiskType: string := "SSD"
  const ImagePassword: string := "thisisnotapassword"

  function DatacenterName(workspace: string): string {
    workspace + "-datacenter"
  }

  /** The provider's location syntax: the region with its first dash turned into a slash. */
  function Location(region: string): string {
    Strings.ReplaceFirst(region, '-', '/')
  }

  /** The datacenter fn.go builds for a workspace. */
  function DatacenterFor(workspace: string, region: string, tenant: string): Datacenter {
    var name := DatacenterName(workspace);
    Datacenter(
      ObjectMeta(name, map[
        DatacenterNameLabel := name,
        WorkspaceLabel := workspace,
        RegionLabel := region,
        TenantLabel := tenant]),
      DatacenterParameters("Datacenter for " + workspace, Location(region), name))
  }

  /** The volume fn.go builds; it finds its datacenter only through the workspace label. */
  function VolumeFor(workspace: string, image: string, sizeGB: int, name: string): Volume {
    Volume(
      ObjectMeta(workspace + "-volume", map[]),
      VolumeParameters(
        None,
        Some(Selector(map[WorkspaceLabel := workspace])),
        DiskType, image, ImagePassword, name, sizeGB))
  }

  /** A selector matches a labelled resource when every label it names is present with its value. */
  predicate Selects(selector: Selector, labels: map<string, string>) {
    forall k :: k in selector.matchLabels ==> k in labels && labels[k] == selector.matchLabels[k]
  }

  /** The datacenter's name is written three times, always the same; its labels are exactly the
      four discovery labels, and they carry the raw inputs. */
  lemma DatacenterIdentity(workspace: string, region: string, tenant: string)
    ensures var dc := DatacenterFor(workspace, region, tenant);
      && dc.metadata.name == dc.forProvider.name == DatacenterName(workspace)
      && dc.metadata.labels.Keys == {DatacenterNameLabel, WorkspaceLabel, RegionLabel, TenantLabel}
      && dc.metadata.labels[DatacenterNameLabel] == dc.metadata.name
      && dc.metadata.labels[WorkspaceLabel] == workspace
      && dc.metadata.labels[RegionLabel] == region
      && dc.metadata.labels[TenantLabel] == tenant
      && dc.forProvider.description == "Datacenter for " + workspace
  {
  }

  /** The volume is named after its workspace and carries no labels; its parameters hold the
      composite's image, size and name, the fixed disk type and image password. */
  lemma VolumeIdentity(workspace: string, image: string, sizeGB: int, name: string)
    ensures var vol := VolumeFor(workspace, image, sizeGB, name);
      && vol.metadata.name == workspace + "-volume"
      && vol.metadata.labels == map[]
      && vol.forProvider.diskType == "SSD"
      && vol.forProvider.imagePassword == "thisisnotapassword"
      && vol.forProvider.imageName == image
      && vol.forProvider.size == sizeGB
      && vol.forProvider.name == name
  {
  }

  /** Distinct workspaces give distinct datacenter names. */
  lemma DatacenterNameInjective(w1: string, w2: string)
    requires DatacenterName(w1) == DatacenterName(w2)
    ensures w1 == w2
  {
    var n := DatacenterName(w1);
    assert |w1| == |w2|;
    assert w1 == n[..|w1|];
  }

  /** The location keeps the region's length and every character but the first dash, which
      becomes a slash; a region without dashes is used as it is, and one without slashes can be
      read back from its location. */
  lemma LocationOfRegion(region: string)
    ensures |Location(region)| == |region|
    ensures '-' !in region ==> Location(region) == region
    ensures '-' in region ==>
      var i := Strings.IndexOf(region, '-').value;
      && '-' !in region[..i]
      && Location(region) == region[..i] + "/" + region[i + 1..]
    ensures '/' !in region ==> Strings.ReplaceFirst(Location(region), '/', '-') == region
  {
    Strings.ReplaceFirstAtIndex(region, '-', '/');
    if '/' !in region {
      Strings.ReplaceFirstUndo(region, '-', '/');
    }
  }

  /** The volume selects a datacenter exactly when the two were built for the same workspace,
      whatever their region, tenant and names; it holds no direct datacenter identifier. */
  lemma VolumeSelectsDatacenterOfWorkspace(
    workspace: string, image: string, sizeGB: int, name: string,
    dcWorkspace: string, region: string, tenant: string)
    ensures var vol := VolumeFor(workspace, image, sizeGB, name);
      && vol.forProvider.datacenterId.None?
      && vol.forProvider.datacenterIdSelector.Some?
      && vol.forProvider.datacenterIdSelector.value.matchLabels == map[WorkspaceLabel := workspace]
      && (Selects(vol.forProvider.datacenterIdSelector.value, DatacenterFor(dcWorkspace, region, tenant).metadata.labels)
          <==> workspace == dcWorkspace)
  {
    var vol := VolumeFor(workspace, image, sizeGB, name);
    var labels := DatacenterFor(dcWorkspace, region, tenant).metadata.labels;
    assert WorkspaceLabel in vol.forProvider.datacenterIdSelector.value.matchLabels;
    assert labels[WorkspaceLabel] == dcWorkspace;
  }
}
