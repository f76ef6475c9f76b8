/** The function SDK's composed resources: what the runtime observed and what the function desires,
    keyed by resource name, with the observed Ready condition and the desired Ready flag. */
module Composed {
  import opened Wrappers
  import Manifests

  /** A Kubernetes condition status. */
  datatype ConditionStatus = StatusTrue | StatusFalse | StatusUnknown

  /** A composed resource's body: one of the two manifests fn.go derives, or any other resource an
      earlier step of the pipeline put into the desired state. */
  datatype Manifest =
    | DatacenterManifest(datacenter: Manifests.Datacenter)
    | VolumeManifest(volume: Manifests.Volume)
    | OtherManifest(apiVersion: string, kind: string, name: string)

  /** The readiness a function reports for a desired resource; a fresh record starts unspecified. */
  datatype Ready = ReadyUnspecified | ReadyTrue | ReadyFalse

  datatype DesiredComposed = DesiredComposed(resource: Manifest, ready: Ready)

  /** An observed resource's status conditions, by condition type. */
  datatype ObservedResource = ObservedResource(conditions: map<string, ConditionStatus>)

  /** An observed entry; its resource may be nil. */
  datatype ObservedComposed = ObservedComposed(resource: Option<ObservedResource>)

  type Name = string
  type Desired = map<Name, DesiredComposed>
  type Observed = map<Name, ObservedComposed>

  const TypeReady: string := "Ready"

  /** The status of a condition type; a condition that is not there reads as Unknown. */
  function GetCondition(r: ObservedResource, conditionType: string): ConditionStatus {
    if conditionType in r.conditions then r.conditions[conditionType] else StatusUnknown
  }

  /** The runtime reports `name` as ready: present, non-nil, and with condition Ready=True. */
  predicate ObservedReady(observed: Observed, name: Name) {
    && name in observed
    && observed[name].resource.Some?
    && GetCondition(observed[name].resource.value, TypeReady) == StatusTrue
  }

  /** The Ready flag fn.go gives the desired entry for `name`: true when the observed resource is
      ready, and otherwise the fresh record's default, never an explicit false. */
  function ReadyFromObserved(observed: Observed, name: Name): (r: Ready)
    ensures r == ReadyTrue <==> ObservedReady(observed, name)
    ensures r != ReadyTrue ==> r == ReadyUnspecified
  {
    if name in observed && observed[name].resource.Some? then
      match GetCondition(observed[name].resource.value, TypeReady)
      case StatusTrue => ReadyTrue
      case _ => ReadyUnspecified
    else
      ReadyUnspecified
  }
}
