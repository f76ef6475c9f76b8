/** The parts of the function SDK's `response` package that fn.go uses, on a response value:
    `To`, `Fatal`, `SetDesiredComposedResources` and `ConditionTrue(...).TargetCompositeAndClaim()`. */
module Responses {
  import Composed

  datatype Severity = SeverityNormal | SeverityWarning | SeverityFatal

  datatype Target = TargetComposite | TargetCompositeAndClaim

  /** A result record: severity, message and target. */
  datatype Result = Result(severity: Severity, message: string, target: Target)

  /** A status condition the function sets on the composite and its claim. */
  datatype Condition = Condition(
    conditionType: string, status: Composed.ConditionStatus, reason: string, target: Target)

  /** The parts of a function response the model tracks. */
  datatype Response = Response(desired: Composed.Desired, results: seq<Result>, conditions: seq<Condition>)

  /** A response for a request: it starts out with the request's desired resources, no results and
      no conditions. */
  function To(desired: Composed.Desired): (r: Response)
    ensures r.desired == desired && r.results == [] && r.conditions == []
  {
    Response(desired, [], [])
  }

  /** Appends a fatal result targeted at the composite. */
  function Fatal(rsp: Response, message: string): (r: Response)
    ensures r.desired == rsp.desired && r.conditions == rsp.conditions
    ensures |r.results| == |rsp.results| + 1 && r.results[..|rsp.results|] == rsp.results
    ensures r.results[|rsp.results|] == Result(SeverityFatal, message, TargetComposite)
  {
    rsp.(results := rsp.results + [Result(SeverityFatal, message, TargetComposite)])
  }

  /** Writes every given entry into the response's desired resources. */
  function SetDesiredComposedResources(rsp: Response, desired: Composed.Desired): (r: Response)
    ensures r.desired.Keys == rsp.desired.Keys + desired.Keys
    ensures forall k :: k in desired ==> r.desired[k] == desired[k]
    ensures forall k :: k in rsp.desired && k !in desired ==> r.desired[k] == rsp.desired[k]
    ensures r.results == rsp.results && r.conditions == rsp.conditions
  {
    rsp.(desired := rsp.desired + desired)
  }

  /** Appends a True condition targeted at the composite and its claim. */
  function ConditionTrueForCompositeAndClaim(rsp: Response, conditionType: string, reason: string): (r: Response)
    ensures r.desired == rsp.desired && r.results == rsp.results
    ensures |r.conditions| == |rsp.conditions| + 1 && r.conditions[..|rsp.conditions|] == rsp.conditions
    ensures r.conditions[|rsp.conditions|] == Condition(conditionType, Composed.StatusTrue, reason, TargetCompositeAndClaim)
  {
    rsp.(conditions := rsp.conditions + [Condition(conditionType, Composed.StatusTrue, reason, TargetCompositeAndClaim)])
  }

  /** The message of an error wrapped with a context, as `errors.Wrapf` writes it. */
  function Wrapf(context: string, cause: string): string {
    context + ": " + cause
  }
}
