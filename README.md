# secastorage composition function, modelled in Dafny

This project models `RunFunction` in `fn.go`. It is a Crossplane composition function. For one
composite resource of kind `XSeCaStorage` it reads six fields: `spec.workspace`, `spec.region`,
`spec.tenant`, `spec.image`, `spec.sizeGB` and `spec.name`. From them it derives two IONOS Cloud
managed resources:

- a Datacenter named `<workspace>-datacenter`, with four discovery labels and a location made from
  the region by turning its first `-` into `/`;
- a Volume that finds its datacenter only through the label selector `ionos-cloud-dc=<workspace>`.

Each derived resource is marked Ready when the runtime observes it, under the same key, as
Ready=True. Both are written into the desired resources of earlier pipeline steps under the keys
`xservers-<workspace>-datacenter` and `xservers-<spec.name>`. The function then answers with either
one fatal result or the `FunctionSuccess` condition.

Modules, following the packages the Go code uses:

- `Wrappers` (wrappers.dfy): Option, Result (with `:-`), Outcome.
- `Strings` (strings.dfy): `strings.Replace(s, "-", "/", 1)` as `ReplaceFirst`, with `IndexOf` as its reference.
- `Composite` (composite.dfy): the composite resource as a kind plus a map from dotted path to
  `Str`, `Int` or another value, and the typed accessors `GetString` and `GetInteger`.
- `Manifests` (manifests.dfy): the Datacenter and Volume shapes and how fn.go fills them in.
- `Composed` (composed.dfy): observed and desired composed resources, conditions, and readiness.
- `Responses` (responses.dfy): the response value and the SDK's `To`, `Fatal`,
  `SetDesiredComposedResources` and `ConditionTrue(...).TargetCompositeAndClaim()`.
- `Fn` (fn.dfy): field extraction, the whole pass as the function `Transform`, and the imperative
  method `RunFunction`. The method mirrors fn.go step by step, with early returns and keyed writes
  into a local desired map, and is proved equal to `Transform`.
- `FnTest` (fn_test.dfy): the two cases of fn_test.go.

Foreign operations that may fail are parameters (`Fn.Sdk`): `composed.From` and the serialization
inside `SetDesiredComposedResources`. Each returns `Pass` or `Fail(text)`. A converted resource's
body is the typed manifest itself.

Points of fn.go the model pins down:

- The datacenter description is `"Datacenter for " + workspace` (fn.go:104).
- The region label keeps the raw region (fn.go:98). Only the location is rewritten (fn.go:105).
- The volume's metadata name is `workspace + "-volume"` (fn.go:128). Its key is built from
  `spec.name` (fn.go:157, fn.go:164).
- `spec.sizeGB` is read with the integer accessor (fn.go:70), and any error it reports ends the pass
  with a fatal result (fn.go:71-73). The model's accessor refuses every value that is not an
  integer in the `int64` range (see `Composite.GetInteger` under "## Left out").
- A failed conversion leaves no partial desired state in the response. The response starts with the
  request's desired resources (`response.To`, fn.go:32). The datacenter entry goes only into a local
  map (fn.go:123), and that map is written into the response only at fn.go:166. So every fatal return
  before fn.go:166 carries the request's desired resources unchanged. Because the model treats
  `Responses.SetDesiredComposedResources` as all-or-nothing, the model's fatal result at fn.go:167
  does too (`Fn.FatalOrSuccess`). The code itself may leave some entries written there (see
  "## Left out").

## Model

| member | source | states |
|---|---|---|
| `Strings.IndexOf` | fn.go:105 | the first occurrence: absent exactly when the character does not occur; otherwise an index holding it with none before it |
| `Strings.ReplaceFirst` | fn.go:105 | the rewrite keeps the length of its input |
| `Strings.ReplaceFirstAtIndex` | fn.go:105 | with no occurrence the string is unchanged; otherwise it is the prefix before the first occurrence, the replacement, and the untouched rest |
| `Strings.ReplaceFirstPointwise` | fn.go:105 | position by position, only the first occurrence changes |
| `Strings.ReplaceFirstUndo` | fn.go:105 | if the replacement character did not occur, rewriting it back restores the input, so the rewrite loses nothing |
| `Composite.GetString` | fn.go:50-82 | a value is read exactly when the path holds a string, and it is that string; a missing path gives `NoSuchField` and any other value `NotAString`, each naming the path |
| `Composite.GetInteger` | fn.go:70-74 | a value is read exactly when the path holds an integer in the `int64` range (the model's choice, see "## Left out"), and it is that integer; a missing path gives `NoSuchField` and any other value `NotAnInteger`, each naming the path |
| `Responses.To` | fn.go:32 | a new response holds the request's desired resources, no results and no conditions |
| `Responses.Fatal` | fn.go:52 | appends exactly one fatal result on the composite with the given message; the earlier results, the desired resources and the conditions are unchanged |
| `Responses.SetDesiredComposedResources` | fn.go:166 | every given entry is written under its key; other keys keep their entries; results and conditions are unchanged |
| `Responses.ConditionTrueForCompositeAndClaim` | fn.go:174-175 | appends exactly one True condition of the given type and reason on the composite and claim; nothing else changes |
| `Responses.Wrapf` | fn.go:52-167 | no contract of its own; the messages it builds are stated by `Fn.ReadFailureIsFatal` and `Fn.StepFailureIsFatal` |
| `Manifests.DatacenterName` | fn.go:89 | no contract of its own; specified by `Manifests.DatacenterNameInjective`, `Manifests.DatacenterIdentity` and `Fn.KeysCollideIff` |
| `Manifests.Location` | fn.go:105 | no contract of its own; specified by `Manifests.LocationOfRegion` |
| `Manifests.DatacenterFor` | fn.go:89-109 | no contract of its own; specified by `Manifests.DatacenterIdentity`, `Manifests.DatacenterNameInjective` and `Manifests.LocationOfRegion` |
| `Manifests.VolumeFor` | fn.go:126-149 | no contract of its own; specified by `Manifests.VolumeIdentity` and `Manifests.VolumeSelectsDatacenterOfWorkspace` |
| `Manifests.VolumeIdentity` | fn.go:126-149 | the volume's metadata name is the workspace followed by `-volume` and it has no labels; disk type `SSD`, image password `thisisnotapassword`, and the given image, size and name |
| `Manifests.DatacenterIdentity` | fn.go:89-109 | the datacenter name is the same in metadata.name, forProvider.name and the `ionos-cloud-datacenter-name` label; the labels are exactly the four discovery labels, holding workspace, raw region and tenant; the description is "Datacenter for" plus workspace |
| `Manifests.DatacenterNameInjective` | fn.go:89 | distinct workspaces give distinct datacenter names |
| `Manifests.LocationOfRegion` | fn.go:98-105 | the location has the region's length; a region without `-` is kept as is; otherwise only the first `-` becomes `/`; a region without `/` can be read back from its location |
| `Manifests.VolumeSelectsDatacenterOfWorkspace` | fn.go:126-147 | the volume has no direct datacenter id; its selector is exactly `{ionos-cloud-dc: workspace}`; it selects a datacenter exactly when both were built for the same workspace, whatever their region, tenant and names |
| `Composed.ReadyFromObserved` | fn.go:116-122 | Ready is true exactly when the observed map has the key, its resource is non-nil and its Ready condition is True; otherwise the fresh record's default, never an explicit false |
| `Fn.FirstUnreadable` | fn.go:50-86 | the first field, in fn.go's reading order, whose accessor fails; none only when all fields can be read |
| `Fn.Extract` | fn.go:50-86 | no contract of its own; specified by `Fn.ExtractFailsAtFirstUnreadable`, `Fn.ExtractIgnoresLaterFields` and `Fn.ExtractRoundTrip` |
| `Fn.ExtractFailsAtFirstUnreadable` | fn.go:50-86 | extraction fails exactly when some field cannot be read, and with the error for the first such field, whose path it names |
| `Fn.ExtractIgnoresLaterFields` | fn.go:50-86 | fields after the first unreadable one are never read: changing them does not change the failure |
| `Fn.ExtractRoundTrip` | fn.go:50-86 | a document holding the six fields extracts to exactly those values, and a successful extraction returns what the document holds at the six paths |
| `Fn.DatacenterKey` | fn.go:117-123 | no contract of its own; specified by `Fn.KeysCollideIff`, `Fn.ReadinessPropagates` and `FnTest.SuccessKeys` |
| `Fn.VolumeKey` | fn.go:157-164 | no contract of its own; specified by `Fn.KeysCollideIff`, `Fn.VolumeKeyIgnoresMetadataName` and `FnTest.SuccessKeys` |
| `Fn.ReadFailure` | fn.go:50-86 | no contract of its own; specified by `Fn.ReadFailureIsFatal` |
| `Fn.DatacenterEntry` | fn.go:116-123 | no contract of its own; specified by `Fn.ReadinessPropagates`, `Fn.SuccessReflectsComposite` and `FnTest.SuccessCase` |
| `Fn.VolumeEntry` | fn.go:156-164 | no contract of its own; specified by `Fn.ReadinessPropagates`, `Fn.SuccessReflectsComposite` and `FnTest.SuccessFixtureCorrected` |
| `Fn.Merged` | fn.go:116-164 | no contract of its own; specified by `Fn.SuccessMerge`, `Fn.VolumeReplacesDatacenter` and `Fn.BodiesIgnoreObserved` |
| `Fn.KeysCollideIff` | fn.go:117-164 | the datacenter key and volume key coincide exactly when `spec.name` is the datacenter's name |
| `Fn.VolumeKeyIgnoresMetadataName` | fn.go:126-164 | the volume's key is built from `spec.name`; it matches the volume's metadata name only if `spec.name` is the workspace followed by `-volume` |
| `Fn.Transform` | fn.go:30-178 | no contract of its own; specified by `Fn.FatalOrSuccess`, `Fn.ReadFailureIsFatal`, `Fn.SuccessMerge` and the lemmas after it, and implemented by `Fn.RunFunction` |
| `Fn.FatalOrSuccess` | fn.go:30-178 | a success has no result and exactly the `FunctionSuccess`/`Success` condition on composite and claim, and occurs exactly when every step passes; otherwise there is exactly one fatal result on the composite, no condition, and the request's desired resources unchanged (for the fatal result at fn.go:167 this relies on the all-or-nothing write listed under "## Left out") |
| `Fn.ReadFailureIsFatal` | fn.go:50-86 | an unreadable field gives exactly one fatal result, with the message "cannot read <path> field of <kind>: ..." for the first such field |
| `Fn.StepFailureIsFatal` | fn.go:110-168 | after a successful read, a failed datacenter conversion, volume conversion or serialization gives exactly one fatal result on the composite whose message is the step's context ("cannot convert *v1alpha1.Datacenter to *composed.Unstructured", "cannot convert v1alpha1.Volume to *composed.Unstructured", "cannot set desired composed resources in *v1.RunFunctionResponse"), a colon and the cause; no condition; the request's desired resources |
| `Fn.SuccessMerge` | fn.go:116-169 | on success the desired keys are the request's plus the two derived keys; every other entry is unchanged; the volume's entry is under its key, and the datacenter's under its key when the keys differ |
| `Fn.VolumeReplacesDatacenter` | fn.go:123-164 | when `spec.name` is the datacenter's name, the volume's entry, written last, replaces the datacenter's |
| `Fn.ReadinessPropagates` | fn.go:116-162 | on success each derived entry is Ready exactly when the runtime reports the same key as present, non-nil and Ready=True, and otherwise stays at the default |
| `Fn.BodiesIgnoreObserved` | fn.go:89-164 | runs that differ only in observed state give the same keys and resource bodies; only the two derived entries' Ready flags can differ |
| `Fn.SuccessReflectsComposite` | fn.go:50-149 | on success the volume carries the composite's image, size and name; unless it replaced the datacenter, the datacenter carries its workspace, raw region and tenant in labels, with the location derived from the region label |
| `Fn.RunFunction` | fn.go:30-178 | the imperative pass returns exactly the response that `Transform` specifies |
| `Fn.RunTwice` | fn.go:23-178 | two runs on the same request give the same response; no state is kept between calls (this follows directly from `Fn.RunFunction`'s postcondition) |
| `FnTest.SuccessFields` | fn_test.go:41-66 | the "Success" composite extracts to the fixture's six fields |
| `FnTest.SuccessKeys` | fn_test.go:126-133 | the keys fn.go builds for the "Success" case are `xservers-test-ws-datacenter` and `xservers-test-volume`, and they differ |
| `FnTest.SuccessPasses` | fn_test.go:41-66 | every step of the "Success" request passes |
| `FnTest.SuccessDatacenter` | fn_test.go:69-86 | the derived datacenter for the "Success" case is exactly the fixture's, including location `de/txl` |
| `FnTest.SuccessLocation` | fn_test.go:82 | the "Success" region `de/txl` has no dash, so it is its own location |
| `FnTest.SuccessNames` | fn_test.go:71 | the datacenter name for workspace `test-ws` is `test-ws-datacenter` |
| `FnTest.SuccessLabels` | fn_test.go:72-77 | the derived datacenter's labels are exactly the fixture's four labels |
| `FnTest.SuccessVolume` | fn_test.go:92-110 | the volume derived for the "Success" inputs equals the fixture volume with fn.go's `test-ws-volume` name |
| `FnTest.SuccessCase` | fn_test.go:41-137 | "Success": no result, the success condition, exactly the two expected keys, and the expected datacenter, not ready |
| `FnTest.SuccessFixtureVolumeDisagrees` | fn_test.go:92-110 | the fixture's volume, named `test-ws_volume`, is not what fn.go derives, which is named `test-ws-volume` |
| `FnTest.SuccessFixtureCorrected` | fn_test.go:92-110 | with fn.go's name, the fixture's volume is exactly the derived desired entry |
| `FnTest.FatalMissingWorkspaceCase` | fn_test.go:140-166 | "FatalMissingWorkspace": no desired resources, no condition, one fatal result on the composite whose message begins "cannot read spec.workspace field of XSeCaStorage: " |

## Left out

- The gRPC and protobuf envelope, the request tag and the response TTL (fn.go:30-32) are not modelled. They are transport plumbing.
- Logging (fn.go:31, 90, 119, 125, 159) is not modelled. It has no effect on the response.
- `v1alpha1.AddToScheme` (fn.go:91) is not modelled. It registers types in a process-wide scheme owned by a library.
- Request decoding (fn.go:34-48) is not modelled: the model's request is already decoded. This leaves out the one path that returns a Go error instead of a response (fn.go:34-37) and the two decoding paths that end in a fatal result (fn.go:39-48).
- `composed.From` and the serialization in `SetDesiredComposedResources` are opaque `Fn.Sdk` outcomes. The model does not compute the unstructured document; a resource's body is its typed manifest.
- `Responses.SetDesiredComposedResources`: modelled as all-or-nothing. A serialization failure part-way through its loop, after some entries were already written into the response, is not modelled. So after the fatal result at fn.go:167, the real response may hold some of the new entries, while the model's holds the request's desired resources.
- `Composite.ErrorText`: the text after the colon in a read failure is the model's own. The SDK names the first missing path segment instead, so "spec: no such field" at fn_test.go:161 reads "spec.workspace: no such field" here.
- `Composite.Resource`: the composite is a flat map from dotted path to value. Nested objects and arrays are not modelled.
- `Composite.GetInteger`: the SDK's handling of numbers that are not exact `int64` values is not modelled, because the accessor's code is not part of this model. Numbers in the request's document arrive as floating point and the SDK may convert them. The model instead refuses fractional and out-of-range numbers with `NotAnInteger`.
- `float64(sizeGB)` (fn.go:146) is not modelled: the volume size stays an integer.
- The commented-out sku read and server selector (fn.go:75-80, fn.go:137-141) have no behaviour and are not modelled.
- `Composed.GetCondition`: an observed resource's conditions are a map from condition type to status, and a missing type reads as Unknown. How the runtime parses the status block is not modelled.
- `Strings.ReplaceFirst`: only one-character `old` and `new` strings are modelled, which is the only use in fn.go.
- The derived manifests' `apiVersion` and `kind` are not modelled as strings. The `Composed.Manifest` constructor stands for them.
- The observed map is never modified: it is an immutable value passed into `Fn.RunFunction`, so nothing needs to be proved about it.

## Findings

| source | as written | input that shows it | evidently intended | confidence | as-written member | corrected member |
|---|---|---|---|---|---|---|
| fn_test.go:94 | the "Success" fixture expects the volume's `metadata.name` to be `test-ws_volume`; fn.go:128 names it `workspace + "-volume"` (the log line at fn.go:125 also says `_volume`) | the "Success" case, workspace `test-ws` | the fixture expects `test-ws-volume`, the same `-` separator fn.go uses for the datacenter | not executed; medium | `FnTest.SuccessFixtureVolumeDisagrees` | `FnTest.SuccessFixtureCorrected` |
