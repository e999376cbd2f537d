# kubeadmission-webhook: the mutation decision and its JSON patch

A Dafny model of the core of a Kubernetes mutating admission webhook. The
webhook is configured with a list of rules `{Namespace, Name, Mixed, Priority}`.
For each admission request it:

- decides whether the incoming Deployment is on that list, by comparing the
  string `name + "/" + namespace` with every rule's key; the last matching rule
  wins;
- builds a JSON patch (RFC 6902) from the matched rule. The patch sets the
  priority annotation and the mixed label. For a mixed rule it also sets the
  node selector entry and emits five `add` operations per container, each
  writing a whole single-entry map to the container's resource limits or
  requests. Applied in order, they leave the limits holding only the "shadow"
  memory entry and the requests only the pod count marker;
- returns the admission response: denied with code 400 for another kind or an
  undecodable object, allowed without a patch when nothing matches, and allowed
  with the patch otherwise.

Modules, one concept each:

- `Config`: the rule record (`MixedRes`).
- `Workload`: the Deployment fields the webhook reads. Go's map read returns
  `""` for an absent key, and this module models that with `Lookup`.
- `Strconv`: decimal and boolean formatting, with the parsers that invert them.
- `Matching`: keys and the last-match scan, as a specification function.
- `AddLabel`:
  - the patch operations, the key escaping and its RFC 6901 decoding partner;
  - the specification functions `MapOps` and `ResourceOps`;
  - the four builder methods, whose loops are proved equal to those functions.
- `PatchApply`: what `add` and `replace` do to a string-map field of the
  object (sections 4.1 and 4.3 of RFC 6902). It is the reference against which
  the builders' add-or-replace rule is checked.
- `Admission`: the response, the specification `MutateSpec` of `mutate`, the
  patch assembly, and the class `API`. The class holds the configuration
  snapshot that `Update` replaces. Its methods `GetRequiredList`,
  `MutationRequired` and `Mutate` follow the source step by step.

Two behaviours of the code are worth stating up front, because a reader might
expect otherwise:

- `mutationrequired.go:18-22` overwrites the index on every match, so the last
  matching rule wins, not the first.
- `addlabel.go:95` makes one add-or-replace check, on the template labels, and
  uses its outcome for both the selector and the template label operations.
  `PatchApply.ApplyLabelsSelector` shows the consequence: the patch fails when
  a label is on the template but not on the selector.

## Model

| member | source | states |
|---|---|---|
| `Matching.LastMatch` | pkg/core/admission/mutationrequired.go:11-25 | required holds exactly when some rule's `name/namespace` key equals the workload's; the index is then in range and points to a matching rule, and no later rule matches (last match wins); with no match the index is 0 |
| `Matching.LastMatchUnique` | pkg/core/admission/mutationrequired.go:18-22 | the last-match facts determine the decision: any `(index, required)` that satisfies them equals `LastMatch` |
| `Matching.LastDuplicateWins` | pkg/core/admission/mutationrequired.go:18-22 | with two rules for the same workload at `i < j` and no later duplicate, the decision is `(j, true)` |
| `Matching.KeyFieldwise` | pkg/core/admission/mutationrequired.go:16 | for names without '/', equal keys mean equal names and equal namespaces, and conversely |
| `Matching.KeyNotFieldwise` | pkg/core/admission/mutationrequired.go:16 | matching compares joined strings: `("a/b", "c")` and `("a", "b/c")` have the same key |
| `Admission.API.constructor` | pkg/core/admission/admission.go:33-37 | a new API has no configuration yet |
| `Admission.API.Update` | pkg/core/admission/admission.go:39-44 | the configuration is replaced wholesale by the new rule list |
| `Admission.API.GetRequiredList` | pkg/core/admission/admission.go:56-68 | one key per rule, in rule order, each `Name + "/" + Namespace` |
| `Admission.API.MutationRequired` | pkg/core/admission/mutationrequired.go:11-26 | the loop's `(index, required)` is the last match of the workload's key in the key list: required iff some rule matches, the index in range, matching and last, and 0 when nothing matches |
| `Admission.ToAdmissionResponse` | pkg/core/admission/admission.go:72-78 | not allowed; only the status message is set, with no code, no patch and no patch type |
| `Admission.MutateSpec` | pkg/core/admission/admission.go:146-223 | allowed iff the kind is "Deployment" and the object decodes; a denial has code 400 and either the kind message or the decode error text, and no patch; an allowed response carries a patch iff some rule matches; the patch and the JSONPatch type come together |
| `Admission.MutateDecoded` | pkg/core/admission/admission.go:174-220 | for a decoded Deployment: no match gives allowed with nothing else; a match gives allowed with the patch of the last matching rule and type JSONPatch |
| `Admission.MutateMatched` | pkg/core/admission/admission.go:180-220 | when rule `i` is the last one with the workload's key, the response is allowed with exactly rule `i`'s patch |
| `Admission.PatchHead` | pkg/core/admission/admission.go:183-194 | the first three operations are the priority annotation, then the mixed label on the selector and on the template; the kind of each follows its own field for the annotation and the template labels for both label operations |
| `Admission.PatchForNotMixed` | pkg/core/admission/admission.go:180-194 | a rule that is not mixed yields exactly those three operations, with the label value "false" |
| `Admission.PatchForMixed` | pkg/core/admission/admission.go:180-200 | a mixed rule yields the three operations with "true", then the node-selector entry `cmos/mixed-schedule: "true"`, then the container operations: 4 + 5N operations in all |
| `Admission.PatchForMixedContainer` | pkg/core/admission/admission.go:197-200 | with a mixed rule, operation `4 + 5c + k` is operation `k` of container `c` |
| `Admission.AssemblePatch` | pkg/core/admission/admission.go:180-201 | the appends of the four builders produce `PatchFor(rule, deployment)` |
| `Admission.API.Mutate` | pkg/core/admission/admission.go:146-223 | the method's response is `MutateSpec` of the configured rules |
| `AddLabel.MutatePodAnnotations` | pkg/core/admission/addlabel.go:71-91 | the loop's output is `MapOps` over the annotations path, including the reset of `target` after an add |
| `AddLabel.MutatePodLabels` | pkg/core/admission/addlabel.go:93-125 | the loop's output is `MapOps` over the selector path and then the template path, both decided by the template labels |
| `AddLabel.MutateNodeSelector` | pkg/core/admission/addlabel.go:188-208 | the loop's output is `MapOps` over the node-selector path |
| `AddLabel.MapOpsLength` | pkg/core/admission/addlabel.go:71-125 | one operation per key and field: one per key for annotations and node selector, two for labels |
| `AddLabel.MapOpsAt` | pkg/core/admission/addlabel.go:72-88 | operation `i*|bases| + b` is the operation for key `i` on field `b`; it is `add` exactly when key `i` or an earlier key was absent or empty in `target` (the reset to an empty map makes every later key an add), and `replace` otherwise |
| `AddLabel.MapOpsSingle` | pkg/core/admission/addlabel.go:73-87 | for one key: `add` of the single-entry map on each field path when the key reads as absent or empty, `replace` of the value on each escaped member path otherwise |
| `AddLabel.UnescapeEscapeKey` | pkg/core/admission/addlabel.go:85 | for a key without '~', RFC 6901 decoding of the escaped token gives back the key |
| `AddLabel.EscapeKeyIsToken` | pkg/core/admission/addlabel.go:85 | `EscapeKey` (`strings.Replace(key, "/", "~1", -1)`): no '/' survives escaping, so the token stays one path segment, and a key without '/' is its own token |
| `AddLabel.EscapeKeyAppend` | pkg/core/admission/addlabel.go:85 | escaping works character by character: the token of a concatenation is the concatenation of the tokens |
| `AddLabel.UnescapePrefix` | pkg/core/admission/addlabel.go:85 | an RFC 6901 reader leaves a '~'-free prefix of a token unchanged |
| `AddLabel.UnescapeSlashEscape` | pkg/core/admission/addlabel.go:85 | an RFC 6901 reader reads "~1" in front of a '~'-free rest as '/' |
| `AddLabel.EscapeTildeOne` | pkg/core/admission/addlabel.go:85 | a slash-free key that already contains "~1" is left as it is |
| `AddLabel.UnescapeOneSlash` | pkg/core/admission/addlabel.go:85 | for '~'-free parts, the token `a~1b` is read back as `a/b` |
| `AddLabel.EscapeKeyOneSlash` | pkg/core/admission/addlabel.go:85 | a key `a/b` with slash-free parts escapes to `a~1b`; for example `hc/riority` becomes `hc~1riority` |
| `AddLabel.EscapeKeyNotInjective` | pkg/core/admission/addlabel.go:85 | '~' is not escaped: for any parts `a`, `b` free of '/' and '~', the different keys `a/b` and `a~1b` give the same token `a~1b`, which RFC 6901 reads as `a/b` |
| `AddLabel.ContainerPath` | pkg/core/admission/addlabel.go:135 | the path is exactly the containers prefix, the decimal digits of the index (`FormatNat(index)`), "/resources/", then the section name |
| `AddLabel.ContainerOps` | pkg/core/admission/addlabel.go:133-168 | five `add` operations for one container: the first two on its limits path, the last three on its requests path |
| `AddLabel.ContainerPathsDistinct` | pkg/core/admission/addlabel.go:135 | two container paths are equal only for the same index and section |
| `AddLabel.ResourceOpsAt` | pkg/core/admission/addlabel.go:129-170 | exactly five operations per container, in container order; operation `5i + k` is operation `k` of container `i` (limits cpu, limits memory, requests cpu, requests memory, podcount "1") |
| `AddLabel.ResourceOpsAllAdd` | pkg/core/admission/addlabel.go:133-170 | every container operation is an `add` |
| `PatchApply.ContainerOpsOutcome` | pkg/core/admission/addlabel.go:133-168 | applying one container's five operations in order, whatever its resources held before, leaves limits = `{cmos.mixed/memory: memory limit}` and requests = `{cmos.mixed/podcount: "1"}`: each `add` replaces the whole field, so the cpu limit and both requests entries are overwritten |
| `AddLabel.MutateContainerResource` | pkg/core/admission/addlabel.go:127-186 | the loop's output is `ResourceOps` of the template's containers |
| `PatchApply.ApplyOneKey` | pkg/core/admission/addlabel.go:71-91 | applying a single-field builder's operation for a key without '~' succeeds and maps the key to the value. An add leaves the field as exactly that one entry, dropping any others; a replace keeps every other entry |
| `PatchApply.ApplyOneKeyAgain` | pkg/core/admission/addlabel.go:71-91 | re-applying the same operation to the patched field succeeds and changes nothing |
| `PatchApply.ReplaceMisreadsKey` | pkg/core/admission/addlabel.go:85 | for a set key whose token decodes to another present key, such as "a~1b", the replace changes the other entry and leaves the key's own entry untouched |
| `PatchApply.LabelOps` | pkg/core/admission/addlabel.go:93-125 | the label builder emits, for one key, the selector operation and then the template operation, both of the kind the template labels decide |
| `PatchApply.ApplyLabelsTemplate` | pkg/core/admission/addlabel.go:93-125 | on the template labels, the two label operations have the single-field outcome |
| `PatchApply.ApplyLabelsSelector` | pkg/core/admission/addlabel.go:93-125 | on the selector, the add case sets the single-entry map; the replace case succeeds with the value set iff the selector already holds the key, and fails otherwise |
| `Strconv.FormatNat` | pkg/core/admission/addlabel.go:135 | `%d` of a container index: at least one character, all decimal digits, a leading '0' only for zero, and zero printed as "0" |
| `Strconv.FormatInt` | pkg/core/admission/admission.go:184 | `strconv.FormatInt(priority, 10)`: a '-' first exactly for a negative number, decimal digits everywhere else |
| `Strconv.FormatNatInjective` | pkg/core/admission/addlabel.go:135 | different indexes print differently |
| `Strconv.ParseFormatInt` | pkg/core/admission/admission.go:184 | decimal formatting of the priority loses nothing: parsing it back gives the number, negative ones included |
| `Strconv.ParseFormatBool` | pkg/core/admission/admission.go:187 | `FormatBool` gives "true" exactly for true |

## Left out

- `serve`, `serveMutate` and `Routes` (pkg/core/admission/admission.go:46-54, 85-144) are left out. They cover HTTP body reading, the content-type check, the universal deserializer, copying the request UID into the response, and writing the reply. The decoded request is an input: a `Deployment` record or an error text.
- `json.Unmarshal` and `json.Marshal` are library code. Decoding is an input. Serialising the patch cannot fail for these value types, so the error branch at admission.go:203-212 is not modelled and the response holds the operation sequence itself.
- `resource.Quantity` is opaque: an absent resource entry reads as `ZeroQuantity`, and nothing is modelled about its JSON form.
- Locking (`mtx`) and concurrent requests are left out. `Admission.API.Mutate` reads the configuration once, while the code reads `api.conf` again without the lock at admission.go:180 and 184. Under a concurrent `Update` those reads could see a different snapshot; that race is not modelled.
- `Admission.API.GetRequiredList`, `Admission.API.MutationRequired` and `Admission.API.Mutate` require a configuration to be present. Only the path of a decoded Deployment reads the configuration (admission.go:174, then admission.go:63); the kind and decode errors return first (admission.go:155-172). cmd/main.go:76 loads the configuration and pkg/core/web/web.go:75 installs it with `Update` before the server starts, so the nil case the code would panic on does not arise.
- `AddLabel.ResourceOps`: the outcome of the container operations is stated one container at a time (`PatchApply.ContainerOpsOutcome`), on the two resources fields only. Applying them to a whole Deployment, across containers, and the case where a container has no `resources` object at all are not modelled.
- A nil `ar.Request` is left out: `mutate` reads `req.Kind.Kind` (admission.go:151) and would panic, while the model's `AdmissionRequest` is a plain value that is always present.
- A nil `*MixedRes` entry in the rule list is left out: the code would panic reading it, and rules are values here.
- `AddLabel.MutatePodAnnotations`, `AddLabel.MutatePodLabels`, `AddLabel.MutateNodeSelector`: the Go `added` map becomes a sequence of pairs. Go's map iteration order is unspecified, so nothing is claimed about order across keys. `mutate` always passes maps with one key.
- `PatchApply.ApplyOneKey`, `PatchApply.ApplyOneKeyAgain`, `PatchApply.ApplyLabelsTemplate`, `PatchApply.ApplyLabelsSelector`: these are stated only for keys without '~'. For other keys, escaping is not RFC 6901 escaping (see `PatchApply.ReplaceMisreadsKey`). The model applies patches only to a single string-map field, not to a whole Deployment document.
- `Config.Rule.priority` is a mathematical integer. The source passes a Go `int` where `strconv.FormatInt` expects `int64`, so no fixed width is modelled.
- A nil map and an empty map read alike: `target == nil || target[key] == ""` becomes `Lookup(target, key) == ""`.
- The log line at admission.go:151 is left out, and with it the request's namespace, name and UID, which only that line reads.
- The logger, pkg/core/web/web.go, pkg/core/web/models.go, cmd/main.go and `LoadFile` in pkg/config/config.go are not part of this model. They cover logging, the TLS server, the reload handshake, signals and file reading.
