/** The mutate decision of the webhook (pkg/core/admission/admission.go): the admission
    response, the pure specification `MutateSpec` of `mutate`, and the `API` object whose
    configuration snapshot `Update` replaces and whose methods `GetRequiredList`,
    `MutationRequired` and `Mutate` follow the source step by step. */
module Admission {
  import opened Wrappers
  import opened Config
  import opened Workload
  import opened Strconv
  import opened AddLabel
  import opened Matching

  /** `req.Object.Raw` after `json.Unmarshal` into a Deployment: the record, or the error text. */
  datatype DecodedObject = Decoded(deployment: Deployment) | DecodeError(message: string)

  /** The fields of the admission request that `mutate` reads. */
  datatype AdmissionRequest = AdmissionRequest(kind: string, decoded: DecodedObject)

  /** `metav1.Status`; a code of 0 means the code was left unset. */
  datatype Status = Status(code: int, message: string)

  datatype PatchType = JSONPatch

  /** `admissionv1.AdmissionResponse` without the UID, which the HTTP layer fills in. The patch
      is kept as the operation sequence that is serialised into `Patch`. */
  datatype AdmissionResponse = AdmissionResponse(
    allowed: bool,
    result: Option<Status>,
    patch: Option<seq<PatchOperation>>,
    patchType: Option<PatchType>)

  const StatusBadRequest: int := 400
  const DeploymentKind: string := "Deployment"
  const MixedScheduleValue: string := "true"

  /** `toAdmissionResponse`: the request is not allowed and only the status message is set. */
  function ToAdmissionResponse(message: string): (r: AdmissionResponse)
    ensures !r.allowed
    ensures r.result == Some(Status(0, message))
    ensures r.patch == None && r.patchType == None
  {
    AdmissionResponse(false, Some(Status(0, message)), None, None)
  }

  function UnsupportedKindMessage(kind: string): string {
    "can't handle the kind(" + kind + ") object"
  }

  function Denied(message: string): AdmissionResponse {
    AdmissionResponse(false, Some(Status(StatusBadRequest, message)), None, None)
  }

  /** The annotation and label operations that every matched Deployment gets. */
  function HeadOps(rule: Rule, d: Deployment): seq<PatchOperation> {
    MapOps([AnnotationsPath], d.templateAnnotations, [(PodAnnotationPriorityKey, FormatInt(rule.priority))])
    + MapOps([SelectorLabelsPath, TemplateLabelsPath], d.templateLabels, [(PodLabelMixedKey, FormatBool(rule.mixed))])
  }

  /** The patch for a Deployment matched by `rule`: the priority annotation, the mixed label on
      selector and template, and, for a mixed rule only, the node selector entry and the
      shadow resource entries of every container. */
  function PatchFor(rule: Rule, d: Deployment): seq<PatchOperation> {
    HeadOps(rule, d)
    + (if rule.mixed
       then MapOps([NodeSelectorPath], d.nodeSelector, [(PodNodeSelectorKey, MixedScheduleValue)]) + ResourceOps(d.containers)
       else [])
  }

  /** The response `mutate` gives for `req` when `rules` is the configured rule list.
      A request is allowed exactly when it is a Deployment that decodes; an allowed request
      carries a JSON patch exactly when its workload is on the list. */
  function MutateSpec(rules: seq<Rule>, req: AdmissionRequest): (r: AdmissionResponse)
    ensures r.allowed <==> req.kind == DeploymentKind && req.decoded.Decoded?
    ensures r.allowed ==> r.result == None
    ensures !r.allowed ==> r.patch == None && r.patchType == None
    ensures !r.allowed ==> r.result.Some? && r.result.value.code == StatusBadRequest
    ensures req.kind != DeploymentKind ==> r.result.value.message == UnsupportedKindMessage(req.kind)
    ensures req.kind == DeploymentKind && req.decoded.DecodeError? ==> r.result.value.message == req.decoded.message
    ensures r.allowed ==>
      var meta := req.decoded.deployment.meta;
      (r.patch.Some? <==> exists i :: 0 <= i < |rules| && RuleKey(rules[i]) == Key(meta.name, meta.namespace))
    ensures r.patch.Some? <==> r.patchType == Some(JSONPatch)
  {
    if req.kind != DeploymentKind then Denied(UnsupportedKindMessage(req.kind))
    else match req.decoded
      case DecodeError(message) => Denied(message)
      case Decoded(d) =>
        var decision := LastMatch(rules, Key(d.meta.name, d.meta.namespace));
        if !decision.required then AdmissionResponse(true, None, None, None)
        else AdmissionResponse(true, None, Some(PatchFor(rules[decision.index], d)), Some(JSONPatch))
  }

  /** For a Deployment that decodes, the response depends only on the last matching rule. */
  lemma MutateDecoded(rules: seq<Rule>, req: AdmissionRequest, d: Deployment, decision: Decision)
    requires req.kind == DeploymentKind && req.decoded == Decoded(d)
    requires decision == LastMatch(rules, Key(d.meta.name, d.meta.namespace))
    ensures !decision.required ==> MutateSpec(rules, req) == AdmissionResponse(true, None, None, None)
    ensures decision.required ==>
      MutateSpec(rules, req) == AdmissionResponse(true, None, Some(PatchFor(rules[decision.index], d)), Some(JSONPatch))
  {
  }

  /** A matched Deployment gets the patch of the LAST rule whose key equals its own. */
  lemma MutateMatched(rules: seq<Rule>, req: AdmissionRequest, i: nat)
    requires req.kind == DeploymentKind && req.decoded.Decoded?
    requires i < |rules|
    requires RuleKey(rules[i]) == Key(req.decoded.deployment.meta.name, req.decoded.deployment.meta.namespace)
    requires forall j :: i < j < |rules| ==> RuleKey(rules[j]) != RuleKey(rules[i])
    ensures MutateSpec(rules, req)
         == AdmissionResponse(true, None, Some(PatchFor(rules[i], req.decoded.deployment)), Some(JSONPatch))
  {
  }

  /** A rule that is not mixed yields exactly three operations: the priority annotation, then
      the mixed label "false" on the selector and on the template, both of the kind that the
      template labels decide. */
  lemma PatchForNotMixed(rule: Rule, d: Deployment)
    requires !rule.mixed
    ensures PatchFor(rule, d) == [
      SetOp(AnnotationsPath, Lookup(d.templateAnnotations, PodAnnotationPriorityKey) == "",
            PodAnnotationPriorityKey, FormatInt(rule.priority)),
      SetOp(SelectorLabelsPath, Lookup(d.templateLabels, PodLabelMixedKey) == "", PodLabelMixedKey, "false"),
      SetOp(TemplateLabelsPath, Lookup(d.templateLabels, PodLabelMixedKey) == "", PodLabelMixedKey, "false")]
  {
    PatchHead(rule, d);
    assert PatchFor(rule, d) == HeadOps(rule, d) + [];
  }

  /** A mixed rule yields 4 + 5 * N operations for N containers: the same three first (with
      the label "true"), then the node selector entry, then the containers' resource entries. */
  lemma PatchForMixed(rule: Rule, d: Deployment)
    requires rule.mixed
    ensures PatchFor(rule, d) == [
      SetOp(AnnotationsPath, Lookup(d.templateAnnotations, PodAnnotationPriorityKey) == "",
            PodAnnotationPriorityKey, FormatInt(rule.priority)),
      SetOp(SelectorLabelsPath, Lookup(d.templateLabels, PodLabelMixedKey) == "", PodLabelMixedKey, "true"),
      SetOp(TemplateLabelsPath, Lookup(d.templateLabels, PodLabelMixedKey) == "", PodLabelMixedKey, "true"),
      SetOp(NodeSelectorPath, Lookup(d.nodeSelector, PodNodeSelectorKey) == "", PodNodeSelectorKey, MixedScheduleValue)]
      + ResourceOps(d.containers)
    ensures |PatchFor(rule, d)| == 4 + 5 * |d.containers|
  {
    var head := HeadOps(rule, d);
    var nodeAdd := Lookup(d.nodeSelector, PodNodeSelectorKey) == "";
    var node := MapOps([NodeSelectorPath], d.nodeSelector, [(PodNodeSelectorKey, MixedScheduleValue)]);
    var rest := ResourceOps(d.containers);
    assert PatchFor(rule, d) == head + (node + rest) by {
      PatchHead(rule, d);
    }
    assert node == [SetOp(NodeSelectorPath, nodeAdd, PodNodeSelectorKey, MixedScheduleValue)] by {
      MapOpsSingle([NodeSelectorPath], d.nodeSelector, PodNodeSelectorKey, MixedScheduleValue);
      KeyOpsOne(NodeSelectorPath, nodeAdd, PodNodeSelectorKey, MixedScheduleValue);
    }
    assert |rest| == 5 * |d.containers| by {
      ResourceOpsLength(d.containers);
    }
    PatchHead(rule, d);
    assert head + (node + rest) == (head + node) + rest;
  }

  /** With a mixed rule, operation 4 + 5 * c + k is operation k of container c's group of five
      `add` operations. */
  lemma PatchForMixedContainer(rule: Rule, d: Deployment, c: nat, k: nat)
    requires rule.mixed
    requires c < |d.containers| && k < 5
    ensures |PatchFor(rule, d)| == 4 + 5 * |d.containers|
    ensures PatchFor(rule, d)[4 + 5 * c + k] == ContainerOps(c, d.containers[c])[k]
  {
    PatchForMixed(rule, d);
    ResourceOpsAt(d.containers, c, k);
    var head := PatchFor(rule, d)[..4];
    var rest := ResourceOps(d.containers);
    assert PatchFor(rule, d) == head + rest;
    assert (head + rest)[4 + 5 * c + k] == rest[5 * c + k];
  }

  /** The annotation operation and the two label operations, each of the kind its field decides. */
  lemma PatchHead(rule: Rule, d: Deployment)
    ensures HeadOps(rule, d) == [
      SetOp(AnnotationsPath, Lookup(d.templateAnnotations, PodAnnotationPriorityKey) == "",
            PodAnnotationPriorityKey, FormatInt(rule.priority)),
      SetOp(SelectorLabelsPath, Lookup(d.templateLabels, PodLabelMixedKey) == "", PodLabelMixedKey, FormatBool(rule.mixed)),
      SetOp(TemplateLabelsPath, Lookup(d.templateLabels, PodLabelMixedKey) == "", PodLabelMixedKey, FormatBool(rule.mixed))]
  {
    var priority := FormatInt(rule.priority);
    var mixed := FormatBool(rule.mixed);
    var annAdd := Lookup(d.templateAnnotations, PodAnnotationPriorityKey) == "";
    var labelAdd := Lookup(d.templateLabels, PodLabelMixedKey) == "";
    assert MapOps([AnnotationsPath], d.templateAnnotations, [(PodAnnotationPriorityKey, priority)])
        == [SetOp(AnnotationsPath, annAdd, PodAnnotationPriorityKey, priority)] by {
      MapOpsSingle([AnnotationsPath], d.templateAnnotations, PodAnnotationPriorityKey, priority);
      KeyOpsOne(AnnotationsPath, annAdd, PodAnnotationPriorityKey, priority);
    }
    assert MapOps([SelectorLabelsPath, TemplateLabelsPath], d.templateLabels, [(PodLabelMixedKey, mixed)])
        == [SetOp(SelectorLabelsPath, labelAdd, PodLabelMixedKey, mixed), SetOp(TemplateLabelsPath, labelAdd, PodLabelMixedKey, mixed)] by {
      MapOpsSingle([SelectorLabelsPath, TemplateLabelsPath], d.templateLabels, PodLabelMixedKey, mixed);
      KeyOpsTwo(SelectorLabelsPath, TemplateLabelsPath, labelAdd, PodLabelMixedKey, mixed);
    }
  }

  /** The patch assembly at the end of `mutate`: the annotation and label builders, then, for
      a mixed rule, the node selector and container resource builders, concatenated in that
      order. */
  method AssemblePatch(rule: Rule, deployment: Deployment) returns (patch: seq<PatchOperation>)
    ensures patch == PatchFor(rule, deployment)
  {
    var mixed := rule.mixed;
    var podAnnotations := [(PodAnnotationPriorityKey, FormatInt(rule.priority))];
    var podLabels := [(PodLabelMixedKey, FormatBool(mixed))];
    var nodeSelectorLabels := [(PodNodeSelectorKey, MixedScheduleValue)];
    patch := [];
    var ops := MutatePodAnnotations(deployment.templateAnnotations, podAnnotations);
    patch := patch + ops;
    ops := MutatePodLabels(deployment.templateLabels, podLabels);
    patch := patch + ops;
    assert patch == HeadOps(rule, deployment);
    if mixed {
      ops := MutateNodeSelector(deployment.nodeSelector, nodeSelectorLabels);
      ghost var node := ops;
      patch := patch + ops;
      ops := MutateContainerResource(deployment);
      patch := patch + ops;
      assert patch == HeadOps(rule, deployment) + (node + ops);
    }
    PatchHead(rule, deployment);
  }

  /** The webhook's admission API: the configuration snapshot it serves from. `conf` is None
      until the first `Update`, as `conf` is nil after `NewAPI`. */
  class API {
    var conf: Option<seq<Rule>>

    /** `NewAPI`. */
    constructor ()
      ensures conf == None
    {
      conf := None;
    }

    /** `Update`: the whole rule list is replaced by the new snapshot. */
    method Update(rules: seq<Rule>)
      modifies this
      ensures conf == Some(rules)
    {
      conf := Some(rules);
    }

    /** `getRequiredList`: one key per rule, in rule order. */
    method GetRequiredList() returns (requirements: seq<string>)
      requires conf.Some?
      ensures |requirements| == |conf.value|
      ensures forall i :: 0 <= i < |requirements| ==>
        requirements[i] == conf.value[i].name + "/" + conf.value[i].namespace
    {
      var rules := conf.value;
      requirements := [];
      var i := 0;
      while i < |rules|
        invariant 0 <= i <= |rules|
        invariant |requirements| == i
        invariant forall k :: 0 <= k < i ==> requirements[k] == rules[k].name + "/" + rules[k].namespace
      {
        requirements := requirements + [rules[i].name + "/" + rules[i].namespace];
        i := i + 1;
      }
    }

    /** `mutationRequired`: whether some rule has the workload's key, and then the index of the
        last such rule; otherwise the index stays 0. */
    method MutationRequired(meta: ObjectMeta) returns (index: int, required: bool)
      requires conf.Some?
      ensures required <==> exists i :: 0 <= i < |conf.value| && RuleKey(conf.value[i]) == Key(meta.name, meta.namespace)
      ensures required ==> 0 <= index < |conf.value| && RuleKey(conf.value[index]) == Key(meta.name, meta.namespace)
      ensures required ==> forall j :: index < j < |conf.value| ==> RuleKey(conf.value[j]) != Key(meta.name, meta.namespace)
      ensures !required ==> index == 0
    {
      required := false;
      index := 0;
      var requirements := GetRequiredList();
      var res := meta.name + "/" + meta.namespace;
      var i := 0;
      while i < |requirements|
        invariant 0 <= i <= |requirements|
        invariant required <==> exists k :: 0 <= k < i && requirements[k] == res
        invariant required ==> 0 <= index < i && requirements[index] == res
        invariant required ==> forall j :: index < j < i ==> requirements[j] != res
        invariant !required ==> index == 0
      {
        if res == requirements[i] {
          required := true;
          index := i;
        }
        i := i + 1;
      }
    }

    /** `mutate`, with the configuration read once: its response is `MutateSpec` of the
        snapshot in `conf`. */
    method Mutate(req: AdmissionRequest) returns (resp: AdmissionResponse)
      requires conf.Some?
      ensures resp == MutateSpec(conf.value, req)
    {
      var deployment: Deployment;
      if req.kind == DeploymentKind {
        match req.decoded {
          case DecodeError(message) =>
            return AdmissionResponse(false, Some(Status(StatusBadRequest, message)), None, None);
          case Decoded(d) =>
            deployment := d;
        }
      } else {
        return AdmissionResponse(false, Some(Status(StatusBadRequest, UnsupportedKindMessage(req.kind))), None, None);
      }
      var index, required := MutationRequired(deployment.meta);
      LastMatchUnique(conf.value, Key(deployment.meta.name, deployment.meta.namespace), Decision(index, required));
      MutateDecoded(conf.value, req, deployment, Decision(index, required));
      if !required {
        return AdmissionResponse(true, None, None, None);
      }
      var patch := AssemblePatch(conf.value[index], deployment);
      resp := AdmissionResponse(true, None, Some(patch), Some(JSONPatch));
    }
  }
}
