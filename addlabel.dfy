/** The JSON-Patch builder of the admission webhook (pkg/core/admission/addlabel.go): the
    patch operation type, the keys it writes, the JSON-Pointer escaping of keys, and the
    four builders. Each builder is a method with the source's loop, proved equal to a
    specification function (`MapOps`, `ResourceOps`) whose shape is stated by lemmas. */
module AddLabel {
  import opened Workload
  import opened Strconv

  /** The `Op` strings the builders use: "add" and "replace"; no other operation exists. */
  datatype Op = Add | Replace

  /** The `Value interface{}` of a patch operation, in the three forms the builders put there. */
  datatype Value =
    | Str(s: string)
    | StrMap(entries: map<string, string>)
    | QuantityMap(quantities: map<string, Quantity>)

  datatype PatchOperation = PatchOperation(op: Op, path: string, value: Value)

  const PodLabelMixedKey: string := "hc/mixed-pod"
  const PodAnnotationPriorityKey: string := "hc/riority"
  const ContainerResourceCpuKey: string := "cmos.mixed/cpu"
  const ContainerResourceMemoryKey: string := "cmos.mixed/memory"
  const ContainerResourcePodCountKey: string := "cmos.mixed/podcount"
  const PodNodeSelectorKey: string := "cmos/mixed-schedule"

  const AnnotationsPath: string := "/spec/template/metadata/annotations"
  const SelectorLabelsPath: string := "/spec/selector/matchLabels"
  const TemplateLabelsPath: string := "/spec/template/metadata/labels"
  const NodeSelectorPath: string := "/spec/template/spec/nodeSelector"
  const ContainersPath: string := "/spec/template/spec/containers/"

  // ---------------------------------------------------------------------------
  // Escaping of a map key into one JSON-Pointer reference token
  // ---------------------------------------------------------------------------

  /** `strings.Replace(key, "/", "~1", -1)`: every slash becomes "~1"; nothing else changes.
      In particular '~' is NOT escaped to "~0" as section 4 of RFC 6901 asks. Its contract is
      `EscapeKeyIsToken`, kept out of the function so that paths built from literal keys stay
      cheap to reason about. */
  function EscapeKey(key: string): string {
    if key == [] then []
    else (if key[0] == '/' then "~1" else [key[0]]) + EscapeKey(key[1..])
  }

  /** The escaped key is one path segment (it holds no '/'), and a key without slashes is its
      own token. */
  lemma {:induction false} EscapeKeyIsToken(key: string)
    ensures '/' !in EscapeKey(key)
    ensures '/' !in key ==> EscapeKey(key) == key
  {
    if key != [] {
      EscapeKeyIsToken(key[1..]);
    }
  }

  /** Evaluation of one reference token as section 4 of RFC 6901 prescribes:
      "~1" stands for '/', "~0" for '~'. The partner of `EscapeKey`. */
  function UnescapeToken(token: string): string {
    if token == [] then []
    else if |token| >= 2 && token[0] == '~' && token[1] == '1' then "/" + UnescapeToken(token[2..])
    else if |token| >= 2 && token[0] == '~' && token[1] == '0' then "~" + UnescapeToken(token[2..])
    else [token[0]] + UnescapeToken(token[1..])
  }

  /** For a key without '~', a JSON-Pointer reader recovers the key from the escaped token. */
  lemma {:induction false} UnescapeEscapeKey(key: string)
    requires '~' !in key
    ensures UnescapeToken(EscapeKey(key)) == key
  {
    if key != [] {
      UnescapeEscapeKey(key[1..]);
      var rest := EscapeKey(key[1..]);
      if key[0] == '/' {
        assert EscapeKey(key) == "~1" + rest;
        assert ("~1" + rest)[2..] == rest;
      } else {
        assert EscapeKey(key) == [key[0]] + rest;
        assert ([key[0]] + rest)[1..] == rest;
      }
    }
  }

  lemma {:induction false} EscapeKeyAppend(a: string, b: string)
    ensures EscapeKey(a + b) == EscapeKey(a) + EscapeKey(b)
  {
    if a != [] {
      assert (a + b)[1..] == a[1..] + b;
      EscapeKeyAppend(a[1..], b);
      var h := if a[0] == '/' then "~1" else [a[0]];
      assert EscapeKey(a + b) == h + (EscapeKey(a[1..]) + EscapeKey(b));
      assert EscapeKey(a) == h + EscapeKey(a[1..]);
    } else {
      assert a + b == b;
    }
  }

  /** A key made of two slash-free parts around one slash escapes to the parts around "~1";
      the priority annotation key "hc/riority", for one, becomes "hc~1riority". */
  lemma EscapeKeyOneSlash(a: string, b: string)
    requires '/' !in a && '/' !in b
    ensures EscapeKey(a + "/" + b) == a + "~1" + b
  {
    EscapeKeyAppend(a + "/", b);
    EscapeKeyAppend(a, "/");
    EscapeKeyIsToken(a);
    EscapeKeyIsToken(b);
    assert EscapeKey("/") == "~1";
  }

  /** A prefix without '~' is read back unchanged by an RFC 6901 reader. */
  lemma {:induction false} UnescapePrefix(a: string, t: string)
    requires '~' !in a
    ensures UnescapeToken(a + t) == a + UnescapeToken(t)
  {
    if a == [] {
      assert a + t == t;
    } else {
      assert (a + t)[0] == a[0];
      assert (a + t)[1..] == a[1..] + t;
      UnescapePrefix(a[1..], t);
      assert [a[0]] + (a[1..] + UnescapeToken(t)) == a + UnescapeToken(t);
    }
  }

  /** "~1" in front of a tilde-free rest reads back as a slash. */
  lemma UnescapeSlashEscape(b: string)
    requires '~' !in b
    ensures UnescapeToken("~1" + b) == "/" + b
  {
    var t := "~1" + b;
    assert |t| >= 2 && t[0] == '~' && t[1] == '1' && t[2..] == b;
    assert UnescapeToken(t) == "/" + UnescapeToken(b);
    UnescapePrefix(b, []);
    assert b + [] == b;
  }

  /** Because '~' is left alone, two different keys can give the same path token: "a/b" and
      "a~1b" (for slash- and tilde-free parts `a`, `b`) both become "a~1b", which an RFC 6901
      reader takes for "a/b". */
  lemma {:induction false} EscapeKeyNotInjective(a: string, b: string)
    requires '/' !in a && '/' !in b && '~' !in a && '~' !in b
    ensures a + "/" + b != a + "~1" + b
    ensures EscapeKey(a + "/" + b) == EscapeKey(a + "~1" + b) == a + "~1" + b
    ensures UnescapeToken(a + "~1" + b) == a + "/" + b
  {
    EscapeKeyOneSlash(a, b);
    EscapeTildeOne(a, b);
    UnescapeOneSlash(a, b);
  }

  lemma EscapeTildeOne(a: string, b: string)
    requires '/' !in a && '/' !in b
    ensures EscapeKey(a + "~1" + b) == a + "~1" + b
  {
    var token := a + "~1" + b;
    assert '/' !in token;
    EscapeKeyIsToken(token);
  }

  lemma UnescapeOneSlash(a: string, b: string)
    requires '~' !in a && '~' !in b
    ensures UnescapeToken(a + "~1" + b) == a + "/" + b
  {
    assert a + ("~1" + b) == a + "~1" + b;
    UnescapePrefix(a, "~1" + b);
    UnescapeSlashEscape(b);
    assert a + ("/" + b) == a + "/" + b;
  }

  // ---------------------------------------------------------------------------
  // Add-or-replace on a map field: annotations, labels, node selector
  // ---------------------------------------------------------------------------

  /** The operation for one key under the map field at `base`: `add` of the single-entry map
      on the field itself, or `replace` of the scalar on the key's own path. */
  function SetOp(base: string, add: bool, key: string, value: string): PatchOperation {
    if add then PatchOperation(Add, base, StrMap(map[key := value]))
    else PatchOperation(Replace, base + "/" + EscapeKey(key), Str(value))
  }

  /** One operation per base path, in the order of `bases`, all of the same kind. */
  function KeyOps(bases: seq<string>, add: bool, key: string, value: string): seq<PatchOperation> {
    seq(|bases|, b requires 0 <= b < |bases| => SetOp(bases[b], add, key, value))
  }

  /** What a builder emits for the pairs `added` when `target` is the map it checks. A key
      whose current value is absent or empty takes the add branch, after which the builder
      checks every later key against an empty map. */
  function MapOps(bases: seq<string>, target: map<string, string>, added: seq<(string, string)>): seq<PatchOperation>
    decreases |added|
  {
    if added == [] then []
    else
      var add := Lookup(target, added[0].0) == "";
      KeyOps(bases, add, added[0].0, added[0].1) + MapOps(bases, if add then map[] else target, added[1..])
  }

  /** One turn of a builder's loop: the operations for pair `i`, then the rest checked
      against the map the loop carries on with. */
  lemma MapOpsStep(bases: seq<string>, target: map<string, string>, added: seq<(string, string)>, i: nat)
    requires i < |added|
    ensures var add := Lookup(target, added[i].0) == "";
      MapOps(bases, target, added[i..])
      == KeyOps(bases, add, added[i].0, added[i].1) + MapOps(bases, if add then map[] else target, added[i + 1..])
  {
    assert added[i..][0] == added[i];
    assert added[i..][1..] == added[i + 1..];
  }

  /** The loop invariant of the builders carried over one turn: the operations emitted so
      far, then those of pair `i`, then what the remaining pairs produce. */
  lemma LoopStep(bases: seq<string>, target: map<string, string>, current: map<string, string>,
                 added: seq<(string, string)>, i: nat, before: seq<PatchOperation>)
    requires i < |added|
    requires before + MapOps(bases, current, added[i..]) == MapOps(bases, target, added)
    ensures var add := Lookup(current, added[i].0) == "";
      (before + KeyOps(bases, add, added[i].0, added[i].1)) + MapOps(bases, if add then map[] else current, added[i + 1..])
      == MapOps(bases, target, added)
  {
    MapOpsStep(bases, current, added, i);
  }

  lemma KeyOpsOne(base: string, add: bool, key: string, value: string)
    ensures KeyOps([base], add, key, value) == [SetOp(base, add, key, value)]
  {
  }

  lemma KeyOpsTwo(base1: string, base2: string, add: bool, key: string, value: string)
    ensures KeyOps([base1, base2], add, key, value) == [SetOp(base1, add, key, value), SetOp(base2, add, key, value)]
  {
  }

  /** Whether some key among the first `i + 1` pairs is absent or empty in `target`. */
  ghost predicate AddTaken(target: map<string, string>, added: seq<(string, string)>, i: int)
    requires i < |added|
  {
    exists j :: 0 <= j <= i && Lookup(target, added[j].0) == ""
  }

  lemma {:induction false} MapOpsLength(bases: seq<string>, target: map<string, string>, added: seq<(string, string)>)
    ensures |MapOps(bases, target, added)| == |added| * |bases|
    decreases |added|
  {
    if added != [] {
      var add := Lookup(target, added[0].0) == "";
      MapOpsLength(bases, if add then map[] else target, added[1..]);
      assert |added| * |bases| == |bases| + (|added| - 1) * |bases|;
    }
  }

  /** The whole output of a builder: `|bases|` operations per pair, in pair order; the
      operation for pair `i` and base `b` is `add` exactly when pair `i` or an earlier pair
      found its key absent or empty in `target`, and `replace` otherwise. All operations of
      one pair therefore have the same kind. */
  lemma {:induction false} MapOpsAt(bases: seq<string>, target: map<string, string>, added: seq<(string, string)>, i: nat, b: nat)
    requires i < |added| && b < |bases|
    ensures |MapOps(bases, target, added)| == |added| * |bases|
    ensures i * |bases| + b < |added| * |bases|
    ensures MapOps(bases, target, added)[i * |bases| + b]
         == SetOp(bases[b], AddTaken(target, added, i), added[i].0, added[i].1)
    decreases i
  {
    MapOpsLength(bases, target, added);
    IndexBound(i, |added|, |bases|, b);
    var add := Lookup(target, added[0].0) == "";
    var next := if add then map[] else target;
    var head := KeyOps(bases, add, added[0].0, added[0].1);
    var tail := MapOps(bases, next, added[1..]);
    assert MapOps(bases, target, added) == head + tail by {
      MapOpsStep(bases, target, added, 0);
      assert added[0..] == added;
    }
    if i == 0 {
      assert AddTaken(target, added, 0) == add;
      assert (head + tail)[b] == head[b];
    } else {
      var x := (i - 1) * |bases| + b;
      assert x < |tail| && tail[x] == SetOp(bases[b], AddTaken(next, added[1..], i - 1), added[i].0, added[i].1) by {
        MapOpsAt(bases, next, added[1..], i - 1, b);
        assert added[1..][i - 1] == added[i];
      }
      assert i * |bases| + b == |bases| + x by {
        IndexShift(i, |bases|, b);
      }
      assert AddTaken(target, added, i) == AddTaken(next, added[1..], i - 1) by {
        AddTakenShift(target, added, i);
      }
      assert (head + tail)[|bases| + x] == tail[x];
      assert MapOps(bases, target, added)[i * |bases| + b] == tail[x];
    }
  }

  lemma IndexBound(i: nat, n: nat, width: nat, b: nat)
    requires i < n && b < width
    ensures i * width + b < n * width
  {
    assert i * width <= (n - 1) * width;
  }

  lemma IndexShift(i: nat, n: nat, b: nat)
    requires i > 0
    ensures i * n + b == n + ((i - 1) * n + b)
  {
  }

  /** How `AddTaken` moves one pair along as the builder goes from one key to the next. */
  lemma AddTakenShift(target: map<string, string>, added: seq<(string, string)>, i: nat)
    requires 0 < i < |added|
    ensures var add := Lookup(target, added[0].0) == "";
      AddTaken(target, added, i) == AddTaken(if add then map[] else target, added[1..], i - 1)
  {
    var add := Lookup(target, added[0].0) == "";
    var next := if add then map[] else target;
    if add {
      assert Lookup(target, added[0].0) == "";
      assert Lookup(next, added[1..][0].0) == "";
    } else {
      if AddTaken(target, added, i) {
        var j :| 0 <= j <= i && Lookup(target, added[j].0) == "";
        assert Lookup(next, added[1..][j - 1].0) == "";
      }
      if AddTaken(next, added[1..], i - 1) {
        var j :| 0 <= j <= i - 1 && Lookup(next, added[1..][j].0) == "";
        assert Lookup(target, added[j + 1].0) == "";
      }
    }
  }

  /** With one pair, the builder emits `|bases|` operations: `add` of `{key: value}` on each
      base when `target` has no non-empty value for the key, `replace` of `value` on each
      base's key path otherwise. */
  lemma MapOpsSingle(bases: seq<string>, target: map<string, string>, key: string, value: string)
    ensures MapOps(bases, target, [(key, value)]) == KeyOps(bases, Lookup(target, key) == "", key, value)
  {
    assert [(key, value)][1..] == [];
    assert KeyOps(bases, Lookup(target, key) == "", key, value) + [] == KeyOps(bases, Lookup(target, key) == "", key, value);
  }

  /** `mutatePodAnnotations`. */
  method MutatePodAnnotations(target: map<string, string>, added: seq<(string, string)>)
    returns (patch: seq<PatchOperation>)
    ensures patch == MapOps([AnnotationsPath], target, added)
  {
    patch := [];
    var current := target;
    var i := 0;
    while i < |added|
      invariant 0 <= i <= |added|
      invariant patch + MapOps([AnnotationsPath], current, added[i..]) == MapOps([AnnotationsPath], target, added)
    {
      var (key, value) := added[i];
      LoopStep([AnnotationsPath], target, current, added, i, patch);
      KeyOpsOne(AnnotationsPath, Lookup(current, key) == "", key, value);
      if Lookup(current, key) == "" {
        current := map[];
        patch := patch + [PatchOperation(Add, AnnotationsPath, StrMap(map[key := value]))];
      } else {
        patch := patch + [PatchOperation(Replace, AnnotationsPath + "/" + EscapeKey(key), Str(value))];
      }
      i := i + 1;
    }
    assert added[i..] == [];
  }

  /** `mutatePodLables`: one check on `target` (the template labels) decides the kind of both
      operations, the one on the selector's `matchLabels` and the one on the template labels. */
  method MutatePodLabels(target: map<string, string>, added: seq<(string, string)>)
    returns (patch: seq<PatchOperation>)
    ensures patch == MapOps([SelectorLabelsPath, TemplateLabelsPath], target, added)
  {
    patch := [];
    var current := target;
    var i := 0;
    while i < |added|
      invariant 0 <= i <= |added|
      invariant patch + MapOps([SelectorLabelsPath, TemplateLabelsPath], current, added[i..])
             == MapOps([SelectorLabelsPath, TemplateLabelsPath], target, added)
    {
      var (key, value) := added[i];
      LoopStep([SelectorLabelsPath, TemplateLabelsPath], target, current, added, i, patch);
      KeyOpsTwo(SelectorLabelsPath, TemplateLabelsPath, Lookup(current, key) == "", key, value);
      ghost var add := Lookup(current, key) == "";
      ghost var before := patch;
      if Lookup(current, key) == "" {
        current := map[];
        patch := patch + [PatchOperation(Add, SelectorLabelsPath, StrMap(map[key := value]))];
        patch := patch + [PatchOperation(Add, TemplateLabelsPath, StrMap(map[key := value]))];
      } else {
        patch := patch + [PatchOperation(Replace, SelectorLabelsPath + "/" + EscapeKey(key), Str(value))];
        patch := patch + [PatchOperation(Replace, TemplateLabelsPath + "/" + EscapeKey(key), Str(value))];
      }
      assert patch == before + [SetOp(SelectorLabelsPath, add, key, value), SetOp(TemplateLabelsPath, add, key, value)];
      i := i + 1;
    }
    assert added[i..] == [];
  }

  /** `mutateNodeSelectol`. */
  method MutateNodeSelector(target: map<string, string>, added: seq<(string, string)>)
    returns (patch: seq<PatchOperation>)
    ensures patch == MapOps([NodeSelectorPath], target, added)
  {
    patch := [];
    var current := target;
    var i := 0;
    while i < |added|
      invariant 0 <= i <= |added|
      invariant patch + MapOps([NodeSelectorPath], current, added[i..]) == MapOps([NodeSelectorPath], target, added)
    {
      var (key, value) := added[i];
      LoopStep([NodeSelectorPath], target, current, added, i, patch);
      KeyOpsOne(NodeSelectorPath, Lookup(current, key) == "", key, value);
      if Lookup(current, key) == "" {
        current := map[];
        patch := patch + [PatchOperation(Add, NodeSelectorPath, StrMap(map[key := value]))];
      } else {
        patch := patch + [PatchOperation(Replace, NodeSelectorPath + "/" + EscapeKey(key), Str(value))];
      }
      i := i + 1;
    }
    assert added[i..] == [];
  }

  // ---------------------------------------------------------------------------
  // Shadow resource entries per container
  // ---------------------------------------------------------------------------

  /** `fmt.Sprintf("/spec/template/spec/containers/%d/resources/<section>", index)`. */
  function ContainerPath(index: nat, section: string): (path: string)
    ensures |path| == |ContainersPath| + |FormatNat(index)| + |"/resources/"| + |section|
    ensures path[..|ContainersPath|] == ContainersPath && IsDigit(path[|ContainersPath|])
    ensures path[|ContainersPath|..|ContainersPath| + |FormatNat(index)|] == FormatNat(index)
    ensures path[|ContainersPath| + |FormatNat(index)|..|path| - |section|] == "/resources/"
    ensures path[|path| - |section|..] == section
  {
    ContainersPath + FormatNat(index) + "/resources/" + section
  }

  /** Paths of different containers never coincide, whatever the sections. */
  lemma ContainerPathsDistinct(i: nat, j: nat, s1: string, s2: string)
    requires ContainerPath(i, s1) == ContainerPath(j, s2)
    ensures i == j && s1 == s2
  {
    var t1, t2 := "resources/" + s1, "resources/" + s2;
    var x1, x2 := FormatNat(i) + "/" + t1, FormatNat(j) + "/" + t2;
    ContainerPathSplit(i, s1);
    ContainerPathSplit(j, s2);
    assert x1 == x2 by {
      assert x1 == (ContainersPath + x1)[|ContainersPath|..];
      assert x2 == (ContainersPath + x2)[|ContainersPath|..];
    }
    SplitAtFirstSlash(FormatNat(i), t1, FormatNat(j), t2);
    FormatNatInjective(i, j);
    assert s1 == t1[|"resources/"|..];
    assert s2 == t2[|"resources/"|..];
  }

  /** A container path is the containers prefix, the index digits, a slash, then the rest. */
  lemma ContainerPathSplit(index: nat, section: string)
    ensures ContainerPath(index, section) == ContainersPath + (FormatNat(index) + "/" + ("resources/" + section))
  {
    var d := FormatNat(index);
    assert "/resources/" == "/" + "resources/";
    assert ContainersPath + d + "/resources/" + section == ContainersPath + (d + "/" + ("resources/" + section));
  }

  /** The five `add` operations for the container at `index`: its cpu and memory limits,
      its cpu and memory requests (a missing entry reads as the zero quantity), and the pod
      count marker "1", each as a single-entry map. They go to two paths only: the first two
      to the limits field itself, the last three to the requests field itself. */
  function ContainerOps(index: nat, c: Container): (ops: seq<PatchOperation>)
    ensures |ops| == 5
    ensures forall k :: 0 <= k < 5 ==> ops[k].op == Add
    ensures ops[0].path == ops[1].path == ContainerPath(index, "limits")
    ensures ops[2].path == ops[3].path == ops[4].path == ContainerPath(index, "requests")
  {
    [ PatchOperation(Add, ContainerPath(index, "limits"),
        QuantityMap(map[ContainerResourceCpuKey := QuantityOf(c.limits, ResourceCpu)])),
      PatchOperation(Add, ContainerPath(index, "limits"),
        QuantityMap(map[ContainerResourceMemoryKey := QuantityOf(c.limits, ResourceMemory)])),
      PatchOperation(Add, ContainerPath(index, "requests"),
        QuantityMap(map[ContainerResourceCpuKey := QuantityOf(c.requests, ResourceCpu)])),
      PatchOperation(Add, ContainerPath(index, "requests"),
        QuantityMap(map[ContainerResourceMemoryKey := QuantityOf(c.requests, ResourceMemory)])),
      PatchOperation(Add, ContainerPath(index, "requests"),
        StrMap(map[ContainerResourcePodCountKey := "1"])) ]
  }

  /** The operations for all containers, container by container in index order. */
  function ResourceOps(containers: seq<Container>): seq<PatchOperation> {
    if containers == [] then []
    else
      var n := |containers| - 1;
      ResourceOps(containers[..n]) + ContainerOps(n, containers[n])
  }

  /** Exactly five operations per container; operation `5 * i + k` is operation `k` of
      container `i`'s group. */
  lemma {:induction false} ResourceOpsAt(containers: seq<Container>, i: nat, k: nat)
    requires i < |containers| && k < 5
    ensures |ResourceOps(containers)| == 5 * |containers|
    ensures ResourceOps(containers)[5 * i + k] == ContainerOps(i, containers[i])[k]
    decreases |containers|
  {
    var n := |containers| - 1;
    var prefix := containers[..n];
    var front := ResourceOps(prefix);
    var group := ContainerOps(n, containers[n]);
    assert |front| == 5 * n by {
      ResourceOpsLength(prefix);
    }
    assert ResourceOps(containers) == front + group;
    if i < n {
      ResourceOpsAt(prefix, i, k);
      assert prefix[i] == containers[i];
      assert (front + group)[5 * i + k] == front[5 * i + k];
    } else {
      assert i == n;
      assert |group| == 5;
      assert (front + group)[5 * n + k] == group[k];
    }
  }

  /** Every container operation is an `add` on a whole resources field, so each one replaces
      what an earlier `add` wrote to the same field (see `PatchApply.ContainerOpsOutcome`). */
  lemma ResourceOpsAllAdd(containers: seq<Container>, j: nat)
    requires j < |ResourceOps(containers)|
    ensures ResourceOps(containers)[j].op == Add
  {
    ResourceOpsLength(containers);
    var i, k := j / 5, j % 5;
    assert j == 5 * i + k;
    ResourceOpsAt(containers, i, k);
  }

  lemma {:induction false} ResourceOpsLength(containers: seq<Container>)
    ensures |ResourceOps(containers)| == 5 * |containers|
    decreases |containers|
  {
    if containers != [] {
      ResourceOpsLength(containers[..|containers| - 1]);
    }
  }

  /** `mutateContainerResource`. */
  method MutateContainerResource(deployment: Deployment) returns (patch: seq<PatchOperation>)
    ensures patch == ResourceOps(deployment.containers)
  {
    var containers := deployment.containers;
    patch := [];
    var index := 0;
    while index < |containers|
      invariant 0 <= index <= |containers|
      invariant patch == ResourceOps(containers[..index])
    {
      var container := containers[index];
      var reqs := container.requests;
      var lims := container.limits;
      patch := patch + [PatchOperation(Add, ContainerPath(index, "limits"),
        QuantityMap(map[ContainerResourceCpuKey := QuantityOf(lims, ResourceCpu)]))];
      patch := patch + [PatchOperation(Add, ContainerPath(index, "limits"),
        QuantityMap(map[ContainerResourceMemoryKey := QuantityOf(lims, ResourceMemory)]))];
      patch := patch + [PatchOperation(Add, ContainerPath(index, "requests"),
        QuantityMap(map[ContainerResourceCpuKey := QuantityOf(reqs, ResourceCpu)]))];
      patch := patch + [PatchOperation(Add, ContainerPath(index, "requests"),
        QuantityMap(map[ContainerResourceMemoryKey := QuantityOf(reqs, ResourceMemory)]))];
      patch := patch + [PatchOperation(Add, ContainerPath(index, "requests"),
        StrMap(map[ContainerResourcePodCountKey := "1"]))];
      assert containers[..index + 1][..index] == containers[..index];
      index := index + 1;
    }
    assert containers[..index] == containers;
  }
}
