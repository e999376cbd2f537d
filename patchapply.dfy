/** What the emitted operations do to the object they are applied to: the effect of `add` and
    `replace` (sections 4.1 and 4.3 of RFC 6902) on one string-map field, with member paths
    read as section 4 of RFC 6901 prescribes. This is the reference against which the
    add-or-replace rule of the patch builder is checked. */
module PatchApply {
  import opened Wrappers
  import opened Workload
  import opened AddLabel

  /** The map key that `path` designates inside the field at `base`, when it designates one. */
  function MemberKey(base: string, path: string): Option<string> {
    if |path| > |base| && path[..|base| + 1] == base + "/" then Some(UnescapeToken(path[|base| + 1..]))
    else None
  }

  /** One operation applied to the string map `m` found at `base`. On the field itself, both
      operations set the whole map; on a member, `replace` needs the member to exist and `add`
      does not; an operation on any other location leaves the field alone. None is a failed
      application. */
  function ApplyOp(base: string, m: map<string, string>, op: PatchOperation): Option<map<string, string>> {
    if op.path == base then
      (if op.value.StrMap? then Some(op.value.entries) else None)
    else match MemberKey(base, op.path)
      case None => Some(m)
      case Some(key) =>
        if !op.value.Str? then None
        else if op.op == Replace && key !in m then None
        else Some(m[key := op.value.s])
  }

  /** The operations applied in order; the first failure stops the patch. */
  function ApplyAll(base: string, m: map<string, string>, ops: seq<PatchOperation>): Option<map<string, string>>
    decreases |ops|
  {
    if ops == [] then Some(m)
    else match ApplyOp(base, m, ops[0])
      case None => None
      case Some(next) => ApplyAll(base, next, ops[1..])
  }

  /** The result of applying a builder's operation for one key to the field it targets. */
  function Expected(target: map<string, string>, key: string, value: string): map<string, string> {
    if Lookup(target, key) == "" then map[key := value] else target[key := value]
  }

  /** Applying the operation a single-base builder (annotations, node selector) emits for one
      key succeeds and leaves the key mapped to the value. In the add case the field becomes
      exactly the single-entry map: entries it held under other keys are dropped. In the
      replace case every other entry is kept. Keys containing '~' are excluded (see
      `ReplaceMisreadsKey`). */
  lemma {:induction false} ApplyOneKey(base: string, target: map<string, string>, key: string, value: string)
    requires '~' !in key
    ensures ApplyAll(base, target, MapOps([base], target, [(key, value)])) == Some(Expected(target, key, value))
    ensures Lookup(Expected(target, key, value), key) == value
    ensures Lookup(target, key) == "" ==> Expected(target, key, value).Keys == {key}
    ensures Lookup(target, key) != "" ==> forall k :: k in target && k != key ==> Expected(target, key, value)[k] == target[k]
  {
    var add := Lookup(target, key) == "";
    var op := SetOp(base, add, key, value);
    MapOpsSingle([base], target, key, value);
    KeyOpsOne(base, add, key, value);
    assert MapOps([base], target, [(key, value)]) == [op];
    if !add {
      var token := EscapeKey(key);
      assert op.path == base + "/" + token;
      assert op.path[..|base| + 1] == base + "/";
      assert op.path[|base| + 1..] == token;
      UnescapeEscapeKey(key);
      assert MemberKey(base, op.path) == Some(key);
    }
    assert [op][1..] == [];
  }

  /** Applying the same single-key operation a second time changes nothing more: the patch can
      be re-applied to the object it produced. */
  lemma ApplyOneKeyAgain(base: string, target: map<string, string>, key: string, value: string)
    requires '~' !in key
    ensures var once := Expected(target, key, value);
      ApplyAll(base, once, MapOps([base], target, [(key, value)])) == Some(once)
  {
    var add := Lookup(target, key) == "";
    var once := Expected(target, key, value);
    var op := SetOp(base, add, key, value);
    MapOpsSingle([base], target, key, value);
    KeyOpsOne(base, add, key, value);
    assert MapOps([base], target, [(key, value)]) == [op];
    if !add {
      var token := EscapeKey(key);
      assert op.path[..|base| + 1] == base + "/";
      assert op.path[|base| + 1..] == token;
      UnescapeEscapeKey(key);
      assert MemberKey(base, op.path) == Some(key);
      assert once[key := value] == once;
    }
    assert [op][1..] == [];
  }

  /** Because '~' is not escaped, a key that is already set and whose escaped token an RFC 6901
      reader decodes to a different key (for instance "a~1b", read as "a/b", see
      `EscapeKeyNotInjective`) yields a `replace` that changes that other entry and leaves the
      key's own entry as it was. */
  lemma {:induction false} ReplaceMisreadsKey(base: string, target: map<string, string>, key: string, other: string, value: string)
    requires key in target && target[key] != ""
    requires UnescapeToken(EscapeKey(key)) == other && other != key && other in target
    ensures ApplyAll(base, target, MapOps([base], target, [(key, value)])) == Some(target[other := value])
    ensures target[other := value][key] == target[key]
  {
    var op := SetOp(base, false, key, value);
    MapOpsSingle([base], target, key, value);
    KeyOpsOne(base, false, key, value);
    assert MapOps([base], target, [(key, value)]) == [op];
    var token := EscapeKey(key);
    assert op.path == base + "/" + token;
    assert op.path[..|base| + 1] == base + "/";
    assert op.path[|base| + 1..] == token;
    assert MemberKey(base, op.path) == Some(other);
    assert [op][1..] == [];
  }

  /** An operation whose path parts from the field's path within the first seven characters
      does not touch that field. */
  lemma ApplyElsewhere(base: string, m: map<string, string>, op: PatchOperation)
    requires |base| > 6 && |op.path| > 6 && op.path[6] != base[6]
    ensures ApplyOp(base, m, op) == Some(m)
  {
    if |op.path| > |base| {
      assert op.path[..|base| + 1][6] != (base + "/")[6];
    }
  }

  /** The operations the label builder emits for one key: one on the selector, then one on the
      template labels, both chosen by the template labels. */
  lemma LabelOps(template: map<string, string>, key: string, value: string)
    ensures var add := Lookup(template, key) == "";
      MapOps([SelectorLabelsPath, TemplateLabelsPath], template, [(key, value)])
        == [SetOp(SelectorLabelsPath, add, key, value), SetOp(TemplateLabelsPath, add, key, value)]
  {
    MapOpsSingle([SelectorLabelsPath, TemplateLabelsPath], template, key, value);
    KeyOpsTwo(SelectorLabelsPath, TemplateLabelsPath, Lookup(template, key) == "", key, value);
  }

  /** On the template labels, the label builder's operations for one key have the outcome of a
      single-base builder: the selector operation does not touch them. */
  lemma {:induction false} ApplyLabelsTemplate(template: map<string, string>, key: string, value: string)
    requires '~' !in key
    ensures ApplyAll(TemplateLabelsPath, template, MapOps([SelectorLabelsPath, TemplateLabelsPath], template, [(key, value)]))
         == Some(Expected(template, key, value))
  {
    var add := Lookup(template, key) == "";
    var sel := SetOp(SelectorLabelsPath, add, key, value);
    var tmpl := SetOp(TemplateLabelsPath, add, key, value);
    LabelOps(template, key, value);
    assert sel.path[6] == 's';
    ApplyElsewhere(TemplateLabelsPath, template, sel);
    assert [sel, tmpl][1..] == [tmpl] && [tmpl][1..] == [];
    assert ApplyAll(TemplateLabelsPath, template, [sel, tmpl]) == ApplyAll(TemplateLabelsPath, template, [tmpl]);
    if !add {
      UnescapeEscapeKey(key);
      assert tmpl.path[..|TemplateLabelsPath| + 1] == TemplateLabelsPath + "/";
      assert tmpl.path[|TemplateLabelsPath| + 1..] == EscapeKey(key);
      assert MemberKey(TemplateLabelsPath, tmpl.path) == Some(key);
      assert tmpl.path != TemplateLabelsPath;
      assert ApplyOp(TemplateLabelsPath, template, tmpl) == Some(template[key := value]);
      assert ApplyAll(TemplateLabelsPath, template[key := value], []) == Some(template[key := value]);
      assert ApplyAll(TemplateLabelsPath, template, [tmpl]) == Some(template[key := value]);
      assert ApplyAll(TemplateLabelsPath, template, [sel, tmpl]) == Some(template[key := value]);
      assert Expected(template, key, value) == template[key := value];
    } else {
      assert ApplyOp(TemplateLabelsPath, template, tmpl) == Some(map[key := value]);
      assert ApplyAll(TemplateLabelsPath, map[key := value], []) == Some(map[key := value]);
      assert ApplyAll(TemplateLabelsPath, template, [tmpl]) == Some(map[key := value]);
      assert Expected(template, key, value) == map[key := value];
    }
  }

  /** On the selector, the add case sets the single-entry map, but the replace case (the
      template labels already hold the key) succeeds exactly when the selector holds the key
      too: the builder never looks at the selector, so a template label that the selector
      lacks makes the whole patch fail. */
  lemma {:induction false} ApplyLabelsSelector(template: map<string, string>, selector: map<string, string>, key: string, value: string)
    requires '~' !in key
    ensures var result := ApplyAll(SelectorLabelsPath, selector, MapOps([SelectorLabelsPath, TemplateLabelsPath], template, [(key, value)]));
      && (Lookup(template, key) == "" ==> result == Some(map[key := value]))
      && (Lookup(template, key) != "" && key in selector ==> result == Some(selector[key := value]))
      && (Lookup(template, key) != "" && key !in selector ==> result == None)
  {
    var add := Lookup(template, key) == "";
    var sel := SetOp(SelectorLabelsPath, add, key, value);
    var tmpl := SetOp(TemplateLabelsPath, add, key, value);
    LabelOps(template, key, value);
    assert [sel, tmpl][1..] == [tmpl] && [tmpl][1..] == [];
    if !add {
      UnescapeEscapeKey(key);
      assert sel.path[..|SelectorLabelsPath| + 1] == SelectorLabelsPath + "/";
      assert sel.path[|SelectorLabelsPath| + 1..] == EscapeKey(key);
      assert MemberKey(SelectorLabelsPath, sel.path) == Some(key);
    }
    assert tmpl.path[6] == 't';
    if add {
      assert ApplyOp(SelectorLabelsPath, selector, sel) == Some(map[key := value]);
      ApplyElsewhere(SelectorLabelsPath, map[key := value], tmpl);
      assert ApplyAll(SelectorLabelsPath, map[key := value], []) == Some(map[key := value]);
      assert ApplyAll(SelectorLabelsPath, map[key := value], [tmpl]) == Some(map[key := value]);
    } else if key in selector {
      assert sel.path != SelectorLabelsPath;
      assert ApplyOp(SelectorLabelsPath, selector, sel) == Some(selector[key := value]);
      ApplyElsewhere(SelectorLabelsPath, selector[key := value], tmpl);
      assert ApplyAll(SelectorLabelsPath, selector[key := value], []) == Some(selector[key := value]);
      assert ApplyAll(SelectorLabelsPath, selector[key := value], [tmpl]) == Some(selector[key := value]);
    } else {
      assert sel.path != SelectorLabelsPath;
      assert ApplyOp(SelectorLabelsPath, selector, sel) == None;
    }
  }

  /** The two resources fields of one container, as the container operations see them. */
  datatype ContainerResources = ContainerResources(limits: Value, requests: Value)

  /** One operation applied to the resources of the container at `index`: an `add` on the
      limits or the requests field sets that whole field to the operation's value (an `add`
      on an existing member replaces it, section 4.1 of RFC 6902). Operations on other
      locations are outside this reference and give None. */
  function ApplyResourceOp(index: nat, r: ContainerResources, op: PatchOperation): Option<ContainerResources> {
    if op.op != Add then None
    else if op.path == ContainerPath(index, "limits") then Some(r.(limits := op.value))
    else if op.path == ContainerPath(index, "requests") then Some(r.(requests := op.value))
    else None
  }

  /** The operations applied in order; the first failure stops the patch. */
  function ApplyResourceOps(index: nat, r: ContainerResources, ops: seq<PatchOperation>): Option<ContainerResources>
    decreases |ops|
  {
    if ops == [] then Some(r)
    else match ApplyResourceOp(index, r, ops[0])
      case None => None
      case Some(next) => ApplyResourceOps(index, next, ops[1..])
  }

  /** What the five operations for one container leave behind, whatever the fields held
      before: each `add` replaces the whole field, so the limits end up holding only the
      memory limit and the requests only the pod count marker. The cpu limit and the cpu and
      memory requests the builder emits do not survive. */
  lemma {:induction false} ContainerOpsOutcome(index: nat, c: Container, r: ContainerResources)
    ensures ApplyResourceOps(index, r, ContainerOps(index, c)) ==
      Some(ContainerResources(
        QuantityMap(map[ContainerResourceMemoryKey := QuantityOf(c.limits, ResourceMemory)]),
        StrMap(map[ContainerResourcePodCountKey := "1"])))
  {
    var ops := ContainerOps(index, c);
    var limits, requests := ContainerPath(index, "limits"), ContainerPath(index, "requests");
    if limits == requests {
      ContainerPathsDistinct(index, index, "limits", "requests");
      assert false;
    }
    var r1 := r.(limits := ops[0].value);
    var r2 := r1.(limits := ops[1].value);
    var r3 := r2.(requests := ops[2].value);
    var r4 := r3.(requests := ops[3].value);
    var r5 := r4.(requests := ops[4].value);
    assert ApplyResourceOps(index, r4, ops[4..]) == Some(r5) by {
      assert ops[4..][1..] == [];
    }
    assert ApplyResourceOps(index, r3, ops[3..]) == Some(r5) by {
      assert ops[3..][1..] == ops[4..];
    }
    assert ApplyResourceOps(index, r2, ops[2..]) == Some(r5) by {
      assert ops[2..][1..] == ops[3..];
    }
    assert ApplyResourceOps(index, r1, ops[1..]) == Some(r5) by {
      assert ops[1..][1..] == ops[2..];
    }
  }
}
