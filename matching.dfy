/** Whether a workload is on the policy list (pkg/core/admission/mutationrequired.go and
    `getRequiredList` in pkg/core/admission/admission.go). A workload and a rule match when
    their keys `name + "/" + namespace` are equal strings. */
module Matching {
  import opened Config
  import opened Strconv

  /** The key of a workload or rule: `Name + "/" + Namespace`. */
  function Key(name: string, namespace: string): string {
    name + "/" + namespace
  }

  function RuleKey(rule: Rule): string {
    Key(rule.name, rule.namespace)
  }

  /** The pair `(index, required)` returned by `mutationRequired`. */
  datatype Decision = Decision(index: nat, required: bool)

  /** The outcome of scanning all of `rules` against `key`, overwriting the index on every
      match: the last matching rule wins; with no match the index keeps its zero value. */
  function LastMatch(rules: seq<Rule>, key: string): (d: Decision)
    ensures d.required <==> exists i :: 0 <= i < |rules| && RuleKey(rules[i]) == key
    ensures d.required ==> d.index < |rules| && RuleKey(rules[d.index]) == key
    ensures d.required ==> forall j :: d.index < j < |rules| ==> RuleKey(rules[j]) != key
    ensures !d.required ==> d.index == 0
  {
    if rules == [] then Decision(0, false)
    else if RuleKey(rules[|rules| - 1]) == key then Decision(|rules| - 1, true)
    else LastMatch(rules[..|rules| - 1], key)
  }

  /** The three facts `LastMatch` promises determine its result: any scan that keeps them
      computes the same decision. */
  lemma LastMatchUnique(rules: seq<Rule>, key: string, d: Decision)
    requires d.required <==> exists i :: 0 <= i < |rules| && RuleKey(rules[i]) == key
    requires d.required ==> d.index < |rules| && RuleKey(rules[d.index]) == key
    requires d.required ==> forall j :: d.index < j < |rules| ==> RuleKey(rules[j]) != key
    requires !d.required ==> d.index == 0
    ensures d == LastMatch(rules, key)
  {
  }

  /** Among several rules for the same workload, the one listed last is chosen. */
  lemma LastDuplicateWins(rules: seq<Rule>, i: nat, j: nat)
    requires i < j < |rules|
    requires RuleKey(rules[i]) == RuleKey(rules[j])
    requires forall k :: j < k < |rules| ==> RuleKey(rules[k]) != RuleKey(rules[j])
    ensures LastMatch(rules, RuleKey(rules[i])) == Decision(j, true)
  {
  }

  /** Matching compares the joined strings, not the fields: when names carry no '/', equal keys
      mean equal names and equal namespaces, and conversely. */
  lemma KeyFieldwise(name1: string, namespace1: string, name2: string, namespace2: string)
    requires '/' !in name1 && '/' !in name2
    ensures Key(name1, namespace1) == Key(name2, namespace2) <==> name1 == name2 && namespace1 == namespace2
  {
    if Key(name1, namespace1) == Key(name2, namespace2) {
      SplitAtFirstSlash(name1, namespace1, name2, namespace2);
    }
  }

  /** A slash inside a name makes two different (name, namespace) pairs share a key, and so match. */
  lemma KeyNotFieldwise()
    ensures Key("a/b", "c") == Key("a", "b/c")
  {
  }
}
