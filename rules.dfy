/**
 * Fail-fast checking. Every validator is a fixed, ordered list of rules; its
 * outcome is success when every rule holds, and otherwise the message of the
 * first rule the input breaks. Later rules are never looked at.
 */
module Rules {
  import opened Wrappers

  /** A field is given when it is set to a non-empty string (a truthy string in JavaScript). */
  predicate Present(field: Option<string>) {
    field.Some? && field.value != ""
  }

  /** One check: whether the input passes it, and the message reported when it does not. */
  datatype Rule = Rule(holds: bool, message: string)

  /** Every rule of the list is met. */
  predicate AllHold(rules: seq<Rule>) {
    forall i :: 0 <= i < |rules| ==> rules[i].holds
  }

  /** Rule `i` is broken and every rule before it holds. */
  predicate IsFirstBroken(rules: seq<Rule>, i: int) {
    && 0 <= i < |rules|
    && !rules[i].holds
    && forall j :: 0 <= j < i ==> rules[j].holds
  }

  /** No two rules share a message, so a message names the rule that produced it. */
  predicate DistinctMessages(rules: seq<Rule>) {
    forall i, j :: 0 <= i < j < |rules| ==> rules[i].message != rules[j].message
  }

  /** Checks the rules in order and stops at the first broken one. */
  function FirstFailure(rules: seq<Rule>): (r: Result)
    ensures r.Ok? <==> AllHold(rules)
    decreases |rules|
  {
    if |rules| == 0 then Ok
    else if !rules[0].holds then Err(rules[0].message)
    else
      assert forall i :: 1 <= i < |rules| ==> rules[i] == rules[1..][i - 1];
      FirstFailure(rules[1..])
  }

  /** The position of the first broken rule. */
  function FirstBroken(rules: seq<Rule>): (i: nat)
    requires !AllHold(rules)
    ensures IsFirstBroken(rules, i)
    decreases |rules|
  {
    if !rules[0].holds then 0
    else
      assert forall i :: 1 <= i < |rules| ==> rules[i] == rules[1..][i - 1];
      1 + FirstBroken(rules[1..])
  }

  /** When some rule is broken, the outcome is the message of the first broken one. */
  lemma {:induction false} FirstFailureReportsFirstBroken(rules: seq<Rule>, i: int)
    requires IsFirstBroken(rules, i)
    ensures FirstFailure(rules) == Err(rules[i].message)
    decreases |rules|
  {
    if i > 0 {
      assert forall j :: 0 <= j < i - 1 ==> rules[1..][j] == rules[j + 1];
      FirstFailureReportsFirstBroken(rules[1..], i - 1);
    }
  }

  /**
   * Fail-fast order: once rule `i` is broken, no rule after it is ever
   * reported, whatever else the input gets wrong.
   */
  lemma FirstFailureNeverReportsLater(rules: seq<Rule>, i: int, j: int)
    requires 0 <= i < j < |rules|
    requires !rules[i].holds
    requires DistinctMessages(rules)
    ensures FirstFailure(rules) != Err(rules[j].message)
  {
    var k := FirstBroken(rules);
    FirstFailureReportsFirstBroken(rules, k);
    assert k <= i;
  }

  /** Running one list of checks and then another is running their concatenation. */
  lemma {:induction false} FirstFailureAppend(a: seq<Rule>, b: seq<Rule>)
    ensures FirstFailure(a + b) == if FirstFailure(a).Err? then FirstFailure(a) else FirstFailure(b)
    decreases |a|
  {
    if |a| == 0 {
      assert a + b == b;
    } else {
      assert (a + b)[1..] == a[1..] + b;
      FirstFailureAppend(a[1..], b);
    }
  }
}
