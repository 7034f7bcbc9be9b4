/**
 * Fuzzy if-then rules: a conjunction of (variable, set) antecedents and one
 * (variable, set) consequent, evaluated with AND = minimum.
 */
module FuzzyRules {
  import opened Base

  /** Fuzzified inputs: variable name to (fuzzy set name to degree). */
  type FuzzyInputs = map<string, map<string, real>>

  /**
   * A rule. The antecedents are the rule's dictionary items in insertion
   * order; the consequent is (variable name, set name).
   */
  datatype FuzzyRule = FuzzyRule(antecedents: seq<(string, string)>, consequent: (string, string))

  /** Every antecedent names a variable present in the inputs and a set present under it. */
  predicate AllPresent(antecedents: seq<(string, string)>, inputs: FuzzyInputs)
  {
    forall i :: 0 <= i < |antecedents| ==>
      antecedents[i].0 in inputs && antecedents[i].1 in inputs[antecedents[i].0]
  }

  /** The degrees the antecedents select, in order. */
  function Degrees(antecedents: seq<(string, string)>, inputs: FuzzyInputs): (ds: seq<real>)
    requires AllPresent(antecedents, inputs)
    ensures |ds| == |antecedents|
    ensures forall i :: 0 <= i < |ds| ==> ds[i] == inputs[antecedents[i].0][antecedents[i].1]
  {
    seq(|antecedents|, i requires 0 <= i < |antecedents| => inputs[antecedents[i].0][antecedents[i].1])
  }

  /** Python's `min` over a non-empty list: a lower bound that is one of the elements. */
  function MinOf(s: seq<real>): (r: real)
    requires s != []
    ensures forall i :: 0 <= i < |s| ==> r <= s[i]
    ensures exists i :: 0 <= i < |s| && r == s[i]
  {
    if |s| == 1 then s[0]
    else
      var rest := MinOf(s[1..]);
      assert forall i :: 1 <= i < |s| ==> s[i] == s[1..][i - 1];
      Min(s[0], rest)
  }

  /**
   * Firing strength: 0 when any antecedent variable or set is missing, 0 for
   * an empty antecedent list, and otherwise the minimum selected degree.
   */
  function Strength(rule: FuzzyRule, inputs: FuzzyInputs): real
  {
    if !AllPresent(rule.antecedents, inputs) || rule.antecedents == [] then 0.0
    else MinOf(Degrees(rule.antecedents, inputs))
  }

  /** All degrees in the inputs lie in [0, 1]. */
  predicate DegreesInRange(inputs: FuzzyInputs)
  {
    forall v, s :: v in inputs && s in inputs[v] ==> 0.0 <= inputs[v][s] <= 1.0
  }

  /**
   * The loop of the source: collect each antecedent's degree, return 0 as
   * soon as one is missing, and take the minimum of what was collected.
   */
  method Evaluate(rule: FuzzyRule, inputs: FuzzyInputs) returns (strength: real)
    ensures strength == Strength(rule, inputs)
  {
    var strengths: seq<real> := [];
    var i := 0;
    while i < |rule.antecedents|
      invariant 0 <= i <= |rule.antecedents|
      invariant AllPresent(rule.antecedents[..i], inputs)
      invariant strengths == Degrees(rule.antecedents[..i], inputs)
    {
      var (varName, fuzzySet) := rule.antecedents[i];
      if varName in inputs && fuzzySet in inputs[varName] {
        strengths := strengths + [inputs[varName][fuzzySet]];
      } else {
        assert !AllPresent(rule.antecedents, inputs);
        return 0.0;
      }
      i := i + 1;
    }
    assert rule.antecedents[..i] == rule.antecedents;
    strength := if strengths != [] then MinOf(strengths) else 0.0;
  }

  /**
   * The strength of a firing rule is the minimum of its antecedent degrees:
   * no antecedent degree is below it and one of them equals it.
   */
  lemma StrengthIsMinimum(rule: FuzzyRule, inputs: FuzzyInputs)
    requires AllPresent(rule.antecedents, inputs) && rule.antecedents != []
    ensures forall i :: 0 <= i < |rule.antecedents| ==>
      Strength(rule, inputs) <= inputs[rule.antecedents[i].0][rule.antecedents[i].1]
    ensures exists i :: 0 <= i < |rule.antecedents| && Strength(rule, inputs) == inputs[rule.antecedents[i].0][rule.antecedents[i].1]
  {
    var ds := Degrees(rule.antecedents, inputs);
    var k :| 0 <= k < |ds| && MinOf(ds) == ds[k];
    assert Strength(rule, inputs) == inputs[rule.antecedents[k].0][rule.antecedents[k].1];
  }

  /** With degrees in [0, 1], every firing strength is in [0, 1]. */
  lemma StrengthInRange(rule: FuzzyRule, inputs: FuzzyInputs)
    requires DegreesInRange(inputs)
    ensures 0.0 <= Strength(rule, inputs) <= 1.0
  {
    if AllPresent(rule.antecedents, inputs) && rule.antecedents != [] {
      var ds := Degrees(rule.antecedents, inputs);
      var k :| 0 <= k < |ds| && MinOf(ds) == ds[k];
      assert 0.0 <= ds[k] <= 1.0;
    }
  }

  /** A rule whose antecedent is missing from the inputs does not fire. */
  lemma MissingAntecedentDoesNotFire(rule: FuzzyRule, inputs: FuzzyInputs, i: nat)
    requires i < |rule.antecedents|
    requires rule.antecedents[i].0 !in inputs || rule.antecedents[i].1 !in inputs[rule.antecedents[i].0]
    ensures Strength(rule, inputs) == 0.0
  {
  }

  /** AND is a minimum: with degrees in [0, 1], an antecedent of degree 0 keeps the rule from firing. */
  lemma ZeroAntecedentBlocks(rule: FuzzyRule, inputs: FuzzyInputs, i: nat)
    requires DegreesInRange(inputs)
    requires i < |rule.antecedents|
    requires rule.antecedents[i].0 in inputs && rule.antecedents[i].1 in inputs[rule.antecedents[i].0]
    requires inputs[rule.antecedents[i].0][rule.antecedents[i].1] == 0.0
    ensures Strength(rule, inputs) == 0.0
  {
    StrengthInRange(rule, inputs);
    if AllPresent(rule.antecedents, inputs) {
      StrengthIsMinimum(rule, inputs);
    }
  }

  /** The two rule examples of the unit tests: min(0.8, 0.6) = 0.6, and 0 when "humidity" is missing. */
  lemma UnitTestStrengths()
    ensures Strength(FuzzyRule([("temp", "hot"), ("humidity", "high")], ("fan_speed", "fast")),
                     map["temp" := map["hot" := 0.8, "cold" := 0.2],
                         "humidity" := map["high" := 0.6, "low" := 0.4]]) == 0.6
    ensures Strength(FuzzyRule([("temp", "hot"), ("humidity", "high")], ("fan_speed", "fast")),
                     map["temp" := map["hot" := 0.8]]) == 0.0
  {
    var rule := FuzzyRule([("temp", "hot"), ("humidity", "high")], ("fan_speed", "fast"));
    var inputs := map["temp" := map["hot" := 0.8, "cold" := 0.2],
                      "humidity" := map["high" := 0.6, "low" := 0.4]];
    assert AllPresent(rule.antecedents, inputs);
    assert Degrees(rule.antecedents, inputs) == [0.8, 0.6];
    var missing := map["temp" := map["hot" := 0.8]];
    assert rule.antecedents[1].0 !in missing;
  }
}
