/**
 * The mutable objects of the fuzzy engine: a linguistic variable that
 * collects membership functions, and an inference system that collects
 * variables and rules and runs Mamdani inference. Each object has a ghost
 * snapshot (Value, Config) and every computing method is proved equal to
 * the pure specification of module FuzzyEngine.
 */
module FuzzySystem {
  import opened Base
  import opened Membership
  import opened FuzzyRules
  import opened FuzzyEngine

  /** A linguistic variable with a universe [lo, hi] and a growing list of fuzzy sets. */
  class FuzzyVariable {
    const name: string
    const lo: real
    const hi: real
    var membershipFunctions: seq<MembershipFunction>

    /** The snapshot of this variable as a value. */
    ghost function Value(): Variable
      reads this
    {
      Variable(name, lo, hi, membershipFunctions)
    }

    constructor (name: string, lo: real, hi: real)
      ensures this.name == name && this.lo == lo && this.hi == hi
      ensures membershipFunctions == []
    {
      this.name := name;
      this.lo := lo;
      this.hi := hi;
      membershipFunctions := [];
    }

    /** Appends a fuzzy set; nothing else changes. */
    method AddMembershipFunction(mf: MembershipFunction)
      modifies this
      ensures membershipFunctions == old(membershipFunctions) + [mf]
    {
      membershipFunctions := membershipFunctions + [mf];
    }

    /** The degree of x in every fuzzy set of this variable, by set name. */
    method Fuzzify(x: real) returns (m: map<string, real>)
      ensures m == Memberships(membershipFunctions, x)
      ensures m.Keys == Names(membershipFunctions)
    {
      m := map[];
      var i := 0;
      while i < |membershipFunctions|
        invariant 0 <= i <= |membershipFunctions|
        invariant m == Memberships(membershipFunctions[..i], x)
      {
        var mf := membershipFunctions[i];
        m := m[mf.name := Degree(mf, x)];
        assert membershipFunctions[..i + 1][..i] == membershipFunctions[..i];
        i := i + 1;
      }
      assert membershipFunctions[..i] == membershipFunctions;
    }
  }

  /** A Mamdani inference system: variables by name, rules in order, and an output variable. */
  class FuzzyInferenceSystem {
    var variables: map<string, FuzzyVariable>
    var rules: seq<FuzzyRule>
    var outputVariable: FuzzyVariable?

    /** The snapshot of the system as a value; it needs an output variable. */
    ghost function Value(): Config
      requires outputVariable != null
      reads this, variables.Values, outputVariable
    {
      Config(VariableValues(), rules, outputVariable.Value())
    }

    /** The registered variables as values, by name. */
    ghost function VariableValues(): (values: map<string, Variable>)
      reads this`variables, variables.Values
      ensures values.Keys == variables.Keys
    {
      map n | n in variables :: variables[n].Value()
    }

    constructor ()
      ensures variables == map[] && rules == [] && outputVariable == null
      ensures VariableValues() == map[]
    {
      variables := map[];
      rules := [];
      outputVariable := null;
    }

    /** Registers a variable under its name, replacing any variable of that name. */
    method AddVariable(variable: FuzzyVariable)
      modifies this
      ensures variables == old(variables)[variable.name := variable]
      ensures VariableValues() == old(VariableValues())[variable.name := variable.Value()]
      ensures rules == old(rules) && outputVariable == old(outputVariable)
    {
      variables := variables[variable.name := variable];
    }

    /** Makes a variable the output and registers it like any other variable. */
    method SetOutputVariable(variable: FuzzyVariable)
      modifies this
      ensures outputVariable == variable
      ensures variables == old(variables)[variable.name := variable]
      ensures VariableValues() == old(VariableValues())[variable.name := variable.Value()]
      ensures rules == old(rules)
    {
      outputVariable := variable;
      AddVariable(variable);
    }

    /** Appends a rule; nothing else changes. */
    method AddRule(rule: FuzzyRule)
      modifies this
      ensures rules == old(rules) + [rule]
      ensures variables == old(variables) && outputVariable == old(outputVariable)
    {
      rules := rules + [rule];
    }

    /**
     * Fuzzifies the known inputs, aggregates the rules from zeros and
     * defuzzifies by centroid: the result is the specified inference, and
     * it lies in the output universe whenever that universe is an interval.
     */
    method Infer(inputs: map<string, real>) returns (r: real)
      requires outputVariable != null
      ensures r == InferValue(Value(), inputs)
      ensures outputVariable.lo <= outputVariable.hi ==> outputVariable.lo <= r <= outputVariable.hi
    {
      ghost var config := Value();
      var aggregation := AggregateInputs(inputs);
      r := DefuzzifyCentroid(aggregation);
      assert r == InferValue(config, inputs);
      if config.output.lo <= config.output.hi {
        InferInUniverse(config, inputs);
      }
    }

    /** Steps 1 and 2 of inference: the rules aggregated over the fuzzified inputs, from zeros. */
    method AggregateInputs(inputs: map<string, real>) returns (aggregation: map<string, real>)
      requires outputVariable != null
      ensures aggregation == Aggregate(rules, FuzzifyInputs(Value().variables, inputs), ZeroAggregation(outputVariable.membershipFunctions))
    {
      var fuzzyInputs := FuzzifyKnownInputs(inputs);
      aggregation := ZeroOutputSets();
      aggregation := AggregateRules(fuzzyInputs, aggregation);
    }

    /** Step 1 of inference: the fuzzification of every input whose variable is registered. */
    method FuzzifyKnownInputs(inputs: map<string, real>) returns (fuzzyInputs: FuzzyInputs)
      ensures fuzzyInputs == FuzzifyInputs(map n | n in variables :: variables[n].Value(), inputs)
    {
      fuzzyInputs := map[];
      var remaining := inputs.Keys;
      while remaining != {}
        invariant remaining <= inputs.Keys
        invariant fuzzyInputs.Keys == (inputs.Keys - remaining) * variables.Keys
        invariant forall v :: v in fuzzyInputs ==> fuzzyInputs[v] == Memberships(variables[v].membershipFunctions, inputs[v])
        decreases remaining
      {
        var name :| name in remaining;
        if name in variables {
          var m := variables[name].Fuzzify(inputs[name]);
          fuzzyInputs := fuzzyInputs[name := m];
        }
        remaining := remaining - {name};
      }
    }

    /** Step 2a of inference: every set name of the output variable mapped to 0. */
    method ZeroOutputSets() returns (aggregation: map<string, real>)
      requires outputVariable != null
      ensures aggregation == ZeroAggregation(outputVariable.membershipFunctions)
    {
      var outputSets := outputVariable.membershipFunctions;
      aggregation := map[];
      for i := 0 to |outputSets|
        invariant aggregation.Keys == Names(outputSets[..i])
        invariant forall n :: n in aggregation ==> aggregation[n] == 0.0
      {
        assert Names(outputSets[..i + 1]) == Names(outputSets[..i]) + {outputSets[i].name} by {
          assert outputSets[..i + 1][..i] == outputSets[..i];
        }
        aggregation := aggregation[outputSets[i].name := 0.0];
      }
      assert outputSets[..|outputSets|] == outputSets;
    }

    /** Step 2b of inference: each firing rule, in order, raises its consequent set to its strength. */
    method AggregateRules(fuzzyInputs: FuzzyInputs, init: map<string, real>) returns (aggregation: map<string, real>)
      ensures aggregation == Aggregate(rules, fuzzyInputs, init)
    {
      aggregation := init;
      for i := 0 to |rules|
        invariant aggregation == Aggregate(rules[..i], fuzzyInputs, init)
      {
        var strength := Evaluate(rules[i], fuzzyInputs);
        var consequentSet := rules[i].consequent.1;
        if strength > 0.0 && consequentSet in aggregation {
          aggregation := aggregation[consequentSet := Max(aggregation[consequentSet], strength)];
        }
        assert rules[..i + 1][..i] == rules[..i];
      }
      assert rules[..|rules|] == rules;
    }

    /**
     * The aggregated output membership on 100 samples of the output
     * universe, built set by set in an array, and its centroid (the
     * midpoint when it is 0 everywhere).
     */
    method DefuzzifyCentroid(aggregation: map<string, real>) returns (r: real)
      requires outputVariable != null
      ensures r == Centroid(outputVariable.Value(), aggregation)
    {
      var output := outputVariable;
      var xs := Samples(output.lo, output.hi);
      var mfs := output.membershipFunctions;
      var aggregated := new real[Resolution](_ => 0.0);
      for k := 0 to |mfs|
        invariant forall i :: 0 <= i < Resolution ==> aggregated[i] == ClippedMax(mfs[..k], aggregation, xs[i])
      {
        var mf := mfs[k];
        assert mfs[..k + 1][..k] == mfs[..k];
        if mf.name in aggregation && aggregation[mf.name] > 0.0 {
          for i := 0 to Resolution
            invariant forall j :: 0 <= j < i ==> aggregated[j] == ClippedMax(mfs[..k + 1], aggregation, xs[j])
            invariant forall j :: i <= j < Resolution ==> aggregated[j] == ClippedMax(mfs[..k], aggregation, xs[j])
          {
            var clipped := Min(Degree(mf, xs[i]), aggregation[mf.name]);
            aggregated[i] := Max(aggregated[i], clipped);
          }
        }
      }
      assert mfs[..|mfs|] == mfs;
      assert aggregated[..] == SampledMembership(output.Value(), aggregation);

      var numerator := WeightedSum(xs, aggregated[..]);
      var denominator := Sum(aggregated[..]);
      if denominator == 0.0 {
        r := (output.lo + output.hi) / 2.0;
      } else {
        r := numerator / denominator;
      }
    }
  }
}
