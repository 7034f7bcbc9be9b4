/**
 * The fixed priority system of the scheduler: three inputs (processing
 * time, due-date urgency, machine load), one output (priority, five sets)
 * and thirteen rules, together with the three scenarios its unit tests
 * check.
 */
module SchedulingSystem {
  import opened Membership
  import opened FuzzyRules
  import opened FuzzyEngine
  import opened FuzzySystem

  /** Processing time in hours, universe [0, 100]. */
  const ProcessingTimeVariable := Variable("processing_time", 0.0, 100.0,
    [Triangular("short", 0.0, 0.0, 40.0), Triangular("medium", 20.0, 50.0, 80.0), Triangular("long", 60.0, 100.0, 100.0)])

  /** Due-date urgency, universe [0, 10] (10 is most urgent). */
  const UrgencyVariable := Variable("urgency", 0.0, 10.0,
    [Triangular("low", 0.0, 0.0, 5.0), Triangular("medium", 2.0, 5.0, 8.0), Triangular("high", 5.0, 10.0, 10.0)])

  /** Machine load in percent, universe [0, 100]. */
  const MachineLoadVariable := Variable("machine_load", 0.0, 100.0,
    [Triangular("light", 0.0, 0.0, 50.0), Triangular("medium", 25.0, 50.0, 75.0), Triangular("heavy", 50.0, 100.0, 100.0)])

  /** Job priority, universe [0, 100]: the output variable. */
  const PriorityVariable := Variable("priority", 0.0, 100.0,
    [Triangular("very_low", 0.0, 0.0, 25.0), Triangular("low", 0.0, 25.0, 50.0), Triangular("medium", 25.0, 50.0, 75.0),
     Triangular("high", 50.0, 75.0, 100.0), Triangular("very_high", 75.0, 100.0, 100.0)])

  /** The thirteen rules, in order, each concluding a set of "priority". */
  const SchedulingRules := [
    // high urgency
    FuzzyRule([("urgency", "high"), ("processing_time", "short"), ("machine_load", "light")], ("priority", "very_high")),
    FuzzyRule([("urgency", "high"), ("processing_time", "short"), ("machine_load", "medium")], ("priority", "very_high")),
    FuzzyRule([("urgency", "high"), ("processing_time", "medium"), ("machine_load", "light")], ("priority", "high")),
    FuzzyRule([("urgency", "high"), ("processing_time", "long"), ("machine_load", "light")], ("priority", "high")),
    FuzzyRule([("urgency", "high"), ("machine_load", "heavy")], ("priority", "medium")),
    // medium urgency
    FuzzyRule([("urgency", "medium"), ("processing_time", "short"), ("machine_load", "light")], ("priority", "high")),
    FuzzyRule([("urgency", "medium"), ("processing_time", "medium"), ("machine_load", "light")], ("priority", "medium")),
    FuzzyRule([("urgency", "medium"), ("processing_time", "long"), ("machine_load", "medium")], ("priority", "low")),
    FuzzyRule([("urgency", "medium"), ("machine_load", "heavy")], ("priority", "low")),
    // low urgency
    FuzzyRule([("urgency", "low"), ("processing_time", "short"), ("machine_load", "light")], ("priority", "medium")),
    FuzzyRule([("urgency", "low"), ("processing_time", "medium")], ("priority", "low")),
    FuzzyRule([("urgency", "low"), ("processing_time", "long")], ("priority", "very_low")),
    FuzzyRule([("urgency", "low"), ("machine_load", "heavy")], ("priority", "very_low"))
  ]

  /** The configuration the factory builds. */
  const SchedulingConfig := Config(
    map["processing_time" := ProcessingTimeVariable, "urgency" := UrgencyVariable,
        "machine_load" := MachineLoadVariable, "priority" := PriorityVariable],
    SchedulingRules, PriorityVariable)

  /** Builds a variable object holding the given value's fuzzy sets. */
  method NewVariable(v: Variable) returns (variable: FuzzyVariable)
    ensures fresh(variable) && variable.Value() == v
  {
    variable := new FuzzyVariable(v.name, v.lo, v.hi);
    for i := 0 to |v.mfs|
      invariant variable.Value() == Variable(v.name, v.lo, v.hi, v.mfs[..i])
    {
      variable.AddMembershipFunction(v.mfs[i]);
      assert v.mfs[..i + 1] == v.mfs[..i] + [v.mfs[i]];
    }
    assert v.mfs[..|v.mfs|] == v.mfs;
  }

  /** Registering the four variables in order gives the variables of the configuration. */
  lemma SchedulingVariables()
    ensures map[][ProcessingTimeVariable.name := ProcessingTimeVariable][UrgencyVariable.name := UrgencyVariable]
                 [MachineLoadVariable.name := MachineLoadVariable][PriorityVariable.name := PriorityVariable]
            == SchedulingConfig.variables
    ensures SchedulingConfig.variables.Keys == {"processing_time", "urgency", "machine_load", "priority"}
  {
  }

  /** Builds a variable object holding the given value's fuzzy sets and registers it as an input. */
  method RegisterVariable(fis: FuzzyInferenceSystem, v: Variable) returns (variable: FuzzyVariable)
    modifies fis
    ensures fresh(variable) && variable.Value() == v
    ensures fis.VariableValues() == old(fis.VariableValues())[v.name := v]
    ensures fis.rules == old(fis.rules) && fis.outputVariable == old(fis.outputVariable)
  {
    variable := NewVariable(v);
    fis.AddVariable(variable);
  }

  /** Appends the rules in order; the variables stay as they are. */
  method AddRules(fis: FuzzyInferenceSystem, rules: seq<FuzzyRule>)
    modifies fis
    ensures fis.rules == old(fis.rules) + rules
    ensures fis.variables == old(fis.variables) && fis.outputVariable == old(fis.outputVariable)
    ensures fis.VariableValues() == old(fis.VariableValues())
  {
    for i := 0 to |rules|
      invariant fis.rules == old(fis.rules) + rules[..i]
      invariant fis.variables == old(fis.variables) && fis.outputVariable == old(fis.outputVariable)
      invariant fis.VariableValues() == old(fis.VariableValues())
    {
      fis.AddRule(rules[i]);
      assert rules[..i + 1] == rules[..i] + [rules[i]];
    }
    assert rules[..|rules|] == rules;
  }

  /**
   * The factory: three input variables, the output variable "priority"
   * (registered as a variable too) and the thirteen rules in order.
   */
  method CreateSchedulingFuzzySystem() returns (fis: FuzzyInferenceSystem)
    ensures fresh(fis) && fis.outputVariable != null
    ensures fis.variables.Keys == {"processing_time", "urgency", "machine_load", "priority"}
    ensures |fis.outputVariable.membershipFunctions| == 5 && |fis.rules| == 13
    ensures fis.Value() == SchedulingConfig
  {
    fis := new FuzzyInferenceSystem();
    var _ := RegisterVariable(fis, ProcessingTimeVariable);
    var _ := RegisterVariable(fis, UrgencyVariable);
    var _ := RegisterVariable(fis, MachineLoadVariable);
    var priority := NewVariable(PriorityVariable);
    fis.SetOutputVariable(priority);
    ghost var values := fis.VariableValues();
    assert values == map[][ProcessingTimeVariable.name := ProcessingTimeVariable][UrgencyVariable.name := UrgencyVariable]
                         [MachineLoadVariable.name := MachineLoadVariable][PriorityVariable.name := PriorityVariable];
    SchedulingVariables();
    AddRules(fis, SchedulingRules);
    assert fis.VariableValues() == values;
    assert fis.rules == SchedulingRules && fis.outputVariable.Value() == PriorityVariable;
    assert |SchedulingRules| == 13 && |PriorityVariable.mfs| == 5;
  }

  // ---------------------------------------------------------------------
  // The three inference scenarios of the unit tests
  // ---------------------------------------------------------------------

  /** Fuzzification by a variable with three differently named sets. */
  lemma ThreeSetMemberships(mfs: seq<MembershipFunction>, x: real)
    requires |mfs| == 3
    requires mfs[0].name != mfs[1].name && mfs[0].name != mfs[2].name && mfs[1].name != mfs[2].name
    ensures Memberships(mfs, x) == map[mfs[0].name := Degree(mfs[0], x), mfs[1].name := Degree(mfs[1], x),
                                       mfs[2].name := Degree(mfs[2], x)]
  {
    assert mfs[..1][..0] == [];
    assert Memberships(mfs[..1], x) == map[mfs[0].name := Degree(mfs[0], x)];
    assert mfs[..2][..1] == mfs[..1];
    assert Memberships(mfs[..2], x) == map[mfs[0].name := Degree(mfs[0], x), mfs[1].name := Degree(mfs[1], x)];
  }

  /** The zero aggregation of the five priority sets. */
  lemma PriorityZeroAggregation()
    ensures ZeroAggregation(PriorityVariable.mfs) == NothingFires
  {
    var mfs := PriorityVariable.mfs;
    assert Names(mfs) == {"very_low", "low", "medium", "high", "very_high"} by {
      assert mfs[0].name == "very_low" && mfs[1].name == "low" && mfs[2].name == "medium";
      assert mfs[3].name == "high" && mfs[4].name == "very_high";
    }
  }

  /** The aggregation in which no priority set fires. */
  const NothingFires := map["very_low" := 0.0, "low" := 0.0, "medium" := 0.0, "high" := 0.0, "very_high" := 0.0]

  /** The fuzzification of the known inputs of a scenario, one variable at a time. */
  lemma ScenarioFuzzification(pt: real, urgency: real, load: real)
    ensures FuzzifyInputs(SchedulingConfig.variables, map["processing_time" := pt, "urgency" := urgency, "machine_load" := load]) ==
      map["processing_time" := Memberships(ProcessingTimeVariable.mfs, pt),
          "urgency" := Memberships(UrgencyVariable.mfs, urgency),
          "machine_load" := Memberships(MachineLoadVariable.mfs, load)]
  {
    var variables := SchedulingConfig.variables;
    assert variables["processing_time"] == ProcessingTimeVariable && variables["urgency"] == UrgencyVariable;
    assert variables["machine_load"] == MachineLoadVariable;
    FuzzifyThreeInputs(variables, "processing_time", "urgency", "machine_load", pt, urgency, load);
  }

  /** Fuzzification of a scenario whose three variables take the given degrees. */
  lemma ScenarioDegrees(pt: real, urgency: real, load: real, ptDegrees: seq<real>, urgencyDegrees: seq<real>, loadDegrees: seq<real>)
    requires |ptDegrees| == 3 && |urgencyDegrees| == 3 && |loadDegrees| == 3
    requires forall i :: 0 <= i < 3 ==> Degree(ProcessingTimeVariable.mfs[i], pt) == ptDegrees[i]
    requires forall i :: 0 <= i < 3 ==> Degree(UrgencyVariable.mfs[i], urgency) == urgencyDegrees[i]
    requires forall i :: 0 <= i < 3 ==> Degree(MachineLoadVariable.mfs[i], load) == loadDegrees[i]
    ensures FuzzifyInputs(SchedulingConfig.variables, map["processing_time" := pt, "urgency" := urgency, "machine_load" := load]) ==
      map["processing_time" := map["short" := ptDegrees[0], "medium" := ptDegrees[1], "long" := ptDegrees[2]],
          "urgency" := map["low" := urgencyDegrees[0], "medium" := urgencyDegrees[1], "high" := urgencyDegrees[2]],
          "machine_load" := map["light" := loadDegrees[0], "medium" := loadDegrees[1], "heavy" := loadDegrees[2]]]
  {
    ScenarioFuzzification(pt, urgency, load);
    ThreeSetMemberships(ProcessingTimeVariable.mfs, pt);
    ThreeSetMemberships(UrgencyVariable.mfs, urgency);
    ThreeSetMemberships(MachineLoadVariable.mfs, load);
  }

  /** Inputs the unit tests expect to give a high priority. */
  const HighPriorityInputs := map["processing_time" := 10.0, "urgency" := 9.0, "machine_load" := 20.0]

  const HighPriorityFuzzy := map["processing_time" := map["short" := 0.75, "medium" := 0.0, "long" := 0.0],
                                 "urgency" := map["low" := 0.0, "medium" := 0.0, "high" := 0.8],
                                 "machine_load" := map["light" := 0.6, "medium" := 0.0, "heavy" := 0.0]]

  lemma HighPriorityFuzzification()
    ensures FuzzifyInputs(SchedulingConfig.variables, HighPriorityInputs) == HighPriorityFuzzy
  {
    ScenarioDegrees(10.0, 9.0, 20.0, [0.75, 0.0, 0.0], [0.0, 0.0, 0.8], [0.6, 0.0, 0.0]);
  }


  /** For the high-priority inputs only rule 1 fires, at min(0.8, 0.75, 0.6) = 0.6. */
  lemma HighPriorityStrengths()
    ensures Strength(SchedulingRules[0], HighPriorityFuzzy) == 0.6
    ensures forall i :: 1 <= i < |SchedulingRules| ==> Strength(SchedulingRules[i], HighPriorityFuzzy) == 0.0
  {
    assert Degrees(SchedulingRules[0].antecedents, HighPriorityFuzzy) == [0.8, 0.75, 0.6];
    HighPriorityUrgentRulesBlocked();
    HighPriorityOtherRulesBlocked();
  }

  /** Rules 2 to 5 ask for a medium or heavy load, or a medium or long processing time, all of degree 0. */
  lemma HighPriorityUrgentRulesBlocked()
    ensures forall i :: 1 <= i < 5 ==> Strength(SchedulingRules[i], HighPriorityFuzzy) == 0.0
  {
    var rules, fi := SchedulingRules, HighPriorityFuzzy;
    assert DegreesInRange(fi);
    assert fi["processing_time"]["medium"] == 0.0 && fi["processing_time"]["long"] == 0.0;
    assert fi["machine_load"]["medium"] == 0.0 && fi["machine_load"]["heavy"] == 0.0;
    forall i | 1 <= i < 5
      ensures Strength(rules[i], fi) == 0.0
    {
      ZeroAntecedentBlocks(rules[i], fi, if i == 1 then 2 else 1);
    }
  }

  /** Rules 6 to 13 ask for a medium or low urgency, both of degree 0. */
  lemma HighPriorityOtherRulesBlocked()
    ensures forall i :: 5 <= i < 13 ==> Strength(SchedulingRules[i], HighPriorityFuzzy) == 0.0
  {
    var rules, fi := SchedulingRules, HighPriorityFuzzy;
    assert DegreesInRange(fi);
    assert fi["urgency"]["medium"] == 0.0 && fi["urgency"]["low"] == 0.0;
    forall i | 5 <= i < 13
      ensures Strength(rules[i], fi) == 0.0
    {
      ZeroAntecedentBlocks(rules[i], fi, 0);
    }
  }



  /** When only rules concluding "very_high" fire, and the strongest at 0.6, only "very_high" is active. */
  lemma SingleFiringRule(rules: seq<FuzzyRule>, fi: FuzzyInputs)
    requires |rules| > 0 && rules[0].consequent.1 == "very_high"
    requires Strength(rules[0], fi) == 0.6
    requires forall i :: 1 <= i < |rules| ==> Strength(rules[i], fi) == 0.0
    ensures Aggregate(rules, fi, NothingFires) == NothingFires["very_high" := 0.6]
  {
    AggregateOfOneSet(rules, fi, NothingFires, "very_high", 0);
  }

  /** With only "very_high" active, every sample carrying weight is above 75. */
  lemma VeryHighCentroid(v: Variable, agg: map<string, real>)
    requires v == PriorityVariable && agg == NothingFires["very_high" := 0.6]
    ensures 75.0 <= Centroid(v, agg) <= 100.0
  {
    forall i | 0 <= i < Resolution && ClippedMax(v.mfs, agg, Sample(v.lo, v.hi, i)) > 0.0
      ensures 75.0 <= Sample(v.lo, v.hi, i) <= 100.0
    {
      ClippedMaxPositive(v.mfs, agg, Sample(v.lo, v.hi, i));
      SampleInUniverse(v.lo, v.hi, i);
    }
    assert ClippedMax(v.mfs, agg, Sample(v.lo, v.hi, 90)) > 0.0 by {
      assert Active(v.mfs[4], agg) && Degree(v.mfs[4], Sample(v.lo, v.hi, 90)) > 0.0;
      ClippedMaxPositive(v.mfs, agg, Sample(v.lo, v.hi, 90));
    }
    CentroidBetween(v, agg, 75.0, 100.0);
  }

  /** The tests' high-priority case: the inferred priority exceeds 70 (it is at least 75). */
  lemma HighPriorityScenario(config: Config, inputs: map<string, real>)
    requires config == SchedulingConfig && inputs == HighPriorityInputs
    ensures InferValue(config, inputs) >= 75.0
  {
    HighPriorityFuzzification();
    HighPriorityStrengths();
    PriorityZeroAggregation();
    assert config.rules[0].consequent.1 == "very_high";
    SingleFiringRule(config.rules, HighPriorityFuzzy);
    VeryHighCentroid(config.output, NothingFires["very_high" := 0.6]);
  }

  /** Inputs the unit tests expect to give a low priority. */
  const LowPriorityInputs := map["processing_time" := 80.0, "urgency" := 1.0, "machine_load" := 80.0]

  const LowPriorityFuzzy := map["processing_time" := map["short" := 0.0, "medium" := 0.0, "long" := 0.5],
                                "urgency" := map["low" := 0.8, "medium" := 0.0, "high" := 0.0],
                                "machine_load" := map["light" := 0.0, "medium" := 0.0, "heavy" := 0.6]]

  lemma LowPriorityFuzzification()
    ensures FuzzifyInputs(SchedulingConfig.variables, LowPriorityInputs) == LowPriorityFuzzy
  {
    ScenarioDegrees(80.0, 1.0, 80.0, [0.0, 0.0, 0.5], [0.8, 0.0, 0.0], [0.0, 0.0, 0.6]);
  }


  /** For the low-priority inputs only rules 12 and 13 fire, at 0.5 and 0.6. */
  lemma LowPriorityStrengths()
    ensures Strength(SchedulingRules[11], LowPriorityFuzzy) == 0.5
    ensures Strength(SchedulingRules[12], LowPriorityFuzzy) == 0.6
    ensures forall i :: 0 <= i < 11 ==> Strength(SchedulingRules[i], LowPriorityFuzzy) == 0.0
  {
    assert Degrees(SchedulingRules[11].antecedents, LowPriorityFuzzy) == [0.8, 0.5];
    assert Degrees(SchedulingRules[12].antecedents, LowPriorityFuzzy) == [0.8, 0.6];
    LowPriorityUrgentRulesBlocked();
    LowPriorityOtherRulesBlocked();
  }

  /** Rules 1 to 9 ask for a high or medium urgency, both of degree 0. */
  lemma LowPriorityUrgentRulesBlocked()
    ensures forall i :: 0 <= i < 9 ==> Strength(SchedulingRules[i], LowPriorityFuzzy) == 0.0
  {
    var rules, fi := SchedulingRules, LowPriorityFuzzy;
    assert DegreesInRange(fi);
    assert fi["urgency"]["medium"] == 0.0 && fi["urgency"]["high"] == 0.0;
    forall i | 0 <= i < 9
      ensures Strength(rules[i], fi) == 0.0
    {
      ZeroAntecedentBlocks(rules[i], fi, 0);
    }
  }

  /** Rules 10 and 11 ask for a short or medium processing time, both of degree 0. */
  lemma LowPriorityOtherRulesBlocked()
    ensures forall i :: 9 <= i < 11 ==> Strength(SchedulingRules[i], LowPriorityFuzzy) == 0.0
  {
    var rules, fi := SchedulingRules, LowPriorityFuzzy;
    assert DegreesInRange(fi);
    assert fi["processing_time"]["short"] == 0.0 && fi["processing_time"]["medium"] == 0.0;
    forall i | 9 <= i < 11
      ensures Strength(rules[i], fi) == 0.0
    {
      ZeroAntecedentBlocks(rules[i], fi, 1);
    }
  }



  /** When only the last two rules fire, both on "very_low", the stronger one sets it. */
  lemma TwoVeryLowRules(rules: seq<FuzzyRule>, fi: FuzzyInputs)
    requires |rules| == 13
    requires rules[11].consequent.1 == "very_low" && rules[12].consequent.1 == "very_low"
    requires Strength(rules[11], fi) == 0.5 && Strength(rules[12], fi) == 0.6
    requires forall i :: 0 <= i < 11 ==> Strength(rules[i], fi) == 0.0
    ensures Aggregate(rules, fi, NothingFires) == NothingFires["very_low" := 0.6]
  {
    AggregateOfOneSet(rules, fi, NothingFires, "very_low", 12);
  }

  /** With only "very_low" active, every sample carrying weight is below 25. */
  lemma VeryLowCentroid(v: Variable, agg: map<string, real>)
    requires v == PriorityVariable && agg == NothingFires["very_low" := 0.6]
    ensures 0.0 <= Centroid(v, agg) <= 25.0
  {
    forall i | 0 <= i < Resolution && ClippedMax(v.mfs, agg, Sample(v.lo, v.hi, i)) > 0.0
      ensures 0.0 <= Sample(v.lo, v.hi, i) <= 25.0
    {
      ClippedMaxPositive(v.mfs, agg, Sample(v.lo, v.hi, i));
      SampleInUniverse(v.lo, v.hi, i);
    }
    assert ClippedMax(v.mfs, agg, Sample(v.lo, v.hi, 1)) > 0.0 by {
      assert Active(v.mfs[0], agg) && Degree(v.mfs[0], Sample(v.lo, v.hi, 1)) > 0.0;
      ClippedMaxPositive(v.mfs, agg, Sample(v.lo, v.hi, 1));
    }
    CentroidBetween(v, agg, 0.0, 25.0);
  }

  /** The tests' low-priority case: the inferred priority is below 40 (it is at most 25). */
  lemma LowPriorityScenario(config: Config, inputs: map<string, real>)
    requires config == SchedulingConfig && inputs == LowPriorityInputs
    ensures InferValue(config, inputs) <= 25.0
  {
    LowPriorityFuzzification();
    LowPriorityStrengths();
    PriorityZeroAggregation();
    assert config.rules[11].consequent.1 == "very_low" && config.rules[12].consequent.1 == "very_low";
    TwoVeryLowRules(config.rules, LowPriorityFuzzy);
    VeryLowCentroid(config.output, NothingFires["very_low" := 0.6]);
  }

  /** Inputs the unit tests expect to give a medium priority. */
  const MediumPriorityInputs := map["processing_time" := 50.0, "urgency" := 5.0, "machine_load" := 50.0]

  const MediumPriorityFuzzy := map["processing_time" := map["short" := 0.0, "medium" := 1.0, "long" := 0.0],
                                   "urgency" := map["low" := 0.0, "medium" := 1.0, "high" := 0.0],
                                   "machine_load" := map["light" := 0.0, "medium" := 1.0, "heavy" := 0.0]]

  lemma MediumPriorityFuzzification()
    ensures FuzzifyInputs(SchedulingConfig.variables, MediumPriorityInputs) == MediumPriorityFuzzy
  {
    ScenarioDegrees(50.0, 5.0, 50.0, [0.0, 1.0, 0.0], [0.0, 1.0, 0.0], [0.0, 1.0, 0.0]);
  }


  /** For the medium inputs no rule fires: every rule has an antecedent of degree 0. */
  lemma MediumPriorityStrengths()
    ensures forall i :: 0 <= i < |SchedulingRules| ==> Strength(SchedulingRules[i], MediumPriorityFuzzy) == 0.0
  {
    MediumPriorityExtremeUrgencyBlocked();
    MediumPriorityMediumUrgencyBlocked();
  }

  /** Rules 1 to 5 and 10 to 13 ask for a high or low urgency, both of degree 0. */
  lemma MediumPriorityExtremeUrgencyBlocked()
    ensures forall i :: 0 <= i < 13 && (i < 5 || 9 <= i) ==> Strength(SchedulingRules[i], MediumPriorityFuzzy) == 0.0
  {
    var rules, fi := SchedulingRules, MediumPriorityFuzzy;
    assert DegreesInRange(fi);
    assert fi["urgency"]["high"] == 0.0 && fi["urgency"]["low"] == 0.0;
    forall i | 0 <= i < 13 && (i < 5 || 9 <= i)
      ensures Strength(rules[i], fi) == 0.0
    {
      ZeroAntecedentBlocks(rules[i], fi, 0);
    }
  }

  /** Rules 6 to 9 ask for a short or long processing time or a light or heavy load, all of degree 0. */
  lemma MediumPriorityMediumUrgencyBlocked()
    ensures forall i :: 5 <= i < 9 ==> Strength(SchedulingRules[i], MediumPriorityFuzzy) == 0.0
  {
    var rules, fi := SchedulingRules, MediumPriorityFuzzy;
    assert DegreesInRange(fi);
    assert fi["processing_time"]["short"] == 0.0 && fi["processing_time"]["long"] == 0.0;
    assert fi["machine_load"]["light"] == 0.0 && fi["machine_load"]["heavy"] == 0.0;
    forall i | 5 <= i < 9
      ensures Strength(rules[i], fi) == 0.0
    {
      ZeroAntecedentBlocks(rules[i], fi, if i == 6 then 2 else 1);
    }
  }



  /** When no rule fires, every output set stays at 0. */
  lemma NoRuleFires(rules: seq<FuzzyRule>, fi: FuzzyInputs)
    requires forall i :: 0 <= i < |rules| ==> Strength(rules[i], fi) == 0.0
    ensures Aggregate(rules, fi, NothingFires) == NothingFires
  {
    AggregateOfNoFiring(rules, fi, NothingFires);
  }

  /** With no active set the centroid falls back to the midpoint 50. */
  lemma SilentCentroid(v: Variable, agg: map<string, real>)
    requires v == PriorityVariable && agg == NothingFires
    ensures Centroid(v, agg) == 50.0
  {
    assert forall n :: n in agg ==> agg[n] <= 0.0;
    forall i | 0 <= i < Resolution
      ensures ClippedMax(v.mfs, agg, Sample(v.lo, v.hi, i)) == 0.0
    {
      ClippedMaxSilent(v.mfs, agg, Sample(v.lo, v.hi, i));
    }
    CentroidFallback(v, agg);
  }

  /** The tests' medium case: the inferred priority is between 30 and 70 (it is exactly 50). */
  lemma MediumPriorityScenario(config: Config, inputs: map<string, real>)
    requires config == SchedulingConfig && inputs == MediumPriorityInputs
    ensures InferValue(config, inputs) == 50.0
  {
    MediumPriorityFuzzification();
    MediumPriorityStrengths();
    PriorityZeroAggregation();
    NoRuleFires(config.rules, MediumPriorityFuzzy);
    SilentCentroid(config.output, NothingFires);
  }
}
