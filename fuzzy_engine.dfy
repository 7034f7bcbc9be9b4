/**
 * The Mamdani inference engine: linguistic variables that fuzzify crisp
 * values, max-aggregation of rule strengths per output set, and centroid
 * defuzzification over 100 evenly spaced samples of the output universe.
 * The pure functions here specify the classes FuzzyVariable and
 * FuzzyInferenceSystem, whose methods are proved equal to them.
 */
module FuzzyEngine {
  import opened Base
  import opened Membership
  import opened FuzzyRules

  /** The value of a linguistic variable: its name, universe [lo, hi] and its membership functions in order. */
  datatype Variable = Variable(name: string, lo: real, hi: real, mfs: seq<MembershipFunction>)

  /** The value of an inference system: variables by name, rules in order, and the output variable. */
  datatype Config = Config(variables: map<string, Variable>, rules: seq<FuzzyRule>, output: Variable)

  /** The names of a list of membership functions. */
  function Names(mfs: seq<MembershipFunction>): set<string>
  {
    set i | 0 <= i < |mfs| :: mfs[i].name
  }

  /**
   * Fuzzification: one entry per membership function, zero degrees included;
   * as in a dictionary filled in order, a later function with the same name
   * overwrites an earlier one.
   */
  function Memberships(mfs: seq<MembershipFunction>, x: real): (m: map<string, real>)
    ensures m.Keys == Names(mfs)
    ensures forall n :: n in m ==> 0.0 <= m[n] <= 1.0
  {
    if mfs == [] then map[]
    else
      var init := mfs[..|mfs| - 1];
      assert Names(mfs) == Names(init) + {mfs[|mfs| - 1].name} by {
        assert forall i :: 0 <= i < |init| ==> init[i] == mfs[i];
      }
      Memberships(init, x)[mfs[|mfs| - 1].name := Degree(mfs[|mfs| - 1], x)]
  }

  /** The entry of a set name is the degree of the last membership function carrying that name. */
  lemma {:induction false} MembershipOfLastWithName(mfs: seq<MembershipFunction>, x: real, k: nat)
    requires k < |mfs|
    requires forall j :: k < j < |mfs| ==> mfs[j].name != mfs[k].name
    ensures Memberships(mfs, x)[mfs[k].name] == Degree(mfs[k], x)
  {
    if k < |mfs| - 1 {
      var init := mfs[..|mfs| - 1];
      MembershipOfLastWithName(init, x, k);
    }
  }

  /** Fuzzification of every input whose variable is known; other inputs are ignored. */
  function FuzzifyInputs(variables: map<string, Variable>, inputs: map<string, real>): (f: FuzzyInputs)
    ensures f.Keys == inputs.Keys * variables.Keys
    ensures forall v :: v in f ==> f[v] == Memberships(variables[v].mfs, inputs[v])
  {
    map v | v in inputs && v in variables :: Memberships(variables[v].mfs, inputs[v])
  }

  /** Fuzzification of three inputs, each with a registered variable. */
  lemma FuzzifyThreeInputs(variables: map<string, Variable>, a: string, b: string, c: string, x: real, y: real, z: real)
    requires a in variables && b in variables && c in variables
    requires a != b && a != c && b != c
    ensures FuzzifyInputs(variables, map[a := x, b := y, c := z]) ==
      map[a := Memberships(variables[a].mfs, x), b := Memberships(variables[b].mfs, y), c := Memberships(variables[c].mfs, z)]
  {
  }

  lemma FuzzifyInputsInRange(variables: map<string, Variable>, inputs: map<string, real>)
    ensures DegreesInRange(FuzzifyInputs(variables, inputs))
  {
  }

  /** The aggregation the source starts from: every output set name at 0. */
  function ZeroAggregation(mfs: seq<MembershipFunction>): (agg: map<string, real>)
    ensures agg.Keys == Names(mfs)
  {
    map n | n in Names(mfs) :: 0.0
  }

  /** One rule's contribution: a firing rule raises its consequent set's entry to its strength. */
  function AggregateStep(agg: map<string, real>, rule: FuzzyRule, inputs: FuzzyInputs): map<string, real>
  {
    var s := Strength(rule, inputs);
    var target := rule.consequent.1;
    if s > 0.0 && target in agg then agg[target := Max(agg[target], s)] else agg
  }

  /** Aggregation over the rules in order (a left fold of AggregateStep). */
  function Aggregate(rules: seq<FuzzyRule>, inputs: FuzzyInputs, init: map<string, real>): (agg: map<string, real>)
    ensures agg.Keys == init.Keys
  {
    if rules == [] then init
    else AggregateStep(Aggregate(rules[..|rules| - 1], inputs, init), rules[|rules| - 1], inputs)
  }

  /**
   * Max-aggregation: the entry of output set n is no smaller than its start
   * value and than the strength of any firing rule concluding n, and it is
   * either its start value or the strength of one such rule.
   */
  lemma {:induction false} AggregateIsMaximum(rules: seq<FuzzyRule>, inputs: FuzzyInputs, init: map<string, real>, n: string)
    requires n in init
    ensures init[n] <= Aggregate(rules, inputs, init)[n]
    ensures forall i :: 0 <= i < |rules| && rules[i].consequent.1 == n && Strength(rules[i], inputs) > 0.0 ==>
      Strength(rules[i], inputs) <= Aggregate(rules, inputs, init)[n]
    ensures Aggregate(rules, inputs, init)[n] == init[n] ||
      exists i :: 0 <= i < |rules| && rules[i].consequent.1 == n && Strength(rules[i], inputs) > 0.0 && Aggregate(rules, inputs, init)[n] == Strength(rules[i], inputs)
  {
    if rules != [] {
      var init' := rules[..|rules| - 1];
      AggregateIsMaximum(init', inputs, init, n);
      var prev := Aggregate(init', inputs, init);
      var last := rules[|rules| - 1];
      var s := Strength(last, inputs);
      assert forall i :: 0 <= i < |init'| ==> init'[i] == rules[i];
      if s > 0.0 && last.consequent.1 == n {
        assert Aggregate(rules, inputs, init)[n] == Max(prev[n], s);
        if prev[n] < s {
          assert Aggregate(rules, inputs, init)[n] == Strength(rules[|rules| - 1], inputs);
        }
      } else {
        assert Aggregate(rules, inputs, init)[n] == prev[n];
      }
    }
  }

  /** A set that no firing rule concludes keeps its start value. */
  lemma AggregateOfSilentSet(rules: seq<FuzzyRule>, inputs: FuzzyInputs, init: map<string, real>, n: string)
    requires n in init
    requires forall i :: 0 <= i < |rules| && Strength(rules[i], inputs) > 0.0 ==> rules[i].consequent.1 != n
    ensures Aggregate(rules, inputs, init)[n] == init[n]
  {
    AggregateIsMaximum(rules, inputs, init, n);
  }

  /**
   * A set concluded by a firing rule k whose strength is at least the start
   * value and at least every other firing strength for that set ends at
   * rule k's strength.
   */
  lemma AggregateOfStrongestRule(rules: seq<FuzzyRule>, inputs: FuzzyInputs, init: map<string, real>, n: string, k: nat)
    requires n in init && k < |rules|
    requires rules[k].consequent.1 == n && Strength(rules[k], inputs) > 0.0 && init[n] <= Strength(rules[k], inputs)
    requires forall i :: 0 <= i < |rules| && rules[i].consequent.1 == n && Strength(rules[i], inputs) > 0.0 ==>
      Strength(rules[i], inputs) <= Strength(rules[k], inputs)
    ensures Aggregate(rules, inputs, init)[n] == Strength(rules[k], inputs)
  {
    AggregateIsMaximum(rules, inputs, init, n);
  }

  /**
   * When every firing rule concludes the same set n and rule k is the
   * strongest of them, only n's entry changes, and it becomes rule k's strength.
   */
  lemma AggregateOfOneSet(rules: seq<FuzzyRule>, inputs: FuzzyInputs, init: map<string, real>, n: string, k: nat)
    requires n in init && k < |rules|
    requires rules[k].consequent.1 == n && Strength(rules[k], inputs) > 0.0 && init[n] <= Strength(rules[k], inputs)
    requires forall i :: 0 <= i < |rules| && Strength(rules[i], inputs) > 0.0 ==>
      rules[i].consequent.1 == n && Strength(rules[i], inputs) <= Strength(rules[k], inputs)
    ensures Aggregate(rules, inputs, init) == init[n := Strength(rules[k], inputs)]
  {
    var agg := Aggregate(rules, inputs, init);
    AggregateOfStrongestRule(rules, inputs, init, n, k);
    forall m | m in init && m != n
      ensures agg[m] == init[m]
    {
      AggregateOfSilentSet(rules, inputs, init, m);
    }
  }

  /** When no rule fires, the aggregation is its start value. */
  lemma AggregateOfNoFiring(rules: seq<FuzzyRule>, inputs: FuzzyInputs, init: map<string, real>)
    requires forall i :: 0 <= i < |rules| ==> Strength(rules[i], inputs) <= 0.0
    ensures Aggregate(rules, inputs, init) == init
  {
    var agg := Aggregate(rules, inputs, init);
    forall m | m in init
      ensures agg[m] == init[m]
    {
      AggregateOfSilentSet(rules, inputs, init, m);
    }
  }

  /** Starting from zeros, with fuzzified degrees in [0, 1], every aggregate stays in [0, 1]. */
  lemma AggregateInRange(rules: seq<FuzzyRule>, inputs: FuzzyInputs, init: map<string, real>)
    requires DegreesInRange(inputs)
    requires forall n :: n in init ==> 0.0 <= init[n] <= 1.0
    ensures forall n :: n in init ==> 0.0 <= Aggregate(rules, inputs, init)[n] <= 1.0
  {
    forall n | n in init
      ensures 0.0 <= Aggregate(rules, inputs, init)[n] <= 1.0
    {
      AggregateIsMaximum(rules, inputs, init, n);
      if Aggregate(rules, inputs, init)[n] != init[n] {
        var i :| 0 <= i < |rules| && Aggregate(rules, inputs, init)[n] == Strength(rules[i], inputs);
        StrengthInRange(rules[i], inputs);
      }
    }
  }

  /** The consequent's variable name is never looked at: only its set name routes the strength. */
  lemma {:induction false} ConsequentVariableIgnored(rules: seq<FuzzyRule>, others: seq<FuzzyRule>, inputs: FuzzyInputs, init: map<string, real>)
    requires |rules| == |others|
    requires forall i :: 0 <= i < |rules| ==>
      others[i].antecedents == rules[i].antecedents && others[i].consequent.1 == rules[i].consequent.1
    ensures Aggregate(rules, inputs, init) == Aggregate(others, inputs, init)
  {
    if rules != [] {
      ConsequentVariableIgnored(rules[..|rules| - 1], others[..|others| - 1], inputs, init);
    }
  }

  // ---------------------------------------------------------------------
  // Centroid defuzzification
  // ---------------------------------------------------------------------

  /** Number of samples of the output universe. */
  const Resolution: nat := 100

  /** The i-th of 100 evenly spaced points from lo to hi, both included (numpy's linspace). */
  function Sample(lo: real, hi: real, i: nat): real
  {
    lo + (i as real) * ((hi - lo) / 99.0)
  }

  function Samples(lo: real, hi: real): (xs: seq<real>)
    ensures |xs| == Resolution
    ensures forall i :: 0 <= i < Resolution ==> xs[i] == Sample(lo, hi, i)
  {
    seq(Resolution, i requires 0 <= i < Resolution => Sample(lo, hi, i))
  }

  lemma SampleInUniverse(lo: real, hi: real, i: nat)
    requires lo <= hi && i < Resolution
    ensures lo <= Sample(lo, hi, i) <= hi
    ensures i == 0 ==> Sample(lo, hi, i) == lo
    ensures i == Resolution - 1 ==> Sample(lo, hi, i) == hi
  {
    var step := (hi - lo) / 99.0;
    assert step >= 0.0;
    assert (i as real) * step >= 0.0;
    assert i as real <= 99.0;
    assert (99.0 - i as real) * step >= 0.0;
    assert 99.0 * step == hi - lo;
  }

  /** A set takes part in defuzzification only when its aggregate is positive. */
  predicate Active(mf: MembershipFunction, agg: map<string, real>)
  {
    mf.name in agg && agg[mf.name] > 0.0
  }

  /**
   * The aggregated output membership at x: the maximum over the active sets,
   * in order, of their degree clipped at their aggregate, starting from 0.
   */
  function ClippedMax(mfs: seq<MembershipFunction>, agg: map<string, real>, x: real): (mu: real)
    ensures 0.0 <= mu <= 1.0
  {
    if mfs == [] then 0.0
    else
      var prev := ClippedMax(mfs[..|mfs| - 1], agg, x);
      var mf := mfs[|mfs| - 1];
      if Active(mf, agg) then Max(prev, Min(Degree(mf, x), agg[mf.name])) else prev
  }

  /** The aggregated membership at each sample point. */
  function SampledMembership(v: Variable, agg: map<string, real>): (mus: seq<real>)
    ensures |mus| == Resolution
    ensures forall i :: 0 <= i < Resolution ==> mus[i] == ClippedMax(v.mfs, agg, Sample(v.lo, v.hi, i))
  {
    seq(Resolution, i requires 0 <= i < Resolution => ClippedMax(v.mfs, agg, Sample(v.lo, v.hi, i)))
  }

  /**
   * The aggregated membership at x is positive exactly when some active set
   * has a positive degree at x.
   */
  lemma {:induction false} ClippedMaxPositive(mfs: seq<MembershipFunction>, agg: map<string, real>, x: real)
    ensures ClippedMax(mfs, agg, x) > 0.0 <==>
      exists k :: 0 <= k < |mfs| && Active(mfs[k], agg) && Degree(mfs[k], x) > 0.0
  {
    if mfs != [] {
      var init := mfs[..|mfs| - 1];
      ClippedMaxPositive(init, agg, x);
      assert forall k :: 0 <= k < |init| ==> init[k] == mfs[k];
      if ClippedMax(mfs, agg, x) > 0.0 && ClippedMax(init, agg, x) <= 0.0 {
        assert Active(mfs[|mfs| - 1], agg) && Degree(mfs[|mfs| - 1], x) > 0.0;
      }
    }
  }

  /** With no positive activation anywhere, the aggregated membership is 0. */
  lemma {:induction false} ClippedMaxSilent(mfs: seq<MembershipFunction>, agg: map<string, real>, x: real)
    requires forall n :: n in agg ==> agg[n] <= 0.0
    ensures ClippedMax(mfs, agg, x) == 0.0
  {
    if mfs != [] {
      ClippedMaxSilent(mfs[..|mfs| - 1], agg, x);
    }
  }

  /** numpy's sum of an array. */
  function Sum(ws: seq<real>): real
  {
    if ws == [] then 0.0 else ws[0] + Sum(ws[1..])
  }

  /** numpy's sum of the element-wise product of two arrays. */
  function WeightedSum(xs: seq<real>, ws: seq<real>): real
    requires |xs| == |ws|
  {
    if ws == [] then 0.0 else xs[0] * ws[0] + WeightedSum(xs[1..], ws[1..])
  }

  /** The centroid, or the midpoint of the universe when the aggregated membership is 0 everywhere. */
  function Centroid(v: Variable, agg: map<string, real>): real
  {
    var xs := Samples(v.lo, v.hi);
    var mus := SampledMembership(v, agg);
    var denominator := Sum(mus);
    if denominator == 0.0 then (v.lo + v.hi) / 2.0 else WeightedSum(xs, mus) / denominator
  }

  /** The whole inference: fuzzify, aggregate from zeros, defuzzify. */
  function InferValue(config: Config, inputs: map<string, real>): real
  {
    var fuzzyInputs := FuzzifyInputs(config.variables, inputs);
    var aggregation := Aggregate(config.rules, fuzzyInputs, ZeroAggregation(config.output.mfs));
    Centroid(config.output, aggregation)
  }

  /** A sum of non-negative weights is non-negative, and it is 0 exactly when every weight is 0. */
  lemma {:induction false} SumOfNonNegative(ws: seq<real>)
    requires forall i :: 0 <= i < |ws| ==> ws[i] >= 0.0
    ensures Sum(ws) >= 0.0
    ensures Sum(ws) == 0.0 <==> forall i :: 0 <= i < |ws| ==> ws[i] == 0.0
  {
    if ws != [] {
      SumOfNonNegative(ws[1..]);
      assert forall i :: 1 <= i < |ws| ==> ws[i] == ws[1..][i - 1];
    }
  }

  /** If every point with positive weight is at least t, the weighted sum is at least t times the total weight. */
  lemma {:induction false} WeightedSumAtLeast(xs: seq<real>, ws: seq<real>, t: real)
    requires |xs| == |ws|
    requires forall i :: 0 <= i < |ws| ==> ws[i] >= 0.0
    requires forall i :: 0 <= i < |ws| && ws[i] > 0.0 ==> xs[i] >= t
    ensures WeightedSum(xs, ws) >= t * Sum(ws)
  {
    if ws != [] {
      var rest, restWeights := xs[1..], ws[1..];
      assert forall i :: 0 <= i < |restWeights| ==> restWeights[i] == ws[i + 1] && rest[i] == xs[i + 1];
      WeightedSumAtLeast(rest, restWeights, t);
      calc {
        t * Sum(ws);
        t * (ws[0] + Sum(restWeights));
        { Distribute(t, ws[0], Sum(restWeights)); }
        t * ws[0] + t * Sum(restWeights);
        <= { ProductOrder(ws[0], t, xs[0]); }
        xs[0] * ws[0] + t * Sum(restWeights);
        <=
        xs[0] * ws[0] + WeightedSum(rest, restWeights);
        WeightedSum(xs, ws);
      }
    }
  }

  /** If every point with positive weight is at most t, the weighted sum is at most t times the total weight. */
  lemma {:induction false} WeightedSumAtMost(xs: seq<real>, ws: seq<real>, t: real)
    requires |xs| == |ws|
    requires forall i :: 0 <= i < |ws| ==> ws[i] >= 0.0
    requires forall i :: 0 <= i < |ws| && ws[i] > 0.0 ==> xs[i] <= t
    ensures WeightedSum(xs, ws) <= t * Sum(ws)
  {
    if ws != [] {
      var rest, restWeights := xs[1..], ws[1..];
      assert forall i :: 0 <= i < |restWeights| ==> restWeights[i] == ws[i + 1] && rest[i] == xs[i + 1];
      WeightedSumAtMost(rest, restWeights, t);
      calc {
        WeightedSum(xs, ws);
        xs[0] * ws[0] + WeightedSum(rest, restWeights);
        <=
        xs[0] * ws[0] + t * Sum(restWeights);
        <= { ProductOrder(ws[0], xs[0], t); }
        t * ws[0] + t * Sum(restWeights);
        { Distribute(t, ws[0], Sum(restWeights)); }
        t * (ws[0] + Sum(restWeights));
        t * Sum(ws);
      }
    }
  }

  /** A weighted mean of points lies between any bounds of the points that carry weight. */
  lemma {:induction false} WeightedMeanBetween(xs: seq<real>, ws: seq<real>, low: real, high: real)
    requires |xs| == |ws|
    requires forall i :: 0 <= i < |ws| ==> ws[i] >= 0.0
    requires forall i :: 0 <= i < |ws| && ws[i] > 0.0 ==> low <= xs[i] <= high
    requires Sum(ws) > 0.0
    ensures low <= WeightedSum(xs, ws) / Sum(ws) <= high
  {
    WeightedSumAtLeast(xs, ws, low);
    WeightedSumAtMost(xs, ws, high);
    QuotientBounds(WeightedSum(xs, ws), Sum(ws), low, high);
  }

  /**
   * If every sample where the aggregated membership is positive lies in
   * [low, high] and some sample is positive, the centroid lies in [low, high].
   */
  lemma CentroidBetween(v: Variable, agg: map<string, real>, low: real, high: real)
    requires forall i :: 0 <= i < Resolution && ClippedMax(v.mfs, agg, Sample(v.lo, v.hi, i)) > 0.0 ==>
      low <= Sample(v.lo, v.hi, i) <= high
    requires exists i :: 0 <= i < Resolution && ClippedMax(v.mfs, agg, Sample(v.lo, v.hi, i)) > 0.0
    ensures low <= Centroid(v, agg) <= high
  {
    var xs := Samples(v.lo, v.hi);
    var mus := SampledMembership(v, agg);
    SumOfNonNegative(mus);
    WeightedMeanBetween(xs, mus, low, high);
  }

  /**
   * The fallback: the centroid is the midpoint of the universe when every
   * sampled membership is 0; otherwise it is the weighted mean of the samples.
   */
  lemma CentroidFallback(v: Variable, agg: map<string, real>)
    ensures (forall i :: 0 <= i < Resolution ==> ClippedMax(v.mfs, agg, Sample(v.lo, v.hi, i)) == 0.0) <==>
      Sum(SampledMembership(v, agg)) == 0.0
    ensures Sum(SampledMembership(v, agg)) == 0.0 ==> Centroid(v, agg) == (v.lo + v.hi) / 2.0
  {
    SumOfNonNegative(SampledMembership(v, agg));
  }

  /** With lo <= hi, the defuzzified value always lies in the output universe. */
  lemma CentroidInUniverse(v: Variable, agg: map<string, real>)
    requires v.lo <= v.hi
    ensures v.lo <= Centroid(v, agg) <= v.hi
  {
    CentroidFallback(v, agg);
    if exists i :: 0 <= i < Resolution && ClippedMax(v.mfs, agg, Sample(v.lo, v.hi, i)) > 0.0 {
      forall i | 0 <= i < Resolution
        ensures v.lo <= Sample(v.lo, v.hi, i) <= v.hi
      {
        SampleInUniverse(v.lo, v.hi, i);
      }
      CentroidBetween(v, agg, v.lo, v.hi);
    }
  }

  /** Inference returns a value of the output universe, whatever the inputs. */
  lemma InferInUniverse(config: Config, inputs: map<string, real>)
    requires config.output.lo <= config.output.hi
    ensures config.output.lo <= InferValue(config, inputs) <= config.output.hi
  {
    var fuzzyInputs := FuzzifyInputs(config.variables, inputs);
    CentroidInUniverse(config.output, Aggregate(config.rules, fuzzyInputs, ZeroAggregation(config.output.mfs)));
  }
}
