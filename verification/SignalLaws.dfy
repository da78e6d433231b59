/** When signal rules fire, bar after bar (backtest/src/fast_signal_eval.rs). */
module SignalLaws {
  import opened Reals
  import opened IndicatorCache
  import opened FastSignals

  // ---- Values ----

  /** The number an indicator has at a bar, if any. */
  function NumberAt(source: Source, ref: IndicatorRef, params: map<string, Param>, i: nat): Value {
    var data := source(ref.name, PeriodOf(params, ref.paramKey), ref.suffix);
    if data.Some? && i < |data.value| then data.value[i] else None
  }

  /** Both indicators hold numbers at the bar. */
  predicate BothKnown(source: Source, a: IndicatorRef, b: IndicatorRef, params: map<string, Param>, i: nat) {
    NumberAt(source, a, params, i).Some? && NumberAt(source, b, params, i).Some?
  }

  predicate IsAbove(source: Source, a: IndicatorRef, b: IndicatorRef, params: map<string, Param>, i: nat)
    requires BothKnown(source, a, b, params, i)
  {
    NumberAt(source, a, params, i).value > NumberAt(source, b, params, i).value
  }

  // ---- Crossovers ----

  /** A crossover fires exactly where `a` comes to be above `b` between two bars on which both are known. */
  lemma CrossoverIsAChange(source: Source, a: IndicatorRef, b: IndicatorRef, params: map<string, Param>, i: nat)
    ensures Fires(source, CrossoverAbove(a, b), params, i) <==>
            && i > 0 && BothKnown(source, a, b, params, i) && BothKnown(source, a, b, params, i - 1)
            && IsAbove(source, a, b, params, i) && !IsAbove(source, a, b, params, i - 1)
  {}

  /** Crossing below is crossing above seen from the other indicator. */
  lemma CrossoversMirror(source: Source, a: IndicatorRef, b: IndicatorRef, params: map<string, Param>, i: nat)
    ensures Fires(source, CrossoverAbove(a, b), params, i) == Fires(source, CrossoverBelow(b, a), params, i)
  {}

  /** The rule is one of the two crossovers of these indicators. */
  predicate Crosses(rule: SignalRule) {
    rule.CrossoverAbove? || rule.CrossoverBelow?
  }

  /** A crossover never fires on two bars in a row. */
  lemma CrossoverNeverRepeats(source: Source, rule: SignalRule, params: map<string, Param>, i: nat)
    requires Crosses(rule) && Fires(source, rule, params, i)
    ensures !Fires(source, rule, params, i + 1)
  {
    match rule
    case CrossoverAbove(a, b) =>
      CrossoverIsAChange(source, a, b, params, i);
      CrossoverIsAChange(source, a, b, params, i + 1);
    case CrossoverBelow(a, b) =>
      CrossoversMirror(source, b, a, params, i);
      CrossoversMirror(source, b, a, params, i + 1);
      CrossoverIsAChange(source, b, a, params, i);
      CrossoverIsAChange(source, b, a, params, i + 1);
  }

  /** Between two firings `a` has been known not to be above `b`. */
  lemma CrossoverHasToComeBack(
    source: Source, a: IndicatorRef, b: IndicatorRef, params: map<string, Param>, i: nat, j: nat)
    requires i < j && Fires(source, CrossoverAbove(a, b), params, i) && Fires(source, CrossoverAbove(a, b), params, j)
    ensures i < j - 1 && BothKnown(source, a, b, params, j - 1) && !IsAbove(source, a, b, params, j - 1)
  {
    hide Fires;
    CrossoverIsAChange(source, a, b, params, i);
    CrossoverIsAChange(source, a, b, params, j);
  }

  /**
   * Once above, `a` stays above until a bar on which both are known and it is not, and the rule is silent meanwhile.
   */
  lemma {:induction false} SilentWhileAbove(
    source: Source, a: IndicatorRef, b: IndicatorRef, params: map<string, Param>, i: nat, j: nat)
    requires i < j && Fires(source, CrossoverAbove(a, b), params, i)
    requires forall k :: i <= k <= j ==> BothKnown(source, a, b, params, k)
    requires forall k :: i < k <= j ==> !Fires(source, CrossoverBelow(a, b), params, k)
    requires forall k :: i <= k <= j ==> NumberAt(source, a, params, k) != NumberAt(source, b, params, k)
    ensures IsAbove(source, a, b, params, j) && !Fires(source, CrossoverAbove(a, b), params, j)
  {
    hide Fires;
    CrossoverIsAChange(source, a, b, params, i);
    if i < j - 1 {
      SilentWhileAbove(source, a, b, params, i, j - 1);
    }
    assert BothKnown(source, a, b, params, j) && BothKnown(source, a, b, params, j - 1);
    assert IsAbove(source, a, b, params, j - 1);
    if !IsAbove(source, a, b, params, j) {
      assert NumberAt(source, a, params, j) != NumberAt(source, b, params, j);
      assert NumberAt(source, a, params, j).value < NumberAt(source, b, params, j).value;
      CrossoversMirror(source, b, a, params, j);
      CrossoverIsAChange(source, b, a, params, j);
      assert false;
    }
    CrossoverIsAChange(source, a, b, params, j);
  }

  // ---- Thresholds ----

  /** A threshold rule fires only on a number strictly on its side of the threshold. */
  lemma ThresholdFires(source: Source, rule: SignalRule, params: map<string, Param>, i: nat)
    requires !Crosses(rule) && Fires(source, rule, params, i)
    ensures i > 0 && NumberAt(source, rule.indicator, params, i).Some?
    ensures var x := NumberAt(source, rule.indicator, params, i).value;
            if rule.BelowThreshold? then x < ThresholdOf(params, rule.thresholdParam, 30.0)
            else x > ThresholdOf(params, rule.thresholdParam, 70.0)
  {}

  /** A threshold parameter that does not set any indicator's period. */
  predicate OnlyAThreshold(rule: SignalRule, key: string) {
    !Crosses(rule) && rule.thresholdParam == key && rule.indicator.paramKey != key
  }

  /** Raising a threshold never silences a rule that fires below it, nor wakes one that fires above it. */
  lemma RaisedThreshold(
    source: Source, rule: SignalRule, params: map<string, Param>, key: string, x: real, y: real, i: nat)
    requires OnlyAThreshold(rule, key) && x <= y
    ensures var low, high := params[key := Number(x)], params[key := Number(y)];
            if rule.BelowThreshold? then Fires(source, rule, low, i) ==> Fires(source, rule, high, i)
            else Fires(source, rule, high, i) ==> Fires(source, rule, low, i)
  {}

  /** Thresholds not set are 30 below and 70 above, so that nothing from 30 to 70 fires either rule. */
  lemma DefaultBandIsSilent(source: Source, rule: SignalRule, params: map<string, Param>, i: nat)
    requires !Crosses(rule) && rule.thresholdParam !in params && i > 0
    requires NumberAt(source, rule.indicator, params, i).Some?
    ensures var x := NumberAt(source, rule.indicator, params, i).value;
            Fires(source, rule, params, i) <==> if rule.BelowThreshold? then x < 30.0 else x > 70.0
  {}

  /** No rule fires where an indicator it names has no number, and none on the first bar. */
  lemma MissingNeverFires(source: Source, rule: SignalRule, params: map<string, Param>, i: nat)
    requires i == 0 || NumberAt(source, if Crosses(rule) then rule.a else rule.indicator, params, i).None?
    ensures !Fires(source, rule, params, i)
  {}

  // ---- Rule sets ----

  /** A set that needs all its rules fires on fewer bars than one that needs any; no rules never fire. */
  lemma AllIsStricterThanAny(source: Source, rules: seq<SignalRule>, params: map<string, Param>, i: nat)
    ensures SetFires(source, rules, params, i, true) ==> SetFires(source, rules, params, i, false)
    ensures !SetFires(source, [], params, i, true) && !SetFires(source, [], params, i, false)
  {
    hide Fires;
    if SetFires(source, rules, params, i, true) {
      assert Fires(source, rules[0], params, i);
    }
  }

  /** One more rule never wakes a set that needs all of its rules, and never silences one that needs any. */
  lemma OneMoreRule(source: Source, rules: seq<SignalRule>, rule: SignalRule, params: map<string, Param>, i: nat)
    requires rules != []
    ensures SetFires(source, rules + [rule], params, i, true)
       <==> SetFires(source, rules, params, i, true) && Fires(source, rule, params, i)
    ensures SetFires(source, rules + [rule], params, i, false)
       <==> SetFires(source, rules, params, i, false) || Fires(source, rule, params, i)
  {
    hide Fires;
    var more := rules + [rule];
    assert more[|rules|] == rule;
    assert forall k :: 0 <= k < |rules| ==> more[k] == rules[k];
    if SetFires(source, rules, params, i, false) {
      var k :| 0 <= k < |rules| && Fires(source, rules[k], params, i);
      assert Fires(source, more[k], params, i);
    }
    if Fires(source, rule, params, i) {
      assert Fires(source, more[|rules|], params, i);
    }
  }

  /** A single rule is a set that fires when it does, whichever way the set combines. */
  lemma SingleRule(source: Source, rule: SignalRule, params: map<string, Param>, i: nat, requireAll: bool)
    ensures SetFires(source, [rule], params, i, requireAll) == Fires(source, rule, params, i)
  {
    hide Fires;
    assert [rule][0] == rule;
  }

  // ---- Signals ----

  /** With buy rules alone the signals are buys, exactly on the bars on which the rules fire. */
  lemma BuyRulesOnlyBuy(
    source: Source, buyRules: seq<SignalRule>, requireAll: bool, params: map<string, Param>, n: nat, i: nat)
    requires i < n
    ensures var rules := SignalRuleSet(buyRules, [], requireAll, false);
            Signals(source, rules, params, n)[i]
            == if i > 0 && SetFires(source, buyRules, params, i, requireAll) then 1 else 0
  {}

  /** A strategy that buys on a crossover never buys on two bars in a row. */
  lemma CrossoverBuysOnce(
    source: Source, a: IndicatorRef, b: IndicatorRef, params: map<string, Param>, n: nat, i: nat)
    requires i + 1 < n
    ensures var signals := Signals(source, SignalRuleSet([CrossoverAbove(a, b)], [], false, false), params, n);
            signals[i] == BUY ==> signals[i + 1] == HOLD
  {
    hide Fires, SetFires;
    var rule := CrossoverAbove(a, b);
    BuyRulesOnlyBuy(source, [rule], false, params, n, i);
    BuyRulesOnlyBuy(source, [rule], false, params, n, i + 1);
    SingleRule(source, rule, params, i, false);
    SingleRule(source, rule, params, i + 1, false);
    if Fires(source, rule, params, i) {
      CrossoverNeverRepeats(source, rule, params, i);
    }
  }

  // ---- Parameters ----

  /** The first definition of a parameter decides; without one there is none. */
  lemma {:induction false} FirstDefinitionDecides(schema: seq<ParamDef>, key: string, i: nat)
    requires i < |schema| && forall j :: 0 <= j < i ==> schema[j].name != key
    ensures schema[i].name == key ==> Definition(schema, key) == Some(schema[i].kind)
    ensures schema[i].name != key && i + 1 == |schema| ==> Definition(schema, key) == None
  {
    if i > 0 {
      FirstDefinitionDecides(schema[1..], key, i - 1);
    }
  }

  /** Both ends of a parameter's range are precomputed, and nothing outside it. */
  lemma RangesAreInclusive(schema: seq<ParamDef>, key: string, period: nat)
    ensures var (first, past) := PeriodRange(schema, key);
            match Definition(schema, key)
            case Some(IntRange(low, high)) =>
              0 <= low && high < 4294967296 && low < 4294967296 && 0 <= high ==>
                (first <= period < past <==> low <= period <= high)
            case Some(FloatRange(least, greatest)) =>
              0.0 <= least < 4294967296.0 && 0.0 <= greatest < 4294967296.0 ==>
                (first <= period < past <==> least < period as real + 1.0 && period as real <= greatest)
            case _ => !(first <= period < past)
  {}

  /** A number becomes a period by cutting off its fraction, within what an unsigned integer of the width can hold. */
  lemma PeriodsSaturate(x: real)
    ensures var n := SaturateToU32(x);
            && (x <= 0.0 ==> n == 0)
            && (0.0 <= x < 4294967296.0 ==> n as real <= x < n as real + 1.0)
            && (x >= 4294967295.0 ==> n == 4294967295)
    ensures var n := SaturateToU64(x);
            && (x <= 0.0 ==> n == 0)
            && (0.0 <= x < 18446744073709551616.0 ==> n as real <= x < n as real + 1.0)
            && (x >= 18446744073709551615.0 ==> n == 18446744073709551615)
  {}

  /** The period a rule looks up is its parameter cut to 32 bits, and zero where that is missing or no number. */
  lemma PeriodIsItsParameter(params: map<string, Param>, key: string, n: nat, x: real)
    ensures key !in params ==> PeriodOf(params, key) == 0
    ensures PeriodOf(params[key := Text], key) == 0
    ensures n < 4294967296 ==> PeriodOf(params[key := Whole(n)], key) == n
    ensures var period := PeriodOf(params[key := Number(x)], key) as real;
            0.0 <= x < 4294967296.0 ==> period <= x < period + 1.0
  {
    PeriodsSaturate(x);
  }

  /** Buy and sell rules that fire on the same bar cancel out. */
  lemma ConflictHolds(source: Source, rules: SignalRuleSet, params: map<string, Param>, n: nat, i: nat)
    requires 0 < i < n && SetFires(source, rules.buyRules, params, i, rules.requireAllBuy)
    requires SetFires(source, rules.sellRules, params, i, rules.requireAllSell)
    ensures Signals(source, rules, params, n)[i] == 0
  {}
}
