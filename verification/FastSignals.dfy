/** Signals from declarative rules over precomputed indicators (backtest/src/fast_signal_eval.rs). */
module FastSignals {
  import opened Reals
  import opened IndicatorCache

  const BUY: int := 1
  const SELL: int := -1
  const HOLD: int := 0

  datatype IndicatorRef = IndicatorRef(name: string, paramKey: string, suffix: Option<string>)

  datatype SignalRule =
    | CrossoverAbove(a: IndicatorRef, b: IndicatorRef)
    | CrossoverBelow(a: IndicatorRef, b: IndicatorRef)
    | BelowThreshold(indicator: IndicatorRef, thresholdParam: string)
    | AboveThreshold(indicator: IndicatorRef, thresholdParam: string)

  datatype SignalRuleSet = SignalRuleSet(
    buyRules: seq<SignalRule>, sellRules: seq<SignalRule>, requireAllBuy: bool, requireAllSell: bool)

  /** A chromosome parameter: a whole number, any other number, or no number. */
  datatype Param = Whole(n: nat) | Number(x: real) | Text

  const U64_LIMIT: nat := 0x1_0000_0000_0000_0000

  function SaturateToU64(x: real): nat {
    if x <= 0.0 then 0 else if x >= (U64_LIMIT - 1) as real then U64_LIMIT - 1 else x.Floor
  }

  function PeriodOf(params: map<string, Param>, key: string): nat {
    if key !in params then 0
    else match params[key]
      case Whole(n) => n % U32_LIMIT
      case Number(x) => SaturateToU64(x) % U32_LIMIT
      case Text => 0
  }

  function ThresholdOf(params: map<string, Param>, key: string, fallback: real): real {
    if key !in params then fallback
    else match params[key]
      case Whole(n) => n as real
      case Number(x) => x
      case Text => fallback
  }

  // ---- Lookup ----

  /** Where rule evaluation gets an indicator's array from. */
  type Source = (string, nat, Option<string>) -> Option<seq<Value>>

  function CacheLookup(cache: Cache, name: string, period: nat, suffix: Option<string>): Option<seq<Value>> {
    match suffix
    case Some(s) => if (name, period, s) in cache.multi then Some(cache.multi[(name, period, s)]) else None
    case None => if (name, period) in cache.single then Some(cache.single[(name, period)]) else None
  }

  function DirectOf(schema: seq<ParamDef>, b: Binding, period: nat, suffix: Option<string>): Option<seq<Value>> {
    var range := PeriodRange(schema, b.paramKey);
    if range.0 <= period < range.1 && b.outputs(period).Some? then Some(DirectArray(b.outputs(period).value, suffix))
    else None
  }

  /** Recomputes the bound indicator for the period, if the parameter allows it. */
  function DirectLookup(
    schema: seq<ParamDef>, bindings: seq<Binding>, name: string, period: nat, suffix: Option<string>)
    : Option<seq<Value>>
  {
    if bindings == [] then None
    else
      var b := bindings[|bindings| - 1];
      if b.name == name then DirectOf(schema, b, period, suffix)
      else DirectLookup(schema, bindings[..|bindings| - 1], name, period, suffix)
  }

  function Cached(cache: Cache): Source {
    (name: string, period: nat, suffix: Option<string>) => CacheLookup(cache, name, period, suffix)
  }

  function Direct(schema: seq<ParamDef>, bindings: seq<Binding>): Source {
    (name: string, period: nat, suffix: Option<string>) => DirectLookup(schema, bindings, name, period, suffix)
  }

  // ---- Evaluation ----

  /**
   * Current and previous value at bar `i`; nothing where there is no array, no previous bar, or the bar is past the
   * end.
   */
  function PairAt(data: Option<seq<Value>>, i: nat): (Value, Value) {
    if data.Some? && 0 < i < |data.value| then (data.value[i], data.value[i - 1]) else (None, None)
  }

  function Resolve(source: Source, ref: IndicatorRef, params: map<string, Param>, i: nat): (Value, Value) {
    PairAt(source(ref.name, PeriodOf(params, ref.paramKey), ref.suffix), i)
  }

  predicate Fires(source: Source, rule: SignalRule, params: map<string, Param>, i: nat) {
    match rule
    case CrossoverAbove(a, b) =>
      var (ac, ap) := Resolve(source, a, params, i);
      var (bc, bp) := Resolve(source, b, params, i);
      ac.Some? && ap.Some? && bc.Some? && bp.Some? && ap.value <= bp.value && ac.value > bc.value
    case CrossoverBelow(a, b) =>
      var (ac, ap) := Resolve(source, a, params, i);
      var (bc, bp) := Resolve(source, b, params, i);
      ac.Some? && ap.Some? && bc.Some? && bp.Some? && ap.value >= bp.value && ac.value < bc.value
    case BelowThreshold(indicator, key) =>
      var (current, _) := Resolve(source, indicator, params, i);
      current.Some? && current.value < ThresholdOf(params, key, 30.0)
    case AboveThreshold(indicator, key) =>
      var (current, _) := Resolve(source, indicator, params, i);
      current.Some? && current.value > ThresholdOf(params, key, 70.0)
  }

  /** All or any of the rules; no rules never fire. */
  predicate SetFires(source: Source, rules: seq<SignalRule>, params: map<string, Param>, i: nat, requireAll: bool) {
    rules != []
    && if requireAll then forall k :: 0 <= k < |rules| ==> Fires(source, rules[k], params, i)
       else exists k :: 0 <= k < |rules| && Fires(source, rules[k], params, i)
  }

  function SignalAt(source: Source, rules: SignalRuleSet, params: map<string, Param>, i: nat): int {
    if i == 0 then HOLD
    else
      var buy := SetFires(source, rules.buyRules, params, i, rules.requireAllBuy);
      var sell := SetFires(source, rules.sellRules, params, i, rules.requireAllSell);
      if buy && !sell then BUY else if sell && !buy then SELL else HOLD
  }

  function Signals(source: Source, rules: SignalRuleSet, params: map<string, Param>, n: nat): (r: seq<int>)
    ensures |r| == n
  {
    seq(n, i requires 0 <= i => SignalAt(source, rules, params, i))
  }

  method EvaluateRuleSet(
    source: Source, rules: seq<SignalRule>, params: map<string, Param>, i: nat, requireAll: bool) returns (fired: bool)
    ensures fired == SetFires(source, rules, params, i, requireAll)
  {
    if rules == [] {
      return false;
    }
    hide Fires;
    var any, all := false, true;
    for k := 0 to |rules|
      invariant any == exists j :: 0 <= j < k && Fires(source, rules[j], params, i)
      invariant all == forall j :: 0 <= j < k ==> Fires(source, rules[j], params, i)
    {
      if Fires(source, rules[k], params, i) {
        any := true;
      } else {
        all := false;
      }
    }
    fired := if requireAll then all else any;
  }

  /** The signal array, bar by bar; the first bar always holds. */
  method EvaluateRules(
    rules: SignalRuleSet, cache: Cache, params: map<string, Param>, n: nat) returns (signals: array<int>)
    ensures fresh(signals) && signals[..] == Signals(Cached(cache), rules, params, n)
  {
    hide SetFires;
    var source := Cached(cache);
    signals := new int[n](_ => HOLD);
    var i := 1;
    while i < n
      invariant 1 <= i
      invariant forall k :: 0 <= k < i && k < n ==> signals[k] == SignalAt(source, rules, params, k)
      invariant forall k :: i <= k < n ==> signals[k] == HOLD
    {
      var buy := EvaluateRuleSet(source, rules.buyRules, params, i, rules.requireAllBuy);
      var sell := EvaluateRuleSet(source, rules.sellRules, params, i, rules.requireAllSell);
      if buy && !sell {
        signals[i] := BUY;
      } else if sell && !buy {
        signals[i] := SELL;
      }
      i := i + 1;
    }
  }

  // ---- The cache agrees with direct evaluation ----

  /** Equal, except that an array of blanks may be missing. */
  predicate Agree(cached: Option<seq<Value>>, direct: Option<seq<Value>>) {
    cached == direct || (cached == None && direct.Some? && AllBlank(direct.value))
  }

  ghost predicate StorableBindings(bindings: seq<Binding>) {
    forall i, period: nat, suffix :: 0 <= i < |bindings| && bindings[i].outputs(period).Some? ==>
      Storable(bindings[i].outputs(period).value, suffix)
  }

  ghost predicate StorableBinding(b: Binding) {
    forall period: nat, suffix :: b.outputs(period).Some? ==> Storable(b.outputs(period).value, suffix)
  }

  predicate DistinctNames(bindings: seq<Binding>) {
    forall i, j :: 0 <= i < j < |bindings| ==> bindings[i].name != bindings[j].name
  }

  lemma InstanceElsewhere(
    cache: Cache, name: string, period: nat, outputs: seq<Output>, name': string, period': nat, suffix: Option<string>)
    requires name' != name || period' != period
    ensures CacheLookup(WithInstance(cache, name, period, outputs), name', period', suffix) ==
            CacheLookup(cache, name', period', suffix)
  {
    hide SingleArray, Collected, AllBlank, Padded;
  }

  lemma InstanceHere(cache: Cache, name: string, period: nat, outputs: seq<Output>, suffix: Option<string>)
    requires suffix.Some? ==> Storable(outputs, suffix.value)
    requires CacheLookup(cache, name, period, suffix) == None
    ensures Agree(CacheLookup(WithInstance(cache, name, period, outputs), name, period, suffix),
            Some(DirectArray(outputs, suffix)))
  {
    hide SingleArray, Collected, AllBlank, Padded, MultiArray, Storable;
    if suffix.Some? {
      BufferIsDirect(outputs, suffix.value);
    }
  }

  lemma {:induction false} PeriodsElsewhere(
    cache: Cache, b: Binding, low: nat, high: nat, name: string, period: nat, suffix: Option<string>)
    requires name != b.name || period >= high
    ensures CacheLookup(WithPeriods(cache, b, low, high), name, period, suffix) ==
            CacheLookup(cache, name, period, suffix)
    decreases high
  {
    hide WithInstance, CacheLookup;
    if low < high {
      PeriodsElsewhere(cache, b, low, high - 1, name, period, suffix);
      if b.outputs(high - 1).Some? {
        InstanceElsewhere(WithPeriods(cache, b, low, high - 1), b.name, high - 1, b.outputs(high - 1).value, name,
                          period, suffix);
      }
    }
  }

  lemma {:induction false} PeriodsHere(
    cache: Cache, b: Binding, low: nat, high: nat, period: nat, suffix: Option<string>)
    requires StorableBinding(b) && CacheLookup(cache, b.name, period, suffix) == None
    ensures var direct := if low <= period < high
            && b.outputs(period).Some? then Some(DirectArray(b.outputs(period).value, suffix)) else None;
            Agree(CacheLookup(WithPeriods(cache, b, low, high), b.name, period, suffix), direct)
    decreases high
  {
    hide WithInstance, CacheLookup, DirectArray, Storable, AllBlank;
    if low < high {
      var before := WithPeriods(cache, b, low, high - 1);
      if period == high - 1 {
        PeriodsElsewhere(cache, b, low, high - 1, b.name, period, suffix);
        if b.outputs(period).Some? {
          InstanceHere(before, b.name, period, b.outputs(period).value, suffix);
        }
      } else {
        PeriodsHere(cache, b, low, high - 1, period, suffix);
        if b.outputs(high - 1).Some? {
          InstanceElsewhere(before, b.name, high - 1, b.outputs(high - 1).value, b.name, period, suffix);
        }
      }
    }
  }

  lemma {:induction false} UnboundNameIsAbsent(
    schema: seq<ParamDef>, bindings: seq<Binding>, name: string, period: nat, suffix: Option<string>)
    requires forall i :: 0 <= i < |bindings| ==> bindings[i].name != name
    ensures CacheLookup(Built(schema, bindings), name, period, suffix) == None
  {
    hide WithPeriods, PeriodRange;
    if bindings != [] {
      var front, b := bindings[..|bindings| - 1], bindings[|bindings| - 1];
      UnboundNameIsAbsent(schema, front, name, period, suffix);
      var range := PeriodRange(schema, b.paramKey);
      PeriodsElsewhere(Built(schema, front), b, range.0, range.1, name, period, suffix);
    }
  }

  /** Every lookup in the built cache agrees with recomputing the indicator, in range or not, bound or not. */
  lemma {:induction false} LookupsAgree(
    schema: seq<ParamDef>, bindings: seq<Binding>, name: string, period: nat, suffix: Option<string>)
    requires DistinctNames(bindings) && StorableBindings(bindings)
    ensures Agree(CacheLookup(Built(schema, bindings), name, period, suffix),
            DirectLookup(schema, bindings, name, period, suffix))
  {
    hide WithPeriods, PeriodRange, CacheLookup, Storable, DirectArray;
    if bindings == [] {
      assert CacheLookup(EMPTY, name, period, suffix) == None by {
        UnboundNameIsAbsent(schema, [], name, period, suffix);
      }
    } else {
      var n := |bindings| - 1;
      var front, b := bindings[..n], bindings[n];
      var range := PeriodRange(schema, b.paramKey);
      if b.name == name {
        forall i | 0 <= i < |front| ensures front[i].name != name {
          assert bindings[i].name != bindings[n].name;
        }
        UnboundNameIsAbsent(schema, front, name, period, suffix);
        assert StorableBinding(b) by {
          forall period: nat, suffix | b.outputs(period).Some? ensures Storable(b.outputs(period).value, suffix) {
            assert bindings[n].outputs(period).Some?;
          }
        }
        PeriodsHere(Built(schema, front), b, range.0, range.1, period, suffix);
      } else {
        assert DistinctNames(front);
        assert StorableBindings(front) by {
          forall i, period: nat, suffix | 0 <= i < |front| && front[i].outputs(period).Some?
            ensures Storable(front[i].outputs(period).value, suffix)
          {
            assert bindings[i].outputs(period).Some?;
          }
        }
        LookupsAgree(schema, front, name, period, suffix);
        PeriodsElsewhere(Built(schema, front), b, range.0, range.1, name, period, suffix);
      }
    }
  }

  /** Sources that agree give the same values at every bar: a missing array of blanks reads as blanks. */
  lemma AgreeingPairs(cached: Option<seq<Value>>, direct: Option<seq<Value>>, i: nat)
    requires Agree(cached, direct)
    ensures PairAt(cached, i) == PairAt(direct, i)
  {}

  lemma SameResolution(
    schema: seq<ParamDef>, bindings: seq<Binding>, ref: IndicatorRef, params: map<string, Param>, i: nat)
    requires DistinctNames(bindings) && StorableBindings(bindings)
    ensures Resolve(Cached(Built(schema, bindings)), ref, params, i) ==
            Resolve(Direct(schema, bindings), ref, params, i)
  {
    hide DistinctNames, StorableBindings, CacheLookup, DirectLookup, Built, PeriodOf, PairAt, Agree;
    var period := PeriodOf(params, ref.paramKey);
    LookupsAgree(schema, bindings, ref.name, period, ref.suffix);
    AgreeingPairs(CacheLookup(Built(schema, bindings), ref.name, period, ref.suffix),
                  DirectLookup(schema, bindings, ref.name, period, ref.suffix), i);
  }

  lemma SameFiring(schema: seq<ParamDef>, bindings: seq<Binding>, rule: SignalRule, params: map<string, Param>, i: nat)
    requires DistinctNames(bindings) && StorableBindings(bindings)
    ensures Fires(Cached(Built(schema, bindings)), rule, params, i) == Fires(Direct(schema, bindings), rule, params, i)
  {
    hide DistinctNames, StorableBindings, Resolve, Cached, Direct, Built;
    match rule
    case CrossoverAbove(a, b) =>
      SameResolution(schema, bindings, a, params, i);
      SameResolution(schema, bindings, b, params, i);
    case CrossoverBelow(a, b) =>
      SameResolution(schema, bindings, a, params, i);
      SameResolution(schema, bindings, b, params, i);
    case BelowThreshold(indicator, _) => SameResolution(schema, bindings, indicator, params, i);
    case AboveThreshold(indicator, _) => SameResolution(schema, bindings, indicator, params, i);
  }

  lemma SameSetFiring(
    schema: seq<ParamDef>, bindings: seq<Binding>, rules: seq<SignalRule>, params: map<string, Param>, i: nat,
    requireAll: bool)
    requires DistinctNames(bindings) && StorableBindings(bindings)
    ensures SetFires(Cached(Built(schema, bindings)), rules, params, i, requireAll) ==
            SetFires(Direct(schema, bindings), rules, params, i, requireAll)
  {
    hide DistinctNames, StorableBindings, Fires, Cached, Direct, Built;
    forall k | 0 <= k < |rules|
      ensures Fires(Cached(Built(schema, bindings)), rules[k], params, i) ==
              Fires(Direct(schema, bindings), rules[k], params, i)
    {
      SameFiring(schema, bindings, rules[k], params, i);
    }
  }

  /**
   * For every rule set, parameters and number of bars, evaluating on the cache gives the signals of evaluating on
   * indicators recomputed for each lookup, although blank arrays are never stored.
   */
  lemma CachedSignalsAreDirect(
    schema: seq<ParamDef>, bindings: seq<Binding>, rules: SignalRuleSet, params: map<string, Param>, n: nat)
    requires DistinctNames(bindings) && StorableBindings(bindings)
    ensures Signals(Cached(Built(schema, bindings)), rules, params, n) ==
            Signals(Direct(schema, bindings), rules, params, n)
  {
    hide DistinctNames, StorableBindings, SetFires, Cached, Direct, Built;
    forall i: nat | i < n
      ensures SignalAt(Cached(Built(schema, bindings)), rules, params, i) ==
              SignalAt(Direct(schema, bindings), rules, params, i)
    {
      SameSetFiring(schema, bindings, rules.buyRules, params, i, rules.requireAllBuy);
      SameSetFiring(schema, bindings, rules.sellRules, params, i, rules.requireAllSell);
    }
  }

  /** Exchanging the buy and the sell rules negates every signal. */
  lemma ExchangedRulesNegate(source: Source, rules: SignalRuleSet, params: map<string, Param>, n: nat)
    ensures var exchanged := SignalRuleSet(rules.sellRules, rules.buyRules, rules.requireAllSell, rules.requireAllBuy);
            forall i :: 0 <= i < n ==> Signals(source, exchanged, params, n)[i] == -Signals(source, rules, params, n)[i]
  {}
}
