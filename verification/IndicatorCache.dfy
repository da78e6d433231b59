/** Precomputed indicator arrays keyed by name and period (backtest/src/indicator_precompute.rs). */
module IndicatorCache {
  import opened Reals

  /** One cell of an array; `None` is not a number. */
  type Value = Option<real>

  datatype Output = Pending | Single(value: Value) | Multi(pairs: seq<(string, Value)>)

  /**
   * An indicator bound to the parameter that sets its period. `outputs` gives what its instance emits on the candles,
   * bar by bar, for a period; `None` where no instance can be built.
   */
  datatype Binding = Binding(name: string, paramKey: string, outputs: nat -> Option<seq<Output>>)

  datatype ParamKind = IntRange(low: int, high: int) | FloatRange(least: real, greatest: real) | Categorical

  datatype ParamDef = ParamDef(name: string, kind: ParamKind)

  datatype Cache = Cache(single: map<(string, nat), seq<Value>>, multi: map<(string, nat, string), seq<Value>>)

  const U32_LIMIT: nat := 0x1_0000_0000

  const EMPTY := Cache(map[], map[])

  /** A 64-bit integer cut to 32 bits. */
  function WrapToU32(x: int): nat {
    x % U32_LIMIT
  }

  /** A float cut to 32 bits, saturating. */
  function SaturateToU32(x: real): nat {
    if x <= 0.0 then 0 else if x >= (U32_LIMIT - 1) as real then U32_LIMIT - 1 else x.Floor
  }

  function Definition(schema: seq<ParamDef>, key: string): Option<ParamKind> {
    if schema == [] then None else if schema[0].name == key then Some(schema[0].kind) else Definition(schema[1..], key)
  }

  /** The periods precomputed for a parameter, as a half-open range; empty where it has none. */
  function PeriodRange(schema: seq<ParamDef>, key: string): (nat, nat) {
    match Definition(schema, key)
    case Some(IntRange(low, high)) => (WrapToU32(low), WrapToU32(high) + 1)
    case Some(FloatRange(least, greatest)) => (SaturateToU32(least), SaturateToU32(greatest) + 1)
    case _ => (0, 0)
  }

  // ---- Arrays of one instance ----

  function Blanks(n: nat): (r: seq<Value>)
    ensures |r| == n
  {
    seq(n, _ => None)
  }

  predicate AllBlank(xs: seq<Value>) {
    forall i :: 0 <= i < |xs| ==> xs[i] == None
  }

  function SingleAt(output: Output): Value {
    if output.Single? then output.value else None
  }

  function SingleArray(outputs: seq<Output>): (r: seq<Value>)
    ensures |r| == |outputs|
  {
    seq(|outputs|, i requires 0 <= i < |outputs| => SingleAt(outputs[i]))
  }

  /** The buffer of a suffix before it is pushed to at bar `at`: a new one starts padded with blanks. */
  function Slot(buffers: map<string, seq<Value>>, suffix: string, at: nat): seq<Value> {
    if suffix in buffers then buffers[suffix] else Blanks(at)
  }

  function PushPairs(buffers: map<string, seq<Value>>, pairs: seq<(string, Value)>, at: nat): map<string, seq<Value>> {
    if pairs == [] then buffers
    else
      var last := pairs[|pairs| - 1];
      var front := PushPairs(buffers, pairs[..|pairs| - 1], at);
      front[last.0 := Slot(front, last.0, at) + [last.1]]
  }

  function Collected(outputs: seq<Output>): map<string, seq<Value>> {
    if outputs == [] then map[]
    else
      var n := |outputs| - 1;
      var before := Collected(outputs[..n]);
      if outputs[n].Multi? then PushPairs(before, outputs[n].pairs, n) else before
  }

  function Padded(xs: seq<Value>, n: nat): seq<Value> {
    if |xs| >= n then xs else xs + Blanks(n - |xs|)
  }

  /** One pass over an instance's outputs, filling the single array and the suffix buffers. */
  method Collect(outputs: seq<Output>) returns (values: seq<Value>, buffers: map<string, seq<Value>>)
    ensures values == SingleArray(outputs)
    ensures buffers == Collected(outputs)
  {
    hide PushPairs;
    values, buffers := [], map[];
    for i := 0 to |outputs|
      invariant values == SingleArray(outputs[..i])
      invariant buffers == Collected(outputs[..i])
    {
      assert outputs[..i + 1][..i] == outputs[..i];
      match outputs[i]
      case Pending => values := values + [None];
      case Single(v) => values := values + [v];
      case Multi(pairs) =>
        values := values + [None];
        buffers := Push(buffers, pairs, i);
    }
    assert outputs[..|outputs|] == outputs;
  }

  method Push(
    before: map<string, seq<Value>>, pairs: seq<(string, Value)>, at: nat) returns (buffers: map<string, seq<Value>>)
    ensures buffers == PushPairs(before, pairs, at)
  {
    buffers := before;
    for k := 0 to |pairs|
      invariant buffers == PushPairs(before, pairs[..k], at)
    {
      assert pairs[..k + 1][..k] == pairs[..k];
      buffers := buffers[pairs[k].0 := Slot(buffers, pairs[k].0, at) + [pairs[k].1]];
    }
    assert pairs[..|pairs|] == pairs;
  }

  // ---- Building the cache ----

  function KeptBuffers(
    buffers: map<string, seq<Value>>, n: nat, name: string, period: nat): map<(string, nat, string), seq<Value>>
  {
    map suffix | suffix in buffers && !AllBlank(Padded(buffers[suffix], n)) ::
      (name, period, suffix) := Padded(buffers[suffix], n)
  }

  /** Arrays that are blank throughout are not stored. */
  function WithInstance(cache: Cache, name: string, period: nat, outputs: seq<Output>): Cache {
    var values := SingleArray(outputs);
    Cache(if AllBlank(values) then cache.single else cache.single[(name, period) := values],
          cache.multi + KeptBuffers(Collected(outputs), |outputs|, name, period))
  }

  function WithPeriod(cache: Cache, b: Binding, period: nat): Cache {
    match b.outputs(period)
    case Some(outputs) => WithInstance(cache, b.name, period, outputs)
    case None => cache
  }

  function WithPeriods(cache: Cache, b: Binding, low: nat, high: nat): Cache {
    if high <= low then cache else WithPeriod(WithPeriods(cache, b, low, high - 1), b, high - 1)
  }

  function Built(schema: seq<ParamDef>, bindings: seq<Binding>): Cache {
    if bindings == [] then EMPTY
    else
      var b := bindings[|bindings| - 1];
      var range := PeriodRange(schema, b.paramKey);
      WithPeriods(Built(schema, bindings[..|bindings| - 1]), b, range.0, range.1)
  }

  /** The nested loops over bindings and periods. */
  method FromCandlesAndBindings(schema: seq<ParamDef>, bindings: seq<Binding>) returns (cache: Cache)
    ensures cache == Built(schema, bindings)
  {
    hide WithPeriod, PeriodRange;
    cache := EMPTY;
    for i := 0 to |bindings|
      invariant cache == Built(schema, bindings[..i])
    {
      assert bindings[..i + 1][..i] == bindings[..i];
      var range := PeriodRange(schema, bindings[i].paramKey);
      ghost var before := cache;
      var period := range.0;
      while period < range.1
        invariant range.0 <= period && (period <= range.1 || range.1 <= range.0 == period)
        invariant cache == WithPeriods(before, bindings[i], range.0, period)
      {
        cache := AddPeriod(cache, bindings[i], period);
        period := period + 1;
      }
      assert WithPeriods(before, bindings[i], range.0, period) == WithPeriods(before, bindings[i], range.0, range.1);
    }
    assert bindings[..|bindings|] == bindings;
  }

  method AddPeriod(before: Cache, b: Binding, period: nat) returns (cache: Cache)
    ensures cache == WithPeriod(before, b, period)
  {
    hide KeptBuffers, SingleArray, Collected, AllBlank, Padded;
    cache := before;
    var instance := b.outputs(period);
    if instance.Some? {
      var outputs := instance.value;
      var values, buffers := Collect(outputs);
      if !AllBlank(values) {
        cache := cache.(single := cache.single[(b.name, period) := values]);
      }
      cache := cache.(multi := cache.multi + KeptBuffers(buffers, |outputs|, b.name, period));
    }
  }

  // ---- Direct evaluation ----

  predicate Occurs(output: Output, suffix: string) {
    output.Multi? && exists k :: 0 <= k < |output.pairs| && output.pairs[k].0 == suffix
  }

  function Named(pairs: seq<(string, Value)>, suffix: string): Value {
    if pairs == [] then None
    else if pairs[|pairs| - 1].0 == suffix then pairs[|pairs| - 1].1 else Named(pairs[..|pairs| - 1], suffix)
  }

  /** What an indicator says under a suffix at one bar. */
  function MultiAt(output: Output, suffix: string): Value {
    if output.Multi? then Named(output.pairs, suffix) else None
  }

  function MultiArray(outputs: seq<Output>, suffix: string): (r: seq<Value>)
    ensures |r| == |outputs|
  {
    seq(|outputs|, i requires 0 <= i < |outputs| => MultiAt(outputs[i], suffix))
  }

  /** Each bar names a suffix at most once. */
  ghost predicate NamedAtMostOnce(outputs: seq<Output>, suffix: string) {
    forall i :: 0 <= i < |outputs| && outputs[i].Multi? ==> NamedOnce(outputs[i].pairs, suffix)
  }

  /** Before bar `k`, a suffix once named is named at every bar. */
  ghost predicate NoPauseBefore(outputs: seq<Output>, suffix: string, k: nat)
    requires k <= |outputs|
  {
    forall i, j :: 0 <= i < j < k && Occurs(outputs[i], suffix) ==> Occurs(outputs[j], suffix)
  }

  /** No number follows a pause. */
  ghost predicate Steady(outputs: seq<Output>, suffix: string) {
    forall k :: 0 <= k < |outputs| && MultiAt(outputs[k], suffix).Some? ==> NoPauseBefore(outputs, suffix, k)
  }

  /** The indicator's values under a suffix survive the buffers. */
  ghost predicate Storable(outputs: seq<Output>, suffix: string) {
    NamedAtMostOnce(outputs, suffix) && Steady(outputs, suffix)
  }

  ghost predicate NamedOnce(pairs: seq<(string, Value)>, suffix: string) {
    forall i, j :: 0 <= i < j < |pairs| && pairs[i].0 == suffix ==> pairs[j].0 != suffix
  }

  /** The raw array an instance has for a suffix, or for none. */
  function DirectArray(outputs: seq<Output>, suffix: Option<string>): seq<Value> {
    if suffix.Some? then MultiArray(outputs, suffix.value) else SingleArray(outputs)
  }

  // ---- One buffer equals the direct array ----

  lemma {:induction false} PushOthers(
    buffers: map<string, seq<Value>>, pairs: seq<(string, Value)>, at: nat, suffix: string)
    requires forall k :: 0 <= k < |pairs| ==> pairs[k].0 != suffix
    ensures var pushed := PushPairs(buffers, pairs, at);
            (suffix in pushed <==> suffix in buffers) && (suffix in buffers ==> pushed[suffix] == buffers[suffix])
    ensures Named(pairs, suffix) == None
  {
    if pairs != [] {
      PushOthers(buffers, pairs[..|pairs| - 1], at, suffix);
    }
  }

  /** A bar that names a suffix once adds exactly that value to its buffer. */
  lemma {:induction false} PushOnce(
    buffers: map<string, seq<Value>>, pairs: seq<(string, Value)>, at: nat, suffix: string)
    requires NamedOnce(pairs, suffix) && exists k :: 0 <= k < |pairs| && pairs[k].0 == suffix
    ensures var pushed := PushPairs(buffers, pairs, at);
            suffix in pushed && pushed[suffix] == Slot(buffers, suffix, at) + [Named(pairs, suffix)]
  {
    var n := |pairs| - 1;
    var front := pairs[..n];
    if pairs[n].0 == suffix {
      forall k | 0 <= k < |front| ensures front[k].0 != suffix {
        assert front[k] == pairs[k];
      }
      PushOthers(buffers, front, at, suffix);
    } else {
      assert NamedOnce(front, suffix) by {
        forall i, j | 0 <= i < j < |front| && front[i].0 == suffix ensures front[j].0 != suffix {
          assert front[i] == pairs[i] && front[j] == pairs[j];
        }
      }
      var k :| 0 <= k < |pairs| && pairs[k].0 == suffix;
      assert front[k].0 == suffix;
      PushOnce(buffers, front, at, suffix);
    }
  }

  lemma NotNamed(output: Output, suffix: string)
    requires !Occurs(output, suffix)
    ensures MultiAt(output, suffix) == None
  {
    if output.Multi? {
      PushOthers(map[], output.pairs, 0, suffix);
    }
  }

  lemma CollectedStep(outputs: seq<Output>, suffix: string, k: nat)
    requires k < |outputs| && NamedAtMostOnce(outputs, suffix)
    ensures var before, after := Collected(outputs[..k]), Collected(outputs[..k + 1]);
            if Occurs(outputs[k], suffix) then
              suffix in after && after[suffix] == Slot(before, suffix, k) + [MultiAt(outputs[k], suffix)]
            else
              (suffix in after <==> suffix in before) && (suffix in after ==> after[suffix] == before[suffix])
  {
    assert outputs[..k + 1][..k] == outputs[..k];
    var before := Collected(outputs[..k]);
    if Occurs(outputs[k], suffix) {
      PushOnce(before, outputs[k].pairs, k, suffix);
    } else if outputs[k].Multi? {
      PushOthers(before, outputs[k].pairs, k, suffix);
    }
  }

  /** Where the buffer of a suffix puts a value named at bar `k`. */
  function Landing(outputs: seq<Output>, suffix: string, k: nat): nat
    requires k <= |outputs|
  {
    |Slot(Collected(outputs[..k]), suffix, k)|
  }

  lemma {:induction false} BufferIfNamed(outputs: seq<Output>, suffix: string, k: nat)
    requires k <= |outputs| && NamedAtMostOnce(outputs, suffix)
    ensures suffix in Collected(outputs[..k]) <==> exists i :: 0 <= i < k && Occurs(outputs[i], suffix)
  {
    if k > 0 {
      hide Collected, NamedAtMostOnce, Occurs, MultiAt;
      BufferIfNamed(outputs, suffix, k - 1);
      CollectedStep(outputs, suffix, k - 1);
    } else {
      assert outputs[..0] == [];
    }
  }

  lemma NoPauseStep(outputs: seq<Output>, suffix: string, k: nat)
    requires k < |outputs|
    ensures NoPauseBefore(outputs, suffix, k + 1)
       <==> NoPauseBefore(outputs, suffix, k)
            && (Occurs(outputs[k], suffix) || forall i :: 0 <= i < k ==> !Occurs(outputs[i], suffix))
  {
    hide Occurs;
  }

  /** A value lands at its own bar exactly when nothing paused before it, and otherwise early. */
  lemma {:induction false} LandingIsEarly(outputs: seq<Output>, suffix: string, k: nat)
    requires k <= |outputs| && NamedAtMostOnce(outputs, suffix)
    ensures Landing(outputs, suffix, k) <= k
    ensures Landing(outputs, suffix, k) == k <==> NoPauseBefore(outputs, suffix, k)
  {
    if k == 0 {
      assert outputs[..0] == [];
    } else {
      hide Collected, NamedAtMostOnce, Occurs, MultiAt, NoPauseBefore;
      LandingIsEarly(outputs, suffix, k - 1);
      CollectedStep(outputs, suffix, k - 1);
      BufferIfNamed(outputs, suffix, k - 1);
      NoPauseStep(outputs, suffix, k - 1);
    }
  }

  /** A value stays where it landed. */
  lemma {:induction false} ValueIsStored(outputs: seq<Output>, suffix: string, k: nat, n: nat)
    requires k < n <= |outputs| && NamedAtMostOnce(outputs, suffix) && Occurs(outputs[k], suffix)
    ensures var buffers, at := Collected(outputs[..n]), Landing(outputs, suffix, k);
            suffix in buffers && at < |buffers[suffix]| && buffers[suffix][at] == MultiAt(outputs[k], suffix)
  {
    hide Collected, NamedAtMostOnce, Occurs, MultiAt;
    CollectedStep(outputs, suffix, n - 1);
    if k < n - 1 {
      ValueIsStored(outputs, suffix, k, n - 1);
    }
  }

  /** Every number of a buffer landed there. */
  lemma {:induction false} NumberLanded(outputs: seq<Output>, suffix: string, n: nat, at: nat) returns (k: nat)
    requires n <= |outputs| && NamedAtMostOnce(outputs, suffix) && suffix in Collected(outputs[..n])
    requires at < |Collected(outputs[..n])[suffix]| && Collected(outputs[..n])[suffix][at].Some?
    ensures k < n && Landing(outputs, suffix, k) == at
    ensures MultiAt(outputs[k], suffix) == Collected(outputs[..n])[suffix][at]
  {
    if n == 0 {
      assert false;
    } else {
      hide Collected, NamedAtMostOnce, Occurs, MultiAt;
      CollectedStep(outputs, suffix, n - 1);
      if Occurs(outputs[n - 1], suffix) && at == Landing(outputs, suffix, n - 1) {
        k := n - 1;
      } else {
        k := NumberLanded(outputs, suffix, n - 1, at);
      }
    }
  }

  /** The array stored for a suffix: its padded buffer, or nothing. */
  function StoredArray(outputs: seq<Output>, suffix: string): seq<Value> {
    var buffers := Collected(outputs);
    if suffix in buffers then Padded(buffers[suffix], |outputs|) else Blanks(|outputs|)
  }

  lemma StoredLength(outputs: seq<Output>, suffix: string)
    requires NamedAtMostOnce(outputs, suffix)
    ensures |StoredArray(outputs, suffix)| == |outputs|
  {
    hide Collected, NamedAtMostOnce;
    assert outputs[..|outputs|] == outputs;
    LandingIsEarly(outputs, suffix, |outputs|);
  }

  lemma StoredAt(outputs: seq<Output>, suffix: string, i: nat)
    requires i < |outputs| == |StoredArray(outputs, suffix)|
    ensures var buffers := Collected(outputs);
            StoredArray(outputs, suffix)[i]
            == if suffix in buffers && i < |buffers[suffix]| then buffers[suffix][i] else None
  {}

  lemma SteadyIsDirect(outputs: seq<Output>, suffix: string)
    requires NamedAtMostOnce(outputs, suffix) && Steady(outputs, suffix)
    ensures StoredArray(outputs, suffix) == MultiArray(outputs, suffix)
  {
    hide Collected, NamedAtMostOnce, MultiAt, Occurs, StoredArray, NoPauseBefore, Landing;
    assert outputs[..|outputs|] == outputs;
    var buffers, stored := Collected(outputs), StoredArray(outputs, suffix);
    StoredLength(outputs, suffix);
    forall i | 0 <= i < |outputs| ensures stored[i] == MultiAt(outputs[i], suffix) {
      StoredAt(outputs, suffix, i);
      if MultiAt(outputs[i], suffix).Some? {
        NumberOccurs(outputs[i], suffix);
        LandingIsEarly(outputs, suffix, i);
        ValueIsStored(outputs, suffix, i, |outputs|);
      } else if stored[i].Some? {
        var k := NumberLanded(outputs, suffix, |outputs|, i);
        LandingIsEarly(outputs, suffix, k);
        assert false;
      }
    }
  }

  lemma NumberOccurs(output: Output, suffix: string)
    requires MultiAt(output, suffix).Some?
    ensures Occurs(output, suffix)
  {
    if !Occurs(output, suffix) {
      NotNamed(output, suffix);
    }
  }

  /** In an array stored as it is, no number landed early: the first that did would take the place of an earlier one. */
  lemma {:induction false} DirectIsSteady(outputs: seq<Output>, suffix: string, k: nat)
    requires NamedAtMostOnce(outputs, suffix) && StoredArray(outputs, suffix) == MultiArray(outputs, suffix)
    requires k < |outputs| && MultiAt(outputs[k], suffix).Some?
    ensures Landing(outputs, suffix, k) == k
  {
    hide Collected, NamedAtMostOnce, MultiAt, Occurs, StoredArray, NoPauseBefore;
    assert outputs[..|outputs|] == outputs;
    var at := Landing(outputs, suffix, k);
    StoredLength(outputs, suffix);
    LandingIsEarly(outputs, suffix, k);
    NumberOccurs(outputs[k], suffix);
    ValueIsStored(outputs, suffix, k, |outputs|);
    StoredAt(outputs, suffix, at);
    if at < k {
      assert MultiArray(outputs, suffix)[at].Some?;
      DirectIsSteady(outputs, suffix, at);
      NumberOccurs(outputs[at], suffix);
      ValueIsStored(outputs, suffix, at, k);
    }
  }

  /**
   * The array stored for a suffix is what the indicator says bar by bar exactly when no number follows a pause: the
   * program pads a buffer only before its first value, so whatever comes after a pause lands early.
   */
  lemma StoredIsDirectIff(outputs: seq<Output>, suffix: string)
    requires NamedAtMostOnce(outputs, suffix)
    ensures StoredArray(outputs, suffix) == MultiArray(outputs, suffix) <==> Steady(outputs, suffix)
  {
    hide StoredArray, NamedAtMostOnce, MultiAt, NoPauseBefore;
    if Steady(outputs, suffix) {
      SteadyIsDirect(outputs, suffix);
    }
    if StoredArray(outputs, suffix) == MultiArray(outputs, suffix) {
      forall k | 0 <= k < |outputs| && MultiAt(outputs[k], suffix).Some? ensures NoPauseBefore(outputs, suffix, k) {
        DirectIsSteady(outputs, suffix, k);
        LandingIsEarly(outputs, suffix, k);
      }
    }
  }

  /** A padded buffer is the direct array; a suffix without one has only blanks. */
  lemma BufferIsDirect(outputs: seq<Output>, suffix: string)
    requires Storable(outputs, suffix)
    ensures var buffers := Collected(outputs);
            if suffix in buffers then Padded(buffers[suffix], |outputs|) == MultiArray(outputs, suffix)
            else AllBlank(MultiArray(outputs, suffix))
  {
    hide Collected, MultiArray;
    SteadyIsDirect(outputs, suffix);
  }

  /**
   * A suffix that comes back after a pause shifts: the buffer is padded only before its first value, so the value after
   * the pause lands a bar early.
   */
  lemma PauseShiftsBuffer(suffix: string, x: real, y: real)
    requires x != y
    ensures var outputs := [Multi([(suffix, Some(x))]), Pending, Multi([(suffix, Some(y))])];
            && NamedAtMostOnce(outputs, suffix) && !Steady(outputs, suffix)
            && StoredArray(outputs, suffix) == [Some(x), Some(y), None]
            && MultiArray(outputs, suffix) == [Some(x), None, Some(y)]
  {
    var first, last := [(suffix, Some(x))], [(suffix, Some(y))];
    var outputs := [Multi(first), Pending, Multi(last)];
    NamedAlone(suffix, Some(x));
    NamedAlone(suffix, Some(y));
    CollectedStep(outputs, suffix, 0);
    CollectedStep(outputs, suffix, 1);
    CollectedStep(outputs, suffix, 2);
    hide MultiAt, Occurs, NamedOnce;
    assert outputs[..0] == [] && outputs[..3] == outputs;
    assert Collected(outputs[..3])[suffix] == [Some(x), Some(y)];
    StoredLength(outputs, suffix);
    assert StoredArray(outputs, suffix) == [Some(x), Some(y), None];
    StoredIsDirectIff(outputs, suffix);
  }

  lemma NamedAlone(suffix: string, value: Value)
    ensures var output := Multi([(suffix, value)]);
            Occurs(output, suffix) && MultiAt(output, suffix) == value && NamedOnce(output.pairs, suffix)
  {
    assert [(suffix, value)][0].0 == suffix;
  }
}
