/** One pass over the pending limit orders of a strategy (backtest/src/python_simulation.rs). */
module LimitQueue {
  import opened Reals

  datatype SignalType = Buy | ScaleIn | Sell | ScaleOut | Hold

  /** Times are milliseconds. */
  datatype Order = Order(signal: SignalType, price: real, remaining: real, placedAt: int, reason: string)

  datatype Tick = Tick(price: real, time: int, volume: real)

  datatype Rules = Rules(latency: int, adverseSelection: bool, volumeFraction: real)

  datatype Fill = Fill(order: Order, quantity: real)

  /** What is left of an order at most this large counts as filled. */
  const DUST := 0.000000000001

  /** Past its latency, and its price reached (crossed, under adverse selection). */
  predicate Eligible(rules: Rules, tick: Tick, order: Order) {
    && tick.time - order.placedAt >= rules.latency
    && match order.signal
       case Buy | ScaleIn => if rules.adverseSelection then tick.price < order.price else tick.price <= order.price
       case Sell | ScaleOut => if rules.adverseSelection then tick.price > order.price else tick.price >= order.price
       case Hold => false
  }

  function Capacity(rules: Rules, tick: Tick): real {
    tick.volume * rules.volumeFraction
  }

  /** Removes position `i` by moving the last element into it. */
  function SwapRemove<T>(s: seq<T>, i: nat): (r: seq<T>)
    requires i < |s|
    ensures |r| == |s| - 1
  {
    s[i := s[|s| - 1]][..|s| - 1]
  }

  /** The pass in progress: positions below `index` have been decided. */
  datatype Pass = Pass(pending: seq<Order>, index: nat, matched: real, constrained: nat, fills: seq<Fill>)

  predicate Exhausted(rules: Rules, tick: Tick, matched: real) {
    Max(Capacity(rules, tick) - matched, 0.0) <= 0.0
  }

  function FillQuantity(rules: Rules, tick: Tick, matched: real, order: Order): real {
    Min(order.remaining, Max(Capacity(rules, tick) - matched, 0.0))
  }

  function Step(rules: Rules, tick: Tick, p: Pass): Pass
    requires p.index < |p.pending|
  {
    var order := p.pending[p.index];
    if !Eligible(rules, tick, order) then p.(index := p.index + 1)
    else if Exhausted(rules, tick, p.matched) then p.(index := p.index + 1, constrained := p.constrained + 1)
    else
      var quantity := FillQuantity(rules, tick, p.matched, order);
      var leftover := order.remaining - quantity;
      var constrained := p.constrained + if quantity < order.remaining then 1 else 0;
      var fills := p.fills + [Fill(order, quantity)];
      if leftover <= DUST
      then Pass(SwapRemove(p.pending, p.index), p.index, p.matched + quantity, constrained, fills)
      else
        Pass(p.pending[p.index := order.(remaining := leftover)], p.index + 1, p.matched + quantity, constrained, fills)
  }

  function Run(rules: Rules, tick: Tick, p: Pass): Pass
    requires p.index <= |p.pending|
    decreases |p.pending| - p.index
  {
    if p.index == |p.pending| then p else Run(rules, tick, Step(rules, tick, p))
  }

  function Start(pending: seq<Order>): Pass {
    Pass(pending, 0, 0.0, 0, [])
  }

  class Queue {
    var pending: seq<Order>

    constructor (orders: seq<Order>)
      ensures pending == orders
    {
      pending := orders;
    }

    /** Matches the queue against one tick, in place. */
    method FillPending(rules: Rules, tick: Tick) returns (filledCount: nat, constrained: nat, fills: seq<Fill>)
      modifies this
      ensures var done := Run(rules, tick, Start(old(pending)));
              pending == done.pending && fills == done.fills && constrained == done.constrained
                && filledCount == |fills|
    {
      ghost var done := Run(rules, tick, Start(pending));
      var capacity := Capacity(rules, tick);
      var matched, i := 0.0, 0;
      filledCount, constrained, fills := 0, 0, [];
      while i < |pending|
        invariant 0 <= i <= |pending| && filledCount == |fills|
        invariant Run(rules, tick, Pass(pending, i, matched, constrained, fills)) == done
        decreases |pending| - i
      {
        var order := pending[i];
        if !Eligible(rules, tick, order) {
          i := i + 1;
        } else {
          var available := Max(capacity - matched, 0.0);
          if available <= 0.0 {
            constrained := constrained + 1;
            i := i + 1;
          } else {
            var quantity := Min(order.remaining, available);
            if quantity < order.remaining {
              constrained := constrained + 1;
            }
            matched := matched + quantity;
            fills := fills + [Fill(order, quantity)];
            filledCount := filledCount + 1;
            var leftover := order.remaining - quantity;
            if leftover <= DUST {
              pending := SwapRemove(pending, i);
            } else {
              pending := pending[i := order.(remaining := leftover)];
              i := i + 1;
            }
          }
        }
      }
    }
  }

  // ---- What a pass keeps ----

  function Leftover(fill: Fill): real {
    fill.order.remaining - fill.quantity
  }

  /** The orders as they were when filled. */
  function Befores(fills: seq<Fill>): seq<Order> {
    if fills == [] then [] else Befores(fills[..|fills| - 1]) + [fills[|fills| - 1].order]
  }

  /** What stays in the queue of the partially filled ones. */
  function Partials(fills: seq<Fill>): seq<Order> {
    if fills == [] then []
    else
      var last := fills[|fills| - 1];
      Partials(fills[..|fills| - 1]) + if Leftover(last) <= DUST then [] else [last.order.(remaining := Leftover(last))]
  }

  function Matched(fills: seq<Fill>): real {
    if fills == [] then 0.0 else Matched(fills[..|fills| - 1]) + fills[|fills| - 1].quantity
  }

  /** Dust dropped with the removed orders. */
  function Dropped(fills: seq<Fill>): real {
    if fills == [] then 0.0
    else
      Dropped(fills[..|fills| - 1])
      + if Leftover(fills[|fills| - 1]) <= DUST then Leftover(fills[|fills| - 1]) else 0.0
  }

  lemma FillsAppend(fills: seq<Fill>, fill: Fill)
    ensures Befores(fills + [fill]) == Befores(fills) + [fill.order]
    ensures Partials(fills + [fill])
         == Partials(fills) + if Leftover(fill) <= DUST then [] else [fill.order.(remaining := Leftover(fill))]
  {}

  lemma TotalsAppend(fills: seq<Fill>, fill: Fill)
    ensures Matched(fills + [fill]) == Matched(fills) + fill.quantity
    ensures Dropped(fills + [fill]) == Dropped(fills) + if Leftover(fill) <= DUST then Leftover(fill) else 0.0
  {}

  /** Quantity an order still asks for, counting every order or only the eligible ones. */
  function Asked(rules: Rules, tick: Tick, eligibleOnly: bool, order: Order): real {
    if eligibleOnly && !Eligible(rules, tick, order) then 0.0 else order.remaining
  }

  function TotalAsked(rules: Rules, tick: Tick, eligibleOnly: bool, orders: seq<Order>): real {
    if orders == [] then 0.0
    else
      TotalAsked(rules, tick, eligibleOnly, orders[..|orders| - 1])
      + Asked(rules, tick, eligibleOnly, orders[|orders| - 1])
  }

  lemma {:induction false} TotalUpdate(
    rules: Rules, tick: Tick, eligibleOnly: bool, orders: seq<Order>, i: nat, order: Order)
    requires i < |orders|
    ensures TotalAsked(rules, tick, eligibleOnly, orders[i := order])
         == TotalAsked(rules, tick, eligibleOnly, orders) - Asked(rules, tick, eligibleOnly, orders[i])
            + Asked(rules, tick, eligibleOnly, order)
  {
    hide Asked;
    var n := |orders| - 1;
    if i == n {
      assert orders[i := order][..n] == orders[..n];
    } else {
      assert orders[i := order][..n] == orders[..n][i := order];
      TotalUpdate(rules, tick, eligibleOnly, orders[..n], i, order);
    }
  }

  lemma SwapRemoveTotal(rules: Rules, tick: Tick, eligibleOnly: bool, orders: seq<Order>, i: nat)
    requires i < |orders|
    ensures TotalAsked(rules, tick, eligibleOnly, SwapRemove(orders, i))
         == TotalAsked(rules, tick, eligibleOnly, orders) - Asked(rules, tick, eligibleOnly, orders[i])
  {
    hide Asked;
    var n := |orders| - 1;
    TotalUpdate(rules, tick, eligibleOnly, orders, i, orders[n]);
    assert orders[i := orders[n]][n] == orders[n];
  }

  lemma SwapRemoveElements<T>(s: seq<T>, i: nat)
    requires i < |s|
    ensures multiset(SwapRemove(s, i)) + multiset{s[i]} == multiset(s)
    ensures forall k :: 0 <= k < i ==> SwapRemove(s, i)[k] == s[k]
  {
    var n := |s| - 1;
    assert s[i := s[n]] == SwapRemove(s, i) + [s[n]];
    UpdateElements(s, i, s[n]);
  }

  lemma UpdateElements<T>(s: seq<T>, i: nat, x: T)
    requires i < |s|
    ensures multiset(s[i := x]) + multiset{s[i]} == multiset(s) + multiset{x}
  {}

  /**
   * No order is lost or invented: the queue is what was there, less the orders filled, plus what is left of partials.
   */
  ghost predicate SameOrders(original: seq<Order>, p: Pass) {
    multiset(original) + multiset(Partials(p.fills)) == multiset(p.pending) + multiset(Befores(p.fills))
  }

  ghost predicate FillsAllowed(rules: Rules, tick: Tick, fills: seq<Fill>) {
    forall k :: 0 <= k < |fills| ==>
      Eligible(rules, tick, fills[k].order) && Leftover(fills[k]) >= 0.0
  }

  /** Every decided position that was eligible was passed over only for want of volume. */
  ghost predicate DecidedInFull(rules: Rules, tick: Tick, p: Pass) {
    forall k :: 0 <= k < p.index && k < |p.pending| && Eligible(rules, tick, p.pending[k]) ==>
      Exhausted(rules, tick, p.matched)
  }

  ghost predicate Conserved(rules: Rules, tick: Tick, eligibleOnly: bool, original: seq<Order>, p: Pass) {
    TotalAsked(rules, tick, eligibleOnly, original)
    == TotalAsked(rules, tick, eligibleOnly, p.pending) + Matched(p.fills) + Dropped(p.fills)
  }

  ghost predicate WithinVolume(rules: Rules, tick: Tick, p: Pass) {
    && p.matched == Matched(p.fills) <= Max(Capacity(rules, tick), 0.0)
    && |Partials(p.fills)| <= 1
    && (|Partials(p.fills)| == 1 ==> Exhausted(rules, tick, p.matched))
  }

  ghost predicate Sound(rules: Rules, tick: Tick, original: seq<Order>, p: Pass) {
    && p.index <= |p.pending|
    && SameOrders(original, p)
    && FillsAllowed(rules, tick, p.fills)
    && DecidedInFull(rules, tick, p)
    && WithinVolume(rules, tick, p)
    && Conserved(rules, tick, false, original, p)
    && Conserved(rules, tick, true, original, p)
  }

  lemma QuantityBounds(rules: Rules, tick: Tick, matched: real, order: Order)
    requires !Exhausted(rules, tick, matched)
    ensures var quantity := FillQuantity(rules, tick, matched, order);
            && order.remaining - quantity >= 0.0
            && matched + quantity <= Capacity(rules, tick)
            && (order.remaining - quantity > 0.0 ==> Exhausted(rules, tick, matched + quantity))
  {}

  lemma Rebalance(
    o: multiset<Order>, partials: multiset<Order>, m: multiset<Order>, befores: multiset<Order>, m': multiset<Order>,
    x: Order, y: Order)
    requires o + partials == m + befores && m' + multiset{x} == m + multiset{y}
    ensures o + (partials + multiset{y}) == m' + (befores + multiset{x})
  {
    var left, right := o + (partials + multiset{y}), m' + (befores + multiset{x});
    forall z: Order ensures left[z] == right[z] {
      assert (o + partials)[z] == (m + befores)[z];
      assert (m' + multiset{x})[z] == (m + multiset{y})[z];
    }
  }

  lemma AskedWhenEligible(rules: Rules, tick: Tick, eligibleOnly: bool, order: Order, remaining: real)
    requires Eligible(rules, tick, order)
    ensures Asked(rules, tick, eligibleOnly, order) == order.remaining
    ensures Asked(rules, tick, eligibleOnly, order.(remaining := remaining)) == remaining
    ensures Eligible(rules, tick, order.(remaining := remaining))
  {}

  lemma SameOrdersStep(rules: Rules, tick: Tick, original: seq<Order>, p: Pass)
    requires p.index < |p.pending| && SameOrders(original, p)
    ensures SameOrders(original, Step(rules, tick, p))
  {
    hide Eligible, Exhausted, FillQuantity, SwapRemove, Befores, Partials;
    var order := p.pending[p.index];
    if Eligible(rules, tick, order) && !Exhausted(rules, tick, p.matched) {
      var quantity := FillQuantity(rules, tick, p.matched, order);
      var fill := Fill(order, quantity);
      FillsAppend(p.fills, fill);
      assert multiset(Befores(p.fills) + [order]) == multiset(Befores(p.fills)) + multiset{order};
      if Leftover(fill) <= DUST {
        assert Partials(p.fills) + [] == Partials(p.fills);
        SwapRemoveElements(p.pending, p.index);
      } else {
        var rest := order.(remaining := Leftover(fill));
        assert multiset(Partials(p.fills) + [rest]) == multiset(Partials(p.fills)) + multiset{rest};
        UpdateElements(p.pending, p.index, rest);
        Rebalance(multiset(original), multiset(Partials(p.fills)), multiset(p.pending), multiset(Befores(p.fills)),
                  multiset(p.pending[p.index := rest]), order, rest);
      }
    }
  }

  lemma DecidedStep(rules: Rules, tick: Tick, p: Pass)
    requires p.index < |p.pending| && DecidedInFull(rules, tick, p)
    ensures DecidedInFull(rules, tick, Step(rules, tick, p))
  {}

  lemma VolumeStep(rules: Rules, tick: Tick, p: Pass)
    requires p.index < |p.pending| && WithinVolume(rules, tick, p) && FillsAllowed(rules, tick, p.fills)
    ensures WithinVolume(rules, tick, Step(rules, tick, p)) && FillsAllowed(rules, tick, Step(rules, tick, p).fills)
  {
    hide Eligible, FillQuantity, SwapRemove, Exhausted, Partials, Matched;
    var order := p.pending[p.index];
    if Eligible(rules, tick, order) && !Exhausted(rules, tick, p.matched) {
      var quantity := FillQuantity(rules, tick, p.matched, order);
      QuantityBounds(rules, tick, p.matched, order);
      FillsAppend(p.fills, Fill(order, quantity));
      TotalsAppend(p.fills, Fill(order, quantity));
    }
  }

  lemma ConservedStep(rules: Rules, tick: Tick, eligibleOnly: bool, original: seq<Order>, p: Pass)
    requires p.index < |p.pending| && Conserved(rules, tick, eligibleOnly, original, p)
    ensures Conserved(rules, tick, eligibleOnly, original, Step(rules, tick, p))
  {
    hide FillQuantity, SwapRemove, Exhausted, Matched, Dropped, TotalAsked, Eligible, Asked;
    var order := p.pending[p.index];
    if Eligible(rules, tick, order) && !Exhausted(rules, tick, p.matched) {
      var quantity := FillQuantity(rules, tick, p.matched, order);
      var fill := Fill(order, quantity);
      TotalsAppend(p.fills, fill);
      AskedWhenEligible(rules, tick, eligibleOnly, order, Leftover(fill));
      if Leftover(fill) <= DUST {
        SwapRemoveTotal(rules, tick, eligibleOnly, p.pending, p.index);
      } else {
        TotalUpdate(rules, tick, eligibleOnly, p.pending, p.index, order.(remaining := Leftover(fill)));
      }
    }
  }

  /** Every position the pass looks at keeps it sound, although a removal moves the last order into the gap. */
  lemma {:induction false} RunKeepsSound(rules: Rules, tick: Tick, original: seq<Order>, p: Pass)
    requires Sound(rules, tick, original, p)
    ensures Sound(rules, tick, original, Run(rules, tick, p))
    ensures Run(rules, tick, p).index == |Run(rules, tick, p).pending|
    decreases |p.pending| - p.index
  {
    hide SameOrders, FillsAllowed, DecidedInFull, WithinVolume, Conserved, Eligible, Exhausted, FillQuantity;
    if p.index < |p.pending| {
      SameOrdersStep(rules, tick, original, p);
      DecidedStep(rules, tick, p);
      VolumeStep(rules, tick, p);
      ConservedStep(rules, tick, false, original, p);
      ConservedStep(rules, tick, true, original, p);
      RunKeepsSound(rules, tick, original, Step(rules, tick, p));
    }
  }

  function CountEligible(rules: Rules, tick: Tick, orders: seq<Order>): nat {
    if orders == [] then 0
    else
      CountEligible(rules, tick, orders[..|orders| - 1])
      + if Eligible(rules, tick, orders[|orders| - 1]) then 1 else 0
  }

  /** Orders removed although dust was left of them. */
  function DustFills(fills: seq<Fill>): nat {
    if fills == [] then 0
    else DustFills(fills[..|fills| - 1]) + if 0.0 < Leftover(fills[|fills| - 1]) <= DUST then 1 else 0
  }

  ghost predicate Counted(rules: Rules, tick: Tick, p: Pass) {
    p.index <= |p.pending| && p.constrained == CountEligible(rules, tick, p.pending[..p.index]) + DustFills(p.fills)
  }

  lemma CountAppend(rules: Rules, tick: Tick, orders: seq<Order>, order: Order)
    ensures CountEligible(rules, tick, orders + [order]) ==
            CountEligible(rules, tick, orders) + if Eligible(rules, tick, order) then 1 else 0
  {}

  lemma DustAppend(fills: seq<Fill>, fill: Fill)
    ensures DustFills(fills + [fill]) == DustFills(fills) + if 0.0 < Leftover(fill) <= DUST then 1 else 0
  {}

  lemma CountedStep(rules: Rules, tick: Tick, p: Pass)
    requires p.index < |p.pending| && Counted(rules, tick, p)
    ensures Counted(rules, tick, Step(rules, tick, p))
  {
    hide FillQuantity, SwapRemove, Exhausted, Eligible, CountEligible, DustFills;
    var order, i, next := p.pending[p.index], p.index, Step(rules, tick, p);
    CountAppend(rules, tick, p.pending[..i], order);
    assert p.pending[..i + 1] == p.pending[..i] + [order];
    if Eligible(rules, tick, order) && !Exhausted(rules, tick, p.matched) {
      var quantity := FillQuantity(rules, tick, p.matched, order);
      var fill := Fill(order, quantity);
      QuantityBounds(rules, tick, p.matched, order);
      DustAppend(p.fills, fill);
      if Leftover(fill) <= DUST {
        SwapRemoveElements(p.pending, i);
        assert next.pending[..i] == p.pending[..i];
      } else {
        var rest := order.(remaining := Leftover(fill));
        AskedWhenEligible(rules, tick, true, order, Leftover(fill));
        CountAppend(rules, tick, p.pending[..i], rest);
        assert next.pending[..i + 1] == p.pending[..i] + [rest];
      }
    }
  }

  lemma {:induction false} RunKeepsCounted(rules: Rules, tick: Tick, p: Pass)
    requires Counted(rules, tick, p)
    ensures var done := Run(rules, tick, p);
            done.constrained == CountEligible(rules, tick, done.pending) + DustFills(done.fills)
    decreases |p.pending| - p.index
  {
    assert p.index <= |p.pending|;
    hide Counted, Eligible, Exhausted, FillQuantity;
    if p.index < |p.pending| {
      CountedStep(rules, tick, p);
      RunKeepsCounted(rules, tick, Step(rules, tick, p));
    } else {
      FullyCounted(rules, tick, p);
    }
  }

  /** The constraint counter: the eligible orders left behind for want of volume, and those removed with dust left. */
  lemma ConstrainedIsCounted(rules: Rules, tick: Tick, orders: seq<Order>)
    ensures var done := Run(rules, tick, Start(orders));
            done.constrained == CountEligible(rules, tick, done.pending) + DustFills(done.fills)
  {
    StartIsCounted(rules, tick, orders);
    hide Counted;
    RunKeepsCounted(rules, tick, Start(orders));
  }

  lemma FullyCounted(rules: Rules, tick: Tick, p: Pass)
    requires Counted(rules, tick, p) && p.index == |p.pending|
    ensures p.constrained == CountEligible(rules, tick, p.pending) + DustFills(p.fills)
  {
    assert p.pending[..|p.pending|] == p.pending;
  }

  lemma StartIsCounted(rules: Rules, tick: Tick, orders: seq<Order>)
    ensures Counted(rules, tick, Start(orders))
  {}

  lemma StartIsSound(rules: Rules, tick: Tick, orders: seq<Order>)
    ensures Sound(rules, tick, orders, Start(orders))
  {}

  lemma {:induction false} DroppedIsDust(rules: Rules, tick: Tick, fills: seq<Fill>)
    requires FillsAllowed(rules, tick, fills)
    ensures 0.0 <= Dropped(fills) <= DUST * |fills| as real
  {
    if fills != [] {
      var front := fills[..|fills| - 1];
      assert FillsAllowed(rules, tick, front) by {
        forall k | 0 <= k < |front| ensures Eligible(rules, tick, front[k].order) && Leftover(front[k]) >= 0.0 {
          assert front[k] == fills[k];
        }
      }
      DroppedIsDust(rules, tick, front);
    }
  }

  /**
   * One pass over any queue: only orders past latency whose price is reached are filled; the volume matched is within
   * the tick's share; every other order is untouched; at most one is filled in part; and what was asked before is what
   * is asked after plus what was matched, up to a dust per removed order.
   */
  lemma PassIsSound(rules: Rules, tick: Tick, orders: seq<Order>)
    ensures var done := Run(rules, tick, Start(orders));
            && multiset(orders) + multiset(Partials(done.fills))
              == multiset(done.pending) + multiset(Befores(done.fills))
            && FillsAllowed(rules, tick, done.fills)
            && Matched(done.fills) <= Max(Capacity(rules, tick), 0.0)
            && |Partials(done.fills)| <= 1
            && 0.0 <= TotalAsked(rules, tick, false, orders)
                      - TotalAsked(rules, tick, false, done.pending) - Matched(done.fills)
                   <= DUST * |done.fills| as real
  {
    hide Eligible, Exhausted, FillQuantity, TotalAsked, Matched, Partials, Befores, Run;
    StartIsSound(rules, tick, orders);
    RunKeepsSound(rules, tick, orders, Start(orders));
    DroppedIsDust(rules, tick, Run(rules, tick, Start(orders)).fills);
  }

  /** While volume is left nothing eligible stays behind, not even an order moved by a removal. */
  lemma NothingEligibleIsMissed(rules: Rules, tick: Tick, orders: seq<Order>)
    ensures var done := Run(rules, tick, Start(orders));
            Matched(done.fills) < Capacity(rules, tick) ==>
              forall k :: 0 <= k < |done.pending| ==> !Eligible(rules, tick, done.pending[k])
  {
    hide Eligible, FillQuantity, TotalAsked, Matched, Partials, Befores, Run;
    StartIsSound(rules, tick, orders);
    RunKeepsSound(rules, tick, orders, Start(orders));
  }

  ghost predicate NonNegative(orders: seq<Order>) {
    forall k :: 0 <= k < |orders| ==> orders[k].remaining >= 0.0
  }

  lemma {:induction false} NothingAskedOfNone(rules: Rules, tick: Tick, orders: seq<Order>)
    requires forall k :: 0 <= k < |orders| && Eligible(rules, tick, orders[k]) ==> orders[k].remaining >= 0.0
    ensures TotalAsked(rules, tick, true, orders) >= 0.0
  {
    hide Eligible;
    if orders != [] {
      var front := orders[..|orders| - 1];
      forall k | 0 <= k < |front| && Eligible(rules, tick, front[k]) ensures front[k].remaining >= 0.0 {
        assert front[k] == orders[k];
      }
      NothingAskedOfNone(rules, tick, front);
    }
  }

  lemma {:induction false} PartialsAreNonNegative(fills: seq<Fill>)
    ensures forall k :: 0 <= k < |Partials(fills)| ==> Partials(fills)[k].remaining > DUST
  {
    if fills != [] {
      PartialsAreNonNegative(fills[..|fills| - 1]);
    }
  }

  lemma PendingIsNonNegative(original: seq<Order>, p: Pass)
    requires SameOrders(original, p) && NonNegative(original)
    ensures NonNegative(p.pending)
  {
    hide Partials, Befores;
    PartialsAreNonNegative(p.fills);
    forall k | 0 <= k < |p.pending| ensures p.pending[k].remaining >= 0.0 {
      var order := p.pending[k];
      assert order in multiset(p.pending);
      assert order in multiset(original) + multiset(Partials(p.fills));
      if order in multiset(original) {
        var j :| 0 <= j < |original| && original[j] == order;
      } else {
        assert order in multiset(Partials(p.fills));
        var j :| 0 <= j < |Partials(p.fills)| && Partials(p.fills)[j] == order;
      }
    }
  }

  /**
   * A tick with more volume than all eligible orders ask for fills every one of them in full and leaves the rest as
   * they were.
   */
  lemma AmpleVolumeFillsAll(rules: Rules, tick: Tick, orders: seq<Order>)
    requires NonNegative(orders) && TotalAsked(rules, tick, true, orders) < Capacity(rules, tick)
    ensures var done := Run(rules, tick, Start(orders));
            && (forall k :: 0 <= k < |done.pending| ==> !Eligible(rules, tick, done.pending[k]))
            && multiset(orders) == multiset(done.pending) + multiset(Befores(done.fills))
  {
    hide Eligible, FillQuantity, TotalAsked, Matched, Partials, Befores, Run;
    var done := Run(rules, tick, Start(orders));
    StartIsSound(rules, tick, orders);
    RunKeepsSound(rules, tick, orders, Start(orders));
    DroppedIsDust(rules, tick, done.fills);
    PendingIsNonNegative(orders, done);
    NothingAskedOfNone(rules, tick, done.pending);
    NothingEligibleIsMissed(rules, tick, orders);
    assert Partials(done.fills) == [];
  }
}
