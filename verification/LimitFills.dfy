/** Which pending orders a tick fills, in terms of its price and time alone (backtest/src/python_simulation.rs). */
module LimitFills {
  import opened Reals
  import opened LimitQueue

  predicate IsBuy(signal: SignalType) {
    signal == Buy || signal == ScaleIn
  }

  predicate IsSell(signal: SignalType) {
    signal == Sell || signal == ScaleOut
  }

  /**
   * A fill a trader would accept: the order's limit or better, strictly so under adverse selection, and not too early.
   */
  predicate WithinLimit(rules: Rules, tick: Tick, order: Order) {
    && (IsBuy(order.signal) || IsSell(order.signal))
    && (IsBuy(order.signal) ==> tick.price <= order.price && (rules.adverseSelection ==> tick.price != order.price))
    && (IsSell(order.signal) ==> tick.price >= order.price && (rules.adverseSelection ==> tick.price != order.price))
    && tick.time >= order.placedAt + rules.latency
  }

  lemma EligibleIsWithinLimit(rules: Rules, tick: Tick, order: Order)
    ensures Eligible(rules, tick, order) <==> WithinLimit(rules, tick, order)
  {}

  /** A later tick at least as good for the order's side. */
  predicate AtLeastAsGood(order: Order, tick: Tick, better: Tick) {
    && better.time >= tick.time
    && (IsBuy(order.signal) ==> better.price <= tick.price)
    && (IsSell(order.signal) ==> better.price >= tick.price)
  }

  lemma {:induction false} BeforesAt(fills: seq<Fill>)
    ensures |Befores(fills)| == |fills| && forall k :: 0 <= k < |fills| ==> Befores(fills)[k] == fills[k].order
  {
    if fills != [] {
      BeforesAt(fills[..|fills| - 1]);
    }
  }

  /** Every fill of a pass is within its order's limit and no earlier than its latency allows. */
  lemma FillsAreWithinLimits(rules: Rules, tick: Tick, orders: seq<Order>, k: nat)
    requires k < |Run(rules, tick, Start(orders)).fills|
    ensures WithinLimit(rules, tick, Run(rules, tick, Start(orders)).fills[k].order)
  {
    hide Run, Eligible, TotalAsked, Matched, Partials, Befores;
    PassIsSound(rules, tick, orders);
    EligibleIsWithinLimit(rules, tick, Run(rules, tick, Start(orders)).fills[k].order);
  }

  lemma NotFilled(rules: Rules, tick: Tick, orders: seq<Order>, order: Order)
    requires !WithinLimit(rules, tick, order)
    ensures multiset(Befores(Run(rules, tick, Start(orders)).fills))[order] == 0
  {
    hide Run, WithinLimit;
    var fills := Run(rules, tick, Start(orders)).fills;
    BeforesAt(fills);
    if order in multiset(Befores(fills)) {
      var k :| 0 <= k < |Befores(fills)| && Befores(fills)[k] == order;
      FillsAreWithinLimits(rules, tick, orders, k);
      assert false;
    }
  }

  /** An order whose limit the tick does not reach is still in the queue, unchanged, as often as before. */
  lemma UnreachedOrderStays(rules: Rules, tick: Tick, orders: seq<Order>, order: Order)
    requires !WithinLimit(rules, tick, order)
    ensures multiset(Run(rules, tick, Start(orders)).pending)[order] >= multiset(orders)[order]
  {
    hide Run, WithinLimit, Eligible, TotalAsked, Matched, Partials, Befores;
    var done := Run(rules, tick, Start(orders));
    PassIsSound(rules, tick, orders);
    NotFilled(rules, tick, orders, order);
    CountsBalance(multiset(orders), multiset(Partials(done.fills)), multiset(done.pending),
                  multiset(Befores(done.fills)), order);
  }

  lemma CountsBalance(
    o: multiset<Order>, partials: multiset<Order>, pending: multiset<Order>, befores: multiset<Order>, x: Order)
    requires o + partials == pending + befores
    ensures o[x] + partials[x] == pending[x] + befores[x]
  {
    assert (o + partials)[x] == (pending + befores)[x];
  }

  /** With ample volume an order is filled, as often as it is pending, exactly when the tick is within its limit. */
  lemma AmpleVolumeFillsIff(rules: Rules, tick: Tick, orders: seq<Order>, order: Order)
    requires NonNegative(orders) && TotalAsked(rules, tick, true, orders) < Capacity(rules, tick)
    ensures multiset(Befores(Run(rules, tick, Start(orders)).fills))[order]
            == if WithinLimit(rules, tick, order) then multiset(orders)[order] else 0
  {
    hide Run, WithinLimit, Eligible, TotalAsked, Capacity, Befores;
    var done := Run(rules, tick, Start(orders));
    AmpleVolumeFillsAll(rules, tick, orders);
    EligibleIsWithinLimit(rules, tick, order);
    CountsBalance(multiset(orders), multiset{}, multiset(done.pending), multiset(Befores(done.fills)), order);
    if WithinLimit(rules, tick, order) {
      assert order !in done.pending;
    } else {
      NotFilled(rules, tick, orders, order);
    }
  }

  /** An order that fills at a tick fills at any later tick at least as good for its side, given the volume. */
  lemma BetterTickFillsToo(rules: Rules, tick: Tick, better: Tick, orders: seq<Order>, orders': seq<Order>, k: nat)
    requires k < |Run(rules, tick, Start(orders)).fills|
    requires var order := Run(rules, tick, Start(orders)).fills[k].order;
             order in orders' && AtLeastAsGood(order, tick, better)
    requires NonNegative(orders') && TotalAsked(rules, better, true, orders') < Capacity(rules, better)
    ensures var order := Run(rules, tick, Start(orders)).fills[k].order;
            order in multiset(Befores(Run(rules, better, Start(orders')).fills))
  {
    hide Run, TotalAsked, Capacity, Befores, NonNegative;
    var order := Run(rules, tick, Start(orders)).fills[k].order;
    FillsAreWithinLimits(rules, tick, orders, k);
    AmpleVolumeFillsIff(rules, better, orders', order);
    assert order in multiset(orders');
  }

  /** What a tick matches stays within the configured share of its volume, and what stays of an order is never dust. */
  lemma FillsWithinShare(rules: Rules, tick: Tick, orders: seq<Order>)
    ensures var done := Run(rules, tick, Start(orders));
            && Matched(done.fills) <= Max(tick.volume * rules.volumeFraction, 0.0)
            && forall k :: 0 <= k < |Partials(done.fills)| ==> Partials(done.fills)[k].remaining > 0.000000000001
  {
    hide Run, Eligible, TotalAsked, Matched, Partials, Befores;
    PassIsSound(rules, tick, orders);
    assert Capacity(rules, tick) == tick.volume * rules.volumeFraction;
    PartialsAreNonNegative(Run(rules, tick, Start(orders)).fills);
  }
}
