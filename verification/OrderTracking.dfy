/** Active orders, their trackers and the lifetime fill counters (backtest/src/simulation.rs). */
module OrderTracking {
  type OrderId = string

  datatype BookSide = Bid | Ask

  datatype Tracker = Tracker(side: BookSide, placedAt: int, price: real, filled: bool, fillCount: nat)

  /** A book fill, and whether the portfolio executed any of it. */
  datatype Fill = Fill(id: OrderId, executed: bool)

  function Ids(fills: seq<Fill>): set<OrderId> {
    set i | 0 <= i < |fills| :: fills[i].id
  }

  function Without(m: map<OrderId, Tracker>, ids: set<OrderId>): map<OrderId, Tracker> {
    m - ids
  }

  /** Orders placed no later than the cutoff: those that have reached the exchange. */
  function Arrived(trackers: map<OrderId, Tracker>, cutoff: int): map<OrderId, Tracker> {
    map id | id in trackers && trackers[id].placedAt <= cutoff :: trackers[id]
  }

  /** How many tracked orders of a side complete: those whose first fill the portfolio executes. */
  function Completed(side: BookSide, fills: seq<Fill>, tracked: map<OrderId, Tracker>): nat {
    if fills == [] then 0
    else
      var first := fills[0];
      (if first.id in tracked && first.executed && tracked[first.id].side == side then 1 else 0)
      + Completed(side, fills[1..], Without(tracked, {first.id}))
  }

  /** The fills kept for execution: known orders placed no later than the cutoff. */
  function Timely(fills: seq<Fill>, trackers: map<OrderId, Tracker>, cutoff: int): seq<Fill> {
    if fills == [] then []
    else
      var last := fills[|fills| - 1];
      Timely(fills[..|fills| - 1], trackers, cutoff)
      + if last.id in trackers && trackers[last.id].placedAt <= cutoff then [last] else []
  }

  /** The orders whose fills came too early. */
  function Late(fills: seq<Fill>, trackers: map<OrderId, Tracker>, cutoff: int): set<OrderId> {
    set id | id in Ids(fills) && id in trackers && trackers[id].placedAt > cutoff
  }

  // ---- Counting completions ----

  /** An order completes at most once, however many fills the book reports for it. */
  lemma {:induction false} CompletedAtMostOnce(fills: seq<Fill>, tracked: map<OrderId, Tracker>)
    ensures Completed(Bid, fills, tracked) + Completed(Ask, fills, tracked)
            + |Without(tracked, Ids(fills))| <= |tracked|
  {
    hide Completed, Ids, Without;
    if fills == [] {
      WithoutNone(tracked);
      NoneCompleted(tracked);
    } else {
      var id := fills[0].id;
      var rest := Without(tracked, {id});
      IdsOfFirst(fills);
      CompletedUnfolds(Bid, fills, tracked);
      CompletedUnfolds(Ask, fills, tracked);
      CompletedAtMostOnce(fills[1..], rest);
      WithoutTwice(tracked, {id}, Ids(fills[1..]));
      SizeWithout(tracked, id);
    }
  }

  lemma WithoutTwice(m: map<OrderId, Tracker>, xs: set<OrderId>, ys: set<OrderId>)
    ensures Without(Without(m, xs), ys) == Without(m, xs + ys)
  {}

  lemma IdsOfFirst(fills: seq<Fill>)
    requires fills != []
    ensures Ids(fills) == {fills[0].id} + Ids(fills[1..])
  {}

  lemma IdsAppend(fills: seq<Fill>, fill: Fill)
    ensures Ids(fills + [fill]) == Ids(fills) + {fill.id}
  {
    var longer := fills + [fill];
    assert longer[|fills|].id == fill.id;
    forall id | id in Ids(fills) ensures id in Ids(longer) {
      var i :| 0 <= i < |fills| && fills[i].id == id;
      assert longer[i].id == id;
    }
  }

  lemma {:induction false} TimelyIds(fills: seq<Fill>, trackers: map<OrderId, Tracker>, cutoff: int)
    ensures Ids(Timely(fills, trackers, cutoff)) == Ids(fills) * Arrived(trackers, cutoff).Keys
  {
    if fills == [] {
    } else {
      var front, last := fills[..|fills| - 1], fills[|fills| - 1];
      TimelyIds(front, trackers, cutoff);
      assert fills == front + [last];
      IdsAppend(front, last);
      if last.id in trackers && trackers[last.id].placedAt <= cutoff {
        IdsAppend(Timely(front, trackers, cutoff), last);
      } else {
        assert Timely(front, trackers, cutoff) + [] == Timely(front, trackers, cutoff);
      }
    }
  }

  predicate Unfilled(tracker: Tracker) {
    !tracker.filled && tracker.fillCount == 0
  }

  /**
   * Between ticks the active ids are the tracked orders, the fill counters agree, no tracked order has been filled,
   * and no more orders were filled or are resting than were placed.
   */
  ghost predicate Consistent(
    active: set<OrderId>, trackers: map<OrderId, Tracker>, filled: nat, bids: nat, asks: nat, placed: nat)
  {
    && active == trackers.Keys
    && filled == bids + asks
    && (forall id :: id in trackers ==> Unfilled(trackers[id]))
    && filled + |trackers| <= placed
  }

  /** An order leaving without having been filled, or with its one fill counted on its side. */
  lemma LeavingKeepsConsistent(
    active: set<OrderId>, trackers: map<OrderId, Tracker>, filled: nat, bids: nat, asks: nat, placed: nat, id: OrderId)
    requires Consistent(active, trackers, filled, bids, asks, placed)
    ensures Consistent(active - {id}, Without(trackers, {id}), filled, bids, asks, placed)
    ensures id in trackers ==> Unfilled(trackers[id])
    ensures id in trackers ==> Consistent(active - {id}, Without(trackers, {id}), filled + 1, bids + 1, asks, placed)
    ensures id in trackers ==> Consistent(active - {id}, Without(trackers, {id}), filled + 1, bids, asks + 1, placed)
  {
    SizeWithout(trackers, id);
    WithoutKeeps(trackers, id);
  }

  lemma PlacingKeepsConsistent(
    active: set<OrderId>, trackers: map<OrderId, Tracker>, filled: nat, bids: nat, asks: nat, placed: nat, id: OrderId,
    tracker: Tracker)
    requires Consistent(active, trackers, filled, bids, asks, placed) && Unfilled(tracker)
    ensures Consistent(active + {id}, trackers[id := tracker], filled, bids, asks, placed + 1)
  {
    TrackedOnce(trackers, id, tracker);
  }

  lemma CancellingKeepsConsistent(
    active: set<OrderId>, trackers: map<OrderId, Tracker>, filled: nat, bids: nat, asks: nat, placed: nat)
    requires Consistent(active, trackers, filled, bids, asks, placed)
    ensures active == trackers.Keys && forall id :: id in trackers ==> !trackers[id].filled
    ensures Consistent({}, map[], filled, bids, asks, placed)
  {}

  /** A tracked order after a fill: filled, with one more fill counted. */
  function AfterFill(trackers: map<OrderId, Tracker>, id: OrderId): map<OrderId, Tracker> {
    if id in trackers then trackers[id := trackers[id].(filled := true, fillCount := trackers[id].fillCount + 1)]
    else trackers
  }

  /** One when the fill is the first of an order of this side. */
  function FirstFill(side: BookSide, trackers: map<OrderId, Tracker>, id: OrderId): nat {
    if id in trackers && !trackers[id].filled && trackers[id].side == side then 1 else 0
  }

  /** Only the first fill of an order counts: once it has been filled, further fills count on neither side. */
  lemma SecondFillCountsNothing(trackers: map<OrderId, Tracker>, id: OrderId)
    ensures var once := AfterFill(trackers, id);
            && FirstFill(Bid, once, id) == 0 == FirstFill(Ask, once, id)
            && (id in trackers ==> once[id].fillCount == trackers[id].fillCount + 1)
            && once - {id} == trackers - {id}
  {}

  lemma CompletionKeepsConsistent(
    active: set<OrderId>, trackers: map<OrderId, Tracker>, filled: nat, bids: nat, asks: nat, placed: nat, id: OrderId)
    requires Consistent(active, trackers, filled, bids, asks, placed)
    ensures AfterFill(trackers, id) - {id} == Without(trackers, {id})
    ensures forall side :: FirstFill(side, trackers, id) == CompletesOn(side, Fill(id, true), trackers)
    ensures var bid, ask := FirstFill(Bid, trackers, id), FirstFill(Ask, trackers, id);
            Consistent(active - {id}, Without(trackers, {id}), filled + bid + ask, bids + bid, asks + ask, placed)
  {
    LeavingKeepsConsistent(active, trackers, filled, bids, asks, placed, id);
    hide Consistent;
    if id in trackers {
      DropTracker(trackers, id, AfterFill(trackers, id)[id]);
    } else {
      DropTracker(trackers, id, Tracker(Bid, 0, 0.0, false, 0));
    }
  }

  class OrderBookkeeping {
    var activeIds: set<OrderId>
    var trackers: map<OrderId, Tracker>
    var filledCount: nat
    var bidFilledCount: nat
    var askFilledCount: nat
    /** Orders ever placed. */
    ghost var placed: nat
    /** Orders the book has consumed, in full or in part, since they were last placed. */
    ghost var consumed: set<OrderId>
    /**
     * Those of them still counted as active: consumed by a market order's sweep, which leaves the bookkeeping alone.
     */
    ghost var swept: set<OrderId>

    ghost predicate Tracked()
      reads this
    {
      Consistent(activeIds, trackers, filledCount, bidFilledCount, askFilledCount, placed)
    }

    ghost predicate Valid()
      reads this
    {
      Tracked() && activeIds * consumed == swept
    }

    constructor ()
      ensures Valid()
      ensures activeIds == {} && trackers == map[] && filledCount == 0 && placed == 0 && consumed == {} && swept == {}
    {
      activeIds, trackers := {}, map[];
      filledCount, bidFilledCount, askFilledCount := 0, 0, 0;
      placed, consumed, swept := 0, {}, {};
    }

    method PlaceOrder(id: OrderId, side: BookSide, time: int, price: real)
      requires Valid()
      modifies this`activeIds, this`trackers, this`placed, this`consumed, this`swept
      ensures Valid()
      ensures trackers == old(trackers)[id := Tracker(side, time, price, false, 0)]
      ensures placed == old(placed) + 1
      ensures consumed == old(consumed) - {id} && swept == old(swept) - {id}
    {
      hide Consistent;
      var tracker := Tracker(side, time, price, false, 0);
      PlacingKeepsConsistent(activeIds, trackers, filledCount, bidFilledCount, askFilledCount, placed, id, tracker);
      assert (activeIds + {id}) * (consumed - {id}) == activeIds * consumed - {id};
      activeIds := activeIds + {id};
      trackers := trackers[id := tracker];
      placed := placed + 1;
      consumed, swept := consumed - {id}, swept - {id};
    }

    /**
     * The immediate matching of a market order: the book consumes the orders of these fills, the new one and resting
     * ones alike, but neither the active ids nor the trackers nor the counters hear of it.
     */
    method SweepBook(fills: seq<Fill>)
      requires Valid()
      modifies this`consumed, this`swept
      ensures Valid()
      ensures consumed == old(consumed) + Ids(fills)
      ensures swept == old(swept) + activeIds * Ids(fills)
    {
      hide Ids;
      consumed := consumed + Ids(fills);
      swept := swept + activeIds * Ids(fills);
    }

    /**
     * Cancels every active order before new quotes and reports each as cancelled, since no tracker is ever marked as
     * filled while its order is active. The report is right exactly when no market order has swept the book: the orders
     * wrongly reported are the swept ones.
     */
    method CancelAll() returns (cancelled: set<OrderId>)
      requires Valid()
      modifies this`activeIds, this`trackers, this`swept
      ensures Valid()
      ensures activeIds == {} && trackers == map[] && swept == {}
      ensures cancelled == old(activeIds)
      ensures cancelled * consumed == old(swept)
    {
      hide Consistent;
      CancellingKeepsConsistent(activeIds, trackers, filledCount, bidFilledCount, askFilledCount, placed);
      cancelled := {};
      var left := activeIds;
      while left != {}
        invariant left <= old(activeIds) == activeIds == old(trackers).Keys
        invariant trackers == old(trackers) - (activeIds - left)
        invariant cancelled == activeIds - left
        decreases |left|
      {
        var id :| id in left;
        if id in trackers && !trackers[id].filled {
          cancelled := cancelled + {id};
        }
        trackers := trackers - {id};
        left := left - {id};
      }
      activeIds, swept := {}, {};
      assert trackers == map[];
    }

    /** Marks the first fill of a tracked order and counts it on its side. */
    method TrackFill(id: OrderId)
      modifies this`trackers, this`filledCount, this`bidFilledCount, this`askFilledCount
      ensures trackers == AfterFill(old(trackers), id)
      ensures bidFilledCount == old(bidFilledCount) + FirstFill(Bid, old(trackers), id)
      ensures askFilledCount == old(askFilledCount) + FirstFill(Ask, old(trackers), id)
      ensures filledCount == old(filledCount) + FirstFill(Bid, old(trackers), id) + FirstFill(Ask, old(trackers), id)
    {
      if id in trackers {
        var tracker := trackers[id];
        if !tracker.filled {
          tracker := tracker.(filled := true);
          filledCount := filledCount + 1;
          match tracker.side {
            case Bid => bidFilledCount := bidFilledCount + 1;
            case Ask => askFilledCount := askFilledCount + 1;
          }
        }
        trackers := trackers[id := tracker.(fillCount := tracker.fillCount + 1)];
      }
    }

    /** Sorts the book's fills into those kept for execution and the orders rejected for latency. */
    method Classify(fills: seq<Fill>, cutoff: int) returns (ours: seq<Fill>, late: set<OrderId>)
      requires Tracked()
      ensures ours == Timely(fills, trackers, cutoff)
      ensures late == Late(fills, trackers, cutoff)
    {
      hide Timely, Late;
      ours, late := [], {};
      NoneLate(trackers, cutoff);
      for i := 0 to |fills|
        invariant ours == Timely(fills[..i], trackers, cutoff)
        invariant late == Late(fills[..i], trackers, cutoff)
      {
        assert fills[..i + 1] == fills[..i] + [fills[i]];
        ClassifyNext(fills[..i], fills[i], trackers, cutoff);
        var id := fills[i].id;
        if id in activeIds {
          if trackers[id].placedAt > cutoff {
            late := late + {id};
          } else {
            ours := ours + [fills[i]];
          }
        }
      }
      assert fills[..|fills|] == fills;
    }

    /**
     * Applies kept fills one at a time; the book has consumed each order, so it is dropped whether or not it executed.
     */
    method Execute(ours: seq<Fill>)
      requires Tracked()
      modifies this`activeIds, this`trackers, this`filledCount, this`bidFilledCount, this`askFilledCount
      ensures Tracked()
      ensures trackers == Without(old(trackers), Ids(ours))
      ensures bidFilledCount == old(bidFilledCount) + Completed(Bid, ours, old(trackers))
      ensures askFilledCount == old(askFilledCount) + Completed(Ask, ours, old(trackers))
    {
      hide Completed, CompletesOn, Ids, Without;
      ghost var was := trackers;
      WithoutNone(was);
      for i := 0 to |ours|
        invariant Tracked()
        invariant Without(trackers, Ids(ours[i..])) == Without(was, Ids(ours))
        invariant bidFilledCount + Completed(Bid, ours[i..], trackers) ==
                  old(bidFilledCount) + Completed(Bid, ours, was)
        invariant askFilledCount + Completed(Ask, ours[i..], trackers) ==
                  old(askFilledCount) + Completed(Ask, ours, was)
      {
        assert ours[i..][0] == ours[i] && ours[i..][1..] == ours[i + 1..];
        CompletedUnfolds(Bid, ours[i..], trackers);
        CompletedUnfolds(Ask, ours[i..], trackers);
        IdsOfFirst(ours[i..]);
        WithoutTwice(trackers, {ours[i].id}, Ids(ours[i + 1..]));
        Consume(ours[i]);
      }
      assert ours[|ours|..] == [];
      WithoutNone(trackers);
      NoneCompleted(trackers);
    }

    method Consume(fill: Fill)
      requires Tracked()
      modifies this`activeIds, this`trackers, this`filledCount, this`bidFilledCount, this`askFilledCount
      ensures Tracked()
      ensures trackers == Without(old(trackers), {fill.id})
      ensures bidFilledCount == old(bidFilledCount) + CompletesOn(Bid, fill, old(trackers))
      ensures askFilledCount == old(askFilledCount) + CompletesOn(Ask, fill, old(trackers))
    {
      hide Without, Consistent;
      if fill.executed {
        CompleteOne(fill.id);
      } else {
        DropOne(fill.id);
      }
    }

    method CompleteOne(id: OrderId)
      requires Tracked()
      modifies this`activeIds, this`trackers, this`filledCount, this`bidFilledCount, this`askFilledCount
      ensures Tracked()
      ensures trackers == Without(old(trackers), {id})
      ensures bidFilledCount == old(bidFilledCount) + CompletesOn(Bid, Fill(id, true), old(trackers))
      ensures askFilledCount == old(askFilledCount) + CompletesOn(Ask, Fill(id, true), old(trackers))
    {
      hide Without, Consistent, FirstFill, AfterFill, CompletesOn;
      CompletionKeepsConsistent(activeIds, trackers, filledCount, bidFilledCount, askFilledCount, placed, id);
      activeIds := activeIds - {id};
      TrackFill(id);
      trackers := trackers - {id};
    }

    /**
     * A market trade against the resting orders. Every order the book filled leaves the active set and the trackers,
     * whether it was too young, executed or refused; only orders old enough and executed count as filled, once each.
     */
    method MatchTrade(fills: seq<Fill>, cutoff: int)
      requires Valid()
      modifies this`activeIds, this`trackers, this`filledCount, this`bidFilledCount, this`askFilledCount
      modifies this`consumed, this`swept
      ensures Valid()
      ensures trackers == Without(old(trackers), Ids(fills))
      ensures var timely := Timely(fills, old(trackers), cutoff);
              && bidFilledCount == old(bidFilledCount) + Completed(Bid, timely, old(Arrived(trackers, cutoff)))
              && askFilledCount == old(askFilledCount) + Completed(Ask, timely, old(Arrived(trackers, cutoff)))
      ensures consumed == old(consumed) + Ids(fills) && swept == old(swept) - Ids(fills)
    {
      hide Completed, Timely, Late, Arrived, Ids, Without, Consistent;
      ghost var was, active := trackers, activeIds;
      ActiveAreTracked(activeIds, trackers, filledCount, bidFilledCount, askFilledCount, placed);
      var ours, late := Classify(fills, cutoff);
      LateAndTimely(fills, trackers, cutoff);
      DropAll(late);
      Execute(ours);
      ActiveAreTracked(activeIds, trackers, filledCount, bidFilledCount, askFilledCount, placed);
      SweptOrdersLeave(active, consumed, was, Ids(fills));
      consumed, swept := consumed + Ids(fills), swept - Ids(fills);
    }

    method DropAll(ids: set<OrderId>)
      requires Tracked()
      modifies this`activeIds, this`trackers
      ensures Tracked()
      ensures trackers == Without(old(trackers), ids)
    {
      hide Consistent, Without;
      var left := ids;
      ghost var was := trackers;
      assert ids - left == {};
      assert Without(was, {}) == was by { WithoutNobody(was); }
      while left != {}
        invariant left <= ids && Tracked() && trackers == Without(was, ids - left)
        decreases |left|
      {
        var id :| id in left;
        WithoutTwice(was, ids - left, {id});
        assert ids - left + {id} == ids - (left - {id});
        DropOne(id);
        left := left - {id};
      }
      assert ids - left == ids;
    }

    method DropOne(id: OrderId)
      requires Tracked()
      modifies this`activeIds, this`trackers
      ensures Tracked()
      ensures trackers == Without(old(trackers), {id})
    {
      hide Without, Consistent;
      LeavingKeepsConsistent(activeIds, trackers, filledCount, bidFilledCount, askFilledCount, placed, id);
      DropTracker(trackers, id, Tracker(Bid, 0, 0.0, false, 0));
      activeIds := activeIds - {id};
      trackers := trackers - {id};
    }
  }

  lemma ActiveAreTracked(
    active: set<OrderId>, trackers: map<OrderId, Tracker>, filled: nat, bids: nat, asks: nat, placed: nat)
    requires Consistent(active, trackers, filled, bids, asks, placed)
    ensures active == trackers.Keys
  {}

  lemma SweptOrdersLeave(
    active: set<OrderId>, consumed: set<OrderId>, trackers: map<OrderId, Tracker>, ids: set<OrderId>)
    requires active == trackers.Keys
    ensures Without(trackers, ids).Keys * (consumed + ids) == active * consumed - ids
  {}

  /**
   * A market order that the book fills at once is never counted as filled, and the next quotes report it as cancelled.
   */
  method SweptOrderIsCancelled() returns (cancelled: set<OrderId>, filled: nat)
    ensures cancelled == {"m"} && filled == 0
  {
    var orders := new OrderBookkeeping();
    orders.PlaceOrder("m", Bid, 0, 100.0);
    orders.SweepBook([Fill("m", true)]);
    filled := orders.filledCount;
    assert orders.activeIds == {"m"};
    cancelled := orders.CancelAll();
    ghost var fills := [Fill("m", true)];
    assert fills[0].id in Ids(fills);
    assert "m" in cancelled * orders.consumed;
  }

  function CompletesOn(side: BookSide, fill: Fill, tracked: map<OrderId, Tracker>): nat {
    if fill.id in tracked && fill.executed && tracked[fill.id].side == side then 1 else 0
  }

  lemma CompletedUnfolds(side: BookSide, fills: seq<Fill>, tracked: map<OrderId, Tracker>)
    requires fills != []
    ensures Completed(side, fills, tracked) ==
            CompletesOn(side, fills[0], tracked) + Completed(side, fills[1..], Without(tracked, {fills[0].id}))
  {}

  lemma NoneLate(trackers: map<OrderId, Tracker>, cutoff: int)
    ensures Late([], trackers, cutoff) == {} && Timely([], trackers, cutoff) == []
  {}

  lemma ClassifyNext(front: seq<Fill>, fill: Fill, trackers: map<OrderId, Tracker>, cutoff: int)
    ensures Timely(front + [fill], trackers, cutoff)
         == Timely(front, trackers, cutoff)
            + if fill.id in trackers && trackers[fill.id].placedAt <= cutoff then [fill] else []
    ensures Late(front + [fill], trackers, cutoff)
         == Late(front, trackers, cutoff)
            + if fill.id in trackers && trackers[fill.id].placedAt > cutoff then {fill.id} else {}
  {
    assert (front + [fill])[..|front|] == front;
    IdsAppend(front, fill);
  }

  lemma WithoutNone(m: map<OrderId, Tracker>)
    ensures Without(m, Ids([])) == m
  {}

  lemma NoneCompleted(tracked: map<OrderId, Tracker>)
    ensures Completed(Bid, [], tracked) == 0 == Completed(Ask, [], tracked)
  {}

  lemma TrackedOnce(m: map<OrderId, Tracker>, id: OrderId, tracker: Tracker)
    requires !tracker.filled && tracker.fillCount == 0
    ensures |m[id := tracker]| <= |m| + 1
    ensures m[id := tracker].Keys == m.Keys + {id}
    ensures Unfilled(tracker)
  {
    assert m[id := tracker].Keys == m.Keys + {id};
    assert |m[id := tracker]| == |m[id := tracker].Keys| && |m| == |m.Keys|;
  }

  lemma DropTracker(m: map<OrderId, Tracker>, id: OrderId, tracker: Tracker)
    ensures id in m ==> m[id := tracker] - {id} == Without(m, {id})
    ensures m - {id} == Without(m, {id})
  {}

  lemma WithoutNobody(m: map<OrderId, Tracker>)
    ensures Without(m, {}) == m
  {}

  lemma WithoutKeeps(m: map<OrderId, Tracker>, id: OrderId)
    ensures forall other :: other in Without(m, {id}) ==> other in m && Without(m, {id})[other] == m[other]
  {}

  lemma SizeWithout(m: map<OrderId, Tracker>, id: OrderId)
    ensures |Without(m, {id})| == |m| - if id in m then 1 else 0
    ensures Without(m, {id}).Keys == m.Keys - {id}
  {}

  /** Completions depend only on how the orders named by the fills are tracked. */
  lemma {:induction false} CompletedAmongArrived(
    side: BookSide, fills: seq<Fill>, m: map<OrderId, Tracker>, m': map<OrderId, Tracker>)
    requires forall id :: id in Ids(fills) ==> (id in m <==> id in m') && (id in m ==> m[id] == m'[id])
    ensures Completed(side, fills, m) == Completed(side, fills, m')
  {
    if fills != [] {
      IdsOfFirst(fills);
      var id := fills[0].id;
      CompletedAmongArrived(side, fills[1..], Without(m, {id}), Without(m', {id}));
    }
  }

  /**
   * Dropping the late orders first leaves the kept fills' orders as they were, and together they cover all the fills.
   */
  lemma LateAndTimely(fills: seq<Fill>, was: map<OrderId, Tracker>, cutoff: int)
    ensures var ours, left := Timely(fills, was, cutoff), Without(was, Late(fills, was, cutoff));
            && Without(left, Ids(ours)) == Without(was, Ids(fills))
            && Completed(Bid, ours, left) == Completed(Bid, ours, Arrived(was, cutoff))
            && Completed(Ask, ours, left) == Completed(Ask, ours, Arrived(was, cutoff))
  {
    hide Completed, Timely, Ids;
    var ours, left := Timely(fills, was, cutoff), Without(was, Late(fills, was, cutoff));
    TimelyIds(fills, was, cutoff);
    CompletedAmongArrived(Bid, ours, left, Arrived(was, cutoff));
    CompletedAmongArrived(Ask, ours, left, Arrived(was, cutoff));
  }
}
