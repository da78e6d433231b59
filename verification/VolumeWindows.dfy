/** Sliding volume windows with running sums (backtest/src/simulation.rs). */
module VolumeWindows {
  import opened Reals

  /** One trade: its time in milliseconds and its value. */
  datatype Print = Print(time: int, volume: real)

  const HOUR: int := 3600000
  const THIRTY_DAYS: int := 2592000000
  const DEFAULT_AVERAGE_VOLUME := 100000.0

  predicate TimeOrdered(xs: seq<Print>) {
    forall i, j :: 0 <= i <= j < |xs| ==> xs[i].time <= xs[j].time
  }

  function Total(xs: seq<Print>): real {
    if xs == [] then 0.0 else Total(xs[..|xs| - 1]) + xs[|xs| - 1].volume
  }

  /** The definition the windows must agree with: filter the whole history. */
  function Since(xs: seq<Print>, cutoff: int): seq<Print> {
    if xs == [] then []
    else Since(xs[..|xs| - 1], cutoff) + if xs[|xs| - 1].time >= cutoff then [xs[|xs| - 1]] else []
  }

  /** The trades of a history within `span` of its last one. */
  function Window(history: seq<Print>, span: int): seq<Print> {
    if history == [] then [] else Since(history, history[|history| - 1].time - span)
  }

  // ---- Popping from the front is filtering ----

  lemma {:induction false} SinceAllKept(xs: seq<Print>, cutoff: int)
    requires forall i :: 0 <= i < |xs| ==> xs[i].time >= cutoff
    ensures Since(xs, cutoff) == xs
  {
    if xs != [] {
      SinceAllKept(xs[..|xs| - 1], cutoff);
    }
  }

  lemma {:induction false} SinceDropsFirst(xs: seq<Print>, cutoff: int)
    requires xs != [] && xs[0].time < cutoff
    ensures Since(xs, cutoff) == Since(xs[1..], cutoff)
  {
    var n := |xs| - 1;
    if n == 0 {
      assert Since(xs[..0], cutoff) == [];
    } else {
      SinceDropsFirst(xs[..n], cutoff);
      assert xs[..n][1..] == xs[1..][..n - 1];
    }
  }

  lemma {:induction false} SinceTwice(xs: seq<Print>, earlier: int, later: int)
    requires earlier <= later
    ensures Since(Since(xs, earlier), later) == Since(xs, later)
  {
    if xs != [] {
      var n := |xs| - 1;
      SinceTwice(xs[..n], earlier, later);
      if xs[n].time >= earlier {
        SinceAppend(Since(xs[..n], earlier), xs[n], later);
      } else {
        assert Since(xs[..n], earlier) + [] == Since(xs[..n], earlier);
      }
    }
  }

  lemma SinceAppend(xs: seq<Print>, x: Print, cutoff: int)
    ensures Since(xs + [x], cutoff) == Since(xs, cutoff) + if x.time >= cutoff then [x] else []
  {}

  /** Trimming the previous window after a push gives the window of the longer history. */
  lemma WindowSlides(history: seq<Print>, x: Print, span: int)
    requires TimeOrdered(history + [x]) && span >= 0
    ensures Since(Window(history, span) + [x], x.time - span) == Window(history + [x], span)
  {
    hide TimeOrdered, Since;
    var cutoff := x.time - span;
    SinceAppend(history, x, cutoff);
    SinceAppend(Window(history, span), x, cutoff);
    if history == [] {
      EmptySince(cutoff);
    } else {
      LastIsNotAfter(history, x);
      SinceTwice(history, history[|history| - 1].time - span, cutoff);
    }
  }

  lemma EmptySince(cutoff: int)
    ensures Since([], cutoff) == []
  {}

  lemma LastIsNotAfter(history: seq<Print>, x: Print)
    requires TimeOrdered(history + [x]) && history != []
    ensures history[|history| - 1].time <= x.time
  {
    var all := history + [x];
    assert all[|history| - 1] == history[|history| - 1] && all[|history|] == x;
  }

  lemma OrderedParts(history: seq<Print>, x: Print)
    requires TimeOrdered(history + [x])
    ensures TimeOrdered(history)
  {
    forall i, j | 0 <= i <= j < |history| ensures history[i].time <= history[j].time {
      assert (history + [x])[i] == history[i] && (history + [x])[j] == history[j];
    }
  }

  lemma {:induction false} SinceIsOrdered(xs: seq<Print>, cutoff: int)
    requires TimeOrdered(xs)
    ensures TimeOrdered(Since(xs, cutoff))
    ensures forall i :: 0 <= i < |Since(xs, cutoff)| ==> xs != [] && Since(xs, cutoff)[i].time <= xs[|xs| - 1].time
  {
    if xs != [] {
      SinceIsOrdered(xs[..|xs| - 1], cutoff);
      if |xs| > 1 {
        assert xs[|xs| - 2].time <= xs[|xs| - 1].time;
      }
    }
  }

  lemma PushedIsOrdered(history: seq<Print>, x: Print, span: int)
    requires TimeOrdered(history + [x])
    ensures TimeOrdered(Window(history, span) + [x])
  {
    if history != [] {
      OrderedParts(history, x);
      LastIsNotAfter(history, x);
      SinceIsOrdered(history, history[|history| - 1].time - span);
    }
  }

  lemma TotalAppend(xs: seq<Print>, x: Print)
    ensures Total(xs + [x]) == Total(xs) + x.volume
  {}

  lemma {:induction false} TotalFirst(xs: seq<Print>)
    requires xs != []
    ensures Total(xs) == xs[0].volume + Total(xs[1..])
  {
    var n := |xs| - 1;
    if n == 0 {
      assert Total(xs[..0]) == 0.0 && xs[1..] == [];
    } else {
      TotalFirst(xs[..n]);
      assert xs[..n][1..] == xs[1..][..n - 1];
    }
  }

  /** Pops the trades before the cutoff from the front, taking each from the running sum. */
  method Expire(window: seq<Print>, cutoff: int, sum: real) returns (kept: seq<Print>, left: real)
    requires TimeOrdered(window)
    ensures kept == Since(window, cutoff)
    ensures left - Total(kept) == sum - Total(window)
  {
    kept, left := window, sum;
    while kept != [] && kept[0].time < cutoff
      invariant TimeOrdered(kept)
      invariant Since(kept, cutoff) == Since(window, cutoff)
      invariant left - Total(kept) == sum - Total(window)
      decreases |kept|
    {
      SinceDropsFirst(kept, cutoff);
      TotalFirst(kept);
      left := left - kept[0].volume;
      kept := kept[1..];
    }
    SinceAllKept(kept, cutoff);
  }

  // ---- The clamp ----

  ghost predicate NonNegative(xs: seq<Print>) {
    forall i :: 0 <= i < |xs| ==> xs[i].volume >= 0.0
  }

  lemma {:induction false} SinceIsNonNegative(xs: seq<Print>, cutoff: int)
    requires NonNegative(xs)
    ensures NonNegative(Since(xs, cutoff)) && Total(Since(xs, cutoff)) >= 0.0
  {
    if xs != [] {
      SinceIsNonNegative(xs[..|xs| - 1], cutoff);
      var kept := Since(xs[..|xs| - 1], cutoff);
      if xs[|xs| - 1].time >= cutoff {
        TotalAppend(kept, xs[|xs| - 1]);
      } else {
        assert kept + [] == kept;
      }
    }
  }

  /** The volume figures of one run, with the whole history kept beside them for the specification. */
  class VolumeTracker {
    var marketWindow: seq<Print>
    var marketSum: real
    var rollingAverage: real
    var tradeHistory: map<string, seq<Print>>
    var volume30d: map<string, real>
    ghost var marketPrints: seq<Print>
    ghost var exchangePrints: map<string, seq<Print>>
    ghost var startingVolume: map<string, real>

    ghost function PrintsOf(exchange: string): seq<Print>
      reads this
    {
      if exchange in exchangePrints then exchangePrints[exchange] else []
    }

    ghost function StartingOf(exchange: string): real
      reads this
    {
      if exchange in startingVolume then startingVolume[exchange] else 0.0
    }

    /** The 30-day volume that picks an exchange's fee tier. */
    function VolumeOf(exchange: string): real
      reads this
    {
      if exchange in volume30d then volume30d[exchange] else 0.0
    }

    function HistoryOf(exchange: string): seq<Print>
      reads this
    {
      if exchange in tradeHistory then tradeHistory[exchange] else []
    }

    ghost predicate MarketValid()
      reads this
    {
      && marketWindow == Window(marketPrints, HOUR)
      && marketSum == Total(marketWindow)
      && rollingAverage == Max(marketSum, 0.0) / 60.0
    }

    /** The starting volume never expires; the rest is the sum over the last thirty days. */
    ghost predicate ExchangeValid(exchange: string)
      reads this
    {
      && HistoryOf(exchange) == Window(PrintsOf(exchange), THIRTY_DAYS)
      && StartingOf(exchange) >= 0.0
      && (NonNegative(PrintsOf(exchange)) ==> VolumeOf(exchange) == StartingOf(exchange) + Total(HistoryOf(exchange)))
    }

    ghost predicate Valid()
      reads this
    {
      MarketValid() && forall exchange :: ExchangeValid(exchange)
    }

    constructor ()
      ensures Valid()
      ensures marketPrints == [] && exchangePrints == map[] && startingVolume == map[]
    {
      marketWindow, marketSum, rollingAverage := [], 0.0, 0.0;
      tradeHistory, volume30d := map[], map[];
      marketPrints, exchangePrints, startingVolume := [], map[], map[];
    }

    /** Gives an exchange the volume of an established market maker, before it has any trade. */
    method InitializeStartingVolume(exchange: string, starting: real)
      requires Valid() && PrintsOf(exchange) == []
      modifies this`volume30d, this`startingVolume
      ensures Valid()
      ensures startingVolume ==
              if starting > 0.0 then old(startingVolume)[exchange := starting] else old(startingVolume)
      ensures starting > 0.0 ==> VolumeOf(exchange) == starting
    {
      hide Window, Since, Total;
      label before:
      if starting > 0.0 {
        volume30d := volume30d[exchange := starting];
        startingVolume := startingVolume[exchange := starting];
        EmptyWindow(THIRTY_DAYS);
        forall e ensures ExchangeValid(e) {
          assert old@before(ExchangeValid(e));
        }
      }
    }

    /**
     * A market trade. The window holds exactly the trades of the last hour of everything seen, and the average per
     * minute is their sum over sixty.
     */
    method UpdateMarketVolume(time: int, volume: real)
      requires Valid() && TimeOrdered(marketPrints + [Print(time, volume)])
      modifies this`marketWindow, this`marketSum, this`rollingAverage, this`marketPrints
      ensures Valid()
      ensures marketPrints == old(marketPrints) + [Print(time, volume)]
      ensures rollingAverage == Max(Total(Window(marketPrints, 3600000)), 0.0) / 60.0
    {
      hide Window, Since, Total, TimeOrdered;
      label before:
      var x := Print(time, volume);
      WindowSlides(marketPrints, x, HOUR);
      PushedIsOrdered(marketPrints, x, HOUR);
      TotalAppend(marketWindow, x);
      var kept, left := Expire(marketWindow + [x], time - HOUR, marketSum + volume);
      marketWindow, marketSum := kept, left;
      marketPrints := marketPrints + [x];
      NewestIsKept(marketPrints, HOUR);
      if marketWindow != [] {
        rollingAverage := Max(marketSum, 0.0) / 60.0;
      }
      forall e ensures ExchangeValid(e) {
        assert old@before(ExchangeValid(e));
      }
    }

    /** An own fill on an exchange; the clamp at zero changes nothing while no fill has negative value. */
    method Update30dVolume(exchange: string, time: int, volume: real)
      requires Valid() && TimeOrdered(PrintsOf(exchange) + [Print(time, volume)])
      modifies this`tradeHistory, this`volume30d, this`exchangePrints
      ensures Valid()
      ensures exchangePrints == old(exchangePrints)[exchange := old(PrintsOf(exchange)) + [Print(time, volume)]]
      ensures NonNegative(PrintsOf(exchange)) ==>
                VolumeOf(exchange) == StartingOf(exchange) + Total(Window(PrintsOf(exchange), 2592000000))
      ensures forall e :: e != exchange ==> VolumeOf(e) == old(VolumeOf(e))
    {
      hide Window, Since, Total, TimeOrdered, NonNegative;
      label before:
      var x := Print(time, volume);
      ghost var was := PrintsOf(exchange);
      assert ExchangeValid(exchange);
      WindowSlides(was, x, THIRTY_DAYS);
      PushedIsOrdered(was, x, THIRTY_DAYS);
      TotalAppend(HistoryOf(exchange), x);
      var kept, left := Expire(HistoryOf(exchange) + [x], time - THIRTY_DAYS, VolumeOf(exchange) + volume);
      tradeHistory := tradeHistory[exchange := kept];
      volume30d := volume30d[exchange := Max(left, 0.0)];
      exchangePrints := exchangePrints[exchange := was + [x]];
      if NonNegative(was + [x]) {
        PrefixIsNonNegative(was, x);
        WindowIsNonNegative(was + [x], THIRTY_DAYS);
      }
      forall e ensures ExchangeValid(e) {
        assert old@before(ExchangeValid(e));
      }
    }

    /** Average market volume a minute, with the fallback used before any trade. */
    function AverageVolume(): (r: real)
      reads this
      ensures r > 0.0 && r >= rollingAverage && (rollingAverage <= 0.0 ==> r == 100000.0)
    {
      if rollingAverage > 0.0 then rollingAverage else DEFAULT_AVERAGE_VOLUME
    }
  }

  lemma EmptyWindow(span: int)
    ensures Window([], span) == [] && Total([]) == 0.0
  {}

  lemma NewestIsKept(history: seq<Print>, span: int)
    requires history != [] && span >= 0
    ensures Window(history, span) != []
  {}

  lemma PrefixIsNonNegative(xs: seq<Print>, x: Print)
    requires NonNegative(xs + [x])
    ensures NonNegative(xs)
  {
    forall i | 0 <= i < |xs| ensures xs[i].volume >= 0.0 {
      assert (xs + [x])[i] == xs[i];
    }
  }

  lemma WindowIsNonNegative(history: seq<Print>, span: int)
    requires NonNegative(history)
    ensures Total(Window(history, span)) >= 0.0
  {
    if history != [] {
      SinceIsNonNegative(history, history[|history| - 1].time - span);
    }
  }
}
