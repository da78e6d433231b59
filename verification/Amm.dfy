/** Concentrated-liquidity and constant-product algebra (backtest/src/amm_math.rs). */
module Amm {
  import opened Reals

  datatype Amounts = Amounts(a: real, b: real)

  /** A liquidity range, by its square-root prices. */
  datatype Range = Range(lower: real, upper: real) {
    predicate Valid() {
      0.0 < lower < upper
    }

    function Clamp(s: real): real {
      if s <= lower then lower else if s >= upper then upper else s
    }
  }

  /** Token A per unit of liquidity between two square-root prices. */
  function UnitA(x: real, upper: real): real
    requires x > 0.0 && upper > 0.0
  {
    1.0 / x - 1.0 / upper
  }

  function Square(x: real): real {
    Times(x, x)
  }

  function AmountsFromLiquidity(liquidity: real, s: real, r: Range): Amounts
    requires r.Valid()
  {
    if s <= r.lower then Amounts(Times(liquidity, UnitA(r.lower, r.upper)), 0.0)
    else if s >= r.upper then Amounts(0.0, Times(liquidity, r.upper - r.lower))
    else Amounts(Times(liquidity, UnitA(s, r.upper)), Times(liquidity, s - r.lower))
  }

  function LiquidityFromAmounts(s: real, r: Range, amounts: Amounts): real
    requires r.Valid()
  {
    UnitAIsPositive(r.lower, r.upper);
    if s <= r.lower then amounts.a / UnitA(r.lower, r.upper)
    else if s >= r.upper then amounts.b / (r.upper - r.lower)
    else
      UnitAIsPositive(s, r.upper);
      Min(amounts.a / UnitA(s, r.upper), amounts.b / (s - r.lower))
  }

  lemma UnitAIsPositive(x: real, upper: real)
    requires 0.0 < x < upper
    ensures UnitA(x, upper) > 0.0
  {
    ProductOfPositives(x, upper);
    QuotientTimesDivisor(1.0, x);
    QuotientTimesDivisor(1.0, upper);
    var gap := UnitA(x, upper);
    assert (x * upper) * gap == upper - x;
    CancelStrictly(x * upper, 0.0, gap);
  }

  lemma QuotientOfTimes(liquidity: real, unit: real)
    requires unit != 0.0
    ensures Times(liquidity, unit) / unit == liquidity
  {}

  /** What a position is worth in token B. */
  function WorthAt(amounts: Amounts, price: real): real {
    amounts.a * price + amounts.b
  }

  function RelativeLoss(held: real, hodl: real): real {
    if hodl == 0.0 then 0.0 else (held - hodl) / hodl
  }

  function ImpermanentLoss(entry: real, current: real, r: Range): real
    requires r.Valid()
  {
    RelativeLoss(WorthAt(AmountsFromLiquidity(1.0, current, r), Square(current)),
                 WorthAt(AmountsFromLiquidity(1.0, entry, r), Square(current)))
  }

  // ---- Liquidity and amounts are inverse ----

  predicate FitsBudget(liquidity: real, s: real, r: Range, budget: Amounts)
    requires r.Valid()
  {
    var needed := AmountsFromLiquidity(liquidity, s, r);
    needed.a <= budget.a && needed.b <= budget.b
  }

  lemma QuotientBounds(x: real, unit: real, l: real)
    requires unit > 0.0
    ensures Times(l, unit) <= x <==> l <= x / unit
  {}

  /** `liquidity_from_amounts` is the largest liquidity the budget affords: exactly the ones up to it fit. */
  lemma LiquidityIsLargestThatFits(liquidity: real, s: real, r: Range, budget: Amounts)
    requires r.Valid() && budget.a >= 0.0 && budget.b >= 0.0
    ensures FitsBudget(liquidity, s, r, budget) <==> liquidity <= LiquidityFromAmounts(s, r, budget)
  {
    hide Times, UnitA;
    UnitAIsPositive(r.lower, r.upper);
    if s <= r.lower {
      QuotientBounds(budget.a, UnitA(r.lower, r.upper), liquidity);
    } else if s >= r.upper {
      QuotientBounds(budget.b, r.upper - r.lower, liquidity);
    } else {
      UnitAIsPositive(s, r.upper);
      QuotientBounds(budget.a, UnitA(s, r.upper), liquidity);
      QuotientBounds(budget.b, s - r.lower, liquidity);
    }
  }

  /** Converting liquidity to amounts and back returns it, in all three price regions. */
  lemma LiquidityRoundTrip(liquidity: real, s: real, r: Range)
    requires r.Valid()
    ensures LiquidityFromAmounts(s, r, AmountsFromLiquidity(liquidity, s, r)) == liquidity
  {
    hide Times, UnitA;
    UnitAIsPositive(r.lower, r.upper);
    if s <= r.lower {
      QuotientOfTimes(liquidity, UnitA(r.lower, r.upper));
    } else if s >= r.upper {
      QuotientOfTimes(liquidity, r.upper - r.lower);
    } else {
      UnitAIsPositive(s, r.upper);
      QuotientOfTimes(liquidity, UnitA(s, r.upper));
      QuotientOfTimes(liquidity, s - r.lower);
    }
  }

  // ---- Impermanent loss ----

  /** Worth, at current price `price`, of unit liquidity whose square-root price clamps to `x`. */
  function UnitWorth(x: real, price: real, r: Range): real
    requires r.Valid() && x > 0.0
  {
    UnitA(x, r.upper) * price + (x - r.lower)
  }

  /** One formula covers the three regions once the price is clamped to the range. */
  lemma WorthByClamp(s: real, price: real, r: Range)
    requires r.Valid()
    ensures WorthAt(AmountsFromLiquidity(1.0, s, r), price) == UnitWorth(r.Clamp(s), price, r)
  {}

  /** `x * y` times the difference of the worths at clamped prices `x` (now) and `y` (entry). */
  function Area(x: real, y: real, price: real): real {
    (y - x) * (price - x * y)
  }

  lemma WorthGap(x: real, y: real, price: real, r: Range)
    requires r.Valid() && x > 0.0 && y > 0.0
    ensures x * y * (UnitWorth(x, price, r) - UnitWorth(y, price, r)) == Area(x, y, price)
  {}

  /** Never positive, and zero only when both prices clamp alike. */
  lemma AreaSign(entry: real, current: real, r: Range)
    requires r.Valid() && current > 0.0
    ensures var area := Area(r.Clamp(current), r.Clamp(entry), Square(current));
            area <= 0.0 && (area == 0.0 <==> r.Clamp(current) == r.Clamp(entry))
  {
    hide Times;
    var x, y := r.Clamp(current), r.Clamp(entry);
    if y > x {
      TimesKeepsOrder(current, current, x);
      TimesKeepsOrder(x, current, x);
      TimesKeepsOrder(x, x, y);
      AreaIsNegative(x, y, Square(current));
    } else if y < x {
      TimesKeepsOrder(current, x, current);
      TimesKeepsOrder(x, x, current);
      TimesKeepsOrder(x, y, x);
      AreaIsNegative(x, y, Square(current));
    }
  }

  lemma AreaIsNegative(x: real, y: real, price: real)
    requires (x < y && price < Times(x, y)) || (y < x && Times(x, y) < price)
    ensures Area(x, y, price) < 0.0
  {}

  lemma UnitWorthIsPositive(s: real, price: real, r: Range)
    requires r.Valid() && price > 0.0
    ensures UnitWorth(r.Clamp(s), price, r) > 0.0
  {
    hide UnitA;
    var x := r.Clamp(s);
    if x < r.upper {
      UnitAIsPositive(x, r.upper);
      ProductOfPositives(UnitA(x, r.upper), price);
    } else {
      UnitAAtUpper(r.upper);
    }
  }

  lemma UnitAAtUpper(upper: real)
    requires upper > 0.0
    ensures UnitA(upper, upper) == 0.0
  {}

  /**
   * For every range and every pair of prices the loss lies in (-1, 0], and it is zero exactly when entry and current
   * price clamp to the same point of the range.
   */
  lemma LossIsBounded(entry: real, current: real, r: Range)
    requires r.Valid() && current > 0.0
    ensures -1.0 < ImpermanentLoss(entry, current, r) <= 0.0
    ensures ImpermanentLoss(entry, current, r) == 0.0 <==> r.Clamp(entry) == r.Clamp(current)
  {
    hide WorthAt, UnitWorth, RelativeLoss, AmountsFromLiquidity, Area, Square;
    var x, y, price := r.Clamp(current), r.Clamp(entry), Square(current);
    SquareIsPositive(current);
    WorthByClamp(entry, price, r);
    WorthByClamp(current, price, r);
    UnitWorthIsPositive(entry, price, r);
    UnitWorthIsPositive(current, price, r);
    WorthGap(x, y, price, r);
    AreaSign(entry, current, r);
    ProductOfPositives(x, y);
    LossFromArea(UnitWorth(x, price, r), UnitWorth(y, price, r), x * y, Area(x, y, price));
  }

  lemma SquareIsPositive(x: real)
    requires x > 0.0
    ensures Square(x) > 0.0
  {
    hide Times;
    TimesIsPositive(x, x);
  }

  lemma LossFromArea(held: real, hodl: real, scale: real, area: real)
    requires held > 0.0 && hodl > 0.0 && scale > 0.0 && area <= 0.0 && scale * (held - hodl) == area
    ensures -1.0 < RelativeLoss(held, hodl) <= 0.0
    ensures RelativeLoss(held, hodl) == 0.0 <==> area == 0.0
  {
    var loss := RelativeLoss(held, hodl);
    QuotientTimesDivisor(held - hodl, hodl);
    CancelFactor(scale, held - hodl, 0.0);
    CancelFactor(hodl, loss, 0.0);
    assert hodl * (loss + 1.0) == held;
    CancelStrictly(hodl, 0.0, loss + 1.0);
    if area == 0.0 {
      CancelFactor(scale, 0.0, held - hodl);
    }
  }

  // ---- Constant product ----

  /** `root` is the square root; `ratio` is current over entry price. */
  function ConstantProductLoss(root: real -> real, ratio: real): real {
    if ratio <= 0.0 then -1.0 else 2.0 * root(ratio) / (1.0 + ratio) - 1.0
  }

  lemma ConstantProductForm(q: real, ratio: real, loss: real)
    requires ratio > 0.0 && q * q == ratio && loss == 2.0 * q / (1.0 + ratio) - 1.0
    ensures loss * (1.0 + ratio) == -Square(q - 1.0)
  {}

  lemma SquareSign(x: real)
    ensures Square(x) >= 0.0 && (Square(x) == 0.0 <==> x == 0.0)
  {
    if x > 0.0 {
      SquareIsPositive(x);
    } else if x < 0.0 {
      SquareIsPositive(-x);
      assert Square(-x) == Square(x);
    }
  }

  /**
   * The constant-product loss is minus the squared move of the square-root price, over one plus the ratio; so it lies
   * in (-1, 0] and vanishes only when the price has not moved. Without a price everything is lost.
   */
  lemma ConstantProductLossBounded(root: real -> real, ratio: real)
    requires IsRoot(root)
    ensures ratio <= 0.0 ==> ConstantProductLoss(root, ratio) == -1.0
    ensures ratio > 0.0 ==>
              && ConstantProductLoss(root, ratio) * (1.0 + ratio) == -Square(root(ratio) - 1.0)
              && -1.0 < ConstantProductLoss(root, ratio) <= 0.0
              && (ConstantProductLoss(root, ratio) == 0.0 <==> ratio == 1.0)
  {
    if ratio > 0.0 {
      RootIsPositive(root, ratio);
      var q, loss := root(ratio), ConstantProductLoss(root, ratio);
      ConstantProductForm(q, ratio, loss);
      QuotientTimesDivisor(2.0 * q, 1.0 + ratio);
      assert (loss + 1.0) * (1.0 + ratio) == 2.0 * q;
      hide ConstantProductLoss;
      BoundedByForm(q, ratio, loss);
    }
  }

  lemma SmallPart(whole: real, part: real, product: real)
    requires whole > 0.0 && product > 0.0 && part * whole == product
    ensures part > 0.0
  {}

  lemma BoundedByForm(q: real, ratio: real, loss: real)
    requires ratio > 0.0 && q > 0.0 && q * q == ratio && (loss + 1.0) * (1.0 + ratio) == 2.0 * q
    ensures -1.0 < loss <= 0.0 && (loss == 0.0 <==> ratio == 1.0)
  {
    assert loss * (1.0 + ratio) == -Square(q - 1.0);
    SquareSign(q - 1.0);
    CancelFactor(1.0 + ratio, loss, 0.0);
    SmallPart(1.0 + ratio, loss + 1.0, 2.0 * q);
    if ratio == 1.0 {
      SquareOrder(q, 1.0);
      SquareOrder(1.0, q);
      CancelFactor(1.0 + ratio, 0.0, loss);
    }
  }

  function PriceRatio(entry: real, current: real): real
    requires entry > 0.0
  {
    SquareIsPositive(entry);
    Square(current) / Square(entry)
  }

  /**
   * While the entry lies in the range and the price has not left it, concentration makes the loss at least as severe
   * as the constant-product loss of the same price move.
   */
  lemma ConcentrationIsMoreSevere(root: real -> real, entry: real, current: real, r: Range)
    requires IsRoot(root) && r.Valid() && r.lower <= entry <= r.upper && r.lower <= current <= r.upper
    ensures ImpermanentLoss(entry, current, r) <= ConstantProductLoss(root, PriceRatio(entry, current))
  {
    hide ImpermanentLoss, ConstantProductLoss, UnitWorth, Square, PriceRatio;
    LossInRange(entry, current, r);
    ConstantProductOfMove(root, entry, current);
    HodlBelowFullRange(entry, current, r);
    SquareSign(current - entry);
    ScaledLossOrder(ImpermanentLoss(entry, current, r), Times(entry, UnitWorth(entry, Square(current), r)),
                    ConstantProductLoss(root, PriceRatio(entry, current)), Square(current) + Square(entry),
                    Square(current - entry));
  }

  lemma ScaledLossOrder(x: real, dx: real, y: real, dy: real, square: real)
    requires 0.0 < dx <= dy && square >= 0.0
    requires Times(x, dx) == -square && Times(y, dy) == -square
    ensures x <= y
  {}

  /** In range, the loss times entry times the unmoved worth is minus the squared move. */
  lemma LossInRange(entry: real, current: real, r: Range)
    requires r.Valid() && r.lower <= entry <= r.upper && r.lower <= current <= r.upper
    ensures Times(ImpermanentLoss(entry, current, r), Times(entry, UnitWorth(entry, Square(current), r)))
            == -Square(current - entry)
  {
    hide WorthAt, UnitWorth, RelativeLoss, AmountsFromLiquidity, Times, Square;
    var price := Square(current);
    SquareIsPositive(current);
    WorthByClamp(entry, price, r);
    WorthByClamp(current, price, r);
    UnitWorthIsPositive(entry, price, r);
    WorthGap(current, entry, price, r);
    RelativeLossForm(entry, current, UnitWorth(current, price, r), UnitWorth(entry, price, r));
  }

  lemma RelativeLossForm(entry: real, current: real, held: real, hodl: real)
    requires hodl > 0.0 && current > 0.0
    requires current * entry * (held - hodl) == Area(current, entry, Square(current))
    ensures Times(RelativeLoss(held, hodl), Times(entry, hodl)) == -Square(current - entry)
  {}

  lemma ConstantProductOfMove(root: real -> real, entry: real, current: real)
    requires IsRoot(root) && entry > 0.0 && current > 0.0
    ensures Times(ConstantProductLoss(root, PriceRatio(entry, current)), Square(current) + Square(entry))
            == -Square(current - entry)
  {
    hide Square;
    var ratio := PriceRatio(entry, current);
    SquareIsPositive(entry);
    SquareIsPositive(current);
    QuotientTimesDivisor(Square(current), Square(entry));
    CancelStrictly(Square(entry), 0.0, ratio);
    RootIsPositive(root, ratio);
    ConstantProductForm(root(ratio), ratio, ConstantProductLoss(root, ratio));
    RootOfMove(root(ratio), entry, current, ratio);
    MoveForm(root(ratio), ConstantProductLoss(root, ratio), entry, current, ratio);
  }

  lemma RootOfMove(q: real, entry: real, current: real, ratio: real)
    requires q > 0.0 && entry > 0.0 && current > 0.0 && q * q == ratio && ratio * Square(entry) == Square(current)
    ensures q * entry == current
  {
    ProductOfPositives(q, entry);
    assert (q * entry) * (q * entry) == (q * q) * Square(entry);
    SquareOrder(q * entry, current);
    SquareOrder(current, q * entry);
  }

  lemma MoveForm(q: real, loss: real, entry: real, current: real, ratio: real)
    requires q * entry == current && ratio * Square(entry) == Square(current)
    requires loss * (1.0 + ratio) == -Square(q - 1.0)
    ensures Times(loss, Square(current) + Square(entry)) == -Square(current - entry)
  {}

  /** A bounded range locks in less than an unbounded one, so the same move weighs more. */
  lemma HodlBelowFullRange(entry: real, current: real, r: Range)
    requires r.Valid() && r.lower <= entry <= r.upper && current > 0.0
    ensures 0.0 < Times(entry, UnitWorth(entry, Square(current), r)) <= Square(current) + Square(entry)
  {
    hide Square;
    SquareIsPositive(current);
    UnitWorthIsPositive(entry, Square(current), r);
    ProductOfPositives(entry, UnitWorth(entry, Square(current), r));
    QuotientTimesDivisor(1.0, entry);
    NonNegativeQuotient(1.0, r.upper);
    FullRangeForm(entry, Square(current), 1.0 / entry, 1.0 / r.upper, r.lower);
  }

  lemma FullRangeForm(entry: real, price: real, ie: real, iu: real, lower: real)
    requires entry > 0.0 && price > 0.0 && ie * entry == 1.0 && iu >= 0.0 && lower >= 0.0
    ensures entry * ((ie - iu) * price + (entry - lower)) <= price + Square(entry)
  {}

  /** Upper bound times both clamps times the unmoved worth, free of quotients. */
  function ClearedWorth(x: real, y: real, price: real, r: Range): real {
    Times(x, Times(r.upper - y, price) + Times(Times(y, r.upper), y - r.lower))
  }

  function LeftSide(x: real, y: real, e: real, c: real, r: Range): real {
    Times(r.upper, Times(-Area(x, y, Square(c)), Square(c) + Square(e)))
  }

  function RightSide(x: real, y: real, e: real, c: real, r: Range): real {
    Times(Square(c - e), ClearedWorth(x, y, Square(c), r))
  }

  /**
   * Where a concentrated position loses at least as much as a constant-product one: a polynomial inequality in the
   * prices, their clamps `x` (now) and `y` (entry), and the bounds.
   */
  predicate Severe(x: real, y: real, entry: real, current: real, r: Range) {
    LeftSide(x, y, entry, current, r) >= RightSide(x, y, entry, current, r)
  }

  /** The comparison of the two losses, free of quotients. */
  lemma SevereIff(root: real -> real, entry: real, current: real, r: Range)
    requires IsRoot(root) && r.Valid() && entry > 0.0 && current > 0.0
    ensures ImpermanentLoss(entry, current, r) <= ConstantProductLoss(root, PriceRatio(entry, current))
        <==> Severe(r.Clamp(current), r.Clamp(entry), entry, current, r)
  {
    hide Square, Area, ClearedWorth, ConstantProductLoss, PriceRatio, Times, UnitWorth, ImpermanentLoss;
    var x, y, price := r.Clamp(current), r.Clamp(entry), Square(current);
    SquareIsPositive(current);
    SquareIsPositive(entry);
    UnitWorthIsPositive(entry, price, r);
    var scale := Times(Times(x, y), UnitWorth(y, price, r));
    TimesIsPositive(x, y);
    TimesIsPositive(Times(x, y), UnitWorth(y, price, r));
    LossByArea(entry, current, r);
    ConstantProductOfMove(root, entry, current);
    ClearedWorthForm(x, y, price, r);
    LossesByScale(ImpermanentLoss(entry, current, r), scale, Area(x, y, price),
                  ConstantProductLoss(root, PriceRatio(entry, current)), price + Square(entry), Square(current - entry),
                  r.upper, ClearedWorth(x, y, price, r));
  }

  lemma LossByArea(entry: real, current: real, r: Range)
    requires r.Valid() && current > 0.0
    ensures var x, y, price := r.Clamp(current), r.Clamp(entry), Square(current);
            Times(ImpermanentLoss(entry, current, r), Times(Times(x, y), UnitWorth(y, price, r))) == Area(x, y, price)
  {
    hide WorthAt, UnitWorth, RelativeLoss, AmountsFromLiquidity, Square, Area;
    var x, y, price := r.Clamp(current), r.Clamp(entry), Square(current);
    SquareIsPositive(current);
    WorthByClamp(entry, price, r);
    WorthByClamp(current, price, r);
    UnitWorthIsPositive(entry, price, r);
    WorthGap(x, y, price, r);
    LossTimesScale(UnitWorth(x, price, r), UnitWorth(y, price, r), x * y, Area(x, y, price));
  }

  lemma LossTimesScale(held: real, hodl: real, scale: real, area: real)
    requires hodl > 0.0 && scale * (held - hodl) == area
    ensures Times(RelativeLoss(held, hodl), Times(scale, hodl)) == area
  {
    var loss := RelativeLoss(held, hodl);
    QuotientTimesDivisor(held - hodl, hodl);
    assert loss * (scale * hodl) == scale * (loss * hodl);
  }

  lemma ClearedWorthForm(x: real, y: real, price: real, r: Range)
    requires r.Valid() && x > 0.0 && y > 0.0
    ensures Times(r.upper, Times(Times(x, y), UnitWorth(y, price, r))) == ClearedWorth(x, y, price, r)
  {
    var u := r.upper;
    QuotientTimesDivisor(1.0, y);
    QuotientTimesDivisor(1.0, u);
    ClearedForm(x, y, u, 1.0 / y, 1.0 / u, price, r.lower);
  }

  lemma ClearedForm(x: real, y: real, u: real, iy: real, iu: real, price: real, lower: real)
    requires iy * y == 1.0 && iu * u == 1.0
    ensures u * (x * y * ((iy - iu) * price + (y - lower))) == x * ((u - y) * price + y * u * (y - lower))
  {
    assert u * y * (iy - iu) == u * (iy * y) - y * (iu * u);
  }

  /** Two losses known by positive multiples compare as those multiples do. */
  lemma LossesByScale(
    loss: real, scale: real, area: real, full: real, fullScale: real, move: real, u: real, cleared: real)
    requires scale > 0.0 && fullScale > 0.0 && u > 0.0 && Times(u, scale) == cleared
    requires Times(loss, scale) == area && Times(full, fullScale) == -move
    ensures loss <= full <==> Times(u, Times(-area, fullScale)) >= Times(move, cleared)
  {
    var k := scale * fullScale;
    ProductOfPositives(scale, fullScale);
    ProductOfPositives(u, k);
    assert u * (-area * fullScale) == -((u * k) * loss) by {
      assert area * fullScale == loss * k;
    }
    assert move * cleared == -((u * k) * full) by {
      assert move * cleared == -((full * fullScale) * (u * scale));
    }
    CompareByScale(u * k, loss, full);
  }

  lemma CompareByScale(k: real, x: real, y: real)
    requires k > 0.0
    ensures x <= y <==> -(k * x) >= -(k * y)
  {
    if x > y {
      ProductOfPositives(k, x - y);
    } else {
      ScaleKeepsOrder(k, x, y);
    }
  }

  // ---- The claim region by region ----

  /** Drops a positive factor common to both sides. */
  lemma DropFactor(k: real, left: real, right: real, reduced: real)
    requires k > 0.0 && left - right == k * reduced
    ensures left >= right <==> reduced >= 0.0
  {
    if reduced >= 0.0 {
      ProductOfNonNegatives(k, reduced);
    } else {
      ProductOfPositives(k, -reduced);
    }
  }

  lemma ClampedAlike(z: real, entry: real, current: real, r: Range)
    requires r.Valid() && r.lower <= z <= r.upper && current > 0.0
    ensures Severe(z, z, entry, current, r) <==> entry == current
  {
    hide Square;
    SquareIsPositive(current);
    SquareSign(current - entry);
    ClearedWorthIsPositive(z, Square(current), r);
    assert Times(r.upper, Times(-Area(z, z, Square(current)), Square(current) + Square(entry))) == 0.0;
    DropFactor(ClearedWorth(z, z, Square(current), r), 0.0,
               Times(Square(current - entry), ClearedWorth(z, z, Square(current), r)), -Square(current - entry));
  }

  lemma ClearedWorthIsPositive(z: real, price: real, r: Range)
    requires r.Valid() && r.lower <= z <= r.upper && price > 0.0
    ensures ClearedWorth(z, z, price, r) > 0.0
  {
    hide Times;
    TimesIsPositive(z, r.upper);
    if z < r.upper {
      TimesIsPositive(r.upper - z, price);
      TimesIsNonNegative(Times(z, r.upper), z - r.lower);
    } else {
      TimesIsNonNegative(r.upper - z, price);
      TimesIsPositive(Times(z, r.upper), z - r.lower);
    }
    TimesIsPositive(z, Times(r.upper - z, price) + Times(Times(z, r.upper), z - r.lower));
  }

  lemma TimesIsNonNegative(x: real, y: real)
    requires x >= 0.0 && y >= 0.0
    ensures Times(x, y) >= 0.0
  {}

  // In every other region the difference of the two sides is a positive multiple of a simpler one.

  /** How far the price has risen from an entry, weighed against the product `g` of the two clamps. */
  function Rise(e: real, c: real, g: real): real {
    2.0 * e * c * Square(c) - g * (Square(c) + Square(e))
  }

  /** How far the price has fallen from an entry, weighed against the product `g` of the two clamps. */
  function Fall(e: real, c: real, g: real): real {
    2.0 * e * g - c * (Square(c) + Square(e))
  }

  function Spread(e: real, c: real, g: real): real {
    Times(Square(c) - g, Square(c) + Square(e))
  }

  lemma MoveIdentities(e: real, c: real, g: real)
    ensures Spread(e, c, g) - Times(Square(c - e), Square(c)) == Rise(e, c, g)
    ensures -Spread(e, c, g) - Times(Square(c - e), g) == Times(c, Fall(e, c, g))
  {
    var p, q, cross := Square(c), Square(e), 2.0 * e * c;
    assert Square(c - e) == p + q - cross;
    hide Square;
    SpreadIdentities(p, q, cross, g);
    FallIdentity(e, c, p, q, g);
  }

  lemma SpreadIdentities(p: real, q: real, cross: real, g: real)
    ensures Times(p - g, p + q) - Times(p + q - cross, p) == cross * p - g * (p + q)
    ensures -Times(p - g, p + q) - Times(p + q - cross, g) == cross * g - p * (p + q)
  {}

  lemma FallIdentity(e: real, c: real, p: real, q: real, g: real)
    requires p == Square(c)
    ensures 2.0 * e * c * g - p * (p + q) == Times(c, 2.0 * e * g - c * (p + q))
  {
    SameProduct(p, c * c, p + q, p + q);
    ProductRegroups(c, p + q);
  }

  lemma ProductRegroups(c: real, s: real)
    ensures c * c * s == c * (c * s)
  {}

  lemma Sides(x: real, y: real, e: real, c: real, r: Range)
    ensures LeftSide(x, y, e, c, r) == Times(r.upper, Times(x - y, Spread(e, c, Times(x, y))))
  {
    hide Square;
    var p, d := Square(c), Square(c) + Square(e);
    assert -Area(x, y, p) * d == (x - y) * ((p - x * y) * d);
  }

  lemma EnteredInsideNowAbove(e: real, c: real, r: Range)
    requires r.Valid() && r.lower <= e < r.upper < c
    ensures Severe(r.upper, e, e, c, r) <==>
            Times(r.upper - e, Rise(e, c, Times(r.upper, e)))
              >= Times(Times(r.upper, e - r.lower), Times(e, Square(c - e)))
  {
    hide Square, Times, Rise, Spread;
    Sides(r.upper, e, e, c, r);
    MoveIdentities(e, c, Times(r.upper, e));
    AboveForm(Spread(e, c, Times(r.upper, e)), Square(c), Square(c - e), Rise(e, c, Times(r.upper, e)), r.upper, e,
              r.lower);
  }

  lemma AboveForm(a: real, p: real, m: real, b: real, u: real, e: real, l: real)
    requires u > 0.0 && a - Times(m, p) == b
    ensures Times(u, Times(u - e, a)) >= Times(m, Times(u, Times(u - e, p) + Times(Times(e, u), e - l)))
       <==> Times(u - e, b) >= Times(Times(u, e - l), Times(e, m))
  {
    DropFactor(u, Times(u, Times(u - e, a)), Times(m, Times(u, Times(u - e, p) + Times(Times(e, u), e - l))),
               Times(u - e, b) - Times(Times(u, e - l), Times(e, m)));
  }

  lemma EnteredInsideNowBelow(e: real, c: real, r: Range)
    requires r.Valid() && 0.0 < c < r.lower < e <= r.upper
    ensures Severe(r.lower, e, e, c, r) <==>
            Times(Times(r.upper, e - r.lower), Fall(e, c, Times(r.lower, e)))
              >= Times(Times(r.lower, r.upper - e), Times(c, Square(c - e)))
  {
    Sides(r.lower, e, e, c, r);
    MoveIdentities(e, c, Times(r.lower, e));
    assert Square(c) == Times(c, c);
    hide Square, Times, Fall, Spread;
    BelowForm(Spread(e, c, Times(r.lower, e)), c, Square(c - e), Fall(e, c, Times(r.lower, e)), r.upper, e, r.lower);
  }

  lemma BelowForm(a: real, c: real, m: real, b: real, u: real, e: real, l: real)
    requires c > 0.0 && -a - Times(m, Times(l, e)) == Times(c, b)
    ensures Times(u, Times(l - e, a)) >= Times(m, Times(l, Times(u - e, Times(c, c)) + Times(Times(e, u), e - l)))
       <==> Times(Times(u, e - l), b) >= Times(Times(l, u - e), Times(c, m))
  {
    BelowDifference(a, c, m, b, u, e, l);
    hide Times;
    DropFactor(c, Times(u, Times(l - e, a)), Times(m, Times(l, Times(u - e, Times(c, c)) + Times(Times(e, u), e - l))),
               Times(Times(u, e - l), b) - Times(Times(l, u - e), Times(c, m)));
  }

  lemma BelowDifference(a: real, c: real, m: real, b: real, u: real, e: real, l: real)
    requires -a - Times(m, Times(l, e)) == Times(c, b)
    ensures Times(u, Times(l - e, a)) - Times(m, Times(l, Times(u - e, Times(c, c)) + Times(Times(e, u), e - l)))
            == c * (Times(Times(u, e - l), b) - Times(Times(l, u - e), Times(c, m)))
  {
    var x, y := Times(u, e - l), Times(l, u - e);
    assert Times(u, Times(l - e, a)) == -(x * a);
    assert Times(m, Times(l, Times(u - e, Times(c, c)) + Times(Times(e, u), e - l)))
      == c * (y * (c * m)) + x * (m * (l * e));
    BelowCollected(x, y, a, c, m, b, l * e);
  }

  lemma BelowCollected(x: real, y: real, a: real, c: real, m: real, b: real, g: real)
    requires -a - m * g == c * b
    ensures -(x * a) - (c * (y * (c * m)) + x * (m * g)) == c * (x * b - y * (c * m))
  {
    assert x * (-a - m * g) == x * (c * b);
  }

  lemma EnteredBelowNowInside(e: real, c: real, r: Range)
    requires r.Valid() && 0.0 < e <= r.lower < c < r.upper
    ensures Severe(c, r.lower, e, c, r) <==>
            Times(Times(r.upper, Square(c - r.lower)), Square(c) + Square(e))
              >= Times(Times(r.upper - r.lower, Square(c)), Square(c - e))
  {
    Sides(c, r.lower, e, c, r);
    hide Times, Square;
    InsideFromBelowForm(c, r.lower, r.upper, Square(c) + Square(e), Square(c - e));
  }

  lemma InsideFromBelowForm(c: real, l: real, u: real, d: real, m: real)
    requires c > 0.0
    ensures Times(u, Times(c - l, Times(Square(c) - Times(c, l), d)))
            >= Times(m, Times(c, Times(u - l, Square(c)) + Times(Times(l, u), l - l)))
       <==> Times(Times(u, Square(c - l)), d) >= Times(Times(u - l, Square(c)), m)
  {
    var left := Times(u, Times(c - l, Times(Square(c) - Times(c, l), d)));
    var right := Times(m, Times(c, Times(u - l, Square(c)) + Times(Times(l, u), l - l)));
    InsideLeft(c, c - l, Square(c) - Times(c, l), u, d);
    TimesZero(Times(l, u), l - l);
    InsideRight(c, Times(u - l, Square(c)), m);
    hide Times, Square;
    DropFactor(c, left, right, Times(Times(u, Square(c - l)), d) - Times(Times(u - l, Square(c)), m));
  }

  lemma InsideLeft(c: real, x: real, gap: real, u: real, d: real)
    requires gap == c * x
    ensures Times(u, Times(x, Times(gap, d))) == c * Times(Times(u, Square(x)), d)
  {
    assert u * (x * ((c * x) * d)) == c * ((u * (x * x)) * d);
  }

  lemma InsideRight(c: real, y: real, m: real)
    ensures Times(m, Times(c, y + 0.0)) == c * Times(y, m)
  {}

  lemma EnteredAboveNowInside(e: real, c: real, r: Range)
    requires r.Valid() && r.lower < c < r.upper <= e
    ensures Severe(c, r.upper, e, c, r) <==>
            Times(Square(r.upper - c), Square(c) + Square(e)) >= Times(Times(r.upper, r.upper - r.lower), Square(c - e))
  {
    Sides(c, r.upper, e, c, r);
    hide Times, Square;
    InsideFromAboveForm(c, r.lower, r.upper, Square(c) + Square(e), Square(c - e));
  }

  lemma InsideFromAboveForm(c: real, l: real, u: real, d: real, m: real)
    requires c > 0.0 && u > 0.0
    ensures Times(u, Times(c - u, Times(Square(c) - Times(c, u), d)))
            >= Times(m, Times(c, Times(u - u, Square(c)) + Times(Times(u, u), u - l)))
       <==> Times(Square(u - c), d) >= Times(Times(u, u - l), m)
  {
    ProductOfPositives(c, u);
    DropFactor(c * u, Times(u, Times(c - u, Times(Square(c) - Times(c, u), d))),
               Times(m, Times(c, Times(u - u, Square(c)) + Times(Times(u, u), u - l))),
               Times(Square(u - c), d) - Times(Times(u, u - l), m));
  }

  lemma EnteredBelowNowAbove(e: real, c: real, r: Range)
    requires r.Valid() && 0.0 < e <= r.lower && r.upper <= c
    ensures Severe(r.upper, r.lower, e, c, r) <==> Rise(e, c, Times(r.upper, r.lower)) >= 0.0
  {
    hide Square, Times, Rise, Spread;
    Sides(r.upper, r.lower, e, c, r);
    MoveIdentities(e, c, Times(r.upper, r.lower));
    ThroughUpForm(Spread(e, c, Times(r.upper, r.lower)), Square(c), Square(c - e), r.upper, r.lower);
  }

  lemma ThroughUpForm(a: real, p: real, m: real, u: real, l: real)
    requires u > l > 0.0
    ensures Times(u, Times(u - l, a)) >= Times(m, Times(u, Times(u - l, p) + Times(Times(l, u), l - l)))
       <==> a - Times(m, p) >= 0.0
  {
    ProductOfPositives(u, u - l);
    DropFactor(u * (u - l), Times(u, Times(u - l, a)), Times(m, Times(u, Times(u - l, p) + Times(Times(l, u), l - l))),
               a - Times(m, p));
  }

  lemma EnteredAboveNowBelow(e: real, c: real, r: Range)
    requires r.Valid() && 0.0 < c <= r.lower && r.upper <= e
    ensures Severe(r.lower, r.upper, e, c, r) <==> Fall(e, c, Times(r.lower, r.upper)) >= 0.0
  {
    hide Square, Times, Fall, Spread;
    Sides(r.lower, r.upper, e, c, r);
    MoveIdentities(e, c, Times(r.lower, r.upper));
    ThroughDownForm(Spread(e, c, Times(r.lower, r.upper)), Square(c), Square(c - e), r.upper, r.lower);
    SignOfMultiple(c, Fall(e, c, Times(r.lower, r.upper)));
  }

  lemma ThroughDownForm(a: real, p: real, m: real, u: real, l: real)
    requires u > l > 0.0
    ensures Times(u, Times(l - u, a)) >= Times(m, Times(l, Times(u - u, p) + Times(Times(u, u), u - l)))
       <==> -a - Times(m, Times(l, u)) >= 0.0
  {
    ProductOfPositives(u, u - l);
    DropFactor(u * (u - l), Times(u, Times(l - u, a)), Times(m, Times(l, Times(u - u, p) + Times(Times(u, u), u - l))),
               -a - Times(m, Times(l, u)));
  }

  lemma SignOfMultiple(k: real, x: real)
    requires k > 0.0
    ensures Times(k, x) >= 0.0 <==> x >= 0.0
  {
    DropFactor(k, Times(k, x), 0.0, x);
  }

  /**
   * When concentration loses at least as much as the whole curve: always while both prices are in the range, only at an
   * unmoved price while both are on the same side of it, and otherwise by how far the price has gone.
   */
  predicate MoreSevere(e: real, c: real, r: Range) {
    var l, u, move := r.lower, r.upper, Square(c - e);
    if l <= e <= u && l <= c <= u then true
    else if r.Clamp(e) == r.Clamp(c) then e == c
    else if u <= c then
      if e <= l then Rise(e, c, Times(u, l)) >= 0.0
      else Times(u - e, Rise(e, c, Times(u, e))) >= Times(Times(u, e - l), Times(e, move))
    else if c <= l then
      if u <= e then Fall(e, c, Times(l, u)) >= 0.0
      else Times(Times(u, e - l), Fall(e, c, Times(l, e))) >= Times(Times(l, u - e), Times(c, move))
    else if e <= l then Times(Times(u, Square(c - l)), Square(c) + Square(e)) >= Times(Times(u - l, Square(c)), move)
    else Times(Square(u - c), Square(c) + Square(e)) >= Times(Times(u, u - l), move)
  }

  /** The claim that concentration is the more severe, decided for every entry, current price and range. */
  lemma ConcentrationIsMoreSevereIff(root: real -> real, entry: real, current: real, r: Range)
    requires IsRoot(root) && r.Valid() && entry > 0.0 && current > 0.0
    ensures ImpermanentLoss(entry, current, r) <= ConstantProductLoss(root, PriceRatio(entry, current))
        <==> MoreSevere(entry, current, r)
  {
    hide ImpermanentLoss, ConstantProductLoss, PriceRatio, Severe, Rise, Fall, Times, Square, IsRoot;
    SevereIff(root, entry, current, r);
    var l, u := r.lower, r.upper;
    if l <= entry <= u && l <= current <= u {
      ConcentrationIsMoreSevere(root, entry, current, r);
    } else if r.Clamp(entry) == r.Clamp(current) {
      ClampedAlike(r.Clamp(entry), entry, current, r);
    } else if u <= current {
      if entry <= l {
        EnteredBelowNowAbove(entry, current, r);
      } else {
        EnteredInsideNowAbove(entry, current, r);
      }
    } else if current <= l {
      if u <= entry {
        EnteredAboveNowBelow(entry, current, r);
      } else {
        EnteredInsideNowBelow(entry, current, r);
      }
    } else if entry <= l {
      EnteredBelowNowInside(entry, current, r);
    } else {
      EnteredAboveNowInside(entry, current, r);
    }
  }

  /** Both answers occur once the price has left the range [1, 2] above it. */
  lemma SeverityOutsideVaries(root: real -> real)
    requires IsRoot(root)
    ensures ImpermanentLoss(2.0, 3.0, Range(1.0, 2.0)) > ConstantProductLoss(root, PriceRatio(2.0, 3.0))
    ensures ImpermanentLoss(1.5, 10.0, Range(1.0, 2.0)) <= ConstantProductLoss(root, PriceRatio(1.5, 10.0))
  {
    hide ImpermanentLoss, ConstantProductLoss, PriceRatio, IsRoot;
    ConcentrationIsMoreSevereIff(root, 2.0, 3.0, Range(1.0, 2.0));
    ConcentrationIsMoreSevereIff(root, 1.5, 10.0, Range(1.0, 2.0));
  }

  /** At a price of nothing a position entered below its range is worth nothing either way, which counts as no loss. */
  lemma WorthlessIsNoLoss(entry: real, r: Range)
    requires r.Valid() && entry <= r.lower
    ensures ImpermanentLoss(entry, 0.0, r) == 0.0
  {}
}
