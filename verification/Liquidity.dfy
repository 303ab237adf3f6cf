/** Order sides and the per-symbol liquidity model: half a spread on each side of the reference
    price, plus one slippage step for every full depth already consumed. */
module Liquidity {

  datatype Side = BUY | SELL

  datatype Symbol = Symbol(name: string)

  datatype Profile = Profile(baseSpread: real, availableDepth: real, slippageFactor: real)

  function GetLiquidityProfile(symbol: Symbol): (p: Profile)
    ensures p.availableDepth > 0.0 && p.baseSpread > 0.0 && p.slippageFactor > 0.0
  {
    match symbol.name
    case "RELIANCE" => Profile(0.10, 500.0, 0.05)
    case "TCS" => Profile(0.20, 200.0, 0.10)
    case _ => Profile(0.05, 1000.0, 0.02)
  }

  function Depth(symbol: Symbol): (d: real)
    ensures d > 0.0
  {
    GetLiquidityProfile(symbol).availableDepth
  }

  /** Integer part of a quotient of non-negative quantities, counted by taking b out of a. */
  function WholeParts(a: real, b: real): nat
    requires a >= 0.0 && b > 0.0
    decreases (a / b).Floor
  {
    if a < b then 0
    else
      DivisionStep(a, b);
      1 + WholeParts(a - b, b)
  }

  lemma DivisionStep(a: real, b: real)
    requires a >= 0.0 && b > 0.0
    ensures a / b >= 0.0 && (a < b <==> a / b < 1.0)
    ensures (a - b) / b == a / b - 1.0
  {
    Quotient(a, b, a / b);
    Quotient(a - b, b, (a - b) / b);
    OneLess(a, b, a / b, (a - b) / b);
  }

  lemma OneLess(a: real, b: real, p: real, q: real)
    requires a >= 0.0 && b > 0.0 && p * b == a && q * b == a - b
    ensures p >= 0.0 && (a < b <==> p < 1.0) && q == p - 1.0
  {
    SameFactor(p, q, b, a);
    OrderFromProduct(p, b);
  }

  lemma Quotient(a: real, b: real, q: real)
    requires b > 0.0 && q == a / b
    ensures q * b == a
  {}

  lemma SameFactor(x: real, y: real, b: real, a: real)
    requires b > 0.0 && x * b == a && y * b == a - b
    ensures y == x - 1.0
  {
    Difference(x, y, b);
    NoFactor(x - y - 1.0, b);
  }

  lemma Difference(x: real, y: real, b: real)
    ensures (x - y - 1.0) * b == x * b - y * b - b
  {}

  lemma NoFactor(x: real, b: real)
    requires b > 0.0 && x * b == 0.0
    ensures x == 0.0
  {}

  lemma OrderFromProduct(x: real, b: real)
    requires b > 0.0 && x * b >= 0.0
    ensures x >= 0.0 && (x * b < b <==> x < 1.0)
  {}

  /** Quotient truncated toward zero, as the decimal library's integer division does. */
  function DividedToInteger(a: real, b: real): int
    requires b > 0.0
  {
    if a >= 0.0 then WholeParts(a, b) else 0 - WholeParts(-a, b)
  }

  lemma {:induction false} WholePartsIsFloor(a: real, b: real)
    requires a >= 0.0 && b > 0.0
    ensures WholeParts(a, b) == (a / b).Floor
    decreases WholeParts(a, b)
  {
    DivisionStep(a, b);
    if a >= b { WholePartsIsFloor(a - b, b); }
  }

  function CalculateExecutablePrice(side: Side, refPrice: real, profile: Profile, filledQty: real): real
    requires profile.availableDepth > 0.0
  {
    var level := DividedToInteger(filledQty, profile.availableDepth);
    var slippage := profile.slippageFactor * level as real;
    match side
    case BUY => refPrice + profile.baseSpread / 2.0 + slippage
    case SELL => refPrice - profile.baseSpread / 2.0 - slippage
  }

  /** The executable price of a symbol once `filled` of the order is already done. */
  function ExecPrice(side: Side, symbol: Symbol, refPrice: real, filled: real): real {
    CalculateExecutablePrice(side, refPrice, GetLiquidityProfile(symbol), filled)
  }
}

/** The slices an order is executed in: the cumulative quantities c(0), c(1), ... with
    c(0) = 0 and c(n+1) = min(requested, c(n) + depth), and what they cost in total. */
module Slices {
  import opened Prelude
  import opened Liquidity

  /** Cumulative quantity after n slices. */
  function Cum(requested: real, depth: real, n: nat): real {
    if n == 0 then 0.0 else Min(requested, Cum(requested, depth, n - 1) + depth)
  }

  lemma {:induction false} CumBounds(requested: real, depth: real, n: nat)
    requires requested > 0.0 && depth > 0.0
    ensures 0.0 <= Cum(requested, depth, n) <= requested
    ensures n > 0 ==> Cum(requested, depth, n) > 0.0
  {
    if n > 0 { CumBounds(requested, depth, n - 1); }
  }

  lemma {:induction false} CumMonotone(requested: real, depth: real, i: nat, j: nat)
    requires requested > 0.0 && depth > 0.0 && i <= j
    ensures Cum(requested, depth, i) <= Cum(requested, depth, j)
    ensures i < j && Cum(requested, depth, i) < requested ==> Cum(requested, depth, i) < Cum(requested, depth, j)
    decreases j - i
  {
    if i < j {
      CumBounds(requested, depth, i);
      CumMonotone(requested, depth, i + 1, j);
    }
  }

  /** n copies of x, the product n*x by repeated addition. */
  function Times(n: nat, x: real): real {
    if n == 0 then 0.0 else Times(n - 1, x) + x
  }

  lemma OneMore(m: real, n: real, x: real)
    requires n == m + 1.0
    ensures n * x == m * x + x
  {}

  lemma {:induction false} TimesIsProduct(n: nat, x: real)
    ensures Times(n, x) == n as real * x
  {
    if n > 0 {
      TimesIsProduct(n - 1, x);
      OneMore((n - 1) as real, n as real, x);
    }
  }

  /** While the order is unfinished every slice is a full depth, so the slippage level read off the
      cumulative quantity is the number of slices done. */
  lemma {:induction false} CumLevel(requested: real, depth: real, n: nat)
    requires requested > 0.0 && depth > 0.0 && Cum(requested, depth, n) < requested
    ensures Cum(requested, depth, n) == Times(n, depth) >= 0.0
    ensures WholeParts(Cum(requested, depth, n), depth) == n
  {
    if n > 0 { CumLevel(requested, depth, n - 1); }
  }

  /** Quantity of slice n, the one taking the order from c(n) to c(n+1), and the price it trades at. */
  function SliceQuantity(requested: real, depth: real): nat -> real {
    (n: nat) => Cum(requested, depth, n + 1) - Cum(requested, depth, n)
  }

  function SlicePrice(side: Side, ref: real, p: Profile, requested: real): nat -> real
    requires p.availableDepth > 0.0
  {
    (n: nat) => CalculateExecutablePrice(side, ref, p, Cum(requested, p.availableDepth, n))
  }

  /** Cash moved by the first n slices. */
  function TotalCost(quantity: nat -> real, price: nat -> real, n: nat): real {
    if n == 0 then 0.0
    else TotalCost(quantity, price, n - 1) + quantity(n - 1) * price(n - 1)
  }

  /** Executable price at level 0, and the price move per level: a buyer climbs, a seller sinks. */
  function Touch(side: Side, ref: real, p: Profile): real {
    if side == BUY then ref + p.baseSpread / 2.0 else ref - p.baseSpread / 2.0
  }

  function PerLevel(side: Side, p: Profile): real {
    if side == BUY then p.slippageFactor else -p.slippageFactor
  }

  /** Price at a level: one step per level away from the touch. */
  function LevelPrice(touch: real, perLevel: real, level: nat): real {
    if level == 0 then touch else LevelPrice(touch, perLevel, level - 1) + perLevel
  }

  lemma {:induction false} LevelPriceIsLinear(touch: real, perLevel: real, level: nat)
    ensures LevelPrice(touch, perLevel, level) == touch + level as real * perLevel
  {
    if level > 0 {
      LevelPriceIsLinear(touch, perLevel, level - 1);
      assert level as real * perLevel == (level - 1) as real * perLevel + perLevel;
    }
  }

  lemma PriceAtLevel(side: Side, ref: real, p: Profile, filled: real, level: nat)
    requires p.availableDepth > 0.0 && DividedToInteger(filled, p.availableDepth) == level
    ensures CalculateExecutablePrice(side, ref, p, filled) == LevelPrice(Touch(side, ref, p), PerLevel(side, p), level)
  {
    LevelPriceIsLinear(Touch(side, ref, p), PerLevel(side, p), level);
  }

  /** Slice n of an unfinished order takes what remains, at most one depth, and trades at level n. */
  lemma SliceShape(side: Side, ref: real, p: Profile, requested: real, n: nat)
    requires p.availableDepth > 0.0 && requested > 0.0 && Cum(requested, p.availableDepth, n) < requested
    ensures SliceQuantity(requested, p.availableDepth)(n)
         == Min(requested - Times(n, p.availableDepth), p.availableDepth)
    ensures SlicePrice(side, ref, p, requested)(n) == LevelPrice(Touch(side, ref, p), PerLevel(side, p), n)
  {
    CumLevel(requested, p.availableDepth, n);
    PriceAtLevel(side, ref, p, Cum(requested, p.availableDepth, n), n);
  }

  /** The first n slices are full ones, at levels 0, 1, 2, ... */
  ghost predicate FullSlices(quantity: nat -> real, price: nat -> real, touch: real, perLevel: real, d: real, n: nat) {
    forall i: nat | i < n :: quantity(i) == d && price(i) == LevelPrice(touch, perLevel, i)
  }

  /** When n depths fit, the first n slices are full. */
  lemma {:induction false} CumOfFullSlices(requested: real, d: real, n: nat, i: nat)
    requires d > 0.0 && Times(n, d) <= requested && i <= n
    ensures Cum(requested, d, i) == Times(i, d)
    ensures i < n ==> Cum(requested, d, i) < requested && Cum(requested, d, i + 1) == Cum(requested, d, i) + d
  {
    TimesInOrder(i, n, d);
    if i > 0 { CumOfFullSlices(requested, d, n, i - 1); }
  }

  lemma {:induction false} TimesInOrder(i: nat, n: nat, d: real)
    requires i <= n && d > 0.0
    ensures i < n ==> Times(i, d) + d <= Times(n, d)
    decreases n - i
  {
    if i < n { TimesInOrder(i + 1, n, d); }
  }

  lemma SlicesAreFull(side: Side, ref: real, p: Profile, requested: real, n: nat)
    requires p.availableDepth > 0.0 && requested > 0.0 && Times(n, p.availableDepth) <= requested
    ensures FullSlices(SliceQuantity(requested, p.availableDepth), SlicePrice(side, ref, p, requested),
                       Touch(side, ref, p), PerLevel(side, p), p.availableDepth, n)
  {
    forall i: nat | i < n
      ensures SliceQuantity(requested, p.availableDepth)(i) == p.availableDepth
      ensures SlicePrice(side, ref, p, requested)(i) == LevelPrice(Touch(side, ref, p), PerLevel(side, p), i)
    {
      CumOfFullSlices(requested, p.availableDepth, n, i);
      SliceShape(side, ref, p, requested, i);
    }
  }

  lemma SameProduct(a: real, b: real, c: real, d: real)
    requires a == c && b == d
    ensures a * b == c * d
  {}

  /** The number of slippage steps paid by n full slices, 0 + 1 + ... + (n-1). */
  function Triangle(n: nat): nat {
    if n == 0 then 0 else Triangle(n - 1) + (n - 1)
  }

  lemma {:induction false} TriangleClosed(n: nat)
    ensures Triangle(n) == n * (n - 1) / 2
  {
    if n > 0 {
      TriangleClosed(n - 1);
      assert n * (n - 1) == (n - 1) * (n - 2) + 2 * (n - 1);
    }
  }

  /** Sum of the prices of levels 0 .. n-1. */
  function LevelSum(touch: real, perLevel: real, n: nat): real {
    if n == 0 then 0.0 else LevelSum(touch, perLevel, n - 1) + LevelPrice(touch, perLevel, n - 1)
  }

  function Combined(k: real, t: real, touch: real, perLevel: real): real {
    k * touch + t * perLevel
  }

  lemma CombinedAdds(k: real, t: real, k': real, t': real, touch: real, perLevel: real)
    ensures Combined(k, t, touch, perLevel) + Combined(k', t', touch, perLevel)
         == Combined(k + k', t + t', touch, perLevel)
  {
    assert (k + k') * touch == k * touch + k' * touch;
    assert (t + t') * perLevel == t * perLevel + t' * perLevel;
  }

  lemma LevelIsCombined(touch: real, perLevel: real, level: nat)
    ensures LevelPrice(touch, perLevel, level) == Combined(1.0, level as real, touch, perLevel)
  {
    hide LevelPrice;
    LevelPriceIsLinear(touch, perLevel, level);
  }

  /** The prices of levels 0 .. n-1 are n times the touch and a triangle of steps. */
  lemma {:induction false} LevelSumIsTriangle(touch: real, perLevel: real, n: nat)
    ensures LevelSum(touch, perLevel, n) == Combined(n as real, Triangle(n) as real, touch, perLevel)
  {
    if n == 0 {
    } else {
      hide Combined, LevelPrice;
      LevelSumIsTriangle(touch, perLevel, n - 1);
      LevelIsCombined(touch, perLevel, n - 1);
      CombinedAdds((n - 1) as real, Triangle(n - 1) as real, 1.0, (n - 1) as real, touch, perLevel);
    }
  }

  lemma {:induction false} FullSlicesCost(quantity: nat -> real, price: nat -> real, touch: real, perLevel: real,
                                          d: real, n: nat)
    requires FullSlices(quantity, price, touch, perLevel, d, n)
    ensures TotalCost(quantity, price, n) == d * LevelSum(touch, perLevel, n)
  {
    if n > 0 {
      FullSlicesCost(quantity, price, touch, perLevel, d, n - 1);
      SameProduct(quantity(n - 1), price(n - 1), d, LevelPrice(touch, perLevel, n - 1));
      Distribute(d, LevelSum(touch, perLevel, n - 1), LevelPrice(touch, perLevel, n - 1));
    }
  }

  lemma Distribute(c: real, x: real, y: real)
    ensures c * (x + y) == c * x + c * y
  {}

  /** Cash for requested = n*d + r: all of it at the touch, and the slippage steps of the full slices and the rest. */
  function Closed(requested: real, n: real, d: real, r: real, touch: real, perLevel: real, triangle: real): real {
    requested * touch + perLevel * (d * triangle + n * r)
  }

  lemma ClosedAlgebra(requested: real, n: real, d: real, r: real, touch: real, perLevel: real, triangle: real)
    requires requested == n * d + r
    ensures d * (n * touch + triangle * perLevel) + r * (touch + n * perLevel)
         == Closed(requested, n, d, r, touch, perLevel, triangle)
  {
    SameProduct(requested, touch, n * d + r, touch);
  }

  lemma FullTotal(quantity: nat -> real, price: nat -> real, n: nat, d: real, touch: real, perLevel: real,
                  total: real, levels: real)
    requires FullSlices(quantity, price, touch, perLevel, d, n)
    requires total == TotalCost(quantity, price, n) && levels == LevelSum(touch, perLevel, n)
    ensures total == d * levels
  {
    FullSlicesCost(quantity, price, touch, perLevel, d, n);
  }

  lemma Levels(touch: real, perLevel: real, n: nat, levels: real, nth: real, triangle: real)
    requires levels == LevelSum(touch, perLevel, n) && nth == n as real && triangle == Triangle(n) as real
    ensures levels == nth * touch + triangle * perLevel
  {
    LevelSumIsTriangle(touch, perLevel, n);
  }

  lemma Level(touch: real, perLevel: real, n: nat, level: real, nth: real)
    requires level == LevelPrice(touch, perLevel, n) && nth == n as real
    ensures level == touch + nth * perLevel
  {
    LevelPriceIsLinear(touch, perLevel, n);
  }

  lemma ClosedTotal(total: real, d: real, levels: real, r: real, level: real, requested: real, n: real, touch: real,
                    perLevel: real, triangle: real)
    requires levels == n * touch + triangle * perLevel && level == touch + n * perLevel
    requires total == d * levels + r * level && requested == n * d + r
    ensures total == Closed(requested, n, d, r, touch, perLevel, triangle)
  {
    SameProduct(d, levels, d, n * touch + triangle * perLevel);
    SameProduct(r, level, r, touch + n * perLevel);
    ClosedAlgebra(requested, n, d, r, touch, perLevel, triangle);
  }

  lemma WithRest(quantity: nat -> real, price: nat -> real, n: nat, r: real, level: real)
    requires r >= 0.0 && (r > 0.0 ==> quantity(n) == r && price(n) == level)
    ensures TotalCost(quantity, price, if r > 0.0 then n + 1 else n) == TotalCost(quantity, price, n) + r * level
  {
    if r > 0.0 { SameProduct(quantity(n), price(n), r, level); } else { ZeroTimes(r, level); }
  }

  lemma ZeroTimes(a: real, b: real)
    requires a == 0.0
    ensures a * b == 0.0
  {}

  lemma TimesAsProduct(n: nat, d: real, nth: real)
    requires nth == n as real
    ensures Times(n, d) == nth * d
  {
    TimesIsProduct(n, d);
  }

  lemma FullAndRest(quantity: nat -> real, price: nat -> real, n: nat, r: real, d: real, touch: real, perLevel: real,
                    total: real, levels: real, level: real, requested: real, nth: real, triangle: real)
    requires FullSlices(quantity, price, touch, perLevel, d, n) && requested == Times(n, d) + r
    requires total == TotalCost(quantity, price, n) && levels == LevelSum(touch, perLevel, n)
    requires level == LevelPrice(touch, perLevel, n) && nth == n as real && triangle == Triangle(n) as real
    ensures total + r * level == Closed(requested, nth, d, r, touch, perLevel, triangle)
  {
    Level(touch, perLevel, n, level, nth);
    Levels(touch, perLevel, n, levels, nth, triangle);
    FullTotal(quantity, price, n, d, touch, perLevel, total, levels);
    TimesAsProduct(n, d, nth);
    ClosedTotal(total + r * level, d, levels, r, level, requested, nth, touch, perLevel, triangle);
  }

  lemma SlicesNeeded(requested: real, d: real, n: nat, r: real)
    requires 0.0 <= r < d && requested > 0.0 && requested == Times(n, d) + r
    ensures var slices := if r > 0.0 then n + 1 else n;
            slices > 0 && Cum(requested, d, slices) == requested > Cum(requested, d, slices - 1)
  {
    CumOfFullSlices(requested, d, n, n);
    if r == 0.0 {
      CumOfFullSlices(requested, d, n, n - 1);
    }
  }

  /** Filling requested = n*depth + r with 0 <= r < depth takes n slices, n+1 when r > 0. */
  lemma SliceCount(requested: real, d: real, n: nat, r: real)
    requires 0.0 <= r < d && requested > 0.0 && requested == n as real * d + r
    ensures var slices := if r > 0.0 then n + 1 else n;
            slices > 0 && Cum(requested, d, slices) == requested > Cum(requested, d, slices - 1)
  {
    hide Cum;
    TimesIsProduct(n, d);
    SlicesNeeded(requested, d, n, r);
  }

  lemma CostOfSlices(side: Side, ref: real, p: Profile, requested: real, n: nat, r: real)
    requires 0.0 <= r < p.availableDepth && requested > 0.0 && requested == Times(n, p.availableDepth) + r
    ensures TotalCost(SliceQuantity(requested, p.availableDepth), SlicePrice(side, ref, p, requested),
                      if r > 0.0 then n + 1 else n)
         == Closed(requested, n as real, p.availableDepth, r, Touch(side, ref, p), PerLevel(side, p),
                   Triangle(n) as real)
  {
    hide Closed;
    var quantity, price := SliceQuantity(requested, p.availableDepth), SlicePrice(side, ref, p, requested);
    var touch, perLevel := Touch(side, ref, p), PerLevel(side, p);
    var total, levels, level := TotalCost(quantity, price, n), LevelSum(touch, perLevel, n),
      LevelPrice(touch, perLevel, n);
    if r > 0.0 {
      SlicesNeeded(requested, p.availableDepth, n, r);
      SliceShape(side, ref, p, requested, n);
    }
    WithRest(quantity, price, n, r, level);
    SlicesAreFull(side, ref, p, requested, n);
    FullAndRest(quantity, price, n, r, p.availableDepth, touch, perLevel, total, levels, level, requested,
                n as real, Triangle(n) as real);
  }

  /** At a constant reference price the whole order moves exactly
      requested*touch + perLevel*(depth*n*(n-1)/2 + n*r) in cash, for requested = n*depth + r. */
  lemma ClosedFormCost(side: Side, ref: real, p: Profile, requested: real, n: nat, r: real)
    requires 0.0 <= r < p.availableDepth && requested > 0.0 && requested == n as real * p.availableDepth + r
    ensures TotalCost(SliceQuantity(requested, p.availableDepth), SlicePrice(side, ref, p, requested),
                      if r > 0.0 then n + 1 else n)
         == Closed(requested, n as real, p.availableDepth, r, Touch(side, ref, p), PerLevel(side, p),
                   (n * (n - 1) / 2) as real)
  {
    hide Closed, Touch, PerLevel, TotalCost, SliceQuantity, SlicePrice, Times, Triangle;
    TimesIsProduct(n, p.availableDepth);
    TriangleClosed(n);
    CostOfSlices(side, ref, p, requested, n, r);
  }
}
