/** What the engine sends and what its fills look like, told by the order's own terms, the observed prices and the
    listed liquidity alone. */
module EngineTerms {
  import opened Prelude
  import opened Liquidity
  import opened Slices
  import opened Domain
  import opened OrderSpec
  import opened Reservations
  import opened EngineSpec
  import opened System
  import opened Execution
  import opened ExactlyOnce

  /** Half the spread, the price step of a level, and the quantity a level takes. */
  datatype Market = Market(half: real, step: real, depth: real)

  function Listed(symbol: Symbol): (m: Market)
    ensures m.half > 0.0 && m.step > 0.0 && m.depth > 0.0
  {
    if symbol.name == "RELIANCE" then Market(0.05, 0.05, 500.0)
    else if symbol.name == "TCS" then Market(0.1, 0.1, 200.0)
    else Market(0.025, 0.02, 1000.0)
  }

  /** A buyer pays half the spread more than the reference price and a step more for every depth already filled; a
      seller gets as much less. */
  function Executable(side: Side, ref: real, m: Market, level: int): real {
    if side.BUY? then ref + (m.half + m.step * level as real) else ref - (m.half + m.step * level as real)
  }

  lemma ProfileListed(symbol: Symbol)
    ensures var p, m := GetLiquidityProfile(symbol), Listed(symbol);
            p.baseSpread == 2.0 * m.half && p.slippageFactor == m.step && p.availableDepth == m.depth == Depth(symbol)
  {}

  lemma LevelCharged(side: Side, ref: real, p: Profile, m: Market, level: nat)
    requires p.baseSpread == 2.0 * m.half && p.slippageFactor == m.step
    ensures LevelPrice(Touch(side, ref, p), PerLevel(side, p), level) == Executable(side, ref, m, level)
  {
    LevelPriceIsLinear(Touch(side, ref, p), PerLevel(side, p), level);
    NegatedStep(level as real, m.step);
  }

  lemma NegatedStep(level: real, step: real)
    ensures level * step == step * level && level * (-step) == -(step * level)
  {}

  lemma ExecPriceCharged(side: Side, symbol: Symbol, ref: real, filled: real)
    requires filled >= 0.0
    ensures ExecPrice(side, symbol, ref, filled)
         == Executable(side, ref, Listed(symbol), (filled / Listed(symbol).depth).Floor)
  {
    hide Listed, GetLiquidityProfile;
    ProfileListed(symbol);
    var p, level := GetLiquidityProfile(symbol), WholeParts(filled, Listed(symbol).depth);
    WholePartsIsFloor(filled, p.availableDepth);
    PriceAtLevel(side, ref, p, filled, level);
    LevelCharged(side, ref, p, Listed(symbol), level);
  }

  // ---- what is sent ----------------------------------------------------------------------------

  /** What a tick, and the price an order could trade at then, say to the order: its kind, its side and its two
      prices decide. */
  predicate Calls(o: Order, tick: real, price: real) {
    match o.kind
    case MARKET => true
    case LIMIT => o.limitPrice.Some? && InOrder(o.side, price, o.limitPrice.value)
    case STOP => o.stopPrice.Some? && InOrder(o.side, o.stopPrice.value, tick)
    case STOP_LIMIT => o.isActivated && o.limitPrice.Some? && InOrder(o.side, price, o.limitPrice.value)
  }

  /** For a buyer x is no more than y, for a seller no less. */
  predicate InOrder(side: Side, x: real, y: real) {
    (side.BUY? ==> x <= y) && (side.SELL? ==> x >= y)
  }

  /** A waiting entry with something left sends a job exactly when its order calls for one: a market order at every
      tick; a limit order, and an activated STOP_LIMIT order, when the executable price is at the limit or better; a
      stop order when the tick is at its stop or beyond. The job takes what is left, a depth at most, at that price,
      and is named by the quantity it reaches. A STOP_LIMIT order not yet activated asks to be, at its stop or
      beyond. Nothing left, and the entry goes. A queued entry waits. */
  lemma SentExactly(entry: EngineOrder, tick: real)
    requires entry.order.filled >= 0.0
    ensures var o, out := entry.order, EvaluateEntry(entry, tick);
            var m := Listed(o.symbol);
            var price := Executable(o.side, tick, m, (o.filled / m.depth).Floor);
            && (out.job.Some? <==> entry.state.READY? && o.filled < o.requested && Calls(o, tick, price))
            && (out.job.Some? ==>
                  && out.job.value.orderId == o.id && out.job.value.price == price
                  && 0.0 < out.job.value.quantity <= m.depth
                  && out.job.value.execution == o.filled + out.job.value.quantity <= o.requested
                  && (out.job.value.quantity < m.depth ==> out.job.value.execution == o.requested)
                  && out.entry == Some(EngineOrder(o, QUEUED, out.job.value.execution)))
            && (out.activate <==>
                  entry.state.READY? && o.kind.STOP_LIMIT? && !o.isActivated && o.stopPrice.Some?
                    && InOrder(o.side, o.stopPrice.value, tick))
            && (out.entry.None? <==> entry.state.READY? && o.filled >= o.requested && Calls(o, tick, price))
  {
    hide Listed, ExecPrice, Executable, GetLiquidityProfile;
    ExecPriceCharged(entry.order.side, entry.order.symbol, tick, entry.order.filled);
    ProfileListed(entry.order.symbol);
  }

  /** Once the activation came back: a job is sent exactly when the executable price of the snapshot the tick met is
      at the limit or better, and the row returned has something left. */
  lemma ResumedExactly(entry: EngineOrder, met: Order, activated: Order, tick: real)
    requires met.filled >= 0.0 && activated.filled >= 0.0
    ensures var out, m, n := ResumeEntry(entry, met, activated, tick), Listed(met.symbol), Listed(activated.symbol);
            var price := Executable(met.side, tick, m, (met.filled / m.depth).Floor);
            && (out.job.Some? <==>
                  activated.filled < activated.requested && met.limitPrice.Some?
                    && InOrder(met.side, price, met.limitPrice.value))
            && (out.job.Some? ==>
                  && out.job.value.price
                       == Executable(activated.side, tick, n, (activated.filled / n.depth).Floor)
                  && out.job.value.orderId == activated.id
                  && 0.0 < out.job.value.quantity <= n.depth
                  && out.job.value.execution == activated.filled + out.job.value.quantity <= activated.requested
                  && (out.job.value.quantity < n.depth ==> out.job.value.execution == activated.requested))
  {
    hide Listed, ExecPrice, Executable, GetLiquidityProfile;
    ExecPriceCharged(met.side, met.symbol, tick, met.filled);
    ExecPriceCharged(activated.side, activated.symbol, tick, activated.filled);
    ProfileListed(activated.symbol);
  }

  // ---- what is filled --------------------------------------------------------------------------

  lemma IndexOf(fills: Fills, o: Order, k: FillKey) returns (m: nat, n: nat)
    requires OnChain(fills, o) && k in fills && k.orderId == o.id
    ensures ChainAt(fills, o, m) && n < m && k == FillKey(o.id, Cum(o.requested, Depth(o.symbol), n + 1))
    ensures Cum(o.requested, Depth(o.symbol), m - 1) < o.requested
  {
    m :| ChainAt(fills, o, m);
    assert k == FillKey(o.id, k.execution);
    assert ReachedBy(o.requested, Depth(o.symbol), m, k.execution);
    var i: nat :| 1 <= i <= m && k.execution == Cum(o.requested, Depth(o.symbol), i);
    n := i - 1;
  }

  lemma StartsUnfinished(requested: real, depth: real, m: nat, n: nat)
    requires requested > 0.0 && depth > 0.0 && n < m && Cum(requested, depth, m - 1) < requested
    ensures Cum(requested, depth, n) == n as real * depth < requested
  {
    CumMonotone(requested, depth, n, m - 1);
    CumLevel(requested, depth, n);
    TimesIsProduct(n, depth);
  }

  /** Every fill there ever is: it was priced at an observed tick, after `level` full depths, at half the spread and
      `level` steps away from that tick; it took what was left, a depth at most. A limit is never traded through, a
      stop order only trades at a tick at its stop or beyond, a STOP_LIMIT order only after one. */
  lemma FillsInNumbers(s: Sys, steps: seq<Step>, k: FillKey) returns (tick: real, level: nat)
    requires Fresh(s) && k in Reach(s, steps).db.fills
    ensures var now, f := Reach(s, steps), Reach(s, steps).db.fills[k];
            && k.orderId in now.db.orders
            && var o, m := now.db.orders[k.orderId], Listed(now.db.orders[k.orderId].symbol);
            && (o.symbol, tick) in now.ticks
            && f.price == Executable(o.side, tick, m, level) && k.execution - f.quantity == level as real * m.depth
            && 0.0 < f.quantity <= m.depth && k.execution <= o.requested
            && (f.quantity < m.depth ==> k.execution == o.requested)
            && (o.kind.LIMIT? || o.kind.STOP_LIMIT? ==>
                  o.limitPrice.Some? && InOrder(o.side, f.price, o.limitPrice.value))
            && (o.kind.STOP? ==> o.stopPrice.Some? && InOrder(o.side, o.stopPrice.value, tick))
            && (o.kind.STOP_LIMIT? ==>
                  o.stopPrice.Some? && exists t: real ::
                    (o.symbol, t) in now.ticks && InOrder(o.side, o.stopPrice.value, t))
  {
    hide Reach, Laws, MemoryOk, OnChain, ChainAt, FillOk, Cum, Listed, Executable, GetLiquidityProfile;
    var now := Reach(s, steps);
    PipelineInvariant(s, steps);
    FillOfOrder(now, k);
    var o := now.db.orders[k.orderId];
    OrderShape(now.db, o.id);
    var m, n := IndexOf(now.db.fills, o, k);
    level := n;
    tick := PricesHonoured(s, steps, o.id, m, n);
    ProfileListed(o.symbol);
    LevelCharged(o.side, tick, GetLiquidityProfile(o.symbol), Listed(o.symbol), n);
    StartsUnfinished(o.requested, Depth(o.symbol), m, n);
    SizeOfFill(now, o, m, n);
  }

  lemma FillOfOrder(s: Sys, k: FillKey)
    requires Inv(s) && k in s.db.fills
    ensures k.orderId in s.db.orders && s.db.orders[k.orderId].id == k.orderId
    ensures OnChain(s.db.fills, s.db.orders[k.orderId])
  {
    hide Laws, MemoryOk, OnChain;
    OrderShape(s.db, k.orderId);
  }

  lemma SizeOfFill(s: Sys, o: Order, m: nat, n: nat)
    requires Inv(s) && o.id in s.db.orders && s.db.orders[o.id] == o && o.requested > 0.0
    requires ChainAt(s.db.fills, o, m) && n < m && Cum(o.requested, Depth(o.symbol), n) < o.requested
    ensures var key, from := FillKey(o.id, Cum(o.requested, Depth(o.symbol), n + 1)),
                             Cum(o.requested, Depth(o.symbol), n);
            && key in s.db.fills
            && var q := s.db.fills[key].quantity;
            && key.execution - q == from && 0.0 < q <= Depth(o.symbol) && key.execution <= o.requested
            && (q < Depth(o.symbol) ==> key.execution == o.requested)
  {
    hide Laws, MemoryOk, Shape, ChainAt, Honest, FillOk;
    NthFill(s.db.orders, s.db.fills, s.ticks, o, m, n);
  }
}
