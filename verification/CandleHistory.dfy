/** From ticks to answers: the rows the aggregator stored of a symbol, in order of their minutes, are a history the
    row-limited query can be trusted on. */
module CandleHistory {
  import opened Liquidity
  import opened Candles
  import opened TickFold

  function CandleOf(minute: int, r: Row): Candle {
    Candle(minute, r.open, r.high, r.low, r.close, r.volume, r.isClosed)
  }

  /** The 1-minute rows of a symbol, ordered by minute. */
  ghost predicate Lists(h: seq<Candle>, candles: map<Key, Row>, symbol: Symbol) {
    && Ascending(h)
    && (forall c | c in h :: Key(symbol, c.timestamp) in candles
                             && c == CandleOf(c.timestamp, candles[Key(symbol, c.timestamp)]))
    && (forall k | k in candles && k.symbol == symbol :: CandleOf(k.minute, candles[k]) in h)
  }

  lemma {:induction false} LatestKey(keys: set<Key>) returns (last: Key)
    requires keys != {}
    ensures last in keys && forall k | k in keys :: k.minute <= last.minute
    decreases |keys|
  {
    var k :| k in keys;
    if keys == {k} {
      last := k;
    } else {
      var other := LatestKey(keys - {k});
      last := if k.minute > other.minute then k else other;
    }
  }

  lemma ListMore(h: seq<Candle>, candles: map<Key, Row>, last: Key)
    requires last in candles && Lists(h, candles - {last}, last.symbol)
    requires forall k | k in candles && k.symbol == last.symbol :: k.minute <= last.minute
    ensures Lists(h + [CandleOf(last.minute, candles[last])], candles, last.symbol)
  {
    var rest, more := candles - {last}, h + [CandleOf(last.minute, candles[last])];
    assert last == Key(last.symbol, last.minute);
    forall c | c in h ensures c.timestamp < last.minute {
      assert Key(last.symbol, c.timestamp) in rest;
    }
    forall k | k in candles && k.symbol == last.symbol ensures CandleOf(k.minute, candles[k]) in more {
      assert k == last || k in rest;
    }
  }

  /** There is such a list. */
  lemma {:induction false} Listing(candles: map<Key, Row>, symbol: Symbol) returns (h: seq<Candle>)
    ensures Lists(h, candles, symbol)
    decreases |candles|
  {
    var mine := set k | k in candles && k.symbol == symbol;
    if mine == {} {
      h := [];
      assert forall k :: k in candles && k.symbol == symbol ==> k in mine;
    } else {
      hide Lists;
      var last := LatestKey(mine);
      h := Listing(candles - {last}, symbol);
      ListMore(h, candles, last);
      h := h + [CandleOf(last.minute, candles[last])];
    }
  }

  /** And only one: the order by minute leaves no choice. */
  lemma ListingIsUnique(a: seq<Candle>, b: seq<Candle>, candles: map<Key, Row>, symbol: Symbol)
    requires Lists(a, candles, symbol) && Lists(b, candles, symbol)
    ensures a == b
  {
    SameElements(a, b, candles, symbol);
    AscendingIsUnique(a, b);
  }

  lemma SameElements(a: seq<Candle>, b: seq<Candle>, candles: map<Key, Row>, symbol: Symbol)
    requires Lists(a, candles, symbol) && Lists(b, candles, symbol)
    ensures forall c :: c in a <==> c in b
  {
    forall c | c in a ensures c in b { assert CandleOf(c.timestamp, candles[Key(symbol, c.timestamp)]) in b; }
    forall c | c in b ensures c in a { assert CandleOf(c.timestamp, candles[Key(symbol, c.timestamp)]) in a; }
  }

  lemma SomeElement(a: seq<Candle>)
    ensures a == [] || exists c :: c in a
  {
    if a != [] { assert a[0] in a; }
  }

  lemma {:induction false} AscendingIsUnique(a: seq<Candle>, b: seq<Candle>)
    requires Ascending(a) && Ascending(b) && forall c :: c in a <==> c in b
    ensures a == b
  {
    if a == [] {
      SomeElement(b);
    } else {
      assert a[|a| - 1] in b && b != [];
      assert b[|b| - 1] in a;
      var a', b' := a[..|a| - 1], b[..|b| - 1];
      assert a[|a| - 1].timestamp == b[|b| - 1].timestamp;
      assert a[|a| - 1] == b[|b| - 1];
      forall c ensures c in a' <==> c in b' {
        LastOut(a, c);
        LastOut(b, c);
      }
      AscendingIsUnique(a', b');
    }
  }

  lemma LastOut(a: seq<Candle>, c: Candle)
    requires Ascending(a) && a != []
    ensures c in a[..|a| - 1] <==> c in a && c != a[|a| - 1]
  {
    if c in a && c != a[|a| - 1] {
      var i :| 0 <= i < |a| && a[i] == c;
      assert a[..|a| - 1][i] == c;
    }
  }

  /** After any delivery of ticks the stored rows are unique session minutes in order. */
  lemma StoredIsHistory(events: seq<Event>, symbol: Symbol, h: seq<Candle>)
    requires Lists(h, Fold(events).candles, symbol)
    ensures SessionHistory(h)
  {
    hide Fold;
    RowsInSession(events);
    forall c | c in h ensures InSession(c.timestamp) {
      assert Key(symbol, c.timestamp) in Fold(events).candles;
    }
  }

  /** So after any delivery of ticks, in any order and with any repetition, the row limit is invisible in an answer. */
  lemma StoredAnswer(events: seq<Event>, symbol: Symbol, h: seq<Candle>, tf: Timeframe, limit: nat)
    requires Lists(h, Fold(events).candles, symbol)
    ensures GetCandles(h, tf, limit) == TakeLast(Aggregate(h, tf), CappedLimit(limit))
  {
    hide Fold, Lists, GetCandles, Aggregate;
    StoredIsHistory(events, symbol, h);
    RowLimitInvisible(h, tf, limit);
  }
}
