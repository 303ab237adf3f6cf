/** Folding ticks into 1-minute candles: receipts drop duplicates, a tick closes the older candles of its
    symbol, and the upsert tolerates any order. Times are in milliseconds. */
module TickFold {
  import opened Prelude
  import opened Sums
  import opened Liquidity
  import opened Candles

  type TickId = int

  datatype Tick = Tick(id: TickId, symbol: Symbol, price: real, volume: real, time: int)

  /** Unique key of the 1-minute rows. */
  datatype Key = Key(symbol: Symbol, minute: int)

  datatype Row = Row(open: real, high: real, low: real, close: real, volume: real, isClosed: bool, lastTick: int)

  datatype Table = Table(candles: map<Key, Row>, receipts: set<TickId>)

  function MinuteOf(time: int): int {
    time / 60000
  }

  function KeyOf(t: Tick): Key {
    Key(t.symbol, MinuteOf(t.time))
  }

  predicate Counts(t: Tick) {
    InSession(MinuteOf(t.time))
  }

  /** A handler's two statements; those of different messages may interleave. */
  datatype Event = Close(tick: Tick) | Apply(tick: Tick)

  /** First statement: older open candles of the symbol are closed. */
  function CloseOlder(candles: map<Key, Row>, t: Tick): map<Key, Row> {
    map k | k in candles ::
      if k.symbol == t.symbol && k.minute < MinuteOf(t.time) then candles[k].(isClosed := true) else candles[k]
  }

  function Inserted(t: Tick): Row {
    Row(t.price, t.price, t.price, t.price, t.volume, false, t.time)
  }

  function Updated(r: Row, t: Tick): Row {
    Row(r.open, Max(r.high, t.price), Min(r.low, t.price), if t.time >= r.lastTick then t.price else r.close,
        r.volume + t.volume, r.isClosed, if t.time >= r.lastTick then t.time else r.lastTick)
  }

  /** Second statement: the receipt, and only with a new one the candle. */
  function Upsert(table: Table, t: Tick): Table {
    if t.id in table.receipts then table
    else
      var k := KeyOf(t);
      Table(table.candles[k := if k in table.candles then Updated(table.candles[k], t) else Inserted(t)],
            table.receipts + {t.id})
  }

  function Handle(table: Table, e: Event): Table {
    if !Counts(e.tick) then table
    else match e
      case Close(t) => table.(candles := CloseOlder(table.candles, t))
      case Apply(t) => Upsert(table, t)
  }

  function Fold(events: seq<Event>): Table {
    if events == [] then Table(map[], {}) else Handle(Fold(events[..|events| - 1]), events[|events| - 1])
  }

  // ---- what a candle is, in terms of the ticks that counted --------------------------------------

  /** Whether the last event brings a tick of this candle that was not received before. */
  predicate NewTick(events: seq<Event>, k: Key)
    requires events != []
  {
    var e := events[|events| - 1];
    e.Apply? && Counts(e.tick) && KeyOf(e.tick) == k && e.tick.id !in Fold(events[..|events| - 1]).receipts
  }

  /** The ticks of a candle in the order they were first received. */
  function Received(events: seq<Event>, k: Key): seq<Tick> {
    if events == [] then []
    else if NewTick(events, k) then Received(events[..|events| - 1], k) + [events[|events| - 1].tick]
    else Received(events[..|events| - 1], k)
  }

  /** The same ticks by their ids. */
  function Distinct(events: seq<Event>, k: Key): map<TickId, Tick> {
    if events == [] then map[]
    else if NewTick(events, k)
      then Distinct(events[..|events| - 1], k)[events[|events| - 1].tick.id := events[|events| - 1].tick]
    else Distinct(events[..|events| - 1], k)
  }

  function VolumeTerm(): (TickId, Tick) -> real {
    (id: TickId, t: Tick) => t.volume
  }

  predicate IsGreatest(x: real, ticks: seq<Tick>) {
    (exists t :: t in ticks && t.price == x) && (forall t | t in ticks :: t.price <= x)
  }

  predicate IsLeast(x: real, ticks: seq<Tick>) {
    (exists t :: t in ticks && t.price == x) && (forall t | t in ticks :: x <= t.price)
  }

  /** The latest tick, and among equally late ones the last received. */
  predicate IsLatest(ticks: seq<Tick>, i: nat) {
    i < |ticks| && forall j: nat | j < |ticks| ::
      ticks[j].time <= ticks[i].time && (i < j ==> ticks[j].time < ticks[i].time)
  }

  predicate ClosesAt(ticks: seq<Tick>, i: nat, r: Row) {
    IsLatest(ticks, i) && r.close == ticks[i].price && r.lastTick == ticks[i].time
  }

  ghost predicate Summarizes(r: Row, ticks: seq<Tick>) {
    && ticks != [] && r.open == ticks[0].price
    && IsGreatest(r.high, ticks) && IsLeast(r.low, ticks)
    && exists i: nat :: ClosesAt(ticks, i, r)
  }

  lemma InsertedSummarizes(t: Tick)
    ensures Summarizes(Inserted(t), [t])
  {
    assert t in [t] && ClosesAt([t], 0, Inserted(t));
  }

  lemma UpdatedSummarizes(r: Row, ticks: seq<Tick>, t: Tick)
    requires Summarizes(r, ticks)
    ensures Summarizes(Updated(r, t), ticks + [t])
  {
    var more := ticks + [t];
    assert t in more && forall x | x in ticks :: x in more;
    var high :| high in ticks && high.price == r.high;
    var low :| low in ticks && low.price == r.low;
    assert IsGreatest(Max(r.high, t.price), more) by { assert (if r.high >= t.price then high else t) in more; }
    assert IsLeast(Min(r.low, t.price), more) by { assert (if r.low <= t.price then low else t) in more; }
    var i: nat :| ClosesAt(ticks, i, r);
    if t.time >= r.lastTick {
      assert ClosesAt(more, |ticks|, Updated(r, t));
    } else {
      assert ClosesAt(more, i, Updated(r, t));
    }
  }

  lemma ClosedSummarizes(r: Row, ticks: seq<Tick>)
    requires Summarizes(r, ticks)
    ensures Summarizes(r.(isClosed := true), ticks)
  {
    var i: nat :| ClosesAt(ticks, i, r);
    assert ClosesAt(ticks, i, r.(isClosed := true));
  }

  /** After any delivery sequence a candle exists exactly when one of its ticks was received, and its open, high,
      low and close are the first, greatest, least and latest price received. */
  lemma {:induction false} CandleSummarizesTicks(events: seq<Event>, k: Key)
    ensures k in Fold(events).candles <==> Received(events, k) != []
    ensures k in Fold(events).candles ==> Summarizes(Fold(events).candles[k], Received(events, k))
  {
    hide Summarizes, Inserted, Updated, InSession, MinuteOf;
    if events != [] {
      var init, e := events[..|events| - 1], events[|events| - 1];
      CandleSummarizesTicks(init, k);
      if k in Fold(init).candles {
        ClosedSummarizes(Fold(init).candles[k], Received(init, k));
        UpdatedSummarizes(Fold(init).candles[k], Received(init, k), e.tick);
      } else {
        InsertedSummarizes(e.tick);
        assert Received(init, k) + [e.tick] == [e.tick];
      }
    }
  }

  lemma {:induction false} ReceiptsCoverDistinct(events: seq<Event>, k: Key)
    ensures Distinct(events, k).Keys <= Fold(events).receipts
    ensures forall id | id in Distinct(events, k) :: Distinct(events, k)[id].id == id
    ensures forall t :: t in Received(events, k) <==> t.id in Distinct(events, k) && Distinct(events, k)[t.id] == t
  {
    hide InSession, MinuteOf, CloseOlder, Updated, Inserted;
    if events != [] { ReceiptsCoverDistinct(events[..|events| - 1], k); }
  }

  /** Its volume is the sum over the distinct tick ids. */
  lemma {:induction false} VolumeOverDistinct(events: seq<Event>, k: Key)
    ensures k in Fold(events).candles ==> Fold(events).candles[k].volume == Sum(Distinct(events, k), VolumeTerm())
    ensures k !in Fold(events).candles ==> Distinct(events, k) == map[]
  {
    hide InSession, MinuteOf;
    if events != [] {
      var init, e := events[..|events| - 1], events[|events| - 1];
      VolumeOverDistinct(init, k);
      ReceiptsCoverDistinct(init, k);
      SumWrite(Distinct(init, k), e.tick.id, e.tick, VolumeTerm());
    }
  }

  /** The ticks delivered for a candle, whatever their number, order and repetition. */
  predicate Delivered(events: seq<Event>, k: Key, t: Tick) {
    Apply(t) in events && Counts(t) && KeyOf(t) == k
  }

  /** A tick id names one tick. */
  ghost predicate Consistent(events: seq<Event>) {
    forall t, u | Apply(t) in events && Apply(u) in events && t.id == u.id :: t == u
  }

  lemma {:induction false} ReceiptsAreDelivered(events: seq<Event>, id: TickId)
    requires id in Fold(events).receipts
    ensures exists t :: Apply(t) in events && Counts(t) && t.id == id
  {
    hide InSession, MinuteOf, CloseOlder, Updated, Inserted;
    var init, e := events[..|events| - 1], events[|events| - 1];
    assert events == init + [e];
    if id in Fold(init).receipts {
      ReceiptsAreDelivered(init, id);
      var t :| Apply(t) in init && Counts(t) && t.id == id;
      assert Apply(t) in events;
    } else {
      assert Apply(e.tick) in events;
    }
  }

  lemma {:induction false} DistinctIsDelivered(events: seq<Event>, k: Key, t: Tick)
    requires Consistent(events)
    ensures (t.id in Distinct(events, k) && Distinct(events, k)[t.id] == t) <==> Delivered(events, k, t)
  {
    hide InSession, MinuteOf, CloseOlder, Updated, Inserted;
    if events != [] {
      var init, e := events[..|events| - 1], events[|events| - 1];
      assert events == init + [e];
      ConsistentInit(events);
      DistinctIsDelivered(init, k, t);
      DistinctIsDelivered(init, k, e.tick);
      ReceiptsCoverDistinct(init, k);
      if e.Apply? && Counts(e.tick) && e.tick.id in Fold(init).receipts {
        ReceiptsAreDelivered(init, e.tick.id);
        var u :| Apply(u) in init && Counts(u) && u.id == e.tick.id;
        assert Apply(u) in events && Apply(e.tick) in events;
      }
      if Delivered(init, k, t) { assert Apply(t) in events; }
    }
  }

  lemma ConsistentInit(events: seq<Event>)
    requires Consistent(events) && events != []
    ensures Consistent(events[..|events| - 1])
  {
    assert forall t | Apply(t) in events[..|events| - 1] :: Apply(t) in events;
  }

  ghost predicate SameTicks(a: seq<Event>, b: seq<Event>, k: Key) {
    forall t :: Delivered(a, k, t) <==> Delivered(b, k, t)
  }

  lemma SameDistinct(a: seq<Event>, b: seq<Event>, k: Key)
    requires Consistent(a) && Consistent(b) && SameTicks(a, b, k)
    ensures Distinct(a, k) == Distinct(b, k)
  {
    hide Delivered, Distinct;
    ReceiptsCoverDistinct(a, k);
    ReceiptsCoverDistinct(b, k);
    forall id ensures id in Distinct(a, k) ==> id in Distinct(b, k) && Distinct(b, k)[id] == Distinct(a, k)[id] {
      if id in Distinct(a, k) {
        DistinctIsDelivered(a, k, Distinct(a, k)[id]);
        DistinctIsDelivered(b, k, Distinct(a, k)[id]);
      }
    }
    forall id ensures id in Distinct(b, k) ==> id in Distinct(a, k) {
      if id in Distinct(b, k) {
        DistinctIsDelivered(a, k, Distinct(b, k)[id]);
        DistinctIsDelivered(b, k, Distinct(b, k)[id]);
      }
    }
  }

  lemma SameExtremes(r: Row, r': Row, ticks: seq<Tick>, ticks': seq<Tick>)
    requires IsGreatest(r.high, ticks) && IsGreatest(r'.high, ticks') && IsLeast(r.low, ticks)
    requires IsLeast(r'.low, ticks')
    requires forall t :: t in ticks <==> t in ticks'
    ensures r.high == r'.high && r.low == r'.low
  {}

  /** Order and repetition do not matter: two delivery sequences with the same ticks of a candle, duplicated and
      permuted in any way, give it the same volume, high and low. */
  lemma DeliveryOrderInvisible(a: seq<Event>, b: seq<Event>, k: Key)
    requires Consistent(a) && Consistent(b) && SameTicks(a, b, k)
    ensures k in Fold(a).candles <==> k in Fold(b).candles
    ensures k in Fold(a).candles ==>
      var r, r' := Fold(a).candles[k], Fold(b).candles[k];
      r.volume == r'.volume && r.high == r'.high && r.low == r'.low
  {
    hide Fold, Received, Distinct, SameTicks, Consistent, ClosesAt;
    SameDistinct(a, b, k);
    ReceiptsCoverDistinct(a, k);
    ReceiptsCoverDistinct(b, k);
    CandleSummarizesTicks(a, k);
    CandleSummarizesTicks(b, k);
    VolumeOverDistinct(a, k);
    VolumeOverDistinct(b, k);
    SameNonEmpty(Received(a, k), Received(b, k));
    if k in Fold(a).candles { SameExtremes(Fold(a).candles[k], Fold(b).candles[k], Received(a, k), Received(b, k)); }
  }

  lemma SameNonEmpty(ticks: seq<Tick>, ticks': seq<Tick>)
    requires forall t :: t in ticks <==> t in ticks'
    ensures ticks == [] <==> ticks' == []
  {
    assert ticks != [] ==> ticks[0] in ticks';
    assert ticks' != [] ==> ticks'[0] in ticks;
  }

  /** Every candle is a proper one: low at or below open and close, high at or above them. */
  lemma CandleIsProper(events: seq<Event>, k: Key)
    requires k in Fold(events).candles
    ensures var r := Fold(events).candles[k]; r.low <= r.open <= r.high && r.low <= r.close <= r.high
  {
    hide Fold, Received;
    CandleSummarizesTicks(events, k);
    var i: nat :| ClosesAt(Received(events, k), i, Fold(events).candles[k]);
    assert Received(events, k)[i] in Received(events, k) && Received(events, k)[0] in Received(events, k);
  }

  /** One statement: a candle is closed by that of a later minute's tick of its symbol, and never reopened. */
  lemma ClosedStep(table: Table, e: Event, k: Key)
    requires k in table.candles
    ensures k in Handle(table, e).candles
    ensures Handle(table, e).candles[k].isClosed <==> table.candles[k].isClosed || ClosesKey(e, k)
  {
    hide InSession, MinuteOf;
  }

  predicate ClosesKey(e: Event, k: Key) {
    e.Close? && Counts(e.tick) && e.tick.symbol == k.symbol && k.minute < MinuteOf(e.tick.time)
  }

  /** The i-th event closed the candle: it was there already. */
  predicate ClosedAt(events: seq<Event>, k: Key, i: nat) {
    i < |events| && ClosesKey(events[i], k) && Received(events[..i], k) != []
  }

  lemma ClosedAtInit(events: seq<Event>, k: Key, i: nat)
    requires events != []
    ensures ClosedAt(events, k, i)
       <==> ClosedAt(events[..|events| - 1], k, i)
            || (i == |events| - 1 && ClosesKey(events[i], k) && Received(events[..|events| - 1], k) != [])
  {
    hide ClosesKey, Received;
    if i < |events| - 1 { assert events[..|events| - 1][..i] == events[..i]; }
  }

  /** After any delivery sequence a candle is closed exactly when, after its first tick was received, some tick of
      a later minute of its symbol was handled. */
  lemma {:induction false} ClosedExactly(events: seq<Event>, k: Key)
    requires k in Fold(events).candles
    ensures Fold(events).candles[k].isClosed <==> exists i: nat :: ClosedAt(events, k, i)
  {
    hide ClosesKey, ClosedAt, InSession, MinuteOf, Handle;
    var init, e := events[..|events| - 1], events[|events| - 1];
    CandleSummarizesTicks(init, k);
    forall i: nat
      ensures ClosedAt(events, k, i) <==>
          ClosedAt(init, k, i) || (i == |events| - 1 && ClosesKey(e, k) && Received(init, k) != [])
    {
      ClosedAtInit(events, k, i);
    }
    if k in Fold(init).candles {
      ClosedExactly(init, k);
      ClosedStep(Fold(init), e, k);
      if Fold(init).candles[k].isClosed {
        var i: nat :| ClosedAt(init, k, i);
        assert ClosedAt(events, k, i);
      } else if ClosesKey(e, k) {
        assert ClosedAt(events, k, |events| - 1);
      }
    } else {
      NewIsOpen(Fold(init), e, k);
      NothingReceived(init, k);
    }
  }

  lemma NewIsOpen(table: Table, e: Event, k: Key)
    requires k !in table.candles && k in Handle(table, e).candles
    ensures !Handle(table, e).candles[k].isClosed
  {
    hide InSession, MinuteOf;
  }

  lemma {:induction false} NothingReceived(events: seq<Event>, k: Key)
    requires Received(events, k) == []
    ensures forall i: nat :: !ClosedAt(events, k, i)
  {
    hide ClosesKey, NewTick;
    if events != [] {
      NothingReceived(events[..|events| - 1], k);
      forall i: nat ensures !ClosedAt(events, k, i) { ClosedAtInit(events, k, i); }
    }
  }

  /** So a closed candle never reopens, whatever is delivered afterwards. */
  lemma {:induction false} ClosedForGood(events: seq<Event>, more: seq<Event>, k: Key)
    requires k in Fold(events).candles && Fold(events).candles[k].isClosed
    ensures k in Fold(events + more).candles && Fold(events + more).candles[k].isClosed
  {
    hide Handle, ClosesKey;
    if more == [] {
      assert events + more == events;
    } else {
      var init := more[..|more| - 1];
      ClosedForGood(events, init, k);
      assert (events + more)[..|events + more| - 1] == events + init;
      ClosedStep(Fold(events + init), more[|more| - 1], k);
    }
  }

  /** Only session minutes have candles, so the stored rows are a history the row-limited query can be trusted on. */
  lemma {:induction false} RowsInSession(events: seq<Event>)
    ensures forall k | k in Fold(events).candles :: InSession(k.minute)
  {
    hide InSession, MinuteOf;
    if events != [] { RowsInSession(events[..|events| - 1]); }
  }

  // ---- the worker ------------------------------------------------------------------------------

  /** A figure as a message carries it: not at all (or as an empty text), as a text, or as a number. */
  datatype Figure = Missing | Text(value: real) | Number(value: real)

  /** The handler takes a figure for given unless it is missing or the number zero; the text "0" is given. */
  predicate Given(f: Figure) {
    f.Text? || (f.Number? && f.value != 0.0)
  }

  datatype Message = Message(
    tickId: Option<TickId>, symbol: Option<Symbol>, price: Figure, volume: Figure, timestamp: Option<int>)

  predicate Complete(m: Message) {
    && m.tickId.Some? && m.symbol.Some? && m.symbol.value.name != "" && m.timestamp.Some?
    && Given(m.price) && Given(m.volume)
  }

  function TickIn(m: Message): Tick
    requires Complete(m)
  {
    Tick(m.tickId.value, m.symbol.value, m.price.value, m.volume.value, m.timestamp.value)
  }

  /** Closing only the open ones is closing all. */
  lemma OpenOnesClosed(candles: map<Key, Row>, open: set<Key>, t: Tick)
    requires forall k :: k in open <==>
        k in candles && k.symbol == t.symbol && k.minute < MinuteOf(t.time) && !candles[k].isClosed
    ensures (map k | k in candles :: if k in open then candles[k].(isClosed := true) else candles[k])
      == CloseOlder(candles, t)
  {
    hide MinuteOf;
    var closed := CloseOlder(candles, t);
    forall k | k in candles ensures closed[k] == if k in open then candles[k].(isClosed := true) else candles[k] {}
  }

  class OhlcvAggregatorWorker {
    var candles: map<Key, Row>
    var receipts: set<TickId>

    constructor ()
      ensures State() == Table(map[], {})
    {
      candles, receipts := map[], {};
    }

    function State(): Table
      reads this
    {
      Table(candles, receipts)
    }

    /** An incomplete message leaves no trace. */
    method HandleMessage(m: Message)
      modifies this
      ensures !Complete(m) ==> State() == old(State())
      ensures Complete(m) ==> State() == Handle(Handle(old(State()), Close(TickIn(m))), Apply(TickIn(m)))
    {
      hide MinuteOf, InSession;
      if m.tickId.None? || m.symbol.None? || m.symbol.value.name == "" || m.timestamp.None? { return; }
      if !Given(m.price) || !Given(m.volume) { return; }
      var t := TickIn(m);
      if !Counts(t) { return; }
      CloseOpenCandles(t);
      if t.id !in receipts {
        receipts := receipts + {t.id};
        var k := KeyOf(t);
        if k in candles {
          var r := candles[k];
          var high := if r.high >= t.price then r.high else t.price;
          var low := if r.low <= t.price then r.low else t.price;
          var late := t.time < r.lastTick;
          candles := candles[k := Row(r.open, high, low, if late then r.close else t.price, r.volume + t.volume,
                                      r.isClosed,
                                      if late then r.lastTick else t.time)];
        } else {
          candles := candles[k := Row(t.price, t.price, t.price, t.price, t.volume, false, t.time)];
        }
      }
    }

    method CloseOpenCandles(t: Tick)
      modifies this`candles
      ensures candles == CloseOlder(old(candles), t)
    {
      hide MinuteOf;
      var open := set k | k in candles && k.symbol == t.symbol && k.minute < MinuteOf(t.time) && !candles[k].isClosed;
      var todo := open;
      while todo != {}
        invariant todo <= open
        invariant candles == map k | k in old(candles) ::
          if k in open && k !in todo then old(candles)[k].(isClosed := true) else old(candles)[k]
        decreases |todo|
      {
        var k :| k in todo;
        todo := todo - {k};
        candles := candles[k := candles[k].(isClosed := true)];
      }
      OpenOnesClosed(old(candles), open, t);
    }
  }
}
