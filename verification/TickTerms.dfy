/** Ticks and candles by the clock: which ticks leave a trace, in which candle, and when it is closed, in milliseconds
    of Indian Standard Time. */
module TickTerms {
  import opened Prelude
  import opened Candles
  import opened TickFold

  /** From 09:15:00 up to but not including 15:30:00. */
  predicate DuringSession(time: int) {
    33300000 <= time % 86400000 < 55800000
  }

  lemma MinuteOfClock(time: int)
    ensures MinuteOf(time) * 60000 <= time < (MinuteOf(time) + 1) * 60000
    ensures InSession(MinuteOf(time)) <==> DuringSession(time)
  {
    var minute, day := time / 60000, time / 86400000;
    var sinceMidnight := time - day * 86400000;
    assert sinceMidnight == time % 86400000;
    assert minute == day * 1440 + sinceMidnight / 60000;
    assert minute % 1440 == sinceMidnight / 60000;
  }

  lemma MinuteIs(time: int, minute: int)
    requires minute * 60000 <= time < (minute + 1) * 60000
    ensures minute == time / 60000
  {}

  /** After any delivery sequence the ticks a candle received are of its symbol and of its minute. */
  lemma {:induction false} ReceivedInMinute(events: seq<Event>, k: Key)
    ensures forall t | t in Received(events, k) ::
      t.symbol == k.symbol && k.minute * 60000 <= t.time < (k.minute + 1) * 60000 && DuringSession(t.time)
  {
    hide MinuteOf, InSession, DuringSession, Fold;
    if events != [] {
      ReceivedInMinute(events[..|events| - 1], k);
      MinuteOfClock(events[|events| - 1].tick.time);
    }
  }

  /** Some candle received a tick with this id. */
  ghost predicate IdReceived(events: seq<Event>, id: TickId, k: Key, t: Tick) {
    t in Received(events, k) && t.id == id
  }

  lemma {:induction false} ReceiptMeansReceived(events: seq<Event>, id: TickId)
    ensures id in Fold(events).receipts <==> exists k, t :: IdReceived(events, id, k, t)
  {
    hide MinuteOf, InSession, CloseOlder, Updated, Inserted;
    if events != [] {
      var init, e := events[..|events| - 1], events[|events| - 1];
      ReceiptMeansReceived(init, id);
      if k, t :| IdReceived(init, id, k, t) { assert IdReceived(events, id, k, t); }
      if id in Fold(events).receipts && id !in Fold(init).receipts {
        assert IdReceived(events, id, KeyOf(e.tick), e.tick);
      }
      if k, t :| IdReceived(events, id, k, t) {
        if t in Received(init, k) { assert IdReceived(init, id, k, t); }
      }
    }
  }

  lemma {:induction false} DeliveredIsReceipted(events: seq<Event>, t: Tick)
    requires Apply(t) in events && DuringSession(t.time)
    ensures t.id in Fold(events).receipts
  {
    hide MinuteOf, InSession, CloseOlder, Updated, Inserted, DuringSession;
    var init, e := events[..|events| - 1], events[|events| - 1];
    MinuteOfClock(t.time);
    if e != Apply(t) {
      assert events == init + [e];
      DeliveredIsReceipted(init, t);
    }
  }

  /** A tick delivered during the session is received, unless another one was received under its id. */
  lemma DeliveredIsReceived(events: seq<Event>, t: Tick)
    requires Apply(t) in events && DuringSession(t.time)
    ensures exists k, u :: IdReceived(events, t.id, k, u)
  {
    DeliveredIsReceipted(events, t);
    ReceiptMeansReceived(events, t.id);
  }

  lemma {:induction false} ReceivedWasDelivered(events: seq<Event>, k: Key, t: Tick)
    requires t in Received(events, k)
    ensures Apply(t) in events
  {
    hide MinuteOf, InSession, Fold;
    var init, e := events[..|events| - 1], events[|events| - 1];
    assert events == init + [e];
    if t in Received(init, k) { ReceivedWasDelivered(init, k, t); }
  }

  /** Of the delivered ticks exactly those of the session are received, by the candle of their minute: a tick before
      09:15:00, or from 15:30:00 on, leaves no trace. */
  lemma ReceivedExactly(events: seq<Event>, t: Tick)
    requires Consistent(events) && Apply(t) in events
    ensures (exists k :: t in Received(events, k)) <==> DuringSession(t.time)
    ensures forall k :: t in Received(events, k) <==>
        DuringSession(t.time) && t.symbol == k.symbol && k.minute * 60000 <= t.time < (k.minute + 1) * 60000
  {
    hide DuringSession, Received;
    forall k ensures t in Received(events, k) ==>
        DuringSession(t.time) && t.symbol == k.symbol && k.minute * 60000 <= t.time < (k.minute + 1) * 60000
    {
      ReceivedInMinute(events, k);
    }
    if DuringSession(t.time) {
      DeliveredIsReceived(events, t);
      var own, u :| IdReceived(events, t.id, own, u);
      ReceivedWasDelivered(events, own, u);
      ReceivedInMinute(events, own);
      assert u == t && t in Received(events, own);
      forall k: Key | t.symbol == k.symbol && k.minute * 60000 <= t.time < (k.minute + 1) * 60000 ensures k == own {}
    }
  }

  /** A tick of the symbol, from the session and from after the candle's minute. */
  predicate Later(t: Tick, k: Key) {
    t.symbol == k.symbol && DuringSession(t.time) && t.time >= (k.minute + 1) * 60000
  }

  /** The i-th event was the closing statement of such a tick, and the candle was there. */
  predicate LaterAt(events: seq<Event>, k: Key, i: nat) {
    i < |events| && events[i].Close? && Later(events[i].tick, k) && k in Fold(events[..i]).candles
  }

  lemma LaterCloses(events: seq<Event>, k: Key, i: nat)
    ensures LaterAt(events, k, i) <==> ClosedAt(events, k, i)
  {
    hide MinuteOf, InSession, DuringSession, Fold, Received;
    if i < |events| {
      MinuteOfClock(events[i].tick.time);
      CandleSummarizesTicks(events[..i], k);
    }
  }

  /** A candle is closed exactly when, once it was there, the closing statement of a session tick from after its minute
      ran. */
  lemma ClosedByClock(events: seq<Event>, k: Key)
    requires k in Fold(events).candles
    ensures Fold(events).candles[k].isClosed <==> exists i: nat :: LaterAt(events, k, i)
  {
    hide LaterAt, ClosedAt, Fold;
    ClosedExactly(events, k);
    if i: nat :| LaterAt(events, k, i) { LaterCloses(events, k, i); }
    if i: nat :| ClosedAt(events, k, i) { LaterCloses(events, k, i); }
  }

  /** A figure that is there, as a text or as a number other than zero. */
  predicate Present(f: Figure) {
    match f
    case Missing => false
    case Text(_) => true
    case Number(x) => x != 0.0
  }

  /** A message under a new tick id leaves its receipt exactly when everything it needs is there and its time is one of
      the session; without that nothing is written at all. */
  lemma TraceExactly(table: Table, m: Message)
    requires m.tickId.Some? ==> m.tickId.value !in table.receipts
    ensures var table' := if Complete(m) then Handle(Handle(table, Close(TickIn(m))), Apply(TickIn(m))) else table;
            var leaves := m.tickId.Some? && m.symbol.Some? && m.symbol.value.name != "" && Present(m.price)
                          && Present(m.volume) && m.timestamp.Some? && DuringSession(m.timestamp.value);
            && (if leaves then table'.receipts == table.receipts + {m.tickId.value} else table' == table)
            && (leaves ==>
                  var k, price := Key(m.symbol.value, m.timestamp.value / 60000), m.price.value;
                  && k in table'.candles
                  && table'.candles[k].low <= price <= table'.candles[k].high
                  && (if k in table.candles then table'.candles[k].volume == table.candles[k].volume + m.volume.value
                      else table'.candles[k]
                             == Row(price, price, price, price, m.volume.value, false, m.timestamp.value)))
  {
    hide MinuteOf, InSession, DuringSession;
    if m.timestamp.Some? { MinuteOfClock(m.timestamp.value); }
    if m.timestamp.Some? { MinuteIs(m.timestamp.value, MinuteOf(m.timestamp.value)); }
  }
}
