/** Aggregated candles by the clock: where the buckets lie, and what each of them holds of the rows. */
module CandleTerms {
  import opened Candles

  /** Minutes per bucket. */
  function Minutes(tf: Timeframe): nat {
    match tf
    case M1 => 1
    case M5 => 5
    case M15 => 15
    case H1 => 60
    case D1 => 375
  }

  /** The buckets of a day begin at 09:15 and follow each other; a minute from 09:15 on lies in the one it is counted
      to, one before 09:15 counts to the first. A day has one daily bucket. */
  lemma BucketsOfTheDay(t: int, tf: Timeframe)
    ensures var b, n := GetBucketBoundary(t, tf), Minutes(tf);
            && b / 1440 == t / 1440 && 555 <= b % 1440
            && (tf.D1? || t % 1440 < 555 ==> b % 1440 == 555)
            && (!tf.D1? ==> (b % 1440 - 555) % n == 0)
            && (!tf.D1? && t % 1440 >= 555 ==> b <= t < b + n)
            && (555 <= t % 1440 < 930 ==> b <= t < b + n)
  {
    BoundaryDay(t, tf);
    var since := t % 1440 - 555;
    var effective: nat := if since >= 0 then since else 0;
    DivisionBounds(effective, BucketSize(tf));
    DivisionMonotone(0, effective, BucketSize(tf));
    if !tf.D1? { WholeBuckets(t, effective, tf); }
  }

  lemma WholeBuckets(t: int, effective: nat, tf: Timeframe)
    requires effective < 885 && !tf.D1?
    ensures effective / Minutes(tf) * Minutes(tf) % Minutes(tf) == 0
    ensures (t - t % 1440 + 555 + effective / Minutes(tf) * Minutes(tf)) % 1440
         == 555 + effective / Minutes(tf) * Minutes(tf)
  {
    DivisionBounds(effective, Minutes(tf));
    WithinDay(t, 555 + effective / Minutes(tf) * Minutes(tf));
  }

  lemma WithinDay(t: int, minute: nat)
    requires minute < 1440
    ensures (t - t % 1440 + minute) % 1440 == minute
  {}

  // ---- what a bucket holds ---------------------------------------------------------------------

  /** The rows counted to a bucket. */
  function RowsOf(candles: seq<Candle>, tf: Timeframe, boundary: int): seq<Candle> {
    if candles == [] then []
    else
      var rest, c := RowsOf(candles[..|candles| - 1], tf, boundary), candles[|candles| - 1];
      if GetBucketBoundary(c.timestamp, tf) == boundary then rest + [c] else rest
  }

  /** First open, greatest high, least low, last close, total volume, and closed when the last row is. */
  ghost predicate Holds(b: Candle, rows: seq<Candle>) {
    && rows != [] && b.open == rows[0].open && b.close == rows[|rows| - 1].close
    && b.isClosed == rows[|rows| - 1].isClosed && b.volume == TotalVolume(rows)
    && (exists c :: c in rows && c.high == b.high) && (forall c | c in rows :: c.high <= b.high)
    && (exists c :: c in rows && c.low == b.low) && (forall c | c in rows :: b.low <= c.low)
  }

  lemma OpenedHolds(c: Candle, boundary: int)
    ensures Holds(Opened(c, boundary), [c])
  {
    assert c in [c];
    VolumeMore([], c);
    assert [] + [c] == [c];
  }

  lemma MergedHolds(b: Candle, rows: seq<Candle>, c: Candle)
    requires Holds(b, rows)
    ensures Holds(Merged(b, c), rows + [c])
  {
    var more := rows + [c];
    VolumeMore(rows, c);
    assert c in more && forall x | x in rows :: x in more;
    var high :| high in rows && high.high == b.high;
    var low :| low in rows && low.low == b.low;
    assert (if c.high >= b.high then c else high) in more && (if c.low <= b.low then c else low) in more;
  }

  lemma RowsMore(candles: seq<Candle>, c: Candle, tf: Timeframe, boundary: int)
    ensures GetBucketBoundary(c.timestamp, tf) == boundary ==>
      RowsOf(candles + [c], tf, boundary) == RowsOf(candles, tf, boundary) + [c]
    ensures GetBucketBoundary(c.timestamp, tf) != boundary ==>
      RowsOf(candles + [c], tf, boundary) == RowsOf(candles, tf, boundary)
  {
    hide GetBucketBoundary;
    assert (candles + [c])[..|candles + [c]| - 1] == candles;
  }

  /** Rows in order are never counted to a later bucket than the last. */
  lemma {:induction false} NothingBeyond(candles: seq<Candle>, tf: Timeframe, boundary: int)
    requires Ascending(candles)
    requires candles != [] ==> GetBucketBoundary(candles[|candles| - 1].timestamp, tf) < boundary
    ensures RowsOf(candles, tf, boundary) == []
  {
    hide GetBucketBoundary;
    if candles != [] {
      var init := candles[..|candles| - 1];
      if init != [] { BoundaryMonotone(init[|init| - 1].timestamp, candles[|candles| - 1].timestamp, tf); }
      NothingBeyond(init, tf, boundary);
    }
  }

  ghost predicate AllHold(buckets: seq<Candle>, candles: seq<Candle>, tf: Timeframe) {
    forall i | 0 <= i < |buckets| :: Holds(buckets[i], RowsOf(candles, tf, buckets[i].timestamp))
  }

  lemma AscendingInit(candles: seq<Candle>, c: Candle)
    requires Ascending(candles + [c])
    ensures Ascending(candles) && (candles != [] ==> candles[|candles| - 1].timestamp < c.timestamp)
  {
    var more := candles + [c];
    assert forall i | 0 <= i < |candles| :: more[i] == candles[i];
    assert more[|candles|] == c;
  }

  lemma HoldsOneMore(candles: seq<Candle>, c: Candle, tf: Timeframe)
    requires Ascending(candles + [c]) && AllHold(Aggregate(candles, tf), candles, tf)
    ensures AllHold(WithCandle(Aggregate(candles, tf), c, tf), candles + [c], tf)
  {
    hide GetBucketBoundary, Holds, Aggregate, Merged, Opened, RowsOf;
    var buckets, boundary := Aggregate(candles, tf), GetBucketBoundary(c.timestamp, tf);
    var buckets' := WithCandle(buckets, c, tf);
    AscendingInit(candles, c);
    BucketsAscend(candles, tf);
    LastBoundary(candles, tf);
    if candles != [] { BoundaryMonotone(candles[|candles| - 1].timestamp, c.timestamp, tf); }
    OpenedTime(c, boundary);
    forall i | 0 <= i < |buckets'|
      ensures Holds(buckets'[i], RowsOf(candles + [c], tf, buckets'[i].timestamp))
    {
      RowsMore(candles, c, tf, buckets'[i].timestamp);
      if i == |buckets'| - 1 {
        if buckets != [] && buckets[|buckets| - 1].timestamp == boundary {
          MergedTime(buckets[|buckets| - 1], c);
          MergedHolds(buckets[|buckets| - 1], RowsOf(candles, tf, boundary), c);
        } else {
          NothingBeyond(candles, tf, boundary);
          OpenedHolds(c, boundary);
          assert [] + [c] == [c];
        }
      } else {
        assert buckets'[i] == buckets[i] && buckets[i].timestamp < boundary;
      }
    }
  }

  /** Every aggregated candle holds exactly the rows counted to its bucket, and every row is counted to one. */
  lemma {:induction false} BucketsHoldTheirRows(candles: seq<Candle>, tf: Timeframe)
    requires Ascending(candles)
    ensures AllHold(Aggregate(candles, tf), candles, tf)
  {
    hide WithCandle, AllHold;
    if candles == [] {
      NothingHeld(tf);
    } else {
      var init, c := candles[..|candles| - 1], candles[|candles| - 1];
      assert candles == init + [c];
      BucketsHoldTheirRows(init, tf);
      HoldsOneMore(init, c, tf);
    }
  }

  lemma NothingHeld(tf: Timeframe)
    ensures AllHold(Aggregate([], tf), [], tf)
  {}

  /** The answer on a stored session history is its newest buckets, as many as were asked for, but no more than a
      thousand. */
  lemma AnswerSize(history: seq<Candle>, tf: Timeframe, limit: nat)
    requires SessionHistory(history)
    ensures var answer, all := GetCandles(history, tf, limit), Aggregate(history, tf);
            && |answer| <= |all| && answer == all[|all| - |answer|..]
            && |answer| <= limit && |answer| <= 1000
            && (|answer| < |all| ==> |answer| == limit || |answer| == 1000)
  {
    hide GetCandles, Aggregate, SessionHistory;
    RowLimitInvisible(history, tf, limit);
  }

  /** The first minutes of a session, one share traded in each. */
  function FirstMinutes(n: nat): (candles: seq<Candle>)
    ensures |candles| == n
  {
    seq(n, (i: nat) => Candle(555 + i, 1.0, 1.0, 1.0, 1.0, 1.0, true))
  }

  lemma {:induction false} OneShareEach(candles: seq<Candle>)
    requires forall c | c in candles :: c.volume == 1.0
    ensures TotalVolume(candles) == |candles| as real
  {
    if candles != [] {
      assert forall c | c in candles[..|candles| - 1] :: c in candles;
      OneShareEach(candles[..|candles| - 1]);
    }
  }

  lemma FirstMinute(n: nat, tf: Timeframe, c: Candle)
    requires n <= Minutes(tf) && c in FirstMinutes(n)
    ensures InSession(c.timestamp) && GetBucketBoundary(c.timestamp, tf) == 555 && c.volume == 1.0
  {
    BucketsOfTheDay(c.timestamp, tf);
  }

  lemma FullBucket(n: nat, tf: Timeframe)
    requires n <= Minutes(tf)
    ensures SessionHistory(FirstMinutes(n)) && OneBucket(FirstMinutes(n), tf)
    ensures forall c | c in FirstMinutes(n) :: c.volume == 1.0
  {
    forall c | c in FirstMinutes(n)
      ensures InSession(c.timestamp) && GetBucketBoundary(c.timestamp, tf) == 555 && c.volume == 1.0
    {
      FirstMinute(n, tf, c);
    }
    hide InSession, GetBucketBoundary;
  }

  lemma FewerRows(history: seq<Candle>, tf: Timeframe, k: nat)
    requires k < |history| && forall c | c in history :: c.volume == 1.0
    ensures Aggregate(TakeLast(history, k), tf) != Aggregate(history, tf)
  {
    hide Aggregate;
    OneShareEach(history);
    OneShareEach(TakeLast(history, k));
    VolumeConserved(history, tf);
    VolumeConserved(TakeLast(history, k), tf);
  }

  /** Reading fewer rows would not do: a bucket can be full, and then the answer needs every one of them. */
  lemma RowLimitNeeded(tf: Timeframe, k: nat)
    requires k < BucketSize(tf)
    ensures var history := FirstMinutes(BucketSize(tf));
            && SessionHistory(history) && OneBucket(history, tf)
            && Aggregate(TakeLast(history, k), tf) != Aggregate(history, tf)
  {
    hide Aggregate, SessionHistory, OneBucket, TakeLast, FirstMinutes;
    FullBucket(BucketSize(tf), tf);
    FewerRows(FirstMinutes(BucketSize(tf)), tf, k);
  }
}
