/** Market candles: the session calendar, bucket boundaries, and aggregation of 1-minute candles into coarser
    ones. Times are whole minutes of Indian Standard Time. */
module Candles {
  import opened Prelude

  datatype Timeframe = M1 | M5 | M15 | H1 | D1

  datatype Candle = Candle(timestamp: int, open: real, high: real, low: real, close: real, volume: real, isClosed: bool)

  const DAY: int := 1440
  const OPENING: int := 555   // 09:15
  const CLOSING: int := 930   // 15:30

  function MinuteOfDay(t: int): int {
    t % DAY
  }

  function StartOfDay(t: int): int {
    t - t % DAY
  }

  /** A minute of the trading session. */
  predicate InSession(t: int) {
    OPENING <= MinuteOfDay(t) < CLOSING
  }

  /** Minutes per bucket, counted from the opening; a daily bucket is the whole session. */
  function BucketSize(tf: Timeframe): (n: nat)
    ensures n > 0
  {
    match tf
    case M1 => 1
    case M5 => 5
    case M15 => 15
    case H1 => 60
    case D1 => 375
  }

  /** Start of the bucket a minute falls in; a minute before the opening counts as the opening. */
  function GetBucketBoundary(t: int, tf: Timeframe): int {
    if tf.D1? then StartOfDay(t) + OPENING
    else
      var sinceOpening := MinuteOfDay(t) - OPENING;
      var effective := if sinceOpening >= 0 then sinceOpening else 0;
      StartOfDay(t) + OPENING + effective / BucketSize(tf) * BucketSize(tf)
  }

  /** A candle opening a bucket, and a bucket taking in its next candle. */
  function Opened(c: Candle, boundary: int): Candle {
    c.(timestamp := boundary)
  }

  function Merged(b: Candle, c: Candle): Candle {
    Candle(b.timestamp, b.open, Max(c.high, b.high), Min(c.low, b.low), c.close, b.volume + c.volume, c.isClosed)
  }

  /** Buckets so far, and one more candle. */
  function WithCandle(buckets: seq<Candle>, c: Candle, tf: Timeframe): seq<Candle> {
    var boundary := GetBucketBoundary(c.timestamp, tf);
    if buckets != [] && buckets[|buckets| - 1].timestamp == boundary then
      buckets[..|buckets| - 1] + [Merged(buckets[|buckets| - 1], c)]
    else
      buckets + [Opened(c, boundary)]
  }

  /** Candles in order, gathered bucket by bucket. */
  function Aggregate(candles: seq<Candle>, tf: Timeframe): seq<Candle> {
    if candles == [] then []
    else WithCandle(Aggregate(candles[..|candles| - 1], tf), candles[|candles| - 1], tf)
  }

  lemma AggregateMore(candles: seq<Candle>, c: Candle, tf: Timeframe)
    ensures Aggregate(candles + [c], tf) == WithCandle(Aggregate(candles, tf), c, tf)
  {
    assert (candles + [c])[..|candles + [c]| - 1] == candles;
  }

  predicate Ascending(candles: seq<Candle>) {
    forall i, j | 0 <= i < j < |candles| :: candles[i].timestamp < candles[j].timestamp
  }

  // ---- boundaries ------------------------------------------------------------------------------

  lemma DivisionBounds(x: int, n: nat)
    requires n > 0
    ensures x / n * n <= x < x / n * n + n
  {}

  lemma ProductMonotone(a: int, b: int, n: nat)
    ensures a <= b ==> a * n <= b * n
  {
    if a <= b { assert (b - a) * n >= 0; }
  }

  lemma DivisionMonotone(x: int, y: int, n: nat)
    requires n > 0 && x <= y
    ensures x / n * n <= y / n * n
  {
    DivisionBounds(x, n);
    DivisionBounds(y, n);
    RoundedOrder(x / n, y / n, n, x, y);
  }

  lemma RoundedOrder(p: int, q: int, n: nat, x: int, y: int)
    requires p * n <= x <= y < q * n + n
    ensures p * n <= q * n
  {
    ProductMonotone(p, q, n);
    ProductMonotone(q + 1, p, n);
    assert (q + 1) * n == q * n + n;
  }

  /** Later minutes never fall in an earlier bucket. */
  lemma BoundaryMonotone(t: int, u: int, tf: Timeframe)
    requires t <= u
    ensures GetBucketBoundary(t, tf) <= GetBucketBoundary(u, tf)
  {
    var x, y := MinuteOfDay(t) - OPENING, MinuteOfDay(u) - OPENING;
    var ex, ey := if x >= 0 then x else 0, if y >= 0 then y else 0;
    DayOrder(t, u);
    if StartOfDay(t) == StartOfDay(u) {
      DivisionMonotone(ex, ey, BucketSize(tf));
    } else {
      DivisionBounds(ex, BucketSize(tf));
      DivisionBounds(ey, BucketSize(tf));
      DivisionMonotone(0, ey, BucketSize(tf));
    }
  }

  lemma DayOrder(t: int, u: int)
    requires t <= u
    ensures StartOfDay(t) == StartOfDay(u) ==> MinuteOfDay(t) <= MinuteOfDay(u)
    ensures StartOfDay(t) != StartOfDay(u) ==> StartOfDay(t) + DAY <= StartOfDay(u)
    ensures 0 <= MinuteOfDay(t) < DAY && 0 <= MinuteOfDay(u) < DAY
  {}

  /** A session minute lies in its bucket, fewer than a bucket's minutes after its boundary. */
  lemma InBucket(t: int, tf: Timeframe)
    requires InSession(t)
    ensures GetBucketBoundary(t, tf) <= t < GetBucketBoundary(t, tf) + BucketSize(tf)
  {
    DivisionBounds(MinuteOfDay(t) - OPENING, BucketSize(tf));
  }

  predicate Coarser(f: Timeframe, g: Timeframe) {
    match g
    case M1 => f.M1?
    case M5 => f.M1? || f.M5?
    case M15 => f.M1? || f.M5? || f.M15?
    case H1 => !f.D1?
    case D1 => true
  }

  lemma FivesInFifteens(x: nat)
    ensures x / 5 * 5 / 15 == x / 15
  {
    var q, r := x / 15, x % 15;
    assert x == 15 * q + r;
    assert x / 5 == 3 * q + r / 5;
    assert x / 5 * 5 == 15 * q + r / 5 * 5 && 0 <= r / 5 * 5 < 15;
  }

  lemma FivesInSixties(x: nat)
    ensures x / 5 * 5 / 60 == x / 60
  {
    var q, r := x / 60, x % 60;
    assert x == 60 * q + r;
    assert x / 5 == 12 * q + r / 5;
    assert x / 5 * 5 == 60 * q + r / 5 * 5 && 0 <= r / 5 * 5 < 60;
  }

  lemma FifteensInSixties(x: nat)
    ensures x / 15 * 15 / 60 == x / 60
  {
    var q, r := x / 60, x % 60;
    assert x == 60 * q + r;
    assert x / 15 == 4 * q + r / 15;
    assert x / 15 * 15 == 60 * q + r / 15 * 15 && 0 <= r / 15 * 15 < 60;
  }

  /** Rounding down twice, first to a finer grid, is rounding down to the coarser one. */
  lemma MultipleOfMultiple(x: nat)
    ensures x / 5 * 5 / 15 == x / 15
    ensures x / 5 * 5 / 60 == x / 60
    ensures x / 15 * 15 / 60 == x / 60
  {
    FivesInFifteens(x);
    FivesInSixties(x);
    FifteensInSixties(x);
  }

  lemma RoundedTwice(x: nat, f: Timeframe, g: Timeframe)
    requires Coarser(f, g) && !f.D1? && !g.D1?
    ensures x / BucketSize(f) * BucketSize(f) / BucketSize(g) == x / BucketSize(g)
  {
    MultipleOfMultiple(x);
  }

  /** Boundary of a minute counted from the opening of a day. */
  lemma BoundaryFromOpening(start: int, b: nat, g: Timeframe)
    requires start % DAY == 0 && b < DAY - OPENING && !g.D1?
    ensures GetBucketBoundary(start + OPENING + b, g) == start + OPENING + b / BucketSize(g) * BucketSize(g)
  {
    SameDay(start, OPENING + b);
    hide MinuteOfDay, StartOfDay, BucketSize;
  }

  lemma BucketOfBoundary(start: int, effective: nat, f: Timeframe, g: Timeframe)
    requires start % DAY == 0 && effective < DAY - OPENING && Coarser(f, g) && !f.D1? && !g.D1?
    ensures GetBucketBoundary(start + OPENING + effective / BucketSize(f) * BucketSize(f), g)
         == start + OPENING + effective / BucketSize(g) * BucketSize(g)
  {
    hide BucketSize, GetBucketBoundary;
    DivisionBounds(effective, BucketSize(f));
    DivisionMonotone(0, effective, BucketSize(f));
    RoundedTwice(effective, f, g);
    BoundaryFromOpening(start, effective / BucketSize(f) * BucketSize(f), g);
  }

  lemma SameDay(start: int, minute: int)
    requires start % DAY == 0 && 0 <= minute < DAY
    ensures MinuteOfDay(start + minute) == minute && StartOfDay(start + minute) == start
  {}

  /** A bucket starts on the day of its minutes. */
  lemma BoundaryDay(t: int, f: Timeframe)
    ensures StartOfDay(GetBucketBoundary(t, f)) == StartOfDay(t)
  {
    DayOrder(t, t);
    var since := MinuteOfDay(t) - OPENING;
    var effective: nat := if since >= 0 then since else 0;
    DivisionBounds(effective, BucketSize(f));
    DivisionMonotone(0, effective, BucketSize(f));
    SameDay(StartOfDay(t), GetBucketBoundary(t, f) - StartOfDay(t));
  }

  /** The bucket of a bucket's start is the bucket of everything in it. */
  lemma BoundaryComposes(t: int, f: Timeframe, g: Timeframe)
    requires Coarser(f, g)
    ensures GetBucketBoundary(GetBucketBoundary(t, f), g) == GetBucketBoundary(t, g)
  {
    BoundaryDay(t, f);
    if !g.D1? {
      DayOrder(t, t);
      hide StartOfDay, MinuteOfDay, BucketSize;
      var since := MinuteOfDay(t) - OPENING;
      var effective: nat := if since >= 0 then since else 0;
      DayStart(t);
      BucketOfBoundary(StartOfDay(t), effective, f, g);
    }
  }

  lemma DayStart(t: int)
    ensures StartOfDay(t) % DAY == 0
  {}

  // ---- aggregation composes --------------------------------------------------------------------

  /** Merging is associative, and opening a bucket commutes with it. */
  lemma MergedAssociates(x: Candle, l: Candle, c: Candle, boundary: int, inner: int)
    ensures Merged(Merged(x, l), c) == Merged(x, Merged(l, c))
    ensures Merged(Opened(l, boundary), c) == Opened(Merged(l, c), boundary)
    ensures Merged(x, Opened(c, inner)) == Merged(x, c)
    ensures Opened(Opened(c, inner), boundary) == Opened(c, boundary)
  {}

  lemma {:induction false} LastBoundary(candles: seq<Candle>, tf: Timeframe)
    ensures Aggregate(candles, tf) == [] <==> candles == []
    ensures candles != [] ==>
      Aggregate(candles, tf)[|Aggregate(candles, tf)| - 1].timestamp
        == GetBucketBoundary(candles[|candles| - 1].timestamp, tf)
  {
    hide GetBucketBoundary;
  }

  /** A bucket that takes in one more candle, and is then put into a coarser one. */
  lemma CoarserMerge(buckets: seq<Candle>, l: Candle, c: Candle, g: Timeframe)
    requires GetBucketBoundary(l.timestamp, g) == GetBucketBoundary(c.timestamp, g)
    ensures WithCandle(WithCandle(buckets, l, g), c, g) == WithCandle(buckets, Merged(l, c), g)
  {
    hide GetBucketBoundary, Merged, Opened;
    var boundary := GetBucketBoundary(l.timestamp, g);
    assert Merged(l, c).timestamp == l.timestamp by { MergedTime(l, c); }
    MergedTime(Opened(l, boundary), c);
    OpenedTime(l, boundary);
    MergedAssociates(l, l, c, boundary, boundary);
    if buckets != [] && buckets[|buckets| - 1].timestamp == boundary {
      var x := buckets[|buckets| - 1];
      MergedTime(x, l);
      MergedAssociates(x, l, c, boundary, boundary);
    }
  }

  lemma MergedTime(b: Candle, c: Candle)
    ensures Merged(b, c).timestamp == b.timestamp
  {}

  lemma OpenedTime(c: Candle, boundary: int)
    ensures Opened(c, boundary).timestamp == boundary
  {}

  lemma CoarserOpen(buckets: seq<Candle>, c: Candle, f: Timeframe, g: Timeframe)
    requires Coarser(f, g)
    ensures WithCandle(buckets, Opened(c, GetBucketBoundary(c.timestamp, f)), g) == WithCandle(buckets, c, g)
  {
    hide GetBucketBoundary, Merged, Opened;
    BoundaryComposes(c.timestamp, f, g);
    var inner := GetBucketBoundary(c.timestamp, f);
    OpenedTime(c, inner);
    MergedAssociates(if buckets != [] then buckets[|buckets| - 1] else c, c, c, GetBucketBoundary(c.timestamp, g),
                     inner);
  }

  /** One more candle, put into fine buckets and those into coarse ones, or into the coarse ones at once. */
  lemma ComposeStep(fine: seq<Candle>, c: Candle, f: Timeframe, g: Timeframe)
    requires Coarser(f, g)
    ensures Aggregate(WithCandle(fine, c, f), g) == WithCandle(Aggregate(fine, g), c, g)
  {
    hide GetBucketBoundary, Merged, Opened, Aggregate;
    var boundary := GetBucketBoundary(c.timestamp, f);
    if fine != [] && fine[|fine| - 1].timestamp == boundary {
      var x, l := fine[..|fine| - 1], fine[|fine| - 1];
      BoundaryComposes(c.timestamp, f, g);
      assert fine == x + [l];
      AggregateMore(x, l, g);
      AggregateMore(x, Merged(l, c), g);
      CoarserMerge(Aggregate(x, g), l, c, g);
    } else {
      AggregateMore(fine, Opened(c, boundary), g);
      CoarserOpen(Aggregate(fine, g), c, f, g);
    }
  }

  /** Aggregating twice, first finely and then coarsely, is aggregating coarsely. */
  lemma {:induction false} AggregationComposes(candles: seq<Candle>, f: Timeframe, g: Timeframe)
    requires Coarser(f, g)
    ensures Aggregate(Aggregate(candles, f), g) == Aggregate(candles, g)
  {
    hide WithCandle;
    if candles != [] {
      var init, c := candles[..|candles| - 1], candles[|candles| - 1];
      AggregationComposes(init, f, g);
      ComposeStep(Aggregate(init, f), c, f, g);
    }
  }

  /** 1m to 5m to 15m to 1h gives the candles of 1m to 1h, and every stage those of going there directly. */
  lemma StagesCompose(candles: seq<Candle>)
    ensures Aggregate(Aggregate(candles, M5), M15) == Aggregate(candles, M15)
    ensures Aggregate(Aggregate(Aggregate(candles, M5), M15), H1) == Aggregate(candles, H1)
    ensures Aggregate(Aggregate(Aggregate(Aggregate(candles, M5), M15), H1), D1) == Aggregate(candles, D1)
  {
    AggregationComposes(candles, M5, M15);
    AggregationComposes(candles, M15, H1);
    AggregationComposes(candles, H1, D1);
  }

  // ---- order and volume ------------------------------------------------------------------------

  lemma AscendingMore(buckets: seq<Candle>, c: Candle, tf: Timeframe)
    requires Ascending(buckets)
    requires buckets != [] ==> buckets[|buckets| - 1].timestamp <= GetBucketBoundary(c.timestamp, tf)
    ensures Ascending(WithCandle(buckets, c, tf))
  {
    hide GetBucketBoundary;
  }

  /** Input in time order gives buckets in strictly increasing order. */
  lemma {:induction false} BucketsAscend(candles: seq<Candle>, tf: Timeframe)
    requires Ascending(candles)
    ensures Ascending(Aggregate(candles, tf))
  {
    hide GetBucketBoundary, WithCandle;
    if candles != [] {
      var init, c := candles[..|candles| - 1], candles[|candles| - 1];
      BucketsAscend(init, tf);
      LastBoundary(init, tf);
      if init != [] { BoundaryMonotone(init[|init| - 1].timestamp, c.timestamp, tf); }
      AscendingMore(Aggregate(init, tf), c, tf);
    }
  }

  function TotalVolume(candles: seq<Candle>): real {
    if candles == [] then 0.0 else TotalVolume(candles[..|candles| - 1]) + candles[|candles| - 1].volume
  }

  lemma VolumeMore(candles: seq<Candle>, c: Candle)
    ensures TotalVolume(candles + [c]) == TotalVolume(candles) + c.volume
  {
    assert (candles + [c])[..|candles + [c]| - 1] == candles;
  }

  lemma VolumeStep(buckets: seq<Candle>, c: Candle, tf: Timeframe)
    ensures TotalVolume(WithCandle(buckets, c, tf)) == TotalVolume(buckets) + c.volume
  {
    hide GetBucketBoundary, TotalVolume;
    if buckets != [] && buckets[|buckets| - 1].timestamp == GetBucketBoundary(c.timestamp, tf) {
      var x, l := buckets[..|buckets| - 1], buckets[|buckets| - 1];
      assert buckets == x + [l];
      VolumeMore(x, l);
      VolumeMore(x, Merged(l, c));
    } else {
      VolumeMore(buckets, Opened(c, GetBucketBoundary(c.timestamp, tf)));
    }
  }

  lemma {:induction false} VolumeConserved(candles: seq<Candle>, tf: Timeframe)
    ensures TotalVolume(Aggregate(candles, tf)) == TotalVolume(candles)
  {
    hide GetBucketBoundary, WithCandle;
    if candles != [] {
      VolumeConserved(candles[..|candles| - 1], tf);
      VolumeStep(Aggregate(candles[..|candles| - 1], tf), candles[|candles| - 1], tf);
    }
  }

  // ---- a suffix of the history -----------------------------------------------------------------

  predicate MeetInBucket(older: seq<Candle>, recent: seq<Candle>, tf: Timeframe)
    requires recent != []
  {
    older != [] && GetBucketBoundary(older[|older| - 1].timestamp, tf) == GetBucketBoundary(recent[0].timestamp, tf)
  }

  /** The buckets `some` are the last ones of `all`, up to the content of the first. */
  ghost predicate EndsIn(all: seq<Candle>, some: seq<Candle>) {
    && |all| >= |some| > 0
    && all[|all| - |some| + 1..] == some[1..]
    && all[|all| - |some|].timestamp == some[0].timestamp
  }

  lemma SuffixBaseStep(buckets: seq<Candle>, c: Candle, tf: Timeframe, boundary: int)
    requires boundary == GetBucketBoundary(c.timestamp, tf)
    ensures EndsIn(WithCandle(buckets, c, tf), [Opened(c, boundary)])
    ensures buckets == [] || buckets[|buckets| - 1].timestamp != boundary ==>
        WithCandle(buckets, c, tf) == buckets + [Opened(c, boundary)]
  {
    hide GetBucketBoundary;
  }

  lemma SuffixBase(older: seq<Candle>, c: Candle, tf: Timeframe)
    ensures EndsIn(Aggregate(older + [c], tf), Aggregate([c], tf))
    ensures !MeetInBucket(older, [c], tf) ==> Aggregate(older + [c], tf) == Aggregate(older, tf) + Aggregate([c], tf)
  {
    hide GetBucketBoundary, WithCandle, Opened, EndsIn;
    var boundary := GetBucketBoundary(c.timestamp, tf);
    LastBoundary(older, tf);
    AggregateMore(older, c, tf);
    AggregateMore([], c, tf);
    SuffixBaseStep(Aggregate(older, tf), c, tf, boundary);
    SuffixBaseStep([], c, tf, boundary);
    assert [] + [c] == [c] && [] + [Opened(c, boundary)] == [Opened(c, boundary)];
    assert Aggregate([], tf) == [];
    hide Aggregate;
  }

  /** Aggregating more history in front can only complete the first bucket: the later ones are the same. */
  lemma {:induction false} SuffixBuckets(older: seq<Candle>, recent: seq<Candle>, tf: Timeframe)
    requires recent != []
    ensures EndsIn(Aggregate(older + recent, tf), Aggregate(recent, tf))
    ensures !MeetInBucket(older, recent, tf) ==>
        Aggregate(older + recent, tf) == Aggregate(older, tf) + Aggregate(recent, tf)
  {
    hide GetBucketBoundary, Aggregate, WithCandle, EndsIn;
    var init, c := recent[..|recent| - 1], recent[|recent| - 1];
    assert recent == init + [c];
    if init == [] {
      assert recent == [c];
      SuffixBase(older, c, tf);
    } else {
      assert older + recent == (older + init) + [c];
      SuffixBuckets(older, init, tf);
      AggregateMore(older + init, c, tf);
      AggregateMore(init, c, tf);
      SuffixStep(Aggregate(older + init, tf), Aggregate(init, tf), c, tf);
      LastBoundary(init, tf);
      SuffixStepWhole(Aggregate(older, tf), Aggregate(init, tf), c, tf);
    }
  }

  lemma SuffixStep(all: seq<Candle>, some: seq<Candle>, c: Candle, tf: Timeframe)
    requires EndsIn(all, some)
    ensures EndsIn(WithCandle(all, c, tf), WithCandle(some, c, tf))
  {
    hide GetBucketBoundary;
    if |some| > 1 { assert all[|all| - 1] == all[|all| - |some| + 1..][|some| - 2] == some[|some| - 1]; }
    var all', some' := WithCandle(all, c, tf), WithCandle(some, c, tf);
    assert |all'| - |some'| == |all| - |some|;
    assert forall k | 1 <= k < |some| :: all[|all| - |some| + k] == all[|all| - |some| + 1..][k - 1] == some[k];
    assert forall k | 1 <= k < |some'| :: all'[|all'| - |some'| + k] == some'[k];
  }

  lemma SuffixStepWhole(before: seq<Candle>, some: seq<Candle>, c: Candle, tf: Timeframe)
    requires some != []
    ensures WithCandle(before + some, c, tf) == before + WithCandle(some, c, tf)
  {
    hide GetBucketBoundary, Merged, Opened;
    assert (before + some)[|before + some| - 1] == some[|some| - 1];
  }

  // ---- how many candles fit in a bucket --------------------------------------------------------

  ghost predicate SessionHistory(candles: seq<Candle>) {
    Ascending(candles) && forall c | c in candles :: InSession(c.timestamp)
  }

  /** All of one bucket. */
  ghost predicate OneBucket(candles: seq<Candle>, tf: Timeframe) {
    forall i, j | 0 <= i < |candles| && 0 <= j < |candles| ::
      GetBucketBoundary(candles[i].timestamp, tf) == GetBucketBoundary(candles[j].timestamp, tf)
  }

  lemma {:induction false} AscendingSpread(candles: seq<Candle>)
    requires Ascending(candles) && candles != []
    ensures candles[|candles| - 1].timestamp >= candles[0].timestamp + |candles| - 1
  {
    if |candles| > 1 { AscendingSpread(candles[..|candles| - 1]); }
  }

  /** Distinct session minutes of one bucket are at most as many as the bucket has. */
  lemma BucketCapacity(candles: seq<Candle>, tf: Timeframe)
    requires SessionHistory(candles) && OneBucket(candles, tf)
    ensures |candles| <= BucketSize(tf)
  {
    hide GetBucketBoundary, BucketSize;
    if candles != [] {
      assert candles[0] in candles && candles[|candles| - 1] in candles;
      AscendingSpread(candles);
      InBucket(candles[0].timestamp, tf);
      InBucket(candles[|candles| - 1].timestamp, tf);
    }
  }

  function Head(candles: seq<Candle>, n: nat): (head: seq<Candle>)
    requires n <= |candles|
    ensures |head| == n
  {
    candles[..n]
  }

  function Tail(candles: seq<Candle>, n: nat): (tail: seq<Candle>)
    requires n <= |candles|
    ensures |tail| == n
  {
    candles[|candles| - n..]
  }

  /** Length of the last run of candles of one bucket, and of the first. */
  function LastRun(candles: seq<Candle>, tf: Timeframe): nat {
    if candles == [] then 0
    else if |candles| > 1
      && GetBucketBoundary(candles[|candles| - 2].timestamp, tf)
           == GetBucketBoundary(candles[|candles| - 1].timestamp, tf)
    then LastRun(candles[..|candles| - 1], tf) + 1
    else 1
  }

  function FirstRun(candles: seq<Candle>, tf: Timeframe): nat {
    if candles == [] then 0
    else if FirstRun(candles[..|candles| - 1], tf) == |candles| - 1
            && (|candles| == 1
                || GetBucketBoundary(candles[|candles| - 2].timestamp, tf)
                  == GetBucketBoundary(candles[|candles| - 1].timestamp, tf))
    then |candles|
    else FirstRun(candles[..|candles| - 1], tf)
  }

  lemma OneMoreInBucket(run: seq<Candle>, c: Candle, tf: Timeframe)
    requires OneBucket(run, tf)
    requires run != [] ==> GetBucketBoundary(run[|run| - 1].timestamp, tf) == GetBucketBoundary(c.timestamp, tf)
    ensures OneBucket(run + [c], tf)
  {
    hide GetBucketBoundary;
  }

  lemma TailMore(init: seq<Candle>, c: Candle, n: nat)
    requires n <= |init|
    ensures Tail(init + [c], n + 1) == Tail(init, n) + [c]
  {}

  predicate SameBucket(c: Candle, d: Candle, tf: Timeframe) {
    GetBucketBoundary(c.timestamp, tf) == GetBucketBoundary(d.timestamp, tf)
  }

  lemma LastRunIs(init: seq<Candle>, c: Candle, tf: Timeframe)
    ensures LastRun(init + [c], tf) == if init != [] && SameBucket(init[|init| - 1], c, tf) then LastRun(init, tf) + 1
      else 1
  {
    hide GetBucketBoundary;
    assert (init + [c])[..|init + [c]| - 1] == init;
  }

  lemma LastRunMore(init: seq<Candle>, c: Candle, tf: Timeframe)
    requires LastRun(init, tf) <= |init| && OneBucket(Tail(init, LastRun(init, tf)), tf)
    requires (init != [] ==> LastRun(init, tf) > 0)
    ensures 0 < LastRun(init + [c], tf) <= |init + [c]| && OneBucket(Tail(init + [c], LastRun(init + [c], tf)), tf)
  {
    LastRunIs(init, c, tf);
    hide GetBucketBoundary, OneBucket, Tail, LastRun;
    var n := LastRun(init + [c], tf);
    TailMore(init, c, n - 1);
    if n == 1 { NoTail(init, tf); } else { TailEnds(init, n - 1); }
    OneMoreInBucket(Tail(init, n - 1), c, tf);
  }

  lemma NoTail(candles: seq<Candle>, tf: Timeframe)
    ensures Tail(candles, 0) == [] && OneBucket(Tail(candles, 0), tf)
  {
    NoBucket(tf);
    assert Tail(candles, 0) == [];
  }

  lemma TailEnds(candles: seq<Candle>, n: nat)
    requires 0 < n <= |candles|
    ensures Tail(candles, n)[n - 1] == candles[|candles| - 1]
  {}

  lemma {:induction false} LastRunIsOneBucket(candles: seq<Candle>, tf: Timeframe)
    ensures LastRun(candles, tf) <= |candles| && (candles != [] ==> LastRun(candles, tf) > 0)
    ensures OneBucket(Tail(candles, LastRun(candles, tf)), tf)
  {
    if candles == [] {
      NoTail(candles, tf);
    } else {
      hide LastRun, OneBucket, Tail;
      var init, c := candles[..|candles| - 1], candles[|candles| - 1];
      assert candles == init + [c];
      LastRunIsOneBucket(init, tf);
      LastRunMore(init, c, tf);
    }
  }

  lemma NoBucket(tf: Timeframe)
    ensures OneBucket([], tf)
  {}

  lemma {:induction false} FirstRunIsOneBucket(candles: seq<Candle>, tf: Timeframe)
    ensures FirstRun(candles, tf) <= |candles| && (candles != [] ==> FirstRun(candles, tf) > 0)
    ensures OneBucket(Head(candles, FirstRun(candles, tf)), tf)
  {
    hide GetBucketBoundary;
    if candles != [] {
      var init := candles[..|candles| - 1];
      FirstRunIsOneBucket(init, tf);
      if FirstRun(candles, tf) == |candles| {
        assert candles[..|candles|] == candles && init[..|init|] == init;
        if |candles| > 1 { assert candles[|candles| - 2] == init[|init| - 1]; }
      } else {
        assert candles[..FirstRun(candles, tf)] == init[..FirstRun(init, tf)];
      }
    }
  }

  lemma PartOfHistory(candles: seq<Candle>, i: nat, j: nat)
    requires SessionHistory(candles) && i <= j <= |candles|
    ensures SessionHistory(candles[i..j])
  {
    assert forall c | c in candles[i..j] :: c in candles;
  }

  lemma EndsOfHistory(candles: seq<Candle>, n: nat)
    requires SessionHistory(candles) && n <= |candles|
    ensures SessionHistory(Head(candles, n)) && SessionHistory(Tail(candles, n))
  {
    assert forall c | c in Head(candles, n) :: c in candles;
    assert forall c | c in Tail(candles, n) :: c in candles;
  }

  /** Neither the first run nor the last is longer than a bucket. */
  lemma RunsFit(candles: seq<Candle>, tf: Timeframe)
    requires SessionHistory(candles)
    ensures FirstRun(candles, tf) <= BucketSize(tf) && LastRun(candles, tf) <= BucketSize(tf)
    ensures FirstRun(candles, tf) <= |candles| && LastRun(candles, tf) <= |candles|
  {
    hide SessionHistory, OneBucket, BucketSize, Head, Tail;
    FirstRunIsOneBucket(candles, tf);
    LastRunIsOneBucket(candles, tf);
    EndsOfHistory(candles, FirstRun(candles, tf));
    EndsOfHistory(candles, LastRun(candles, tf));
    BucketCapacity(Head(candles, FirstRun(candles, tf)), tf);
    BucketCapacity(Tail(candles, LastRun(candles, tf)), tf);
  }

  /** One more candle either extends the last run or starts a bucket. */
  lemma RunsMore(init: seq<Candle>, c: Candle, tf: Timeframe)
    requires init != []
    ensures var same := GetBucketBoundary(init[|init| - 1].timestamp, tf) == GetBucketBoundary(c.timestamp, tf);
            && |Aggregate(init + [c], tf)| == |Aggregate(init, tf)| + (if same then 0 else 1)
            && LastRun(init + [c], tf) == (if same then LastRun(init, tf) + 1 else 1)
            && FirstRun(init + [c], tf)
                 == (if same && FirstRun(init, tf) == |init| then |init| + 1 else FirstRun(init, tf))
  {
    hide GetBucketBoundary, Merged, Opened;
    AggregateMore(init, c, tf);
    LastBoundary(init, tf);
    hide Aggregate;
    assert (init + [c])[..|init + [c]| - 1] == init;
  }

  /** Counting rows by buckets: besides the first run and the last, the buckets hold at most their capacity. */
  ghost predicate Counted(size: nat, buckets: nat, cap: nat, first: nat, last: nat) {
    && buckets > 0
    && (buckets == 1 ==> first == size == last)
    && (buckets > 1 ==> size <= first + cap * (buckets - 2) + last)
  }

  lemma CountedMore(size: nat, n: nat, cap: nat, first: nat, last: nat, same: bool)
    requires Counted(size, n, cap, first, last) && last <= cap && first <= size
    ensures Counted(size + 1, if same then n else n + 1, cap, if same && first == size then size + 1 else first,
                    if same then last + 1 else 1)
  {
    if !same && n > 1 { assert cap * (n - 1) == cap * (n - 2) + cap; }
    if same && n > 1 && first == size { assert cap * (n - 2) >= 0; }
  }

  lemma PigeonholeStep(init: seq<Candle>, c: Candle, tf: Timeframe)
    requires init != [] && SessionHistory(init)
    requires Counted(|init|, |Aggregate(init, tf)|, BucketSize(tf), FirstRun(init, tf), LastRun(init, tf))
    ensures Counted(|init + [c]|, |Aggregate(init + [c], tf)|, BucketSize(tf), FirstRun(init + [c], tf),
                    LastRun(init + [c], tf))
  {
    hide GetBucketBoundary, BucketSize, Counted, SessionHistory, Aggregate, FirstRun, LastRun;
    RunsFit(init, tf);
    RunsMore(init, c, tf);
    CountedMore(|init|, |Aggregate(init, tf)|, BucketSize(tf), FirstRun(init, tf), LastRun(init, tf),
                GetBucketBoundary(init[|init| - 1].timestamp, tf) == GetBucketBoundary(c.timestamp, tf));
  }

  lemma {:induction false} Pigeonhole(candles: seq<Candle>, tf: Timeframe)
    requires SessionHistory(candles) && candles != []
    ensures Counted(|candles|, |Aggregate(candles, tf)|, BucketSize(tf), FirstRun(candles, tf), LastRun(candles, tf))
  {
    hide GetBucketBoundary, BucketSize, Counted, Aggregate, FirstRun, LastRun;
    var init, c := candles[..|candles| - 1], candles[|candles| - 1];
    assert candles == init + [c];
    EndsOfHistory(candles, |candles| - 1);
    hide SessionHistory;
    if init == [] {
      assert candles == [c];
      OneCandle(c, tf);
    } else {
      Pigeonhole(init, tf);
      PigeonholeStep(init, c, tf);
    }
  }

  lemma OneCandle(c: Candle, tf: Timeframe)
    ensures Counted(1, |Aggregate([c], tf)|, BucketSize(tf), FirstRun([c], tf), LastRun([c], tf))
  {
    assert |Aggregate([c], tf)| == 1 by {
      hide FirstRun, LastRun, Counted, GetBucketBoundary, BucketSize;
      AggregateMore([], c, tf);
      assert [] + [c] == [c];
    }
    assert FirstRun([c], tf) == 1 && LastRun([c], tf) == 1 by {
      hide Aggregate, Counted, GetBucketBoundary, BucketSize;
      assert [c][..0] == [];
    }
    hide Aggregate, FirstRun, LastRun, GetBucketBoundary, BucketSize;
  }

  // ---- the row-limited query -------------------------------------------------------------------

  const MAX_LIMIT: nat := 1000

  function TakeLast(candles: seq<Candle>, n: nat): seq<Candle> {
    if |candles| <= n then candles else candles[|candles| - n..]
  }

  function CappedLimit(limit: nat): nat {
    if limit <= MAX_LIMIT then limit else MAX_LIMIT
  }

  /** What getCandles answers from a stored 1-minute history: it reads only the newest rows that could matter. */
  function GetCandles(history: seq<Candle>, tf: Timeframe, limit: nat): seq<Candle> {
    var capped := CappedLimit(limit);
    var base := TakeLast(history, capped * BucketSize(tf));
    if tf.M1? then base else TakeLast(Aggregate(base, tf), capped)
  }

  /** The newest of the older rows in front of a run of the same bucket. */
  lemma OneMoreInFront(run: seq<Candle>, c: Candle, tf: Timeframe)
    requires OneBucket(run, tf) && run != []
    requires GetBucketBoundary(c.timestamp, tf) == GetBucketBoundary(run[0].timestamp, tf)
    ensures OneBucket([c] + run, tf)
  {
    hide GetBucketBoundary;
  }

  lemma AroundTheCut(older: seq<Candle>, recent: seq<Candle>, n: nat)
    requires SessionHistory(older + recent) && older != [] && n <= |recent|
    ensures SessionHistory([older[|older| - 1]] + Head(recent, n))
  {
    hide InSession;
    PartOfHistory(older + recent, |older| - 1, |older| + n);
    assert (older + recent)[|older| - 1..|older| + n] == [older[|older| - 1]] + Head(recent, n);
  }

  /** A full first bucket leaves no room for an older row. */
  lemma FullBucketCutsHistory(older: seq<Candle>, recent: seq<Candle>, tf: Timeframe)
    requires SessionHistory(older + recent) && older != [] && recent != []
    requires FirstRun(recent, tf) >= BucketSize(tf)
    ensures !MeetInBucket(older, recent, tf)
  {
    hide GetBucketBoundary, BucketSize, SessionHistory, OneBucket, FirstRun;
    FirstRunIsOneBucket(recent, tf);
    var run, c := Head(recent, FirstRun(recent, tf)), older[|older| - 1];
    AroundTheCut(older, recent, FirstRun(recent, tf));
    if MeetInBucket(older, recent, tf) {
      OneMoreInFront(run, c, tf);
      BucketCapacity([c] + run, tf);
    }
  }

  lemma SingleMinute(init: seq<Candle>, c: Candle)
    requires Ascending(init + [c]) && InSession(c.timestamp)
    ensures WithCandle(init, c, M1) == init + [c]
  {
    InBucket(c.timestamp, M1);
    assert GetBucketBoundary(c.timestamp, M1) == c.timestamp;
    hide GetBucketBoundary, InSession;
    assert init != [] ==> (init + [c])[|init| - 1].timestamp < (init + [c])[|init|].timestamp;
  }

  lemma {:induction false} SingleMinutes(candles: seq<Candle>)
    requires SessionHistory(candles)
    ensures Aggregate(candles, M1) == candles
  {
    hide WithCandle, InSession;
    if candles != [] {
      var init, c := candles[..|candles| - 1], candles[|candles| - 1];
      EndsOfHistory(candles, |candles| - 1);
      SingleMinutes(init);
      assert c in candles && candles == init + [c];
      SingleMinute(init, c);
    }
  }

  lemma CutIsWhole(older: seq<Candle>, recent: seq<Candle>, tf: Timeframe, capped: nat)
    requires SessionHistory(older + recent) && older != [] && capped > 0 && |recent| == capped * BucketSize(tf)
    ensures TakeLast(Aggregate(recent, tf), capped) == TakeLast(Aggregate(older + recent, tf), capped)
  {
    hide GetBucketBoundary, BucketSize, Aggregate, FirstRun, LastRun, SessionHistory, EndsIn, OneBucket;
    EnoughRows(capped, BucketSize(tf));
    EndsOfHistory(older + recent, |recent|);
    assert Tail(older + recent, |recent|) == recent;
    Pigeonhole(recent, tf);
    RunsFit(recent, tf);
    EnoughBuckets(|Aggregate(recent, tf)|, BucketSize(tf), FirstRun(recent, tf), LastRun(recent, tf), capped, |recent|);
    SuffixBuckets(older, recent, tf);
    if |Aggregate(recent, tf)| == capped {
      FullBucketCutsHistory(older, recent, tf);
      SameLastWhole(Aggregate(older, tf), Aggregate(recent, tf), capped);
    } else {
      SameLast(Aggregate(older + recent, tf), Aggregate(recent, tf), capped);
    }
  }

  lemma SameLastWhole(before: seq<Candle>, some: seq<Candle>, n: nat)
    requires |some| == n
    ensures TakeLast(some, n) == TakeLast(before + some, n)
  {
    assert (before + some)[|before + some| - n..] == some;
  }

  lemma SameLast(all: seq<Candle>, some: seq<Candle>, n: nat)
    requires EndsIn(all, some) && n < |some|
    ensures TakeLast(some, n) == TakeLast(all, n)
  {
    assert all[|all| - n..] == all[|all| - |some| + 1..][|some| - 1 - n..];
    assert some[|some| - n..] == some[1..][|some| - 1 - n..];
  }

  lemma EnoughRows(capped: nat, cap: nat)
    requires capped > 0 && cap > 0
    ensures capped * cap > 0
  {}

  /** The rows read are enough for the buckets asked for; with exactly as many, the first is full. */
  lemma EnoughBuckets(n: nat, cap: nat, first: nat, last: nat, capped: nat, size: nat)
    requires cap > 0 && first <= cap && last <= cap && size == capped * cap && Counted(size, n, cap, first, last)
    ensures n >= capped && (n == capped ==> first == cap)
  {
    if n > 1 {
      Factor(cap, n - 2);
      MoreRows(n, capped, cap);
    } else {
      MoreRows(1, capped, cap);
    }
  }

  lemma Factor(cap: nat, m: nat)
    ensures cap * m + cap + cap == (m + 2) * cap
  {}

  lemma MoreRows(n: nat, m: nat, cap: nat)
    requires cap > 0
    ensures n < m ==> n * cap < m * cap
    ensures n == m ==> n * cap == m * cap
  {
    if n < m { assert (m - n) * cap > 0; }
  }

  lemma NothingAsked(history: seq<Candle>, tf: Timeframe)
    ensures GetCandles(history, tf, 0) == [] && TakeLast(Aggregate(history, tf), 0) == []
  {
    assert TakeLast(history, 0) == [];
    assert Aggregate([], tf) == [];
  }

  /** The row limit is invisible: over minute-aligned, unique, in-session rows the answer is the last buckets of
      aggregating the whole stored history, never one made partial by the cut-off. */
  lemma RowLimitInvisible(history: seq<Candle>, tf: Timeframe, limit: nat)
    requires SessionHistory(history)
    ensures GetCandles(history, tf, limit) == TakeLast(Aggregate(history, tf), CappedLimit(limit))
  {
    hide GetBucketBoundary, Aggregate, SessionHistory;
    var capped := CappedLimit(limit);
    if limit == 0 {
      NothingAsked(history, tf);
    } else if tf.M1? {
      SingleMinutes(history);
    } else {
      hide BucketSize;
      var rows := capped * BucketSize(tf);
      if |history| > rows {
        var older, recent := history[..|history| - rows], history[|history| - rows..];
        assert history == older + recent;
        CutIsWhole(older, recent, tf, capped);
      }
    }
  }
}
