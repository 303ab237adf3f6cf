/** The candle service: rows are read newest first, grouped in a map by bucket, and summarized group by group. */
module CandleServices {
  import opened Candles

  /** Summary of one group, oldest candle first. */
  function Summary(group: seq<Candle>, boundary: int): Candle
    requires group != []
  {
    if |group| == 1 then Opened(group[0], boundary)
    else Merged(Summary(group[..|group| - 1], boundary), group[|group| - 1])
  }

  lemma SummaryMore(group: seq<Candle>, c: Candle, boundary: int)
    requires group != []
    ensures Summary(group + [c], boundary) == Merged(Summary(group, boundary), c)
  {
    assert (group + [c])[..|group + [c]| - 1] == group;
  }

  lemma {:induction false} SummaryTime(group: seq<Candle>, boundary: int)
    requires group != []
    ensures Summary(group, boundary).timestamp == boundary
  {
    if |group| > 1 { SummaryTime(group[..|group| - 1], boundary); }
  }

  /** The groups, in order of insertion, summarize to these buckets. */
  ghost predicate Gathered(keys: seq<int>, grouped: map<int, seq<Candle>>, buckets: seq<Candle>) {
    && |keys| == |buckets|
    && (forall k | k in keys :: k in grouped && grouped[k] != [])
    && (forall k | k in grouped :: k in keys)
    && (forall i | 0 <= i < |keys| :: buckets[i] == Summary(grouped[keys[i]], keys[i]))
    && (forall i, j | 0 <= i < j < |keys| :: keys[i] < keys[j])
  }

  lemma KeyIsTime(keys: seq<int>, grouped: map<int, seq<Candle>>, buckets: seq<Candle>)
    requires Gathered(keys, grouped, buckets)
    ensures forall i | 0 <= i < |keys| :: buckets[i].timestamp == keys[i]
  {
    forall i | 0 <= i < |keys| ensures buckets[i].timestamp == keys[i] { SummaryTime(grouped[keys[i]], keys[i]); }
  }

  /** In time order a known key is the last one. */
  lemma KnownKeyIsLast(keys: seq<int>, grouped: map<int, seq<Candle>>, buckets: seq<Candle>, key: int)
    requires Gathered(keys, grouped, buckets) && (keys != [] ==> keys[|keys| - 1] <= key)
    ensures key in grouped <==> keys != [] && keys[|keys| - 1] == key
  {
    if key in grouped {
      var i :| 0 <= i < |keys| && keys[i] == key;
    }
  }

  lemma JoinGroup(keys: seq<int>, grouped: map<int, seq<Candle>>, buckets: seq<Candle>, c: Candle, tf: Timeframe)
    requires Gathered(keys, grouped, buckets) && keys != [] && keys[|keys| - 1] == GetBucketBoundary(c.timestamp, tf)
    ensures Gathered(keys, grouped[keys[|keys| - 1] := grouped[keys[|keys| - 1]] + [c]], WithCandle(buckets, c, tf))
  {
    hide GetBucketBoundary, Merged, Summary;
    var key := keys[|keys| - 1];
    KeyIsTime(keys, grouped, buckets);
    SummaryMore(grouped[key], c, key);
  }

  lemma NewGroup(keys: seq<int>, grouped: map<int, seq<Candle>>, buckets: seq<Candle>, c: Candle, tf: Timeframe)
    requires Gathered(keys, grouped, buckets) && (keys != [] ==> keys[|keys| - 1] < GetBucketBoundary(c.timestamp, tf))
    ensures Gathered(keys + [GetBucketBoundary(c.timestamp, tf)], grouped[GetBucketBoundary(c.timestamp, tf) := [c]],
                     WithCandle(buckets, c, tf))
  {
    hide GetBucketBoundary, Merged;
    KeyIsTime(keys, grouped, buckets);
    hide Summary;
    SummaryOfOne(c, GetBucketBoundary(c.timestamp, tf));
  }

  lemma SummaryOfOne(c: Candle, boundary: int)
    ensures Summary([c], boundary) == Opened(c, boundary)
  {}

  class MarketCandleService {
    /** The stored 1-minute rows of the symbol, oldest first. */
    var rows: seq<Candle>

    constructor (history: seq<Candle>)
      ensures rows == history
    {
      rows := history;
    }

    /** The newest rows, newest first. */
    method FindNewest(take: nat) returns (found: seq<Candle>)
      ensures |found| == (if take <= |rows| then take else |rows|)
      ensures forall i | 0 <= i < |found| :: found[i] == rows[|rows| - 1 - i]
    {
      found := [];
      while |found| < take && |found| < |rows|
        invariant |found| <= take && |found| <= |rows|
        invariant forall i | 0 <= i < |found| :: found[i] == rows[|rows| - 1 - i]
      {
        found := found + [rows[|rows| - 1 - |found|]];
      }
    }

    method Reverse(candles: seq<Candle>) returns (reversed: seq<Candle>)
      ensures |reversed| == |candles| && forall i | 0 <= i < |candles| :: reversed[i] == candles[|candles| - 1 - i]
    {
      reversed := [];
      for i := 0 to |candles|
        invariant |reversed| == i && forall k | 0 <= k < i :: reversed[k] == candles[|candles| - 1 - k]
      {
        reversed := reversed + [candles[|candles| - 1 - i]];
      }
    }

    /** Gathers the candles in a map by bucket, then summarizes every group with running extremes. */
    method AggregateCandles(candles: seq<Candle>, tf: Timeframe) returns (result: seq<Candle>)
      requires Ascending(candles)
      ensures result == Aggregate(candles, tf)
    {
      var keys: seq<int> := [];
      var grouped: map<int, seq<Candle>> := map[];
      hide GetBucketBoundary, Gathered, WithCandle, Summary;
      NothingGathered();
      for i := 0 to |candles|
        invariant Gathered(keys, grouped, Aggregate(candles[..i], tf))
        invariant keys != [] ==> i > 0 && keys[|keys| - 1] == GetBucketBoundary(candles[i - 1].timestamp, tf)
      {
        var c := candles[i];
        var key := GetBucketBoundary(c.timestamp, tf);
        assert candles[..i + 1] == candles[..i] + [c];
        AggregateMore(candles[..i], c, tf);
        if i > 0 { BoundaryMonotone(candles[i - 1].timestamp, c.timestamp, tf); }
        KnownKeyIsLast(keys, grouped, Aggregate(candles[..i], tf), key);
        GatheredKeys(keys, grouped, Aggregate(candles[..i], tf));
        if key !in grouped {
          NewGroup(keys, grouped, Aggregate(candles[..i], tf), c, tf);
          keys := keys + [key];
          grouped := grouped[key := [c]];
        } else {
          JoinGroup(keys, grouped, Aggregate(candles[..i], tf), c, tf);
          grouped := grouped[key := grouped[key] + [c]];
        }
      }
      assert candles[..|candles|] == candles;
      GatheredKeys(keys, grouped, Aggregate(candles, tf));
      result := [];
      for i := 0 to |keys|
        invariant |result| == i && forall k | 0 <= k < i :: result[k] == Summary(grouped[keys[k]], keys[k])
      {
        var summary := Summarize(grouped[keys[i]], keys[i]);
        result := result + [summary];
      }
      AllSummarized(keys, grouped, Aggregate(candles, tf), result);
    }

    method Summarize(group: seq<Candle>, key: int) returns (bucket: Candle)
      requires group != []
      ensures bucket == Summary(group, key)
    {
      var open, high, low := group[0].open, group[0].high, group[0].low;
      var close := group[|group| - 1].close;
      var volume, isClosed := 0.0, true;
      hide Summary, Running;
      RunningStarts(group, key);
      for i := 0 to |group|
        invariant Running(group, key, i, high, low, volume)
        invariant isClosed == (i < |group| || group[|group| - 1].isClosed)
      {
        var c := group[i];
        RunningMoves(group, key, i, high, low, volume);
        if c.high > high { high := c.high; }
        if c.low < low { low := c.low; }
        volume := volume + c.volume;
        if i == |group| - 1 && !c.isClosed { isClosed := false; }
      }
      RunningEnds(group, key, high, low, volume);
      return Candle(key, open, high, low, close, volume, isClosed);
    }

    /** Reads as many 1-minute rows as the asked-for buckets could need, and aggregates them. */
    method FindCandles(tf: Timeframe, limit: nat) returns (result: seq<Candle>)
      requires Ascending(rows)
      ensures result == GetCandles(rows, tf, limit)
      ensures SessionHistory(rows) ==> result == TakeLast(Aggregate(rows, tf), CappedLimit(limit))
    {
      hide Aggregate, BucketSize, SessionHistory, GetCandles, TakeLast;
      LimitInvisible(rows, tf, limit);
      var capped := if limit <= MAX_LIMIT then limit else MAX_LIMIT;
      var needed := capped * BucketSize(tf);
      var newest := FindNewest(needed);
      var base := Reverse(newest);
      NewestReversed(rows, newest, base, needed);
      Answers(rows, tf, limit, needed);
      hide Ascending;
      if base == [] { return []; }
      if tf.M1? { return base; }
      var buckets := AggregateCandles(base, tf);
      Latest(buckets, capped);
      return if |buckets| <= capped then buckets else buckets[|buckets| - capped..];
    }
  }

  /** What the loop has gathered of the first i candles of a group. */
  ghost predicate Running(group: seq<Candle>, key: int, i: nat, high: real, low: real, volume: real)
    requires group != []
  {
    && i <= |group| && (i == 0 ==> volume == 0.0 && high == group[0].high && low == group[0].low)
    && (i > 0 ==>
          Summary(group[..i], key)
            == Candle(key, group[0].open, high, low, group[i - 1].close, volume, group[i - 1].isClosed))
  }

  lemma RunningStarts(group: seq<Candle>, key: int)
    requires group != []
    ensures Running(group, key, 0, group[0].high, group[0].low, 0.0)
  {}

  lemma RunningMoves(group: seq<Candle>, key: int, i: nat, high: real, low: real, volume: real)
    requires group != [] && i < |group| && Running(group, key, i, high, low, volume)
    ensures var c := group[i];
            Running(group, key, i + 1, if c.high > high then c.high else high, if c.low < low then c.low else low,
                    volume + c.volume)
  {
    if i == 0 {
      SummaryOfOne(group[0], key);
      assert group[..1] == [group[0]];
    } else {
      hide Summary;
      assert group[..i + 1] == group[..i] + [group[i]];
      SummaryMore(group[..i], group[i], key);
    }
  }

  lemma RunningEnds(group: seq<Candle>, key: int, high: real, low: real, volume: real)
    requires group != [] && Running(group, key, |group|, high, low, volume)
    ensures var last := group[|group| - 1];
            Summary(group, key) == Candle(key, group[0].open, high, low, last.close, volume, last.isClosed)
  {
    assert group[..|group|] == group;
  }

  lemma LimitInvisible(rows: seq<Candle>, tf: Timeframe, limit: nat)
    ensures SessionHistory(rows) ==> GetCandles(rows, tf, limit) == TakeLast(Aggregate(rows, tf), CappedLimit(limit))
  {
    hide GetCandles, Aggregate, SessionHistory;
    if SessionHistory(rows) { RowLimitInvisible(rows, tf, limit); }
  }

  lemma NewestReversed(rows: seq<Candle>, newest: seq<Candle>, base: seq<Candle>, n: nat)
    requires Ascending(rows) && |newest| == (if n <= |rows| then n else |rows|) && |base| == |newest|
    requires forall i | 0 <= i < |newest| :: newest[i] == rows[|rows| - 1 - i]
    requires forall i | 0 <= i < |newest| :: base[i] == newest[|newest| - 1 - i]
    ensures base == TakeLast(rows, n) && Ascending(base)
  {}

  /** What is answered from the rows read. */
  lemma Answers(rows: seq<Candle>, tf: Timeframe, limit: nat, needed: nat)
    requires needed == CappedLimit(limit) * BucketSize(tf)
    ensures var base := TakeLast(rows, needed);
            && GetCandles(rows, tf, limit)
                 == (if tf.M1? then base else TakeLast(Aggregate(base, tf), CappedLimit(limit)))
            && (base == [] ==> GetCandles(rows, tf, limit) == [])
  {
    hide BucketSize;
    assert Aggregate([], tf) == [];
  }

  lemma Latest(candles: seq<Candle>, n: nat)
    ensures TakeLast(candles, n) == if |candles| <= n then candles else candles[|candles| - n..]
  {}

  lemma NothingGathered()
    ensures Gathered([], map[], [])
  {}

  lemma GatheredKeys(keys: seq<int>, grouped: map<int, seq<Candle>>, buckets: seq<Candle>)
    requires Gathered(keys, grouped, buckets)
    ensures forall i | 0 <= i < |keys| :: keys[i] in grouped && grouped[keys[i]] != []
    ensures forall k | k in grouped :: grouped[k] != []
  {}

  lemma AllSummarized(keys: seq<int>, grouped: map<int, seq<Candle>>, buckets: seq<Candle>, result: seq<Candle>)
    requires Gathered(keys, grouped, buckets) && |result| == |keys|
    requires forall k | 0 <= k < |keys| ::
      keys[k] in grouped && grouped[keys[k]] != [] && result[k] == Summary(grouped[keys[k]], keys[k])
    ensures result == buckets
  {}
}
