/** The per-minute buy/sell volume chart (app/components/TradeVolume.tsx): every
    aggregated trade adds its value to the bucket of the current minute, and the
    history keeps the thirty most recent buckets. */
module TradeVolume {

  import opened Numbers
  import opened Seqs

  const MinuteMs: int := 60000
  const MaxBuckets: nat := 30

  /** One minute's traded value on each side; a value may be NaN when a price or
      quantity did not parse. */
  datatype Bucket = Bucket(timestamp: int, buyVolume: Num, sellVolume: Num)

  /** `Math.floor(now / 60000) * 60000`; Dafny's division by a positive number
      rounds down, as `Math.floor` does. */
  function MinuteOf(now: int): (m: int)
    ensures m % MinuteMs == 0
    ensures m <= now < m + MinuteMs
  {
    (now / MinuteMs) * MinuteMs
  }

  lemma MinuteMonotone(a: int, b: int)
    requires a <= b
    ensures MinuteOf(a) <= MinuteOf(b)
  {
  }

  /** `parseFloat(q) * parseFloat(p)`: a trade's value. */
  function TradeValue(quantity: Num, price: Num): Num {
    Times(quantity, price)
  }

  /** The history before the thirty-bucket cap: the volume joins the last bucket
      when it is the current minute's, on the sell side for a buyer-maker trade;
      otherwise a new bucket is appended. */
  function AddTrade(history: seq<Bucket>, isBuyerMaker: bool, volume: Num, now: int): seq<Bucket> {
    var minute := MinuteOf(now);
    if history != [] && history[|history| - 1].timestamp == minute then
      var last := history[|history| - 1];
      var updated := if isBuyerMaker then last.(sellVolume := Plus(last.sellVolume, volume))
                     else last.(buyVolume := Plus(last.buyVolume, volume));
      history[..|history| - 1] + [updated]
    else
      history + [Bucket(minute, if isBuyerMaker then Real(0.0) else volume, if isBuyerMaker then volume else Real(0.0))]
  }

  /** The `setTradeHistory` updater: the trade added, then `slice(-30)`. */
  function UpdateHistory(history: seq<Bucket>, isBuyerMaker: bool, volume: Num, now: int): seq<Bucket> {
    Last(AddTrade(history, isBuyerMaker, volume, now), MaxBuckets)
  }

  /** A trade in the current minute adds to one side of the last bucket; the other
      side, the timestamp and every earlier bucket are unchanged. */
  lemma SameMinuteAddsToLast(history: seq<Bucket>, isBuyerMaker: bool, volume: Num, now: int)
    requires history != [] && history[|history| - 1].timestamp == MinuteOf(now)
    ensures var r := AddTrade(history, isBuyerMaker, volume, now);
      var last := history[|history| - 1];
      && |r| == |history|
      && r[..|r| - 1] == history[..|history| - 1]
      && r[|r| - 1].timestamp == last.timestamp
      && (isBuyerMaker ==> r[|r| - 1].sellVolume == Plus(last.sellVolume, volume) && r[|r| - 1].buyVolume == last.buyVolume)
      && (!isBuyerMaker ==> r[|r| - 1].buyVolume == Plus(last.buyVolume, volume) && r[|r| - 1].sellVolume == last.sellVolume)
  {
    var r := AddTrade(history, isBuyerMaker, volume, now);
    assert r[..|r| - 1] == history[..|history| - 1];
  }

  /** Otherwise a new bucket for the current minute is appended, holding the volume
      on exactly one side and 0 on the other. */
  lemma NewMinuteAppends(history: seq<Bucket>, isBuyerMaker: bool, volume: Num, now: int)
    requires history == [] || history[|history| - 1].timestamp != MinuteOf(now)
    ensures var r := AddTrade(history, isBuyerMaker, volume, now);
      && r[..|history|] == history
      && |r| == |history| + 1
      && r[|history|].timestamp == MinuteOf(now)
      && r[|history|].buyVolume == (if isBuyerMaker then Real(0.0) else volume)
      && r[|history|].sellVolume == (if isBuyerMaker then volume else Real(0.0))
  {
    var r := AddTrade(history, isBuyerMaker, volume, now);
    assert r[..|history|] == history;
  }

  /** After the cap at most thirty buckets remain: the most recent ones, with the
      current minute's bucket last. */
  lemma HistoryCapped(history: seq<Bucket>, isBuyerMaker: bool, volume: Num, now: int)
    ensures var full := AddTrade(history, isBuyerMaker, volume, now);
      var r := UpdateHistory(history, isBuyerMaker, volume, now);
      && |r| == MinNat(30, |full|)
      && r == full[|full| - |r|..]
      && r != [] && r[|r| - 1] == full[|full| - 1]
      && r[|r| - 1].timestamp == MinuteOf(now)
  {
  }

  predicate Increasing(history: seq<Bucket>) {
    forall i, j :: 0 <= i < j < |history| ==> history[i].timestamp < history[j].timestamp
  }

  /** A trade in the current minute keeps the timestamps increasing. */
  lemma SameMinuteIncreasing(history: seq<Bucket>, isBuyerMaker: bool, volume: Num, now: int)
    requires Increasing(history)
    requires history != [] && history[|history| - 1].timestamp == MinuteOf(now)
    ensures Increasing(AddTrade(history, isBuyerMaker, volume, now))
  {
    var full := AddTrade(history, isBuyerMaker, volume, now);
    SameMinuteAddsToLast(history, isBuyerMaker, volume, now);
    forall i, j | 0 <= i < j < |full| ensures full[i].timestamp < full[j].timestamp {
      assert full[i] == history[i];
      if j < |full| - 1 {
        assert full[j] == history[j];
      }
    }
  }

  /** A new bucket for a later minute keeps the timestamps increasing. */
  lemma NewMinuteIncreasing(history: seq<Bucket>, isBuyerMaker: bool, volume: Num, now: int)
    requires Increasing(history)
    requires history != [] ==> history[|history| - 1].timestamp < MinuteOf(now)
    ensures Increasing(AddTrade(history, isBuyerMaker, volume, now))
  {
    var full := AddTrade(history, isBuyerMaker, volume, now);
    NewMinuteAppends(history, isBuyerMaker, volume, now);
    forall i, j | 0 <= i < j < |full| ensures full[i].timestamp < full[j].timestamp {
      assert full[i] == history[i];
      if j < |history| {
        assert full[j] == history[j];
      } else if i < |history| - 1 {
        assert history[i].timestamp < history[|history| - 1].timestamp;
      }
    }
  }

  lemma SuffixIncreasing(full: seq<Bucket>, k: nat)
    requires Increasing(full) && k <= |full|
    ensures Increasing(full[k..])
  {
    var r := full[k..];
    forall i, j | 0 <= i < j < |r| ensures r[i].timestamp < r[j].timestamp {
      assert r[i] == full[k + i] && r[j] == full[k + j];
    }
  }

  /** With a clock that does not go back, bucket timestamps strictly increase: if
      they did before and the last is not later than the current minute, they do
      after, and the last is the current minute. */
  lemma UpdateKeepsIncreasing(history: seq<Bucket>, isBuyerMaker: bool, volume: Num, now: int)
    requires Increasing(history)
    requires history != [] ==> history[|history| - 1].timestamp <= MinuteOf(now)
    ensures var r := UpdateHistory(history, isBuyerMaker, volume, now);
      Increasing(r) && r != [] && r[|r| - 1].timestamp == MinuteOf(now)
  {
    var full := AddTrade(history, isBuyerMaker, volume, now);
    if history != [] && history[|history| - 1].timestamp == MinuteOf(now) {
      SameMinuteIncreasing(history, isBuyerMaker, volume, now);
    } else {
      NewMinuteIncreasing(history, isBuyerMaker, volume, now);
    }
    HistoryCapped(history, isBuyerMaker, volume, now);
    SuffixIncreasing(full, |full| - |UpdateHistory(history, isBuyerMaker, volume, now)|);
  }

  /** A trade as the chart receives it: buyer-maker flag, value, arrival time. */
  datatype TradeEvent = TradeEvent(isBuyerMaker: bool, volume: Num, now: int)

  function Replay(history: seq<Bucket>, trades: seq<TradeEvent>): seq<Bucket>
    decreases |trades|
  {
    if trades == [] then history
    else Replay(UpdateHistory(history, trades[0].isBuyerMaker, trades[0].volume, trades[0].now), trades[1..])
  }

  /** Over any run of trades whose arrival times never decrease, starting from an
      empty or older history, the buckets keep strictly increasing timestamps. */
  lemma {:induction false} ReplayIncreasing(history: seq<Bucket>, trades: seq<TradeEvent>)
    requires Increasing(history)
    requires forall i, j :: 0 <= i < j < |trades| ==> trades[i].now <= trades[j].now
    requires history != [] && trades != [] ==> history[|history| - 1].timestamp <= MinuteOf(trades[0].now)
    ensures Increasing(Replay(history, trades))
    decreases |trades|
  {
    if trades != [] {
      var t := trades[0];
      var next := UpdateHistory(history, t.isBuyerMaker, t.volume, t.now);
      UpdateKeepsIncreasing(history, t.isBuyerMaker, t.volume, t.now);
      if |trades| > 1 {
        MinuteMonotone(t.now, trades[1].now);
      }
      ReplayIncreasing(next, trades[1..]);
    }
  }

  /** The chart's state: its React `tradeHistory`. */
  class TradeVolumeChart {
    var history: seq<Bucket>

    constructor ()
      ensures history == []
    {
      history := [];
    }

    /** The updater for one trade arriving at time `now`. */
    method OnTrade(isBuyerMaker: bool, quantity: Num, price: Num, now: int)
      modifies this
      ensures history == UpdateHistory(old(history), isBuyerMaker, TradeValue(quantity, price), now)
      ensures |history| <= MaxBuckets
    {
      var volume := Times(quantity, price);
      var minute := MinuteOf(now);
      var data := history;
      if |data| > 0 && data[|data| - 1].timestamp == minute {
        var last := data[|data| - 1];
        if isBuyerMaker {
          last := last.(sellVolume := Plus(last.sellVolume, volume));
        } else {
          last := last.(buyVolume := Plus(last.buyVolume, volume));
        }
        data := data[|data| - 1 := last];
        assert data == old(history)[..|old(history)| - 1] + [last];
      } else {
        data := data + [Bucket(minute, if isBuyerMaker then Real(0.0) else volume, if isBuyerMaker then volume else Real(0.0))];
      }
      assert data == AddTrade(old(history), isBuyerMaker, volume, now);
      if |data| > MaxBuckets {
        data := data[|data| - MaxBuckets..];
      }
      history := data;
    }
  }
}
