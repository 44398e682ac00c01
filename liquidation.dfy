/** The simulated liquidation ladder (app/components/LiquidationPoints.tsx): each
    refresh draws three long points below and three short points above a base
    price of 40000, totals their volumes, and lists them by ascending price. The
    twelve `Math.random` draws are a parameter, in the order they are made. */
module Liquidation {

  import opened Seqs

  const BasePrice: real := 40000.0

  datatype Side = Long | Short

  /** A point; price and volume are kept as numbers (their fixed-point text is not
      modelled). */
  datatype Point = Point(price: real, volume: real, side: Side)

  datatype Summary = Summary(points: seq<Point>, totalLong: real, totalShort: real, total: real)

  function PriceOf(p: Point): real {
    p.price
  }

  function VolumeOf(p: Point): real {
    p.volume
  }

  /** The `i`-th long point, from draws `2i` (price) and `2i + 1` (volume). */
  function LongPoint(draws: seq<real>, i: nat): Point
    requires i < 3 && |draws| == 12
  {
    Point(BasePrice - (1000.0 + draws[2 * i] * 2000.0), draws[2 * i + 1] * 1000000.0, Long)
  }

  /** The `i`-th short point, from draws `6 + 2i` and `7 + 2i`. */
  function ShortPoint(draws: seq<real>, i: nat): Point
    requires i < 3 && |draws| == 12
  {
    Point(BasePrice + (1000.0 + draws[6 + 2 * i] * 2000.0), draws[7 + 2 * i] * 1000000.0, Short)
  }

  /** The six points in the order the two loops push them. */
  function Generated(draws: seq<real>): (r: seq<Point>)
    requires |draws| == 12
    ensures |r| == 6
    ensures forall i :: 0 <= i < 3 ==> r[i] == LongPoint(draws, i) && r[3 + i] == ShortPoint(draws, i)
  {
    [LongPoint(draws, 0), LongPoint(draws, 1), LongPoint(draws, 2),
     ShortPoint(draws, 0), ShortPoint(draws, 1), ShortPoint(draws, 2)]
  }

  predicate Draws(draws: seq<real>) {
    |draws| == 12 && forall k :: 0 <= k < 12 ==> 0.0 <= draws[k] < 1.0
  }

  /** Exactly six points: three long, then three short. */
  lemma GeneratedSides(draws: seq<real>)
    requires |draws| == 12
    ensures forall i :: 0 <= i < 6 ==> (Generated(draws)[i].side == Long <==> i < 3)
  {
  }

  /** With draws in [0, 1): long prices in (37000, 39000], short prices in
      [41000, 43000), and every volume in [0, 1000000). */
  lemma GeneratedRanges(draws: seq<real>)
    requires Draws(draws)
    ensures forall p :: p in Generated(draws) ==>
              && 0.0 <= p.volume < 1000000.0
              && (p.side == Long ==> 37000.0 < p.price <= 39000.0)
              && (p.side == Short ==> 41000.0 <= p.price < 43000.0)
  {
    var g := Generated(draws);
    forall p | p in g
      ensures 0.0 <= p.volume < 1000000.0
      ensures p.side == Long ==> 37000.0 < p.price <= 39000.0
      ensures p.side == Short ==> 41000.0 <= p.price < 43000.0
    {
      var k :| 0 <= k < 6 && g[k] == p;
      if k < 3 {
        assert p == LongPoint(draws, k);
        assert 0.0 <= draws[2 * k] < 1.0 && 0.0 <= draws[2 * k + 1] < 1.0;
      } else {
        assert p == ShortPoint(draws, k - 3);
        assert 0.0 <= draws[6 + 2 * (k - 3)] < 1.0 && 0.0 <= draws[7 + 2 * (k - 3)] < 1.0;
      }
    }
  }

  /** The published list: sorted by ascending price, a permutation of the six
      points, and with draws in range every long point comes before every short. */
  lemma SortedLongsFirst(draws: seq<real>)
    requires Draws(draws)
    ensures var r := SortBy(Generated(draws), PriceOf);
      && SortedBy(r, PriceOf)
      && multiset(r) == multiset(Generated(draws))
      && forall i, j :: 0 <= i < j < |r| ==> !(r[i].side == Short && r[j].side == Long)
  {
    var g := Generated(draws);
    var r := SortBy(g, PriceOf);
    SortBySorted(g, PriceOf);
    GeneratedRanges(draws);
    forall i, j | 0 <= i < j < |r| ensures !(r[i].side == Short && r[j].side == Long) {
      assert r[i] in multiset(r) && r[j] in multiset(r);
      assert r[i] in g && r[j] in g;
      assert PriceOf(r[i]) <= PriceOf(r[j]);
    }
  }

  /** Sum of the volumes of the points on one side. */
  function SideTotal(ps: seq<Point>, side: Side): real {
    if ps == [] then 0.0 else (if ps[0].side == side then ps[0].volume else 0.0) + SideTotal(ps[1..], side)
  }

  lemma {:induction false} SideTotalsSplit(ps: seq<Point>)
    ensures SideTotal(ps, Long) + SideTotal(ps, Short) == SumBy(ps, VolumeOf)
  {
    if ps != [] {
      SideTotalsSplit(ps[1..]);
    }
  }

  /** `fetchData`, with the draws given. */
  method FetchData(draws: seq<real>) returns (summary: Summary)
    requires |draws| == 12
    ensures summary.points == SortBy(Generated(draws), PriceOf)
    ensures summary.totalLong == SideTotal(Generated(draws), Long)
    ensures summary.totalShort == SideTotal(Generated(draws), Short)
    ensures summary.total == summary.totalLong + summary.totalShort
  {
    var points: seq<Point> := [];
    var totalLong := 0.0;
    var totalShort := 0.0;
    for i := 0 to 3
      invariant |points| == i
      invariant forall k :: 0 <= k < i ==> points[k] == LongPoint(draws, k)
      invariant totalLong == SumBy(points, VolumeOf)
    {
      var price := BasePrice - (1000.0 + draws[2 * i] * 2000.0);
      var volume := draws[2 * i + 1] * 1000000.0;
      totalLong := totalLong + volume;
      SumByAppend(points, [Point(price, volume, Long)], VolumeOf);
      points := points + [Point(price, volume, Long)];
    }
    ghost var longs := points;
    for i := 0 to 3
      invariant |points| == 3 + i
      invariant points[..3] == longs
      invariant forall k :: 0 <= k < i ==> points[3 + k] == ShortPoint(draws, k)
      invariant totalShort == SumBy(points[3..], VolumeOf)
    {
      var price := BasePrice + (1000.0 + draws[6 + 2 * i] * 2000.0);
      var volume := draws[7 + 2 * i] * 1000000.0;
      totalShort := totalShort + volume;
      SumByAppend(points[3..], [Point(price, volume, Short)], VolumeOf);
      assert (points + [Point(price, volume, Short)])[3..] == points[3..] + [Point(price, volume, Short)];
      points := points + [Point(price, volume, Short)];
    }
    assert points == Generated(draws);
    SideTotalOfLongs(draws);
    summary := Summary(SortBy(points, PriceOf), totalLong, totalShort, totalLong + totalShort);
  }

  /** The long total is the sum over the first three points, the short total over
      the last three. */
  lemma SideTotalOfLongs(draws: seq<real>)
    requires |draws| == 12
    ensures SideTotal(Generated(draws), Long) == SumBy(Generated(draws)[..3], VolumeOf)
    ensures SideTotal(Generated(draws), Short) == SumBy(Generated(draws)[3..], VolumeOf)
  {
    var g := Generated(draws);
    assert g == g[..3] + g[3..];
    SideTotalAppend(g[..3], g[3..], Long);
    SideTotalAppend(g[..3], g[3..], Short);
    SideTotalOneSide(g[..3], Long, Short);
    SideTotalOneSide(g[3..], Short, Long);
  }

  lemma {:induction false} SideTotalAppend(a: seq<Point>, b: seq<Point>, side: Side)
    ensures SideTotal(a + b, side) == SideTotal(a, side) + SideTotal(b, side)
  {
    if a == [] {
      assert a + b == b;
    } else {
      assert (a + b)[1..] == a[1..] + b;
      SideTotalAppend(a[1..], b, side);
    }
  }

  /** On points all of one side, that side's total is the whole sum and the other
      side's is 0. */
  lemma {:induction false} SideTotalOneSide(ps: seq<Point>, side: Side, other: Side)
    requires side != other
    requires forall i :: 0 <= i < |ps| ==> ps[i].side == side
    ensures SideTotal(ps, side) == SumBy(ps, VolumeOf)
    ensures SideTotal(ps, other) == 0.0
  {
    if ps != [] {
      SideTotalOneSide(ps[1..], side, other);
    }
  }

  /** The overall total is the sum of every point's volume. */
  lemma TotalIsSum(draws: seq<real>)
    requires |draws| == 12
    ensures SideTotal(Generated(draws), Long) + SideTotal(Generated(draws), Short) == SumBy(Generated(draws), VolumeOf)
  {
    SideTotalsSplit(Generated(draws));
  }

  /** `Math.max` of the listed volumes. */
  function MaxVolume(ps: seq<Point>): (m: real)
    requires ps != []
    ensures forall p :: p in ps ==> p.volume <= m
    ensures exists p :: p in ps && p.volume == m
  {
    if |ps| == 1 then ps[0].volume
    else
      var rest := MaxVolume(ps[1..]);
      assert forall p :: p in ps[1..] ==> p in ps;
      assert forall p :: p in ps ==> p == ps[0] || p in ps[1..];
      if ps[0].volume >= rest then ps[0].volume else rest
  }

  /** Each bar's width, `volume / maxVolume * 100`, is at most 100 when the largest
      volume is positive. */
  lemma BarsAtMostHundred(ps: seq<Point>)
    requires ps != [] && MaxVolume(ps) > 0.0
    ensures forall p :: p in ps ==> p.volume / MaxVolume(ps) * 100.0 <= 100.0
  {
    var m := MaxVolume(ps);
    forall p | p in ps ensures p.volume / m * 100.0 <= 100.0 {
      ShareAtMostHundred(p.volume, m);
    }
  }

  lemma ShareAtMostHundred(v: real, m: real)
    requires m > 0.0 && v <= m
    ensures v / m * 100.0 <= 100.0
  {
    assert v / m <= 1.0;
  }
}
