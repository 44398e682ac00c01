/** The liquidation gauge of the flow dashboard
    (flow-dashboard/app/components/LiquidationPoints.tsx): every second a random
    point joins a window of the twenty most recent, the long and short totals are
    recomputed from the window, and the gauge shows each side's share of the sum.
    The three `Math.random` draws of a tick are parameters. */
module FlowLiquidation {

  import opened Seqs

  const WindowSize: nat := 20

  datatype Side = Long | Short

  datatype Point = Point(price: real, amount: real, side: Side)

  /** The component's three pieces of state. */
  datatype State = State(points: seq<Point>, totalLong: real, totalShort: real)

  const Initial: State := State([], 0.0, 0.0)

  function AmountOf(p: Point): real {
    p.amount
  }

  /** The new point, from the three draws in the order they are made. */
  function NewPoint(d1: real, d2: real, d3: real): Point {
    Point(45000.0 + d1 * 1000.0, d2 * 10.0, if d3 > 0.5 then Long else Short)
  }

  /** With draws in [0, 1) the price lies in [45000, 46000), the amount in [0, 10),
      and the point is long exactly when the third draw is above one half. */
  lemma NewPointRanges(d1: real, d2: real, d3: real)
    requires 0.0 <= d1 < 1.0 && 0.0 <= d2 < 1.0 && 0.0 <= d3 < 1.0
    ensures var p := NewPoint(d1, d2, d3);
      && 45000.0 <= p.price < 46000.0
      && 0.0 <= p.amount < 10.0
      && (p.side == Long <==> d3 > 0.5)
  {
  }

  /** `[...prev.slice(-19), newPoint]`. */
  function Window(prev: seq<Point>, p: Point): seq<Point> {
    Last(prev, WindowSize - 1) + [p]
  }

  /** The window holds at most twenty points: the last (up to) nineteen previous
      ones in their order, then the new point. */
  lemma WindowShape(prev: seq<Point>, p: Point)
    ensures var r := Window(prev, p);
      && |r| == MinNat(WindowSize, |prev| + 1)
      && r[..|r| - 1] == prev[|prev| - (|r| - 1)..]
      && r[|r| - 1] == p
  {
    var r := Window(prev, p);
    assert r[..|r| - 1] == Last(prev, WindowSize - 1);
  }

  /** The `reduce` over the points of one side: a left fold from 0 that adds each
      matching amount in list order. */
  function SideTotal(ps: seq<Point>, side: Side): real
    decreases |ps|
  {
    if ps == [] then 0.0
    else
      var last := ps[|ps| - 1];
      SideTotal(ps[..|ps| - 1], side) + (if last.side == side then last.amount else 0.0)
  }

  /** The long and short totals together add up every amount in the window. */
  lemma {:induction false} SideTotalsCover(ps: seq<Point>)
    ensures SideTotal(ps, Long) + SideTotal(ps, Short) == SumBy(ps, AmountOf)
    decreases |ps|
  {
    if ps != [] {
      var init := ps[..|ps| - 1];
      SideTotalsCover(init);
      assert ps == init + [ps[|ps| - 1]];
      SumByAppend(init, [ps[|ps| - 1]], AmountOf);
    }
  }

  /** With no negative amount neither total is negative. */
  lemma {:induction false} SideTotalNonNegative(ps: seq<Point>, side: Side)
    requires forall i :: 0 <= i < |ps| ==> ps[i].amount >= 0.0
    ensures SideTotal(ps, side) >= 0.0
    decreases |ps|
  {
    if ps != [] {
      SideTotalNonNegative(ps[..|ps| - 1], side);
    }
  }

  /** One tick: the `setPoints` updater, which also sets both totals from the new
      window. */
  function Tick(s: State, d1: real, d2: real, d3: real): State {
    var points := Window(s.points, NewPoint(d1, d2, d3));
    State(points, SideTotal(points, Long), SideTotal(points, Short))
  }

  /** `total > 0 ? (part / total) * 100 : 0`. */
  function Percentage(part: real, total: real): real {
    if total > 0.0 then (part / total) * 100.0 else 0.0
  }

  /** When the sum is positive the two shares add up to 100, and with no negative
      total each lies in [0, 100]; otherwise both are 0. */
  lemma PercentagesSplit(totalLong: real, totalShort: real)
    ensures var total := totalLong + totalShort;
      var l := Percentage(totalLong, total);
      var s := Percentage(totalShort, total);
      && (total > 0.0 ==> l + s == 100.0)
      && (total > 0.0 && totalLong >= 0.0 && totalShort >= 0.0 ==> 0.0 <= l <= 100.0 && 0.0 <= s <= 100.0)
      && (total <= 0.0 ==> l == 0.0 && s == 0.0)
  {
    var total := totalLong + totalShort;
    if total > 0.0 {
      var a, b := totalLong / total, totalShort / total;
      assert a * total == totalLong && b * total == totalShort;
      assert (a + b) * total == a * total + b * total;
      assert a + b == 1.0;
      assert a * 100.0 + b * 100.0 == (a + b) * 100.0;
      if totalLong >= 0.0 && totalShort >= 0.0 {
        assert totalLong / total <= 1.0;
        assert totalShort / total <= 1.0;
      }
    }
  }

  /** A run of ticks, each given by its three draws. */
  function Run(s: State, draws: seq<(real, real, real)>): State
    decreases |draws|
  {
    if draws == [] then s else Run(Tick(s, draws[0].0, draws[0].1, draws[0].2), draws[1..])
  }

  predicate InRange(d: (real, real, real)) {
    0.0 <= d.0 < 1.0 && 0.0 <= d.1 < 1.0 && 0.0 <= d.2 < 1.0
  }

  /** What the display relies on: at most twenty points, each total the fold over
      its side, and no negative amount. */
  predicate Consistent(s: State) {
    && |s.points| <= WindowSize
    && s.totalLong == SideTotal(s.points, Long)
    && s.totalShort == SideTotal(s.points, Short)
    && forall i :: 0 <= i < |s.points| ==> s.points[i].amount >= 0.0
  }

  /** Every run of in-range ticks from the initial state keeps the state
      consistent, so the two totals always add up to the window's sum and the two
      shares lie in [0, 100]. */
  lemma {:induction false} RunConsistent(s: State, draws: seq<(real, real, real)>)
    requires Consistent(s)
    requires forall k :: 0 <= k < |draws| ==> InRange(draws[k])
    ensures Consistent(Run(s, draws))
    decreases |draws|
  {
    if draws != [] {
      var d := draws[0];
      var next := Tick(s, d.0, d.1, d.2);
      var p := NewPoint(d.0, d.1, d.2);
      WindowShape(s.points, p);
      NewPointRanges(d.0, d.1, d.2);
      forall i | 0 <= i < |next.points| ensures next.points[i].amount >= 0.0 {
        if i < |next.points| - 1 {
          assert next.points[i] == s.points[|s.points| - (|next.points| - 1) + i];
        }
      }
      RunConsistent(next, draws[1..]);
    }
  }

  lemma InitialConsistent()
    ensures Consistent(Initial)
  {
  }

  /** A consistent state displays totals that cover the window and shares within
      [0, 100] that add up to 100 whenever anything is shown. */
  lemma ConsistentDisplay(s: State)
    requires Consistent(s)
    ensures s.totalLong + s.totalShort == SumBy(s.points, AmountOf)
    ensures s.totalLong >= 0.0 && s.totalShort >= 0.0
    ensures var total := s.totalLong + s.totalShort;
      total > 0.0 ==> Percentage(s.totalLong, total) + Percentage(s.totalShort, total) == 100.0
  {
    SideTotalsCover(s.points);
    SideTotalNonNegative(s.points, Long);
    SideTotalNonNegative(s.points, Short);
    PercentagesSplit(s.totalLong, s.totalShort);
  }
}
