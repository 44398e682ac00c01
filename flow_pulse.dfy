/** The pulse list of the flow dashboard
    (flow-dashboard/app/components/VolumePulse.tsx): every two seconds a random
    pulse joins the ten most recent, and each is drawn as a bar whose width grows
    with its volume up to 100%. The clock and the two `Math.random` draws are
    parameters. */
module FlowPulse {

  import opened Seqs

  const MaxPulses: nat := 10

  datatype Kind = Buy | Sell

  datatype Pulse = Pulse(timestamp: int, volume: real, kind: Kind)

  /** The new pulse, from the clock and the two draws in the order they are made. */
  function NewPulse(now: int, d1: real, d2: real): Pulse {
    Pulse(now, d1 * 10.0, if d2 > 0.5 then Buy else Sell)
  }

  /** With draws in [0, 1) the volume lies in [0, 10), and the pulse is a buy
      exactly when the second draw is above one half. */
  lemma NewPulseRanges(now: int, d1: real, d2: real)
    requires 0.0 <= d1 < 1.0 && 0.0 <= d2 < 1.0
    ensures var p := NewPulse(now, d1, d2);
      && p.timestamp == now
      && 0.0 <= p.volume < 10.0
      && (p.kind == Buy <==> d2 > 0.5)
  {
  }

  /** `[...prev.slice(-9), newPulse]`. */
  function UpdatePulses(prev: seq<Pulse>, p: Pulse): seq<Pulse> {
    Last(prev, MaxPulses - 1) + [p]
  }

  /** At most ten pulses remain: the last (up to) nine earlier ones in order, then
      the new one. */
  lemma UpdateShape(prev: seq<Pulse>, p: Pulse)
    ensures var r := UpdatePulses(prev, p);
      && |r| == MinNat(MaxPulses, |prev| + 1)
      && r[..|r| - 1] == prev[|prev| - (|r| - 1)..]
      && r[|r| - 1] == p
  {
    var r := UpdatePulses(prev, p);
    assert r[..|r| - 1] == Last(prev, MaxPulses - 1);
  }

  /** A run of ticks, each with its clock reading and draws. */
  function Run(pulses: seq<Pulse>, ticks: seq<(int, real, real)>): seq<Pulse>
    decreases |ticks|
  {
    if ticks == [] then pulses
    else Run(UpdatePulses(pulses, TickPulse(ticks[0])), ticks[1..])
  }

  /** After any non-empty run the list holds at most ten pulses and ends with the
      last tick's pulse. */
  lemma {:induction false} RunBounded(pulses: seq<Pulse>, ticks: seq<(int, real, real)>)
    requires |pulses| <= MaxPulses
    ensures |Run(pulses, ticks)| <= MaxPulses
    ensures ticks != [] ==> Run(pulses, ticks) != [] && LastPulse(Run(pulses, ticks)) == TickPulse(ticks[|ticks| - 1])
    decreases |ticks|
  {
    if ticks != [] {
      var p := TickPulse(ticks[0]);
      var next := UpdatePulses(pulses, p);
      UpdateKeepsBound(pulses, p);
      assert Run(pulses, ticks) == Run(next, ticks[1..]);
      RunBounded(next, ticks[1..]);
      if |ticks| > 1 {
        assert ticks[1..][|ticks[1..]| - 1] == ticks[|ticks| - 1];
      } else {
        assert Run(next, []) == next;
      }
    }
  }

  /** One update keeps at most ten pulses and ends with the new one. */
  lemma UpdateKeepsBound(prev: seq<Pulse>, p: Pulse)
    ensures |UpdatePulses(prev, p)| <= MaxPulses
    ensures UpdatePulses(prev, p) != [] && LastPulse(UpdatePulses(prev, p)) == p
  {
  }

  function TickPulse(t: (int, real, real)): Pulse {
    NewPulse(t.0, t.1, t.2)
  }

  function LastPulse(ps: seq<Pulse>): Pulse
    requires ps != []
  {
    ps[|ps| - 1]
  }

  /** `Math.min(volume * 10, 100)`. */
  function BarWidth(volume: real): (w: real)
    ensures w <= 100.0
    ensures w == 100.0 || w == volume * 10.0
  {
    if volume * 10.0 <= 100.0 then volume * 10.0 else 100.0
  }

  /** The width is never above 100%, is proportional to the volume below 10, and
      lies in [0, 100) for every generated pulse. */
  lemma BarWidthRule(volume: real)
    ensures volume < 10.0 ==> BarWidth(volume) == volume * 10.0
    ensures volume >= 10.0 ==> BarWidth(volume) == 100.0
    ensures 0.0 <= volume < 10.0 ==> 0.0 <= BarWidth(volume) < 100.0
  {
  }
}
