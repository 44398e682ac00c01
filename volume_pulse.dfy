/** The traded-volume pulse (app/components/VolumePulse.tsx): three 20-second
    windows indexed by the position of the clock within the current minute. A trade
    first resets every window more than a minute old and then adds to the current
    window; a periodic rotation empties the current window. */
module VolumePulse {

  import opened Numbers

  const WindowMs: nat := 20000
  const NumWindows: nat := 3
  const SpanMs: nat := 60000

  datatype Window = Window(volume: Num, timestamp: int)

  /** `Math.floor((now % 60000) / 20000)`; the clock is never negative, so the
      remainder agrees with JavaScript's. */
  function CurrentIndex(now: nat): (i: nat)
    ensures i < NumWindows
    ensures i * WindowMs <= now % SpanMs < (i + 1) * WindowMs
  {
    (now % SpanMs) / WindowMs
  }

  /** A window restarted at `now` with no volume. */
  function Fresh(now: nat): Window {
    Window(Real(0.0), now)
  }

  /** The reset loop: every window more than a minute old restarts at `now`. */
  function ResetStale(ws: seq<Window>, now: nat): (r: seq<Window>)
    ensures |r| == |ws|
    ensures forall i :: 0 <= i < |ws| ==> r[i] == if now - ws[i].timestamp > SpanMs then Fresh(now) else ws[i]
  {
    seq(|ws|, i requires 0 <= i < |ws| => if now - ws[i].timestamp > SpanMs then Fresh(now) else ws[i])
  }

  /** The trade updater: reset, then add the volume to the current window when it
      is at most 20 seconds old, or restart that window with the volume. */
  function AddTrade(ws: seq<Window>, volume: Num, now: nat): (r: seq<Window>)
    requires |ws| == NumWindows
    ensures |r| == NumWindows
  {
    var reset := ResetStale(ws, now);
    var c := CurrentIndex(now);
    if now - reset[c].timestamp <= WindowMs then reset[c := reset[c].(volume := Plus(reset[c].volume, volume))]
    else reset[c := Window(volume, now)]
  }

  /** The rotation updater: only the current window restarts. */
  function Rotate(ws: seq<Window>, now: nat): (r: seq<Window>)
    requires |ws| == NumWindows
    ensures |r| == NumWindows
  {
    ws[CurrentIndex(now) := Fresh(now)]
  }

  /** A trade touches the current window only by adding or restarting; every other
      window is kept or, if stale, restarted. */
  lemma AddTradeEffect(ws: seq<Window>, volume: Num, now: nat)
    requires |ws| == NumWindows
    ensures var r := AddTrade(ws, volume, now);
      var c := CurrentIndex(now);
      var before := if now - ws[c].timestamp > SpanMs then Fresh(now) else ws[c];
      && (forall i :: 0 <= i < NumWindows && i != c ==>
            r[i] == if now - ws[i].timestamp > SpanMs then Fresh(now) else ws[i])
      && (now - before.timestamp <= WindowMs ==> r[c] == before.(volume := Plus(before.volume, volume)))
      && (now - before.timestamp > WindowMs ==> r[c] == Window(volume, now))
  {
  }

  /** After a trade no window is more than a minute old. */
  lemma AddTradeFreshens(ws: seq<Window>, volume: Num, now: nat)
    requires |ws| == NumWindows
    ensures var r := AddTrade(ws, volume, now);
      forall i :: 0 <= i < NumWindows ==> now - r[i].timestamp <= SpanMs
  {
  }

  lemma RotateEffect(ws: seq<Window>, now: nat)
    requires |ws| == NumWindows
    ensures var r := Rotate(ws, now);
      && r[CurrentIndex(now)] == Fresh(now)
      && forall i :: 0 <= i < NumWindows && i != CurrentIndex(now) ==> r[i] == ws[i]
  {
  }

  /** `Math.max(...volumes)`. */
  function MaxVolume(ws: seq<Window>): Num
    requires |ws| == NumWindows
  {
    MaxOf([ws[0].volume, ws[1].volume, ws[2].volume])
  }

  /** The bar width in percent: the share of the largest window, or 0 when the
      largest is not positive. */
  function Percentage(v: Num, max: Num): Num {
    if Greater(max, Real(0.0)) then Times(Divide(v, max), Real(100.0)) else Real(0.0)
  }

  /** A window surges when it exceeds 80% of a positive maximum. */
  predicate IsSurge(v: Num, max: Num) {
    Greater(max, Real(0.0)) && Greater(v, Times(max, Real(0.8)))
  }

  /** With a positive maximum every bar is at most 100%, the largest is exactly
      100%, and a window surges exactly when its volume is above 0.8 times the
      maximum; with no positive maximum every bar is 0 and nothing surges. */
  lemma DisplayRule(ws: seq<Window>)
    requires |ws| == NumWindows
    ensures var max := MaxVolume(ws);
      && (Greater(max, Real(0.0)) ==>
            && (forall i :: 0 <= i < NumWindows ==>
                  ws[i].volume.Real? && Percentage(ws[i].volume, max).Real? &&
                  Percentage(ws[i].volume, max).value <= 100.0 &&
                  (IsSurge(ws[i].volume, max) <==> ws[i].volume.value > 0.8 * max.value))
            && (exists i :: 0 <= i < NumWindows && Percentage(ws[i].volume, max) == Real(100.0)))
      && (!Greater(max, Real(0.0)) ==>
            forall i :: 0 <= i < NumWindows ==> Percentage(ws[i].volume, max) == Real(0.0) && !IsSurge(ws[i].volume, max))
  {
    var max := MaxVolume(ws);
    var vs := [ws[0].volume, ws[1].volume, ws[2].volume];
    if Greater(max, Real(0.0)) {
      forall i | 0 <= i < NumWindows
        ensures ws[i].volume.Real? && Percentage(ws[i].volume, max).Real? && Percentage(ws[i].volume, max).value <= 100.0
        ensures IsSurge(ws[i].volume, max) <==> ws[i].volume.value > 0.8 * max.value
      {
        assert vs[i] == ws[i].volume;
        BarWithinMax(ws[i].volume, max);
      }
      var k :| 0 <= k < |vs| && max.value == vs[k].value;
      assert vs[k] == ws[k].volume;
      FullBar(ws[k].volume, max);
    }
  }

  /** A volume at most a positive maximum has a bar of at most 100% and surges
      exactly above 80% of the maximum. */
  lemma BarWithinMax(v: Num, max: Num)
    requires Greater(max, Real(0.0)) && v.Real? && v.value <= max.value
    ensures Percentage(v, max).Real? && Percentage(v, max).value <= 100.0
    ensures IsSurge(v, max) <==> v.value > 0.8 * max.value
  {
    PercentageAtMostHundred(v.value, max.value);
  }

  /** The largest volume's bar is exactly 100%. */
  lemma FullBar(v: Num, max: Num)
    requires Greater(max, Real(0.0)) && v.Real? && v.value == max.value
    ensures Percentage(v, max) == Real(100.0)
  {
    var m := max.value;
    assert m / m == 1.0;
    assert Divide(v, max) == Real(1.0);
  }

  lemma PercentageAtMostHundred(v: real, max: real)
    requires max > 0.0 && v <= max
    ensures (v / max) * 100.0 <= 100.0
  {
    assert v / max <= 1.0;
  }

  /** The component's state: the three windows, held in place. */
  class Pulse {
    const windows: array<Window>

    ghost predicate Valid()
      reads this
    {
      windows.Length == NumWindows
    }

    /** The initial state: three empty windows stamped with the mount time. */
    constructor (now: nat)
      ensures Valid() && fresh(windows)
      ensures windows[..] == [Fresh(now), Fresh(now), Fresh(now)]
    {
      windows := new Window[NumWindows](_ => Fresh(now));
    }

    /** `onMessage`: the reset loop, then the update of the current window. */
    method OnTrade(volume: Num, now: nat)
      requires Valid()
      modifies windows
      ensures windows[..] == AddTrade(old(windows[..]), volume, now)
    {
      ghost var before := windows[..];
      for i := 0 to NumWindows
        invariant forall k :: 0 <= k < i ==> windows[k] == ResetStale(before, now)[k]
        invariant forall k :: i <= k < NumWindows ==> windows[k] == before[k]
      {
        if now - windows[i].timestamp > SpanMs {
          windows[i] := Fresh(now);
        }
      }
      assert windows[..] == ResetStale(before, now);
      var c := (now % SpanMs) / WindowMs;
      if now - windows[c].timestamp <= WindowMs {
        windows[c] := windows[c].(volume := Plus(windows[c].volume, volume));
      } else {
        windows[c] := Window(volume, now);
      }
    }

    /** The periodic rotation. */
    method OnRotate(now: nat)
      requires Valid()
      modifies windows
      ensures windows[..] == Rotate(old(windows[..]), now)
    {
      var c := (now % SpanMs) / WindowMs;
      windows[c] := Fresh(now);
    }
  }
}
