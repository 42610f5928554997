/** The retargeting hysteresis of the current revision: the previous target
    cannot be retargeted while a cooldown timer runs, and the timer only runs
    while the current target differs from the previous one. */
module Tracker {
  import opened Common

  /** Seconds the timer must exceed before the previous target is forgotten. */
  const Cooldown: real := 5.0

  /** The hysteresis pair and the current target: `current` is
      `currentTargetPlayerId`, `previous` is `previousTargetPlayerId` and
      `timer` is `timeSinceTargetedPreviousPlayer`. */
  datatype Hysteresis = Hysteresis(current: Option<nat>, previous: Option<nat>, timer: real)

  /** One frame of the timer, `dt` seconds long. */
  function Advance(h: Hysteresis, dt: real): (r: Hysteresis)
    ensures r.current == h.current
    ensures h.current == h.previous ==> r == h
    ensures h.current != h.previous && h.timer <= Cooldown ==> r == h.(timer := h.timer + dt)
    ensures h.current != h.previous && h.timer > Cooldown ==> r.previous == h.current && r.timer == 0.0
  {
    if h.current != h.previous then
      if h.timer > Cooldown then Hysteresis(h.current, h.current, 0.0)
      else h.(timer := h.timer + dt)
    else h
  }

  /** A candidate may become the target unless it is the previous target and
      the timer is not zero. */
  predicate MayTarget(h: Hysteresis, candidate: nat)
  {
    !(h.previous == Some(candidate) && h.timer != 0.0)
  }

  /** Frames `dts`, in order, with no retargeting in between. */
  function AdvanceAll(h: Hysteresis, dts: seq<real>): Hysteresis
  {
    if dts == [] then h else Advance(AdvanceAll(h, dts[..|dts| - 1]), dts[|dts| - 1])
  }

  /** Right after the target changed away from the previous one (timer at 0),
      positive frames whose total before the last one has not passed the
      cooldown leave the previous target in place, with the timer equal to
      the time elapsed, so that target cannot be retargeted. */
  lemma {:induction false} CooldownBlocks(h: Hysteresis, dts: seq<real>)
    requires h.current != h.previous && h.timer == 0.0
    requires |dts| > 0 && AllAtLeast(dts, 0.0) && dts[|dts| - 1] > 0.0
    requires Sum(dts[..|dts| - 1]) <= Cooldown
    ensures AdvanceAll(h, dts) == h.(timer := Sum(dts))
    ensures h.previous.Some? ==> !MayTarget(AdvanceAll(h, dts), h.previous.value)
  {
    var p := dts[..|dts| - 1];
    assert AllAtLeast(p, 0.0) by {
      forall i | 0 <= i < |p| ensures p[i] >= 0.0 { assert p[i] == dts[i]; }
    }
    SumNonNegative(p);
    SweepFrom(h, p);
  }

  /** Helper for `CooldownBlocks`: non-negative frames totalling at most the
      cooldown only add to the timer. */
  lemma {:induction false} SweepFrom(h: Hysteresis, dts: seq<real>)
    requires h.current != h.previous && h.timer == 0.0
    requires AllAtLeast(dts, 0.0) && Sum(dts) <= Cooldown
    ensures AdvanceAll(h, dts) == h.(timer := Sum(dts))
  {
    if dts != [] {
      var p := dts[..|dts| - 1];
      assert AllAtLeast(p, 0.0) by {
        forall i | 0 <= i < |p| ensures p[i] >= 0.0 { assert p[i] == dts[i]; }
      }
      SweepFrom(h, p);
    }
  }

  /** Once frames have taken the timer past the cooldown, the next frame
      forgets the previous target: it becomes the current one, the timer is
      reset, and every player may be targeted again. */
  lemma {:induction false} CooldownReleases(h: Hysteresis, dts: seq<real>, dt: real)
    requires h.current != h.previous && h.timer == 0.0
    requires |dts| > 0 && AllAtLeast(dts, 0.0)
    requires Sum(dts[..|dts| - 1]) <= Cooldown < Sum(dts)
    ensures Advance(AdvanceAll(h, dts), dt) == Hysteresis(h.current, h.current, 0.0)
    ensures forall c :: MayTarget(Advance(AdvanceAll(h, dts), dt), c)
  {
    var p := dts[..|dts| - 1];
    assert AllAtLeast(p, 0.0) by {
      forall i | 0 <= i < |p| ensures p[i] >= 0.0 { assert p[i] == dts[i]; }
    }
    SweepFrom(h, p);
  }
}
