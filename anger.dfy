/** The anger accumulator. It rises only while the Drudge glares at a player,
    is left alone while it chases, and decays in every other state while it is
    positive. There is no clamp: decay can take it below zero. */
module Anger {
  import opened Common
  import opened Behaviour

  /** `angerLevelAccelerator`: initialised to 1 and never changed by either revision. */
  const Accelerator: real := 1.0

  /** States in which anger decays. */
  predicate Calm(s: State)
  {
    s != AngrilyLookingAtPlayer && s != ChasingPlayer
  }

  /** One decay step of `amount` (a frame's `dt` times the accelerator, or
      one AI interval in the earlier revision). */
  function Decay(s: State, anger: real, amount: real): real
  {
    if Calm(s) && anger > 0.0 then anger - amount else anger
  }

  /** Anger at or above 1 sends the Drudge after its target. */
  predicate Escalates(anger: real)
  {
    anger >= 1.0
  }

  /** Glaring frames `dts` in order: each adds its duration, and the first frame
      that reaches 1 ends the glare (the second component says whether it did). */
  function LookFrames(anger: real, dts: seq<real>): (real, bool)
  {
    if dts == [] then (anger, false)
    else
      var (a, escalated) := LookFrames(anger, dts[..|dts| - 1]);
      if escalated then (a, true)
      else
        var a' := a + dts[|dts| - 1] * Accelerator;
        (a', Escalates(a'))
  }

  /** Over non-negative frames the glare escalates exactly when the starting
      anger plus the time spent reaches 1; until then the anger is the start
      plus the time spent, and on escalation it is at least 1. */
  lemma {:induction false} LookingEscalation(anger: real, dts: seq<real>)
    requires anger < 1.0 && AllAtLeast(dts, 0.0)
    ensures LookFrames(anger, dts).1 <==> anger + Sum(dts) >= 1.0
    ensures !LookFrames(anger, dts).1 ==> LookFrames(anger, dts).0 == anger + Sum(dts)
    ensures LookFrames(anger, dts).1 ==> LookFrames(anger, dts).0 >= 1.0
  {
    if dts != [] {
      var p := dts[..|dts| - 1];
      assert AllAtLeast(p, 0.0) by {
        forall i | 0 <= i < |p| ensures p[i] >= 0.0 { assert p[i] == dts[i]; }
      }
      LookingEscalation(anger, p);
    }
  }

  /** The earlier revision adds one AI interval per interval while glaring:
      starting calm, it escalates within `n` intervals exactly when `n`
      intervals add up to 1. */
  lemma GlareIntervals(interval: real, n: nat)
    requires interval >= 0.0
    ensures LookFrames(0.0, Repeat(interval, n)).1 <==> n as real * interval >= 1.0
  {
    SumRepeat(interval, n);
    LookingEscalation(0.0, Repeat(interval, n));
  }

  /** Frames `dts` spent in a state `s` other than glaring or chasing. */
  function DecayFrames(s: State, anger: real, dts: seq<real>): real
  {
    if dts == [] then anger
    else Decay(s, DecayFrames(s, anger, dts[..|dts| - 1]), dts[|dts| - 1] * Accelerator)
  }

  /** Decay never raises anger, undershoots zero by less than one frame, takes
      off exactly the time spent while anger stays positive, and reaches zero or
      below once the time spent covers the starting anger. */
  lemma {:induction false} DecayBounds(s: State, anger: real, dts: seq<real>, maxDt: real)
    requires Calm(s) && anger > -maxDt && AllAtLeast(dts, 0.0)
    requires forall i :: 0 <= i < |dts| ==> dts[i] <= maxDt
    ensures DecayFrames(s, anger, dts) <= anger
    ensures DecayFrames(s, anger, dts) > -maxDt
    ensures DecayFrames(s, anger, dts) >= anger - Sum(dts)
    ensures DecayFrames(s, anger, dts) > 0.0 ==> DecayFrames(s, anger, dts) == anger - Sum(dts)
    ensures Sum(dts) >= anger ==> DecayFrames(s, anger, dts) <= 0.0
  {
    if dts != [] {
      var p := dts[..|dts| - 1];
      forall i | 0 <= i < |p| ensures 0.0 <= p[i] <= maxDt { assert p[i] == dts[i]; }
      DecayBounds(s, anger, p, maxDt);
    }
  }

  /** Anger is left untouched while glaring or chasing. */
  lemma {:induction false} NoDecayWhenAngry(s: State, anger: real, dts: seq<real>)
    requires !Calm(s)
    ensures DecayFrames(s, anger, dts) == anger
  {
    if dts != [] {
      NoDecayWhenAngry(s, anger, dts[..|dts| - 1]);
    }
  }

  /** Without a clamp a long frame takes anger below zero: 0.25 decayed by a
      half-second frame is -0.25. */
  lemma DecayUndershoots()
    ensures Decay(SearchingForPlayer, 0.25, 0.5 * Accelerator) == -0.25
  {
  }

  /** Anger at 0.95 and one 0.06-second glaring frame reaches 1. */
  lemma GlareScenario()
    ensures LookFrames(0.95, [0.06]) == (1.01, true)
  {
    assert [0.06][..0] == [];
  }
}
