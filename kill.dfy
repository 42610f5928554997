/** The kill sequence coroutine of the current revision as an explicit
    resumable routine. Each `Resume` runs the coroutine from one suspension
    point to the next and reports how long the new suspension waits. */
module Kill {

  /** The crushing budget, 2 seconds, in half-second ticks. */
  const CrushBudget: nat := 4
  /** Damage of one crushing step. */
  const CrushDamage: int := 20
  /** Seconds waited after the kill before the routine finishes. */
  const SettleDelay: real := 0.8

  /** Where the coroutine is suspended: before the loop test with the budget
      left, after the final blow waiting out the leftover budget, or after
      the kill waiting the settle delay. */
  datatype Phase = Loop(budget: nat) | Leftover(budget: nat) | Settling

  /** The victim's fields the routine reads and writes; `linked` says that the
      player's `inAnimationWithEnemy` is this Drudge. */
  datatype Victim = Victim(health: int, linked: bool, inInteract: bool, dead: bool)

  /** Suspended at a phase, or run to completion. */
  datatype Point = At(phase: Phase, victim: Victim) | Done(victim: Victim)

  /** Damage applied by subtraction. */
  function Damage(v: Victim, amount: int): Victim
  {
    v.(health := v.health - amount)
  }

  /** The kill itself: unlink the player and leave them dead. */
  function Killed(v: Victim): Victim
  {
    v.(linked := false, inInteract := false, dead := true)
  }

  /** One resumption: the next point and the seconds its suspension waits. */
  function Resume(p: Phase, v: Victim): (Point, real)
  {
    match p
    case Loop(b) =>
      if v.health > CrushDamage && b > 0 then (At(Loop(b - 1), Damage(v, CrushDamage)), 0.5)
      else (At(Leftover(b), Damage(v, v.health - 1)), b as real * 0.5)
    case Leftover(_) =>
      if v.linked && !v.dead then (At(Settling, Killed(v)), SettleDelay)
      else (Done(v), 0.0)
    case Settling =>
      (Done(v), 0.0)
  }

  /** `n` resumptions from `pt` (fewer if the routine finishes), with the total
      seconds of the suspensions they entered. */
  function Run(pt: Point, n: nat): (Point, real)
    decreases n
  {
    if n == 0 || pt.Done? then (pt, 0.0)
    else
      var (q, w) := Resume(pt.phase, pt.victim);
      var (r, t) := Run(q, n - 1);
      (r, w + t)
  }

  /** How many full crushing steps a victim of health `h` takes before the
      loop test fails on health alone. */
  function DamageSteps(h: int): nat
  {
    if h > CrushDamage then (h - 1) / CrushDamage else 0
  }

  function Min(a: nat, b: nat): nat
  {
    if a < b then a else b
  }

  /** From the loop head with budget `b`, the loop applies exactly
      `min(b, (h - 1) / 20)` steps of 20 damage, half a second apart. */
  lemma {:induction false} CrushSteps(b: nat, v: Victim)
    ensures var k := Min(b, DamageSteps(v.health));
      Run(At(Loop(b), v), k) == (At(Loop(b - k), Damage(v, CrushDamage * k)), k as real * 0.5)
    decreases b
  {
    if v.health > CrushDamage && b > 0 {
      var v' := Damage(v, CrushDamage);
      DamageStepsPeel(v.health);
      CrushSteps(b - 1, v');
      var k' := Min(b - 1, DamageSteps(v'.health));
      assert Resume(Loop(b), v) == (At(Loop(b - 1), v'), 0.5);
      assert Damage(v', CrushDamage * k') == Damage(v, CrushDamage * (k' + 1));
    }
  }

  /** Once the loop test fails, the next resumption strikes the final blow,
      which leaves health at exactly 1, and waits out the rest of the budget. */
  lemma {:induction false} FinalBlow(b: nat, v: Victim)
    requires !(v.health > CrushDamage && b > 0)
    ensures Run(At(Loop(b), v), 1) == (At(Leftover(b), v.(health := 1)), b as real * 0.5)
  {
    assert Run(At(Leftover(b), v.(health := 1)), 0) == (At(Leftover(b), v.(health := 1)), 0.0);
  }

  /** The whole crushing loop from budget `b`: the steps of `CrushSteps`, and
      one resumption later the final blow with health at exactly 1, the waits
      adding up to the whole budget. */
  lemma {:induction false} CrushLoop(b: nat, v: Victim)
    ensures var k := Min(b, DamageSteps(v.health));
      Run(At(Loop(b), v), k) == (At(Loop(b - k), Damage(v, CrushDamage * k)), k as real * 0.5)
      && Run(At(Loop(b), v), k + 1) == (At(Leftover(b - k), v.(health := 1)), b as real * 0.5)
  {
    var k := Min(b, DamageSteps(v.health));
    var vk := Damage(v, CrushDamage * k);
    var start := At(Loop(b), v);
    var mid := At(Loop(b - k), vk);
    assert Run(start, k) == (mid, k as real * 0.5) by { CrushSteps(b, v); }
    assert Run(mid, 1) == (At(Leftover(b - k), v.(health := 1)), (b - k) as real * 0.5) by {
      StepsExhaust(v.health, b);
      FinalBlow(b - k, vk);
    }
    assert Run(start, k + 1) == (Run(mid, 1).0, k as real * 0.5 + Run(mid, 1).1) by {
      RunSplit(start, k, 1);
    }
  }

  /** After its steps the loop test fails: either the budget is spent or the
      health left is at most 20. */
  lemma {:induction false} StepsExhaust(h: int, b: nat)
    ensures var k := Min(b, DamageSteps(h));
      !(h - CrushDamage * k > CrushDamage && b - k > 0)
  {
    var k := Min(b, DamageSteps(h));
    if h > CrushDamage && k < b {
      var q := (h - 1) / 20;
      assert k == q;
      assert 20 * q <= h - 1 < 20 * q + 20;
    }
  }

  /** One crushing step takes one off the number of steps left. */
  lemma DamageStepsPeel(h: int)
    requires h > CrushDamage
    ensures DamageSteps(h) == DamageSteps(h - CrushDamage) + 1
  {
    if h - CrushDamage > CrushDamage {
      assert (h - 1) / 20 == (h - 21) / 20 + 1;
    } else {
      assert 1 <= (h - 1) / 20 < 2;
    }
  }

  /** The current revision's whole sequence against a linked, living victim:
      the crushing steps, the final blow, the kill and the settle delay, after
      which the routine finishes with the victim dead and unlinked; the waits
      before the link check add up to exactly 2 seconds. */
  lemma KillSequence(v: Victim)
    requires v.linked && !v.dead
    ensures var k := Min(CrushBudget, DamageSteps(v.health));
      k <= 4
      && Run(At(Loop(CrushBudget), v), k + 1) == (At(Leftover(CrushBudget - k), v.(health := 1)), 2.0)
      && Run(At(Loop(CrushBudget), v), k + 3) == (Done(Killed(v.(health := 1))), 2.0 + SettleDelay)
  {
    var k := Min(CrushBudget, DamageSteps(v.health));
    var start := At(Loop(CrushBudget), v);
    var blown := At(Leftover(CrushBudget - k), v.(health := 1));
    CrushLoop(CrushBudget, v);
    assert Run(start, k + 1) == (blown, 2.0);
    LinkCheckKills(CrushBudget - k, v.(health := 1));
    RunSplit(start, k + 1, 2);
  }

  /** From the leftover wait, a linked and living victim is killed, and the
      routine finishes after the settle delay. */
  lemma LinkCheckKills(b: nat, v: Victim)
    requires v.linked && !v.dead
    ensures Run(At(Leftover(b), v), 2) == (Done(Killed(v)), SettleDelay)
  {
    assert Run(At(Settling, Killed(v)), 1) == (Done(Killed(v)), 0.0);
  }

  /** When the victim was unlinked (or already dead) by the time of the link
      check, the routine finishes right after the final blow, without a kill. */
  lemma SparedWhenUnlinked(v: Victim)
    requires !v.linked || v.dead
    ensures var k := Min(CrushBudget, DamageSteps(v.health));
      Run(At(Loop(CrushBudget), v), k + 2) == (Done(v.(health := 1)), 2.0)
  {
    var k := Min(CrushBudget, DamageSteps(v.health));
    CrushLoop(CrushBudget, v);
    RunSplit(At(Loop(CrushBudget), v), k + 1, 1);
  }

  /** Running `m + n` resumptions is running `m` and then `n` more. */
  lemma {:induction false} RunSplit(pt: Point, m: nat, n: nat)
    ensures Run(pt, m + n) == (Run(Run(pt, m).0, n).0, Run(pt, m).1 + Run(Run(pt, m).0, n).1)
    decreases m
  {
    if m > 0 && pt.At? {
      var (q, w) := Resume(pt.phase, pt.victim);
      RunSplit(q, m - 1, n);
    } else if pt.Done? {
      assert Run(pt, n) == (pt, 0.0);
    }
  }

  /** The scenario of a victim at full health: four steps of 20, then the final blow. */
  lemma FullHealthVictim()
    ensures Min(CrushBudget, DamageSteps(100)) == 4
    ensures Min(CrushBudget, DamageSteps(22)) == 1
  {
  }
}

/** The guard that lets a touching player start the kill sequence. */
module KillGuard {

  /** The guard as written: the Drudge is chasing, no player is locked into a
      special animation with it, and the player holds no item. */
  predicate MayStartAsWritten(chasing: bool, specialPlayerSet: bool, victimHasItem: bool)
  {
    chasing && !specialPlayerSet && !victimHasItem
  }

  /** The guard with the running routine taken into account: no second
      routine while one is still running. */
  predicate MayStart(chasing: bool, specialPlayerSet: bool, victimHasItem: bool, routineRunning: bool)
  {
    MayStartAsWritten(chasing, specialPlayerSet, victimHasItem) && !routineRunning
  }

  /** During the settle delay after a kill the special-animation player is
      already cleared while the routine still runs and the state is still
      chasing, so the guard as written admits a second routine, whose handle
      then replaces the first one's; the corrected guard refuses it. */
  lemma SettleAdmitsSecondKill()
    ensures MayStartAsWritten(true, false, false)
    ensures !MayStart(true, false, false, true)
  {
  }

  /** The corrected guard admits exactly what the written one admits when no
      routine is running. */
  lemma GuardsAgreeWhenIdle(chasing: bool, specialPlayerSet: bool, victimHasItem: bool)
    ensures MayStart(chasing, specialPlayerSet, victimHasItem, false)
        == MayStartAsWritten(chasing, specialPlayerSet, victimHasItem)
  {
  }

  /** The earlier revision's guard as written: the player is the target, the
      enemy is chasing and no player is locked into a special animation with
      it. */
  predicate MayStartSimpleAsWritten(isTarget: bool, chasing: bool, specialPlayerSet: bool)
  {
    isTarget && chasing && !specialPlayerSet
  }

  /** The same guard refusing a second routine while one still runs. */
  predicate MayStartSimple(isTarget: bool, chasing: bool, specialPlayerSet: bool, routineRunning: bool)
  {
    MayStartSimpleAsWritten(isTarget, chasing, specialPlayerSet) && !routineRunning
  }

  /** In the second after the earlier revision's kill the special-animation
      player is already cleared and the enemy is still chasing, so a new
      target admits a second routine alongside the first; the corrected guard
      refuses it. */
  lemma AftermathAdmitsSecondKill()
    ensures MayStartSimpleAsWritten(true, true, false)
    ensures !MayStartSimple(true, true, false, true)
  {
  }
}

/** The earlier revision's kill routine: a two-second grip, then, if the
    player is still linked to the enemy and alive, the kill and one more
    second before the routine ends. */
module SimpleKill {
  import opened Common
  import opened Kill

  /** Seconds of the grip before the link check. */
  const GripDelay: real := 2.0
  /** Seconds waited after the kill. */
  const AftermathDelay: real := 1.0

  /** Where the routine is suspended: in the grip, or after the kill. */
  datatype SimplePhase = Gripping | Aftermath

  /** One resumption: the phase of the new suspension (`None` once the routine
      has ended), the victim, and the seconds the new suspension waits. Only
      a grip on a linked, living player kills, and only it leads to a second
      suspension; the victim is otherwise untouched. */
  function SimpleResume(p: SimplePhase, v: Victim): (r: (Option<SimplePhase>, Victim, real))
    ensures r.0 == Some(Aftermath) <==> p == Gripping && v.linked && !v.dead
    ensures r.0 != Some(Gripping)
    ensures r.1 == (if r.0.Some? then Killed(v) else v)
    ensures r.2 == (if r.0.Some? then AftermathDelay else 0.0)
  {
    match p
    case Gripping =>
      if v.linked && !v.dead then (Some(Aftermath), Killed(v), AftermathDelay)
      else (None, v, 0.0)
    case Aftermath =>
      (None, v, 0.0)
  }
}
