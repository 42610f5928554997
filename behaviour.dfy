/** The behaviour states shared by both revisions and the item rule that picks
    between following a player and glaring at them. */
module Behaviour {

  /** The six behaviour states, in the source's order. */
  datatype State =
    | SearchingForPlayer
    | FollowPlayer
    | ChasingPlayer
    | AngrilyLookingAtPlayer
    | KillingPlayer
    | OpeningDoor

  /** Where an engaged Drudge goes: it follows a player when either of them
      holds an item, and glares at an empty-handed player when it holds
      nothing itself. */
  function Engage(targetHasItem: bool, holdsItem: bool): (s: State)
    ensures s == FollowPlayer <==> targetHasItem || holdsItem
    ensures s == AngrilyLookingAtPlayer <==> !targetHasItem && !holdsItem
  {
    if targetHasItem || holdsItem then FollowPlayer else AngrilyLookingAtPlayer
  }

  /** The states in which a current target must exist. */
  predicate Engaged(s: State)
  {
    s == FollowPlayer || s == ChasingPlayer || s == AngrilyLookingAtPlayer
  }

  /** What the door-opening handler decides on one interval, given whether a
      door is remembered, whether an item is held, whether the door is still
      locked and whether the Drudge is within 2 units of it. */
  datatype DoorStep =
    | GiveUp      // back to searching (door forgotten or nothing held)
    | DoorOpen    // door found unlocked: forget it, back to searching
    | Unlock      // close enough: consume the key, unlock and open the door
    | Approach    // walk to the near side of the door
    | NullDoor    // the door was forgotten and then read: a null dereference

  /** The current revision's door handler. */
  function DoorDecision(hasDoor: bool, holding: bool, locked: bool, near: bool): (d: DoorStep)
    ensures d == GiveUp <==> !hasDoor || !holding
    ensures d == DoorOpen <==> hasDoor && holding && !locked
    ensures d == Unlock <==> hasDoor && holding && locked && near
    ensures d != NullDoor
  {
    if !hasDoor || !holding then GiveUp
    else if !locked then DoorOpen
    else if near then Unlock
    else Approach
  }

  /** The earlier revision's door handler as written: after forgetting an
      unlocked door it does not return, and reads the forgotten door's
      position. */
  function DoorDecisionAsWritten(hasDoor: bool, holding: bool, locked: bool, near: bool): DoorStep
  {
    if !hasDoor || !holding then GiveUp
    else if !locked then NullDoor
    else if near then Unlock
    else Approach
  }

  /** An unlocked remembered door, with an item held, makes the earlier
      revision dereference the door it has just cleared. */
  lemma UnlockedDoorFaults(near: bool)
    ensures DoorDecisionAsWritten(true, true, false, near) == NullDoor
    ensures DoorDecision(true, true, false, near) == DoorOpen
  {
  }

  /** The two door handlers differ only on an unlocked door. */
  lemma DoorDecisionsAgreeWhenLocked(hasDoor: bool, holding: bool, locked: bool, near: bool)
    ensures DoorDecisionAsWritten(hasDoor, holding, locked, near) != DoorDecision(hasDoor, holding, locked, near)
        <==> hasDoor && holding && !locked
  {
  }
}

/** The transitions each cadence can make, as a relation on states. */
module Transitions {
  import opened Behaviour

  /** What one AI interval can do to the state, by handler: searching may
      engage; following may lose the target, start glaring or, on a pointing
      emote, go to open a door with the held key; chasing may
      lose the target or fall back to following; glaring may lose the target
      or fall back to following; opening a door ends in searching; the
      killing state has no interval handler. */
  predicate IntervalTransition(from: State, to: State)
  {
    match from
    case SearchingForPlayer => to in {SearchingForPlayer, FollowPlayer, AngrilyLookingAtPlayer}
    case FollowPlayer => to in {SearchingForPlayer, FollowPlayer, AngrilyLookingAtPlayer, OpeningDoor}
    case ChasingPlayer => to in {SearchingForPlayer, ChasingPlayer, FollowPlayer}
    case AngrilyLookingAtPlayer => to in {SearchingForPlayer, AngrilyLookingAtPlayer, FollowPlayer}
    case KillingPlayer => to == KillingPlayer
    case OpeningDoor => to in {OpeningDoor, SearchingForPlayer}
  }

  /** What one frame can do to the state: glaring escalates to chasing, and
      the killing state returns to chasing once no player is held. */
  predicate FrameTransition(from: State, to: State)
  {
    to == from
    || (from == AngrilyLookingAtPlayer && to == ChasingPlayer)
    || (from == KillingPlayer && to == ChasingPlayer)
  }

  /** Chasing is entered only from glaring, by a frame, never by an interval
      handler; and neither cadence ever enters the killing state, so its
      handlers are unreachable. */
  lemma ChasingOnlyFromGlare(from: State, to: State)
    ensures from != ChasingPlayer && IntervalTransition(from, to) ==> to != ChasingPlayer
    ensures from != ChasingPlayer && FrameTransition(from, to) && to == ChasingPlayer
            ==> from in {AngrilyLookingAtPlayer, KillingPlayer}
    ensures from != KillingPlayer && (IntervalTransition(from, to) || FrameTransition(from, to))
            ==> to != KillingPlayer
  {
  }
}

/** The Drudge's reaction to the local player's pointing emote, with the
    raycasts that find what is pointed at given as inputs. */
module Emote {
  import opened Common

  /** What the pointing player is aimed at: the ground, the Drudge, another
      player (by id, possibly the pointer themself) and a door (by index). */
  datatype Pointing = Pointing(atGround: bool, atDrudge: bool, atPlayer: Option<nat>, atDoor: Option<nat>)

  /** The action a pointing emote asks for. */
  datatype EmoteAction =
    | DropHeld
    | UseHeld
    | Retarget(player: nat)
    | UnlockDoor(door: nat)
    | NoAction

  /** The priority: ground, then the Drudge, then another player, then a door
      (only while a key is held). Pointing at oneself counts as pointing at no
      player. */
  function EmoteChoice(p: Pointing, self: nat, holdsKey: bool): (a: EmoteAction)
    ensures a == DropHeld <==> p.atGround
    ensures a == UseHeld <==> !p.atGround && p.atDrudge
    ensures a.Retarget? <==> !p.atGround && !p.atDrudge && p.atPlayer.Some? && p.atPlayer != Some(self)
    ensures a.Retarget? ==> p.atPlayer == Some(a.player)
    ensures a.UnlockDoor? ==> holdsKey && p.atDoor == Some(a.door)
    ensures a == NoAction <==>
      !p.atGround && !p.atDrudge && (p.atPlayer.None? || p.atPlayer == Some(self))
      && (p.atDoor.None? || !holdsKey)
  {
    var other := if p.atPlayer == Some(self) then None else p.atPlayer;
    if p.atGround then DropHeld
    else if p.atDrudge then UseHeld
    else if other.Some? then Retarget(other.value)
    else if p.atDoor.Some? && holdsKey then UnlockDoor(p.atDoor.value)
    else NoAction
  }
}
