/** The earlier revision of the enemy (`ExampleEnemyAI`): the same six-state
    machine, with anger counted per AI interval, a target scan without the
    cooldown rule, a door scan that keeps a remembered door, and the simpler
    two-second kill routine. */
module Example {
  import opened Common
  import opened Items
  import opened World
  import opened Scan
  import opened Behaviour
  import opened Transitions
  import opened Anger
  import opened Kill
  import opened SimpleKill
  import opened Emote
  import KillGuard

  /** Cap of the player scan. */
  const ScanCap: real := 2000.0
  /** Beyond this distance an unseen target is lost. */
  const LoseDistance: real := 20.0
  /** Range of the sight search. */
  const SightRange: real := 25.0
  /** Range of the sense search when no player is in sight. */
  const SenseRange: real := 3.0
  /** Range of the door scan a key triggers. */
  const KeyDoorRange: real := 10.0
  /** Distance at which a door is unlocked. */
  const DoorReach: real := 2.0

  /** A running kill routine: its victim and where it is suspended. */
  datatype SimpleRoutine = SimpleRoutine(victim: nat, phase: SimplePhase)

  class ExampleEnemy {
    const id: nat
    const players: seq<Player>
    const doors: seq<Door>
    /** The engine's fixed AI interval, in seconds. */
    const aiIntervalTime: real

    var state: State
    var angerLevel: real
    var targetPlayer: Option<nat>
    var movingTowardsTargetPlayer: bool
    var searching: bool
    var lightEnabled: bool
    var interactable: bool
    var closestDoor: Option<nat>
    var heldItem: Item?
    var inSpecialAnimationWithPlayer: Option<nat>
    var inSpecialAnimation: bool
    var killRoutine: Option<SimpleRoutine>
    var playerEmoteTime: real
    var hasActedFromEmote: bool

    /** The object invariant: ids in range, a target in every engaged or
        killing state, and the special-animation player held by the kill
        routine exactly during its grip. */
    ghost predicate Valid()
      reads this
    {
      (targetPlayer.Some? ==> targetPlayer.value < |players|)
      && ((Engaged(state) || state == KillingPlayer) ==> targetPlayer.Some?)
      && (closestDoor.Some? ==> closestDoor.value < |doors|)
      && (killRoutine.Some? ==> killRoutine.value.victim < |players|)
      && (inSpecialAnimationWithPlayer.Some? ==>
            killRoutine.Some? && killRoutine.value.victim == inSpecialAnimationWithPlayer.value)
      && (killRoutine.Some? ==>
            (killRoutine.value.phase == Gripping <==> inSpecialAnimationWithPlayer.Some?))
    }

    /** The fields of player `p` that the kill routine works on. */
    function VictimView(p: Player): Victim
      reads p
    {
      Victim(p.health, p.inAnimationWithEnemy == Some(id), p.inSpecialInteractAnimation, p.isPlayerDead)
    }

    /** `Start`: searching, light on, no anger, nothing held or remembered. */
    constructor (id: nat, players: seq<Player>, doors: seq<Door>, aiIntervalTime: real)
      ensures Valid()
      ensures this.id == id && this.players == players && this.doors == doors
      ensures this.aiIntervalTime == aiIntervalTime
      ensures state == SearchingForPlayer && searching && angerLevel == 0.0 && lightEnabled
      ensures targetPlayer == None && heldItem == null && closestDoor == None
      ensures inSpecialAnimationWithPlayer == None && killRoutine == None
      ensures playerEmoteTime == 0.0 && !hasActedFromEmote
    {
      this.id := id;
      this.players := players;
      this.doors := doors;
      this.aiIntervalTime := aiIntervalTime;
      state := SearchingForPlayer;
      angerLevel := 0.0;
      targetPlayer := None;
      movingTowardsTargetPlayer := false;
      searching := true;
      lightEnabled := true;
      interactable := false;
      closestDoor := None;
      heldItem := null;
      inSpecialAnimationWithPlayer := None;
      inSpecialAnimation := false;
      killRoutine := None;
      playerEmoteTime := 0.0;
      hasActedFromEmote := false;
    }

    /** `DoesPlayerHaveAnItem`: some inventory slot is filled. */
    method DoesPlayerHaveAnItem(player: Player) returns (has: bool)
      ensures has <==> AnySlotFilled(player)
    {
      has := SlotsHoldItem(player);
    }

    /** `UpdateAngerLevel`, once per AI interval: a positive anger drains by
        one interval outside the glaring and chasing states. */
    method UpdateAngerLevel()
      modifies this`angerLevel
      ensures angerLevel == Decay(state, old(angerLevel), aiIntervalTime * Accelerator)
    {
      if state != AngrilyLookingAtPlayer && state != ChasingPlayer && angerLevel > 0.0 {
        angerLevel := angerLevel - aiIntervalTime * Accelerator;
      }
    }

    /** `UpdateMovingTowardsTargetPlayer`: moving towards the target exactly
        while chasing one. */
    method UpdateMovingTowardsTargetPlayer()
      modifies this`movingTowardsTargetPlayer
      ensures movingTowardsTargetPlayer <==> targetPlayer.Some? && state == ChasingPlayer
    {
      movingTowardsTargetPlayer := targetPlayer.Some? && state == ChasingPlayer;
    }

    /** `UpdateInteractTrigger`: the give-item prompt is offered exactly while
        following a local player who holds an item (no two-handed rule yet). */
    method UpdateInteractTrigger(localHeld: Item?)
      modifies this`interactable
      ensures interactable <==> localHeld != null && state == FollowPlayer
    {
      interactable := localHeld != null && state == FollowPlayer;
    }

    /** `Update`, one frame: of the frame's work only the interact prompt is
        discrete; the state changes only on AI intervals. */
    method Update(localHeld: Item?)
      modifies this`interactable
      ensures interactable <==> localHeld != null && state == FollowPlayer
    {
      UpdateInteractTrigger(localHeld);
    }

    /** `TargetClosestPlayerInAnyCase`: clear the target, then take the first
        player at minimal distance under 2000 among 0..connectedPlayersAmount;
        the answer is whether one was taken. There is no cooldown rule. The
        cleared target can leave an engaged state without one, so callers
        restore the invariant. */
    method TargetClosestPlayerInAnyCase(s: Senses) returns (ok: bool)
      requires SensesFit(s, |players|, |doors|)
      modifies this`targetPlayer
      ensures targetPlayer == Closest(s.dist[..s.connected + 1], ScanCap)
      ensures ok <==> targetPlayer.Some?
      ensures ok <==> !NoneUnder(s.dist[..s.connected + 1], ScanCap)
      ensures targetPlayer.Some? ==> targetPlayer.value <= s.connected < |players|
    {
      targetPlayer := None;
      targetPlayer := ScanClosest(s.dist[..s.connected + 1], ScanCap);
      ok := targetPlayer.Some?;
    }

    /** `FindClosestLockedDoor`: a door strictly within `range` and no farther
        than every door before it replaces the remembered one; with no such
        door the remembered one, if any, survives. Locks are not checked. */
    method FindClosestLockedDoor(range: real, s: Senses)
      requires Valid() && SensesFit(s, |players|, |doors|)
      modifies this`closestDoor
      ensures Valid()
      ensures var c := Closest(s.doorDist, range);
        closestDoor == (if c.Some? then c else old(closestDoor))
      ensures closestDoor != old(closestDoor) ==>
        closestDoor.Some? && IsFirstClosest(s.doorDist, range, closestDoor.value)
    {
      var found := ScanClosest(s.doorDist, range);
      if found.Some? {
        closestDoor := found;
      }
    }

    /** `SetItemAsHeld` as written: the light is set from whether something
        was held before the assignment, then the item is held. */
    method SetItemAsHeld(item: Item)
      requires Valid()
      modifies this`heldItem, this`lightEnabled, item
      ensures Valid()
      ensures lightEnabled == (old(heldItem) == null)
      ensures heldItem == item && item.isHeldByEnemy && item.attachedToEnemy && !item.physicsEnabled
      ensures item.pinPulled == old(item.pinPulled) && item.spawned == old(item.spawned)
    {
      lightEnabled := heldItem == null;
      heldItem := item;
      item.attachedToEnemy := true;
      item.isHeldByEnemy := true;
      item.physicsEnabled := false;
    }

    /** `DropItem`: with nothing held nothing changes; otherwise the item is
        released to physics and nothing is held. */
    method DropItem()
      requires Valid()
      modifies this`heldItem, heldItem
      ensures Valid()
      ensures heldItem == null
      ensures old(heldItem) == null ==> unchanged(this)
      ensures old(heldItem) != null ==>
        var it := old(heldItem);
        !it.isHeldByEnemy && !it.attachedToEnemy && it.physicsEnabled
        && it.pinPulled == old(it.pinPulled) && it.spawned == old(it.spawned)
    {
      if heldItem == null {
        return;
      }
      heldItem.attachedToEnemy := false;
      heldItem.physicsEnabled := true;
      heldItem.isHeldByEnemy := false;
      heldItem := null;
    }

    /** The drop the emote and the grab ask for (`DropItemClientRPC`): drop,
        then switch the light on, since nothing is held any more. */
    method DropItemAndToggleLight()
      requires Valid()
      modifies this`heldItem, this`lightEnabled, heldItem
      ensures Valid()
      ensures heldItem == null && lightEnabled
      ensures old(heldItem) != null ==> !old(heldItem).isHeldByEnemy && !old(heldItem).attachedToEnemy
    {
      DropItem();
      lightEnabled := heldItem == null;
    }

    /** `GrabScrapFromPlayer`: any held item is dropped first, then the
        player's item in hand becomes the held item. Because the light is set
        before the assignment, it is on afterwards. */
    method GrabScrapFromPlayer(player: Player)
      requires Valid() && player.currentlyHeldObjectServer != null
      modifies this`heldItem, this`lightEnabled, heldItem, player.currentlyHeldObjectServer
      ensures Valid()
      ensures var it := old(player.currentlyHeldObjectServer);
        heldItem == it && it.isHeldByEnemy && it.attachedToEnemy && lightEnabled
        && (old(heldItem) != null && old(heldItem) != it ==>
              !old(heldItem).isHeldByEnemy && !old(heldItem).attachedToEnemy)
    {
      var it := player.currentlyHeldObjectServer;
      if heldItem != null {
        DropItemAndToggleLight();
      }
      SetItemAsHeld(it);
    }

    /** `UseHeldItem`: with nothing held, nothing changes. Otherwise the item's
        type decides (`ExampleUse`): the jetpack, the ladder and the grenade
        (pin pulled first) are dropped; a key runs the door scan and sends the
        enemy to a door if one is remembered afterwards, even one remembered
        from before; everything else is kept. */
    method UseHeldItem(s: Senses)
      requires Valid() && SensesFit(s, |players|, |doors|)
      modifies this`heldItem, this`closestDoor, this`state, heldItem
      ensures Valid()
      ensures old(heldItem) == null ==> unchanged(this)
      ensures old(heldItem) != null ==>
        var it := old(heldItem);
        var o := ExampleUse(it.kind);
        (heldItem == null <==> DropsAfterUse(o))
        && (DropsAfterUse(o) ==> !it.isHeldByEnemy && !it.attachedToEnemy)
        && (!DropsAfterUse(o) ==> heldItem == it)
        && (it.pinPulled <==> old(it.pinPulled) || o == PullPin)
        && (o == SeekDoor ==>
              var c := Closest(s.doorDist, KeyDoorRange);
              closestDoor == (if c.Some? then c else old(closestDoor))
              && state == (if closestDoor.Some? then OpeningDoor else old(state)))
        && (o != SeekDoor ==> closestDoor == old(closestDoor) && state == old(state))
    {
      if heldItem == null {
        return;
      }
      var it := heldItem;
      match ExampleUse(it.kind)
      case Detonate =>
        DropItem();
      case Fart =>
      case ExtendLadder =>
        DropItem();
      case PullPin =>
        it.pinPulled := true;
        DropItem();
      case SeekDoor =>
        FindClosestLockedDoor(KeyDoorRange, s);
        if closestDoor.Some? {
          state := OpeningDoor;
        }
      case SprayNothing =>
      case ToggleRadio =>
      case NoShells =>
      case GenericUse =>
    }

    /** `HitEnemy`: being hit uses the held item. */
    method HitEnemy(s: Senses)
      requires Valid() && SensesFit(s, |players|, |doors|)
      modifies this`heldItem, this`closestDoor, this`state, heldItem
      ensures Valid()
      ensures old(heldItem) == null ==> unchanged(this)
      ensures old(heldItem) != null ==>
        (heldItem == null <==> DropsAfterUse(ExampleUse(old(heldItem).kind)))
    {
      UseHeldItem(s);
    }

    /** `SearchingForPlayerState`: the engine's closest player in sight (within
        25) or, failing that, sensed (within 3) becomes the target; if it is in
        range, the search stops and the item rule picks following or glaring.
        The target stays set even when out of range. */
    method SearchingForPlayerState(s: Senses)
      requires Valid() && SensesFit(s, |players|, |doors|) && state == SearchingForPlayer
      modifies this`targetPlayer, this`state, this`searching
      ensures Valid()
      ensures targetPlayer == (if s.seen.Some? then s.seen else s.sensed)
      ensures var found := targetPlayer.Some? &&
                s.dist[targetPlayer.value] < (if s.seen.Some? then SightRange else SenseRange);
        if found
        then !searching && state == Engage(AnySlotFilled(players[targetPlayer.value]), heldItem != null)
        else searching == old(searching) && state == SearchingForPlayer
    {
      var range := SightRange;
      targetPlayer := s.seen;
      if targetPlayer == None {
        targetPlayer := s.sensed;
        range := SenseRange;
      }
      var found := targetPlayer.Some? && s.dist[targetPlayer.value] < range;
      if found {
        searching := false;
        var has := DoesPlayerHaveAnItem(players[targetPlayer.value]);
        if has || heldItem != null {
          state := FollowPlayer;
        } else {
          state := AngrilyLookingAtPlayer;
        }
      }
    }

    /** Whether the engaged handlers keep their target: the scan found a
        player, and that player is within 20 units or in sight. */
    predicate Keeps(s: Senses, c: Option<nat>)
      requires SensesFit(s, |players|, |doors|)
      requires c.Some? ==> c.value < |players|
    {
      c.Some? && !(s.dist[c.value] > LoseDistance && !s.sight[c.value])
    }

    /** `CheckTargetPlayerForEmoteActions`: while the target performs the
        pointing emote its duration accumulates, and past 0.03 s, once per
        emote, pointing at the ground drops the held item (light on) and
        pointing at the enemy uses it; any other emote resets the timer and
        the acted flag. */
    method CheckTargetPlayerForEmoteActions(emoting: bool, dt: real, atGround: bool, atDrudge: bool, s: Senses)
      requires Valid() && SensesFit(s, |players|, |doors|)
      modifies this`heldItem, this`lightEnabled, this`closestDoor, this`state, heldItem
      modifies this`playerEmoteTime, this`hasActedFromEmote
      ensures Valid()
      ensures state == old(state) || state == OpeningDoor
      ensures !(targetPlayer.Some? && emoting) ==>
        playerEmoteTime == 0.0 && !hasActedFromEmote && state == old(state) && heldItem == old(heldItem)
      ensures targetPlayer.Some? && emoting ==>
        var a := EmoteChoice(Pointing(atGround, atDrudge, None, None), 0, false);
        var acts := old(playerEmoteTime) + dt > 0.03 && !old(hasActedFromEmote) && a != NoAction;
        playerEmoteTime == old(playerEmoteTime) + dt
        && hasActedFromEmote == (acts || old(hasActedFromEmote))
        && (acts && a == DropHeld ==> heldItem == null && lightEnabled && state == old(state))
        && (acts && a == UseHeld && old(heldItem) != null ==>
              var o := ExampleUse(old(heldItem).kind);
              (heldItem == null <==> DropsAfterUse(o))
              && (o == SeekDoor ==>
                    var c := Closest(s.doorDist, KeyDoorRange);
                    closestDoor == (if c.Some? then c else old(closestDoor)))
              && state == (if o == SeekDoor && closestDoor.Some? then OpeningDoor else old(state)))
        && (acts && a == UseHeld && old(heldItem) == null ==> heldItem == null && state == old(state))
        && (!acts ==> heldItem == old(heldItem) && state == old(state))
    {
      if targetPlayer.Some? && emoting {
        playerEmoteTime := playerEmoteTime + dt;
        var a := EmoteChoice(Pointing(atGround, atDrudge, None, None), 0, false);
        if playerEmoteTime > 0.03 && !hasActedFromEmote && a != NoAction {
          if a == DropHeld {
            DropItemAndToggleLight();
          } else {
            UseHeldItem(s);
          }
          hasActedFromEmote := true;
        }
      } else {
        playerEmoteTime := 0.0;
        hasActedFromEmote := false;
      }
    }

    /** `FollowPlayerState`: rescan; without a kept target search again;
        when neither side holds an item glare; otherwise go on following. */
    method FollowPlayerState(s: Senses)
      requires Valid() && SensesFit(s, |players|, |doors|) && state == FollowPlayer
      modifies this`targetPlayer, this`state, this`searching
      ensures Valid()
      ensures var c := Closest(s.dist[..s.connected + 1], ScanCap);
        targetPlayer == c
        && if !Keeps(s, c) then state == SearchingForPlayer && searching
           else searching == old(searching)
                && state == (if !AnySlotFilled(players[c.value]) && heldItem == null
                             then AngrilyLookingAtPlayer else FollowPlayer)
    {
      var ok := TargetClosestPlayerInAnyCase(s);
      if !ok || (s.dist[targetPlayer.value] > LoseDistance && !s.sight[targetPlayer.value]) {
        searching := true;
        state := SearchingForPlayer;
        return;
      }
      var has := DoesPlayerHaveAnItem(players[targetPlayer.value]);
      if !has && heldItem == null {
        state := AngrilyLookingAtPlayer;
        return;
      }
    }

    /** `ChasingPlayerState`: rescan; without a kept target search again; a
        target holding an item is followed instead. */
    method ChasingPlayerState(s: Senses)
      requires Valid() && SensesFit(s, |players|, |doors|) && state == ChasingPlayer
      modifies this`targetPlayer, this`state, this`searching
      ensures Valid()
      ensures var c := Closest(s.dist[..s.connected + 1], ScanCap);
        targetPlayer == c
        && if !Keeps(s, c) then state == SearchingForPlayer && searching
           else searching == old(searching)
                && state == (if AnySlotFilled(players[c.value]) then FollowPlayer else ChasingPlayer)
    {
      var ok := TargetClosestPlayerInAnyCase(s);
      if !ok || (s.dist[targetPlayer.value] > LoseDistance && !s.sight[targetPlayer.value]) {
        searching := true;
        state := SearchingForPlayer;
        return;
      }
      var has := DoesPlayerHaveAnItem(players[targetPlayer.value]);
      if has {
        state := FollowPlayer;
        return;
      }
    }

    /** `AngrilyLookingAtPlayerState`: rescan; without a kept target search
        again; when either side holds an item follow; only then does one
        interval of anger accrue, and reaching 1 frightens the target to the
        maximum and starts the chase. */
    method AngrilyLookingAtPlayerState(s: Senses)
      requires Valid() && SensesFit(s, |players|, |doors|) && state == AngrilyLookingAtPlayer
      modifies this`targetPlayer, this`state, this`searching, this`angerLevel, players
      ensures Valid()
      ensures var c := Closest(s.dist[..s.connected + 1], ScanCap);
        targetPlayer == c
        && if !Keeps(s, c) then state == SearchingForPlayer && searching && angerLevel == old(angerLevel)
           else if AnySlotFilled(players[c.value]) || heldItem != null
           then state == FollowPlayer && angerLevel == old(angerLevel) && searching == old(searching)
           else angerLevel == old(angerLevel) + aiIntervalTime * Accelerator
                && searching == old(searching)
                && state == (if Escalates(angerLevel) then ChasingPlayer else AngrilyLookingAtPlayer)
                && (Escalates(angerLevel) ==> players[c.value].fearLevel == 1.0)
    {
      var ok := TargetClosestPlayerInAnyCase(s);
      if !ok || (s.dist[targetPlayer.value] > LoseDistance && !s.sight[targetPlayer.value]) {
        searching := true;
        state := SearchingForPlayer;
        return;
      }
      var has := DoesPlayerHaveAnItem(players[targetPlayer.value]);
      if has || heldItem != null {
        state := FollowPlayer;
        return;
      }
      angerLevel := angerLevel + aiIntervalTime * Accelerator;
      if Escalates(angerLevel) {
        players[targetPlayer.value].fearLevel := 1.0;
        state := ChasingPlayer;
        return;
      }
    }

    /** `KillingPlayerState`: back to chasing once no player is held. */
    method KillingPlayerState()
      requires Valid() && state == KillingPlayer
      modifies this`state
      ensures Valid()
      ensures state == (if inSpecialAnimationWithPlayer.None? then ChasingPlayer else KillingPlayer)
    {
      if inSpecialAnimationWithPlayer.None? {
        state := ChasingPlayer;
      }
    }

    /** `OpeningDoorState`, with the missing return restored (see
        `DoorDecisionAsWritten`): give up without a door or an item; forget a
        door found unlocked; within reach despawn the held key, unlock and
        open the door and forget it; otherwise keep walking to it. Every
        ending goes back to searching without restarting the search. */
    method OpeningDoorState(s: Senses)
      requires Valid() && SensesFit(s, |players|, |doors|) && state == OpeningDoor
      modifies this`state, this`closestDoor, this`heldItem, heldItem, doors
      ensures Valid()
      ensures var d := old(closestDoor);
        var locked := d.Some? && old(doors[d.value].isLocked);
        var near := d.Some? && s.doorDist[d.value] < DoorReach;
        match DoorDecision(d.Some?, old(heldItem) != null, locked, near)
        case GiveUp =>
          state == SearchingForPlayer && closestDoor == d && heldItem == old(heldItem)
          && unchanged(doors) && (old(heldItem) != null ==> unchanged(old(heldItem)))
        case DoorOpen =>
          state == SearchingForPlayer && closestDoor == None && heldItem == old(heldItem)
          && unchanged(doors) && unchanged(old(heldItem))
        case Unlock =>
          state == SearchingForPlayer && closestDoor == None && heldItem == null
          && !old(heldItem).spawned && !doors[d.value].isLocked && doors[d.value].isOpen
          && (forall i :: 0 <= i < |doors| && doors[i] != doors[d.value] ==> unchanged(doors[i]))
        case Approach =>
          state == OpeningDoor && closestDoor == d && heldItem == old(heldItem)
          && unchanged(doors) && unchanged(old(heldItem))
        case NullDoor => false
    {
      if closestDoor.None? || heldItem == null {
        state := SearchingForPlayer;
        return;
      }
      var door := doors[closestDoor.value];
      if !door.isLocked {
        closestDoor := None;
        state := SearchingForPlayer;
        return;
      }
      if s.doorDist[closestDoor.value] < DoorReach {
        heldItem.spawned := false;
        heldItem := null;
        door.isLocked := false;
        door.isOpen := true;
        closestDoor := None;
        state := SearchingForPlayer;
        return;
      }
    }

    /** `DoAIInterval`: nothing while the enemy or every player is dead;
        otherwise anger decays by one interval, the chase flag is refreshed,
        and the handler of the current state runs. */
    method DoAIInterval(s: Senses, emoting: bool, dt: real, atGround: bool, atDrudge: bool,
                        isEnemyDead: bool, allPlayersDead: bool)
      requires Valid() && SensesFit(s, |players|, |doors|)
      modifies this, heldItem, doors, players
      ensures Valid()
      ensures IntervalTransition(old(state), state)
        || (old(state) == AngrilyLookingAtPlayer && state == ChasingPlayer)
        || (old(state) == KillingPlayer && state == ChasingPlayer)
      ensures isEnemyDead || allPlayersDead ==> unchanged(this)
      ensures !(isEnemyDead || allPlayersDead) && old(state) != AngrilyLookingAtPlayer ==>
        angerLevel == Decay(old(state), old(angerLevel), aiIntervalTime * Accelerator)
      ensures killRoutine == old(killRoutine) && inSpecialAnimationWithPlayer == old(inSpecialAnimationWithPlayer)
    {
      if isEnemyDead || allPlayersDead {
        return;
      }
      UpdateAngerLevel();
      UpdateMovingTowardsTargetPlayer();
      RunStateHandler(s, emoting, dt, atGround, atDrudge);
    }

    /** The state switch of `DoAIInterval`: the handler of the current state
        runs; only glaring touches anger, and no handler touches the kill
        routine. */
    method RunStateHandler(s: Senses, emoting: bool, dt: real, atGround: bool, atDrudge: bool)
      requires Valid() && SensesFit(s, |players|, |doors|)
      modifies this, heldItem, doors, players
      ensures Valid()
      ensures IntervalTransition(old(state), state)
        || (old(state) == AngrilyLookingAtPlayer && state == ChasingPlayer)
        || (old(state) == KillingPlayer && state == ChasingPlayer)
      ensures old(state) != AngrilyLookingAtPlayer ==> angerLevel == old(angerLevel)
      ensures killRoutine == old(killRoutine) && inSpecialAnimationWithPlayer == old(inSpecialAnimationWithPlayer)
    {
      match state
      case SearchingForPlayer => SearchingForPlayerState(s);
      case FollowPlayer =>
        FollowPlayerState(s);
        if state == FollowPlayer {
          CheckTargetPlayerForEmoteActions(emoting, dt, atGround, atDrudge, s);
        }
      case ChasingPlayer => ChasingPlayerState(s);
      case AngrilyLookingAtPlayer => AngrilyLookingAtPlayerState(s);
      case KillingPlayer => KillingPlayerState();
      case OpeningDoor => OpeningDoorState(s);
    }

    /** `OnCollideWithPlayer`: a touching player that meets the engine's
        collision conditions is captured when it is the target, the enemy is
        chasing, no player is locked into a special animation and no kill
        routine runs (`KillGuard.MayStartSimple`). Capture sets both
        back-links and starts the routine, whose grip waits two seconds. */
    method OnCollideWithPlayer(p: nat, meetsCollisionConditions: bool) returns (wait: real)
      requires Valid() && p < |players|
      modifies this`inSpecialAnimationWithPlayer, this`inSpecialAnimation, this`killRoutine, players[p]
      ensures Valid()
      ensures var start := meetsCollisionConditions &&
          KillGuard.MayStartSimple(old(targetPlayer) == Some(p), old(state) == ChasingPlayer,
                                   old(inSpecialAnimationWithPlayer).Some?, old(killRoutine).Some?);
        var pl := players[p];
        if !start then unchanged(this) && unchanged(pl) && wait == 0.0
        else
          VictimView(pl) == old(VictimView(pl)).(linked := true, inInteract := true)
          && killRoutine == Some(SimpleRoutine(p, Gripping))
          && inSpecialAnimationWithPlayer == Some(p) && inSpecialAnimation && wait == GripDelay
          && pl.health == old(pl.health) && pl.fearLevel == old(pl.fearLevel)
    {
      var pl := players[p];
      if !meetsCollisionConditions || targetPlayer != Some(p) || state != ChasingPlayer
         || inSpecialAnimationWithPlayer.Some? || killRoutine.Some? {
        return 0.0;
      }
      inSpecialAnimationWithPlayer := Some(p);
      pl.inSpecialInteractAnimation := true;
      pl.inAnimationWithEnemy := Some(id);
      killRoutine := Some(SimpleRoutine(p, Gripping));
      inSpecialAnimation := true;
      wait := GripDelay;
    }

    /** One resumption of the kill routine, as `SimpleResume` states it: the
        victim changes as it says and `wait` is the new suspension's length.
        The kill releases the enemy's side of the lock; the end of the
        routine releases it again, ends the animation, and on the owner
        returns to searching (without restarting the search). */
    method ResumeKillPlayerAnimation(isOwner: bool) returns (wait: real)
      requires Valid() && killRoutine.Some?
      modifies this`inSpecialAnimationWithPlayer, this`inSpecialAnimation, this`killRoutine, this`state
      modifies players[killRoutine.value.victim]
      ensures Valid()
      ensures var k := old(killRoutine).value;
        var pl := players[k.victim];
        var (q, v, w) := SimpleResume(k.phase, old(VictimView(pl)));
        wait == w && VictimView(pl) == v && inSpecialAnimationWithPlayer == None
        && (q.Some? ==> killRoutine == Some(SimpleRoutine(k.victim, q.value))
                        && state == old(state) && inSpecialAnimation == old(inSpecialAnimation))
        && (q.None? ==> killRoutine == None && !inSpecialAnimation
                        && state == (if isOwner then SearchingForPlayer else old(state)))
    {
      var k := killRoutine.value;
      var pl := players[k.victim];
      if k.phase == Gripping && pl.inAnimationWithEnemy == Some(id) && !pl.isPlayerDead {
        inSpecialAnimationWithPlayer := None;
        pl.isPlayerDead := true;
        pl.inSpecialInteractAnimation := false;
        pl.inAnimationWithEnemy := None;
        killRoutine := Some(SimpleRoutine(k.victim, Aftermath));
        wait := AftermathDelay;
        return;
      }
      inSpecialAnimationWithPlayer := None;
      inSpecialAnimation := false;
      killRoutine := None;
      if isOwner {
        state := SearchingForPlayer;
      }
      wait := 0.0;
    }
  }
}
