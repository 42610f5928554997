/** The Drudge enemy of the current revision: its fields, the per-frame
    update, the per-interval state handlers, targeting, item handling and the
    kill sequence. Engine queries arrive as `Senses`; each server/client RPC
    pair is a direct call. */
module Drudge {
  import opened Common
  import opened Items
  import opened World
  import opened Scan
  import opened Tracker
  import opened Behaviour
  import opened Anger
  import opened Kill
  import opened Transitions
  import opened Emote
  import KillGuard

  /** The engine's closest-player scan ignores players at 2000 units or more. */
  const ScanCap: real := 2000.0
  /** A target farther than this and out of sight is lost. */
  const LoseDistance: real := 20.0
  /** Range for a target in line of sight, and for one only sensed. */
  const SightRange: real := 25.0
  const SenseRange: real := 3.0
  /** A key looks for doors within this range. */
  const KeyDoorRange: real := 10.0
  /** Close enough to a door to unlock it. */
  const DoorReach: real := 2.0

  /** The suspended kill sequence: whom it is crushing and where it waits. */
  datatype KillRoutine = KillRoutine(victim: nat, phase: Phase)

  class Drudge {
    const id: nat
    /** `allPlayerScripts`, indexed by player id. */
    const players: seq<Player>
    /** The door locks of the scene. */
    const doors: seq<Door>
    /** Configuration, read-only. */
    const canKillEmptyHanded: bool
    const canCarryTwoHanded: bool

    var state: State
    var stunned: bool
    var angerLevel: real
    var previousTargetPlayerId: Option<nat>
    var timeSinceTargetedPreviousPlayer: real
    var currentTargetPlayerId: Option<nat>
    /** The base class's `targetPlayer`, as a player id. */
    var targetPlayer: Option<nat>
    var movingTowardsTargetPlayer: bool
    /** A passive search is running (`StartSearch`/`StopSearch`). */
    var searching: bool
    var lightEnabled: bool
    var interactable: bool
    var closestDoor: Option<nat>
    var heldItem: Item?
    var inSpecialAnimationWithPlayer: Option<nat>
    var inSpecialAnimation: bool
    var killingCoroutine: Option<KillRoutine>
    var walkieTalkieCoroutine: bool
    var playerEmoteTime: real
    var hasActedFromEmote: bool

    /** The object invariant: ids in range, a current target in every engaged
        or killing state, a previous target only after a current one, and the capture lock
        held by the kill routine for its victim until the kill, and the relay
        routine alive only while a walkie-talkie is held (its loop runs while
        `heldItem is WalkieTalkie` and clears the handle when it leaves). */
    ghost predicate Valid()
      reads this
    {
      (currentTargetPlayerId.Some? ==> currentTargetPlayerId.value < |players|)
      && (previousTargetPlayerId.Some? ==> currentTargetPlayerId.Some?)
      && (targetPlayer.Some? ==> targetPlayer.value < |players|)
      && ((Engaged(state) || state == KillingPlayer) ==> currentTargetPlayerId.Some? && targetPlayer.Some?)
      && (closestDoor.Some? ==> closestDoor.value < |doors|)
      && (killingCoroutine.Some? ==> killingCoroutine.value.victim < |players|)
      && (inSpecialAnimationWithPlayer.Some? ==>
            killingCoroutine.Some? && killingCoroutine.value.victim == inSpecialAnimationWithPlayer.value)
      && (killingCoroutine.Some? ==>
            (killingCoroutine.value.phase.Settling? <==> inSpecialAnimationWithPlayer.None?))
      && (walkieTalkieCoroutine ==> heldItem != null && heldItem.kind == WalkieTalkie)
    }

    /** The hysteresis pair with the current target. */
    function Tracker(): Hysteresis
      reads this`currentTargetPlayerId, this`previousTargetPlayerId, this`timeSinceTargetedPreviousPlayer
    {
      Hysteresis(currentTargetPlayerId, previousTargetPlayerId, timeSinceTargetedPreviousPlayer)
    }

    /** The fields of player `p` that the kill sequence works on. */
    function VictimView(p: Player): Victim
      reads p
    {
      Victim(p.health, p.inAnimationWithEnemy == Some(id), p.inSpecialInteractAnimation, p.isPlayerDead)
    }

    /** What "has an item" means for the kill and follow rules. */
    predicate HasItem(p: Player)
      reads p, p.itemSlots
    {
      if canKillEmptyHanded then p.currentlyHeldObjectServer != null else AnySlotFilled(p)
    }

    /** `Start`: searching, calm, nothing held, no target. */
    constructor (id: nat, players: seq<Player>, doors: seq<Door>, canKillEmptyHanded: bool, canCarryTwoHanded: bool)
      ensures Valid()
      ensures this.id == id && this.players == players && this.doors == doors
      ensures this.canKillEmptyHanded == canKillEmptyHanded && this.canCarryTwoHanded == canCarryTwoHanded
      ensures state == SearchingForPlayer && searching && angerLevel == 0.0 && !stunned
      ensures Tracker() == Hysteresis(None, None, 0.0) && targetPlayer == None
      ensures heldItem == null && lightEnabled && closestDoor == None
      ensures inSpecialAnimationWithPlayer == None && killingCoroutine == None && !walkieTalkieCoroutine
      ensures playerEmoteTime == 0.0 && !hasActedFromEmote
    {
      this.id := id;
      this.players := players;
      this.doors := doors;
      this.canKillEmptyHanded := canKillEmptyHanded;
      this.canCarryTwoHanded := canCarryTwoHanded;
      state := SearchingForPlayer;
      stunned := false;
      angerLevel := 0.0;
      previousTargetPlayerId := None;
      timeSinceTargetedPreviousPlayer := 0.0;
      currentTargetPlayerId := None;
      targetPlayer := None;
      movingTowardsTargetPlayer := false;
      searching := true;
      lightEnabled := true;
      interactable := false;
      closestDoor := None;
      heldItem := null;
      inSpecialAnimationWithPlayer := None;
      inSpecialAnimation := false;
      killingCoroutine := None;
      walkieTalkieCoroutine := false;
      playerEmoteTime := 0.0;
      hasActedFromEmote := false;
    }

    /** The item check: with `canKillEmptyHanded` only the item in hand
        counts, otherwise any filled inventory slot. Reads nothing of the
        Drudge's state and changes nothing. */
    method DoesPlayerHaveAnItem(p: Player) returns (has: bool)
      ensures has <==> HasItem(p)
      ensures canKillEmptyHanded ==> (has <==> p.currentlyHeldObjectServer != null)
      ensures !canKillEmptyHanded ==> (has <==> exists i :: 0 <= i < p.itemSlots.Length && p.itemSlots[i] != null)
    {
      if canKillEmptyHanded {
        has := p.currentlyHeldObjectServer != null;
      } else {
        has := SlotsHoldItem(p);
      }
    }

    /** `UpdatePreviousTargetPlayer`: one frame of the cooldown timer. */
    method UpdatePreviousTargetPlayer(dt: real)
      requires Valid()
      modifies this`previousTargetPlayerId, this`timeSinceTargetedPreviousPlayer
      ensures Valid()
      ensures Tracker() == Advance(old(Tracker()), dt)
    {
      if currentTargetPlayerId != previousTargetPlayerId {
        if timeSinceTargetedPreviousPlayer > Cooldown {
          previousTargetPlayerId := currentTargetPlayerId;
          timeSinceTargetedPreviousPlayer := 0.0;
        } else {
          timeSinceTargetedPreviousPlayer := timeSinceTargetedPreviousPlayer + dt;
        }
      }
    }

    /** `SetNewTargetPlayer`: refused for the previous target while its
        cooldown timer is not zero, otherwise the player becomes both the
        base target and the current target. */
    method SetNewTargetPlayer(p: nat)
      requires Valid() && p < |players|
      modifies this`targetPlayer, this`currentTargetPlayerId
      ensures Valid()
      ensures MayTarget(old(Tracker()), p) ==> targetPlayer == Some(p) && currentTargetPlayerId == Some(p)
      ensures !MayTarget(old(Tracker()), p) ==>
                targetPlayer == old(targetPlayer) && currentTargetPlayerId == old(currentTargetPlayerId)
    {
      var cannotTargetPreviousPlayer := timeSinceTargetedPreviousPlayer != 0.0;
      if !(previousTargetPlayerId == Some(p) && cannotTargetPreviousPlayer) {
        targetPlayer := Some(p);
        currentTargetPlayerId := Some(p);
      }
    }

    /** `FoundClosestPlayerInRange`: take the engine's closest player in sight
        (within `range`), or failing that the closest sensed one (within
        `senseRange`); a new candidate goes through `SetNewTargetPlayer`; the
        answer is whether a candidate exists strictly within the range. */
    method FoundClosestPlayerInRange(range: real, senseRange: real, s: Senses) returns (found: bool)
      requires Valid() && SensesFit(s, |players|, |doors|) && state == SearchingForPlayer
      modifies this`targetPlayer, this`currentTargetPlayerId
      ensures Valid()
      ensures targetPlayer == (if s.seen.Some? then s.seen else s.sensed)
      ensures found <==>
        (targetPlayer.Some? && s.dist[targetPlayer.value] < (if s.seen.Some? then range else senseRange))
      ensures found ==> currentTargetPlayerId.Some?
      ensures currentTargetPlayerId ==
        (if targetPlayer.Some? && targetPlayer != old(currentTargetPlayerId) && MayTarget(old(Tracker()), targetPlayer.value)
         then targetPlayer else old(currentTargetPlayerId))
    {
      var previousTargetPlayer := currentTargetPlayerId;
      var r := range;
      targetPlayer := s.seen;
      if targetPlayer == None {
        targetPlayer := s.sensed;
        r := senseRange;
      }
      var candidate := targetPlayer;
      if candidate != previousTargetPlayer && candidate.Some? {
        SetNewTargetPlayer(candidate.value);
      }
      found := targetPlayer.Some? && s.dist[targetPlayer.value] < r;
    }

    /** `TargetClosestPlayerInAnyCase`: scan players 0..connectedPlayersAmount
        for the first at minimal distance under 2000. Without one it answers
        false and changes nothing; otherwise it answers true and retargets
        when the candidate differs from the base target and the hysteresis
        allows it. */
    method TargetClosestPlayerInAnyCase(s: Senses) returns (ok: bool)
      requires Valid() && SensesFit(s, |players|, |doors|)
      modifies this`targetPlayer, this`currentTargetPlayerId
      ensures Valid()
      ensures ok <==> !NoneUnder(s.dist[..s.connected + 1], ScanCap)
      ensures var c := Closest(s.dist[..s.connected + 1], ScanCap);
        if c.Some? && old(targetPlayer) != c && MayTarget(old(Tracker()), c.value)
        then targetPlayer == c && currentTargetPlayerId == c
        else targetPlayer == old(targetPlayer) && currentTargetPlayerId == old(currentTargetPlayerId)
    {
      var canTargetPreviousPlayer := timeSinceTargetedPreviousPlayer == 0.0;
      var potential := ScanClosest(s.dist[..s.connected + 1], ScanCap);
      if potential == None {
        return false;
      }
      if targetPlayer != potential && (potential != previousTargetPlayerId || canTargetPreviousPlayer) {
        targetPlayer := potential;
        currentTargetPlayerId := potential;
      }
      return true;
    }

    /** `FindClosestLockedDoor`: remember the first door at minimal distance
        strictly within `range`, or none. Whether the door is locked is not
        checked. */
    method FindClosestLockedDoor(range: real, s: Senses)
      requires Valid() && SensesFit(s, |players|, |doors|)
      modifies this`closestDoor
      ensures Valid()
      ensures closestDoor == Closest(s.doorDist, range)
      ensures closestDoor == None <==> NoneUnder(s.doorDist, range)
      ensures closestDoor.Some? ==> IsFirstClosest(s.doorDist, range, closestDoor.value)
    {
      closestDoor := ScanClosest(s.doorDist, range);
    }

    /** `SwitchToSearchState`: restart the passive search and search. */
    method SwitchToSearchState()
      requires Valid()
      modifies this`searching, this`state
      ensures Valid() && searching && state == SearchingForPlayer
    {
      searching := true;
      state := SearchingForPlayer;
    }

    /** `SetItemAsHeld`: the item becomes the held item, attached to the grab
        point, marked as held by an enemy, without physics. An item already
        held is not dropped first. A relay routine survives only if the new
        item is a walkie-talkie too. */
    method SetItemAsHeld(item: Item)
      requires Valid()
      modifies this`heldItem, this`walkieTalkieCoroutine, item
      ensures Valid()
      ensures heldItem == item && item.isHeldByEnemy && item.attachedToEnemy && !item.physicsEnabled
      ensures walkieTalkieCoroutine == (old(walkieTalkieCoroutine) && item.kind == WalkieTalkie)
      ensures item.pinPulled == old(item.pinPulled) && item.isBeingUsed == old(item.isBeingUsed)
      ensures item.spawned == old(item.spawned) && item.shellsLoaded == old(item.shellsLoaded)
    {
      heldItem := item;
      if item.kind != WalkieTalkie {
        walkieTalkieCoroutine := false;
      }
      item.attachedToEnemy := true;
      item.isHeldByEnemy := true;
      item.physicsEnabled := false;
    }

    /** `DropItem`: with nothing held, nothing at all changes (so a second drop
        is a no-op); otherwise the item is detached, falls with physics, is no
        longer marked held by an enemy, and nothing is held, which ends the relay
        routine. */
    method DropItem()
      requires Valid()
      modifies this`heldItem, this`walkieTalkieCoroutine, heldItem
      ensures Valid()
      ensures heldItem == null && !walkieTalkieCoroutine
      ensures old(heldItem) == null ==> unchanged(this)
      ensures old(heldItem) != null ==>
        var it := old(heldItem);
        !it.isHeldByEnemy && !it.attachedToEnemy && it.physicsEnabled
        && it.pinPulled == old(it.pinPulled) && it.spawned == old(it.spawned)
    {
      if heldItem == null {
        return;
      }
      heldItem.attachedToEnemy := false;
      heldItem.physicsEnabled := true;
      heldItem.isHeldByEnemy := false;
      heldItem := null;
      walkieTalkieCoroutine := false;
    }

    /** `UseHeldItem`: with nothing held, nothing changes. Otherwise the item's
        type decides (`DrudgeUse`): the jetpack, the ladder and the grenade
        (pin pulled first) are dropped; a key looks for a door within 10 units
        and, if one is found, sends the Drudge to open it; a walkie-talkie
        that is switched on toggles the relay routine while there is a
        target; everything else is kept. */
    method UseHeldItem(s: Senses)
      requires Valid() && SensesFit(s, |players|, |doors|)
      modifies this`heldItem, this`closestDoor, this`state, this`walkieTalkieCoroutine, heldItem
      ensures Valid()
      ensures old(heldItem) == null ==> unchanged(this)
      ensures old(heldItem) != null ==>
        var it := old(heldItem);
        var o := DrudgeUse(it.kind, old(it.shellsLoaded));
        (heldItem == null <==> DropsAfterUse(o))
        && (DropsAfterUse(o) ==> !it.isHeldByEnemy && !it.attachedToEnemy)
        && (!DropsAfterUse(o) ==> heldItem == it)
        && (it.pinPulled <==> old(it.pinPulled) || o == PullPin)
        && (o == SeekDoor ==> closestDoor == Closest(s.doorDist, KeyDoorRange)
                              && state == (if closestDoor.Some? then OpeningDoor else old(state)))
        && (o != SeekDoor ==> closestDoor == old(closestDoor) && state == old(state))
        && walkieTalkieCoroutine ==
             (if o == ToggleRadio && old(it.isBeingUsed) && old(currentTargetPlayerId).Some?
              then !old(walkieTalkieCoroutine) else old(walkieTalkieCoroutine))
    {
      if heldItem == null {
        return;
      }
      var it := heldItem;
      var o := DrudgeUse(it.kind, it.shellsLoaded);
      if DropsAfterUse(o) {
        DiscardAfterUse(o == PullPin);
      } else if o == SeekDoor {
        SeekDoorWithKey(s);
      } else if o == ToggleRadio {
        if it.isBeingUsed && currentTargetPlayerId.Some? {
          walkieTalkieCoroutine := !walkieTalkieCoroutine;
        }
      }
    }

    /** The jetpack, the ladder and the grenade are dropped after use; the
        grenade's pin is pulled first. */
    method DiscardAfterUse(pullPin: bool)
      requires Valid() && heldItem != null
      modifies this`heldItem, this`walkieTalkieCoroutine, heldItem
      ensures Valid() && heldItem == null && !walkieTalkieCoroutine
      ensures var it := old(heldItem);
        !it.isHeldByEnemy && !it.attachedToEnemy && (it.pinPulled <==> old(it.pinPulled) || pullPin)
    {
      if pullPin {
        heldItem.pinPulled := true;
      }
      DropItem();
    }

    /** A key looks for a door within 10 units and, if one is found, sends
        the Drudge to open it. */
    method SeekDoorWithKey(s: Senses)
      requires Valid() && SensesFit(s, |players|, |doors|)
      modifies this`closestDoor, this`state
      ensures Valid() && closestDoor == Closest(s.doorDist, KeyDoorRange)
      ensures state == (if closestDoor.Some? then OpeningDoor else old(state))
    {
      FindClosestLockedDoor(KeyDoorRange, s);
      if closestDoor.Some? {
        state := OpeningDoor;
      }
    }

    /** `HitEnemy`: being hit uses the held item. */
    method HitEnemy(s: Senses)
      requires Valid() && SensesFit(s, |players|, |doors|)
      modifies this`heldItem, this`closestDoor, this`state, this`walkieTalkieCoroutine, heldItem
      ensures Valid()
      ensures old(heldItem) == null ==> unchanged(this)
      ensures old(heldItem) != null ==>
        (heldItem == null <==> DropsAfterUse(DrudgeUse(old(heldItem).kind, old(heldItem.shellsLoaded))))
    {
      UseHeldItem(s);
    }

    /** The engine's candidate: the closest player in sight, else the closest sensed. */
    function EnginePick(s: Senses): Option<nat>
    {
      if s.seen.Some? then s.seen else s.sensed
    }

    /** `SearchingForPlayerState`: once a player is found in range the search
        stops and the item rule picks following or glaring at the current
        target; otherwise the Drudge keeps searching. */
    method SearchingForPlayerState(s: Senses)
      requires Valid() && SensesFit(s, |players|, |doors|) && state == SearchingForPlayer
      modifies this`targetPlayer, this`currentTargetPlayerId, this`state, this`searching
      ensures Valid()
      ensures targetPlayer == EnginePick(s)
      ensures currentTargetPlayerId ==
        (if targetPlayer.Some? && targetPlayer != old(currentTargetPlayerId) && MayTarget(old(Tracker()), targetPlayer.value)
         then targetPlayer else old(currentTargetPlayerId))
      ensures var found := EnginePick(s).Some? &&
                s.dist[EnginePick(s).value] < (if s.seen.Some? then SightRange else SenseRange);
        if found
        then !searching && currentTargetPlayerId.Some?
             && state == Engage(HasItem(players[currentTargetPlayerId.value]), heldItem != null)
        else searching == old(searching) && state == SearchingForPlayer
    {
      var found := FoundClosestPlayerInRange(SightRange, SenseRange, s);
      if found {
        EngageCurrentTarget();
      }
    }

    /** The found branch of `SearchingForPlayerState`: stop searching, then
        follow when the current target or the Drudge holds an item, else glare. */
    method EngageCurrentTarget()
      requires Valid() && currentTargetPlayerId.Some? && targetPlayer.Some? && state == SearchingForPlayer
      modifies this`state, this`searching
      ensures Valid() && !searching
      ensures state == Engage(HasItem(players[currentTargetPlayerId.value]), heldItem != null)
    {
      var has := DoesPlayerHaveAnItem(players[currentTargetPlayerId.value]);
      searching := false;
      if has || heldItem != null {
        state := FollowPlayer;
      } else {
        state := AngrilyLookingAtPlayer;
      }
    }

    /** `FollowPlayerState`: re-scan for the closest player; the target is lost
        when nobody is under 2000 units, or when the current target is more
        than 20 units away and out of sight; an empty-handed target with the
        Drudge empty-handed too makes it glare; otherwise it keeps following. */
    method FollowPlayerState(s: Senses)
      requires Valid() && SensesFit(s, |players|, |doors|) && state == FollowPlayer
      modifies this`targetPlayer, this`currentTargetPlayerId, this`state, this`searching
      ensures Valid()
      ensures var c := Closest(s.dist[..s.connected + 1], ScanCap);
        if c.Some? && old(targetPlayer) != c && MayTarget(old(Tracker()), c.value)
        then targetPlayer == c && currentTargetPlayerId == c
        else targetPlayer == old(targetPlayer) && currentTargetPlayerId == old(currentTargetPlayerId)
      ensures var cur := currentTargetPlayerId.value;
        if NoneUnder(s.dist[..s.connected + 1], ScanCap) || (s.dist[cur] > LoseDistance && !s.sight[cur])
        then state == SearchingForPlayer && searching
        else searching == old(searching)
             && state == Engage(HasItem(players[cur]), heldItem != null)
    {
      var ok := TargetClosestPlayerInAnyCase(s);
      var cur := currentTargetPlayerId.value;
      if !ok || (s.dist[cur] > LoseDistance && !s.sight[cur]) {
        SwitchToSearchState();
        return;
      }
      GlareIfEmptyHanded();
    }

    /** The last step of `FollowPlayerState`: glare when neither the current
        target nor the Drudge holds an item, else keep following. */
    method GlareIfEmptyHanded()
      requires Valid() && targetPlayer.Some? && currentTargetPlayerId.Some? && state == FollowPlayer
      modifies this`state
      ensures Valid()
      ensures state == Engage(HasItem(players[currentTargetPlayerId.value]), heldItem != null)
    {
      var has := DoesPlayerHaveAnItem(players[currentTargetPlayerId.value]);
      if !has && heldItem == null {
        state := AngrilyLookingAtPlayer;
      }
    }

    /** What `UseHeldItem` does with the held item, if there is one. */
    function HeldUse(): Option<UseOutcome>
      reads this`heldItem, heldItem
    {
      if heldItem == null then None else Some(DrudgeUse(heldItem.kind, heldItem.shellsLoaded))
    }

    /** The effect of carrying out emote action `a`, against the use the held
        item had (`use`), the hysteresis, base target and state before it. */
    ghost predicate EmoteEffect(a: EmoteAction, s: Senses, use: Option<UseOutcome>, before: Hysteresis,
                                target: Option<nat>, st: State)
      reads this`heldItem, this`closestDoor, this`state, this`targetPlayer, this`currentTargetPlayerId
    {
      match a
      case DropHeld => heldItem == null && state == st
      case UseHeld =>
        if use.None? then heldItem == null && state == st
        else
          var o := use.value;
          (heldItem == null <==> DropsAfterUse(o))
          && (o == SeekDoor ==> closestDoor == Closest(s.doorDist, KeyDoorRange))
          && state == (if o == SeekDoor && closestDoor.Some? then OpeningDoor else st)
      case Retarget(q) =>
        state == st
        && if MayTarget(before, q) then targetPlayer == Some(q) && currentTargetPlayerId == Some(q)
           else targetPlayer == target && currentTargetPlayerId == before.current
      case UnlockDoor(d) => closestDoor == Some(d) && state == OpeningDoor
      case NoAction => state == st
    }

    /** The action branch of `CheckLocalPlayerForEmoteActions`: drop the held
        item, use it, switch the target to another player (subject to the
        cooldown), or open the pointed-at door with the held key. */
    method ActOnEmote(a: EmoteAction, s: Senses)
      requires Valid() && SensesFit(s, |players|, |doors|)
      requires a.Retarget? ==> a.player < |players|
      requires a.UnlockDoor? ==> a.door < |doors|
      modifies this`heldItem, this`closestDoor, this`state, this`walkieTalkieCoroutine, heldItem
      modifies this`targetPlayer, this`currentTargetPlayerId
      ensures Valid()
      ensures a == DropHeld ==> heldItem == null && state == old(state)
      ensures a.Retarget? ==>
        (MayTarget(old(Tracker()), a.player) ==> targetPlayer == Some(a.player) && currentTargetPlayerId == Some(a.player))
        && (!MayTarget(old(Tracker()), a.player) ==>
              targetPlayer == old(targetPlayer) && currentTargetPlayerId == old(currentTargetPlayerId))
        && state == old(state) && heldItem == old(heldItem)
      ensures a == UseHeld && old(heldItem) != null ==>
        var o := DrudgeUse(old(heldItem).kind, old(heldItem.shellsLoaded));
        (heldItem == null <==> DropsAfterUse(o))
        && (o == SeekDoor ==> closestDoor == Closest(s.doorDist, KeyDoorRange))
        && state == (if o == SeekDoor && closestDoor.Some? then OpeningDoor else old(state))
      ensures a.UnlockDoor? ==> closestDoor == Some(a.door) && state == OpeningDoor && heldItem == old(heldItem)
      ensures !a.Retarget? ==> targetPlayer == old(targetPlayer) && currentTargetPlayerId == old(currentTargetPlayerId)
      ensures a == NoAction ==> unchanged(this) && (old(heldItem) != null ==> unchanged(old(heldItem)))
      ensures state == old(state) || state == OpeningDoor
      ensures EmoteEffect(a, s, old(HeldUse()), old(Tracker()), old(targetPlayer), old(state))
    {
      match a {
        case DropHeld => DropItem();
        case UseHeld => UseHeldItem(s);
        case Retarget(q) => SetNewTargetPlayer(q);
        case UnlockDoor(door) =>
          closestDoor := Some(door);
          state := OpeningDoor;
        case NoAction =>
      }
    }

    /** `CheckLocalPlayerForEmoteActions`, only while following. While the local
        player performs the pointing emote, its duration accumulates; past
        0.03 s, and at most once until the emote has lasted more than 0.1 s,
        the action `EmoteChoice` picks is carried out by `ActOnEmote`. Any
        other emote resets the timer and the acted flag. */
    method CheckLocalPlayerForEmoteActions(emoting: bool, dt: real, p: Pointing, self: nat, s: Senses)
      requires Valid() && SensesFit(s, |players|, |doors|)
      requires p.atPlayer.Some? ==> p.atPlayer.value < |players|
      requires p.atDoor.Some? ==> p.atDoor.value < |doors|
      modifies this`heldItem, this`closestDoor, this`state, this`walkieTalkieCoroutine, heldItem
      modifies this`targetPlayer, this`currentTargetPlayerId, this`playerEmoteTime, this`hasActedFromEmote
      ensures Valid()
      ensures old(state) != FollowPlayer ==> unchanged(this) && (old(heldItem) != null ==> unchanged(old(heldItem)))
      ensures state == old(state) || state == OpeningDoor
      ensures old(state) == FollowPlayer && !emoting ==>
        playerEmoteTime == 0.0 && !hasActedFromEmote && state == old(state) && heldItem == old(heldItem)
      ensures old(state) == FollowPlayer && emoting ==>
        var t := old(playerEmoteTime) + dt;
        var a := EmoteChoice(p, self, old(heldItem) != null && old(heldItem).kind == Key);
        var acts := t > 0.03 && !old(hasActedFromEmote) && a != NoAction;
        var acted := acts || old(hasActedFromEmote);
        (if acted && t > 0.1 then playerEmoteTime == 0.0 && !hasActedFromEmote
         else playerEmoteTime == t && hasActedFromEmote == acted)
      ensures old(state) == FollowPlayer && emoting
              && !(old(playerEmoteTime) + dt > 0.03 && !old(hasActedFromEmote)
                   && EmoteChoice(p, self, old(heldItem) != null && old(heldItem).kind == Key) != NoAction)
              ==> state == old(state) && heldItem == old(heldItem) && targetPlayer == old(targetPlayer)
      ensures old(state) == FollowPlayer && emoting
              && old(playerEmoteTime) + dt > 0.03 && !old(hasActedFromEmote) ==>
        EmoteEffect(EmoteChoice(p, self, old(heldItem) != null && old(heldItem).kind == Key), s,
                    old(HeldUse()), old(Tracker()), old(targetPlayer), old(state))
    {
      if state != FollowPlayer {
        return;
      }
      if emoting {
        var a := EmoteChoice(p, self, heldItem != null && heldItem.kind == Key);
        ContinueEmote(dt, a, s);
      } else {
        playerEmoteTime := 0.0;
        hasActedFromEmote := false;
      }
    }

    /** The pointing branch of `CheckLocalPlayerForEmoteActions` once the
        action `a` is chosen: the timer runs, the action is taken once past
        0.03 s, and timer and latch reset once an action was taken and the
        emote has lasted more than 0.1 s. */
    method ContinueEmote(dt: real, a: EmoteAction, s: Senses)
      requires Valid() && SensesFit(s, |players|, |doors|)
      requires a.Retarget? ==> a.player < |players|
      requires a.UnlockDoor? ==> a.door < |doors|
      modifies this`heldItem, this`closestDoor, this`state, this`walkieTalkieCoroutine, heldItem
      modifies this`targetPlayer, this`currentTargetPlayerId, this`playerEmoteTime, this`hasActedFromEmote
      ensures Valid()
      ensures state == old(state) || state == OpeningDoor
      ensures var t := old(playerEmoteTime) + dt;
        var acted := (t > 0.03 && !old(hasActedFromEmote) && a != NoAction) || old(hasActedFromEmote);
        if acted && t > 0.1 then playerEmoteTime == 0.0 && !hasActedFromEmote
        else playerEmoteTime == t && hasActedFromEmote == acted
      ensures !(old(playerEmoteTime) + dt > 0.03 && !old(hasActedFromEmote) && a != NoAction) ==>
        state == old(state) && heldItem == old(heldItem) && targetPlayer == old(targetPlayer)
      ensures old(playerEmoteTime) + dt > 0.03 && !old(hasActedFromEmote) ==>
        EmoteEffect(a, s, old(HeldUse()), old(Tracker()), old(targetPlayer), old(state))
    {
      var t := playerEmoteTime + dt;
      var acts := t > 0.03 && !hasActedFromEmote && a != NoAction;
      var acted := acts || hasActedFromEmote;
      if acts {
        ActOnEmote(a, s);
      }
      if acted && t > 0.1 {
        SetEmoteTimer(0.0, false);
      } else {
        SetEmoteTimer(t, acted);
      }
    }

    /** The emote timer and the acted latch take the given values. */
    method SetEmoteTimer(t: real, acted: bool)
      requires Valid()
      modifies this`playerEmoteTime, this`hasActedFromEmote
      ensures Valid() && playerEmoteTime == t && hasActedFromEmote == acted
    {
      playerEmoteTime, hasActedFromEmote := t, acted;
    }

    /** `ChasingPlayerState`: the target is lost when the current target is more
        than 20 units away and the base target is out of sight; a target that
        holds an item is followed instead; otherwise the chase goes on. */
    method ChasingPlayerState(s: Senses)
      requires Valid() && SensesFit(s, |players|, |doors|) && state == ChasingPlayer
      modifies this`state, this`searching
      ensures Valid()
      ensures var cur := currentTargetPlayerId.value;
        if s.dist[cur] > LoseDistance && !s.sight[targetPlayer.value]
        then state == SearchingForPlayer && searching
        else searching == old(searching) && state == (if HasItem(players[cur]) then FollowPlayer else ChasingPlayer)
    {
      var cur := currentTargetPlayerId.value;
      if s.dist[cur] > LoseDistance && !s.sight[targetPlayer.value] {
        SwitchToSearchState();
        return;
      }
      var has := DoesPlayerHaveAnItem(players[cur]);
      if has {
        state := FollowPlayer;
        return;
      }
    }

    /** `AngrilyLookingAtPlayerState`: the target is lost when more than 20
        units away and out of sight; if either side holds an item the Drudge
        follows instead; otherwise it keeps glaring (anger rises per frame). */
    method AngrilyLookingAtPlayerState(s: Senses)
      requires Valid() && SensesFit(s, |players|, |doors|) && state == AngrilyLookingAtPlayer
      modifies this`state, this`searching
      ensures Valid()
      ensures var cur := currentTargetPlayerId.value;
        if s.dist[cur] > LoseDistance && !s.sight[cur]
        then state == SearchingForPlayer && searching
        else searching == old(searching) && state == Engage(HasItem(players[cur]), heldItem != null)
    {
      var cur := currentTargetPlayerId.value;
      if s.dist[cur] > LoseDistance && !s.sight[cur] {
        SwitchToSearchState();
        return;
      }
      var has := DoesPlayerHaveAnItem(players[cur]);
      if has || heldItem != null {
        state := FollowPlayer;
        return;
      }
    }

    /** `OpeningDoorState`, decided by `DoorDecision`: give up (search) without
        a door or an item; forget a door that is no longer locked; within 2
        units despawn the held key, unlock and open the door, forget it and
        search; otherwise keep walking to the door. A despawned object compares
        equal to null, so the held item is cleared with it. */
    method OpeningDoorState(s: Senses)
      requires Valid() && SensesFit(s, |players|, |doors|) && state == OpeningDoor
      modifies this`state, this`searching, this`closestDoor, this`heldItem, this`walkieTalkieCoroutine
      modifies heldItem, doors
      ensures Valid()
      ensures var d := old(closestDoor);
        var locked := d.Some? && old(doors[d.value].isLocked);
        var near := d.Some? && s.doorDist[d.value] < DoorReach;
        match DoorDecision(d.Some?, old(heldItem) != null, locked, near)
        case GiveUp =>
          state == SearchingForPlayer && searching && closestDoor == d && heldItem == old(heldItem)
          && unchanged(doors) && (old(heldItem) != null ==> unchanged(old(heldItem)))
        case DoorOpen =>
          state == SearchingForPlayer && searching && closestDoor == None && heldItem == old(heldItem)
          && unchanged(doors) && unchanged(old(heldItem))
        case Unlock =>
          state == SearchingForPlayer && searching && closestDoor == None && heldItem == null
          && !walkieTalkieCoroutine && !old(heldItem).spawned && !doors[d.value].isLocked && doors[d.value].isOpen
          && (forall i :: 0 <= i < |doors| && doors[i] != doors[d.value] ==> unchanged(doors[i]))
        case Approach =>
          state == OpeningDoor && searching == old(searching) && closestDoor == d && heldItem == old(heldItem)
          && unchanged(doors) && unchanged(old(heldItem))
        case NullDoor => false
    {
      if closestDoor.None? || heldItem == null {
        SwitchToSearchState();
        return;
      }
      var door := doors[closestDoor.value];
      if !door.isLocked {
        closestDoor := None;
        SwitchToSearchState();
        return;
      }
      if s.doorDist[closestDoor.value] < DoorReach {
        heldItem.spawned := false;
        heldItem := null;
        walkieTalkieCoroutine := false;
        door.isLocked := false;
        door.isOpen := true;
        closestDoor := None;
        SwitchToSearchState();
        return;
      }
    }

    /** `GrabScrapFromPlayer`, the interact callback: a two-handed item is
        refused unless configured otherwise; an item already held is dropped
        first; then the player's item in hand becomes the held item. */
    method GrabScrapFromPlayer(player: Player)
      requires Valid() && player.currentlyHeldObjectServer != null
      modifies this`heldItem, this`walkieTalkieCoroutine, heldItem, player.currentlyHeldObjectServer
      ensures Valid()
      ensures var it := old(player.currentlyHeldObjectServer);
        if !canCarryTwoHanded && it.twoHanded
        then heldItem == old(heldItem) && walkieTalkieCoroutine == old(walkieTalkieCoroutine)
             && unchanged(it) && (old(heldItem) != null ==> unchanged(old(heldItem)))
        else heldItem == it && !walkieTalkieCoroutine && it.isHeldByEnemy && it.attachedToEnemy && !it.physicsEnabled
             && (old(heldItem) != null && old(heldItem) != it ==>
                   !old(heldItem).isHeldByEnemy && !old(heldItem).attachedToEnemy)
    {
      var it := player.currentlyHeldObjectServer;
      if !canCarryTwoHanded && it.twoHanded {
        return;
      }
      if heldItem != null {
        DropItem();
      }
      SetItemAsHeld(it);
    }


    /** `StunnedState`, on the first stunned frame only: stop the kill routine
        and release the capture lock without killing (`CancelSpecialAnimation-
        WithPlayer` of the engine's base class clears both back-links), then
        drop any held item. Later stunned frames change nothing. */
    method StunnedState()
      requires Valid()
      modifies this, heldItem, players
      ensures Valid()
      ensures old(stunned) ==> unchanged(this) && unchanged(players) && (old(heldItem) != null ==> unchanged(old(heldItem)))
      ensures !old(stunned) ==>
        stunned && heldItem == null && !walkieTalkieCoroutine && inSpecialAnimationWithPlayer == None
        && killingCoroutine == (if old(killingCoroutine).Some? then None else old(killingCoroutine))
        && (old(heldItem) != null ==> !old(heldItem).isHeldByEnemy && !old(heldItem).attachedToEnemy)
        && state == old(state) && Tracker() == old(Tracker()) && angerLevel == old(angerLevel)
      ensures !old(stunned) && old(inSpecialAnimationWithPlayer).Some? ==>
        var pl := players[old(inSpecialAnimationWithPlayer).value];
        VictimView(pl) == old(VictimView(pl)).(linked := false, inInteract := false)
      ensures forall i :: 0 <= i < |players| && Some(i) != old(inSpecialAnimationWithPlayer) ==>
        (old(inSpecialAnimationWithPlayer).Some? && players[i] == players[old(inSpecialAnimationWithPlayer).value])
        || unchanged(players[i])
    {
      if stunned {
        return;
      }
      stunned := true;
      if killingCoroutine.Some? {
        CancelKillRoutine();
      }
      if heldItem != null {
        DropItem();
      }
    }

    /** The stun's release of a running kill routine: the routine stops and a
        locked victim is let go alive. */
    method CancelKillRoutine()
      requires Valid() && killingCoroutine.Some?
      modifies this`killingCoroutine, this`inSpecialAnimationWithPlayer, this`inSpecialAnimation, players
      ensures Valid()
      ensures killingCoroutine == None && inSpecialAnimationWithPlayer == None && !inSpecialAnimation
      ensures old(inSpecialAnimationWithPlayer).Some? ==>
        var pl := players[old(inSpecialAnimationWithPlayer).value];
        VictimView(pl) == old(VictimView(pl)).(linked := false, inInteract := false)
      ensures forall i :: 0 <= i < |players| && Some(i) != old(inSpecialAnimationWithPlayer) ==>
        (old(inSpecialAnimationWithPlayer).Some? && players[i] == players[old(inSpecialAnimationWithPlayer).value])
        || unchanged(players[i])
    {
      killingCoroutine := None;
      if inSpecialAnimationWithPlayer.Some? {
        var pl := players[inSpecialAnimationWithPlayer.value];
        pl.inSpecialInteractAnimation := false;
        pl.inAnimationWithEnemy := None;
        inSpecialAnimationWithPlayer := None;
      }
      inSpecialAnimation := false;
    }

    /** One resumption of the kill routine, as `Resume` states it: the victim's
        health, lock and death change as `Resume` says and `wait` is the length
        of the new suspension. The kill itself releases the Drudge's side of the
        lock; finishing releases it too, picks up a grabbable body (without
        dropping what is held), and returns to searching. */
    method ResumeKillingCoroutine() returns (wait: real)
      requires Valid() && killingCoroutine.Some?
      modifies this, players[killingCoroutine.value.victim], players[killingCoroutine.value.victim].deadBody
      ensures Valid()
      ensures var k := old(killingCoroutine).value;
        var pl := players[k.victim];
        var (q, w) := Resume(k.phase, old(VictimView(pl)));
        wait == w && VictimView(pl) == q.victim
        && Tracker() == old(Tracker()) && angerLevel == old(angerLevel) && stunned == old(stunned)
        && targetPlayer == old(targetPlayer) && closestDoor == old(closestDoor)
        && (q.At? ==>
              killingCoroutine == Some(KillRoutine(k.victim, q.phase))
              && state == old(state) && searching == old(searching) && heldItem == old(heldItem)
              && inSpecialAnimation == old(inSpecialAnimation)
              && inSpecialAnimationWithPlayer == (if q.phase.Settling? then None else old(inSpecialAnimationWithPlayer)))
        && (q.Done? ==>
              killingCoroutine == None && inSpecialAnimationWithPlayer == None && !inSpecialAnimation
              && state == SearchingForPlayer && searching
              && heldItem == (if old(pl.deadBody) != null && old(pl.deadBody).grabbable
                              then old(pl.deadBody) else old(heldItem)))
    {
      var k := killingCoroutine.value;
      var pl := players[k.victim];
      match k.phase
      case Loop(b) =>
        wait := CrushOnce(pl);
      case Leftover(_) =>
        if pl.inAnimationWithEnemy == Some(id) && !pl.isPlayerDead {
          KillLockedVictim(pl);
          wait := SettleDelay;
        } else {
          FinishKilling(pl);
          wait := 0.0;
        }
      case Settling =>
        FinishKilling(pl);
        wait := 0.0;
    }

    /** One pass of the crushing loop: a full step while the victim has more
        than 20 health and steps remain, else the victim is left at 1 health
        and the routine waits out the remaining steps. */
    method CrushOnce(pl: Player) returns (wait: real)
      requires Valid() && killingCoroutine.Some? && killingCoroutine.value.phase.Loop?
      requires pl == players[killingCoroutine.value.victim]
      modifies this`killingCoroutine, pl`health
      ensures Valid()
      ensures var k := old(killingCoroutine).value;
        var (q, w) := Resume(k.phase, old(VictimView(pl)));
        q.At? && wait == w && VictimView(pl) == q.victim && killingCoroutine == Some(KillRoutine(k.victim, q.phase))
    {
      var k := killingCoroutine.value;
      var b := k.phase.budget;
      if pl.health > CrushDamage && b > 0 {
        pl.health := pl.health - CrushDamage;
        killingCoroutine := Some(KillRoutine(k.victim, Loop(b - 1)));
        wait := 0.5;
      } else {
        pl.health := pl.health - (pl.health - 1);
        killingCoroutine := Some(KillRoutine(k.victim, Leftover(b)));
        wait := b as real * 0.5;
      }
    }

    /** The kill after the leftover wait, with the victim still locked to the
        Drudge and alive: both sides of the lock are released. */
    method KillLockedVictim(pl: Player)
      requires Valid() && killingCoroutine.Some? && killingCoroutine.value.phase.Leftover?
      requires pl == players[killingCoroutine.value.victim]
      modifies this`inSpecialAnimationWithPlayer, this`killingCoroutine
      modifies pl`isPlayerDead, pl`inSpecialInteractAnimation, pl`inAnimationWithEnemy
      ensures Valid()
      ensures VictimView(pl) == Killed(old(VictimView(pl)))
      ensures inSpecialAnimationWithPlayer == None
      ensures killingCoroutine == Some(KillRoutine(old(killingCoroutine).value.victim, Settling))
    {
      inSpecialAnimationWithPlayer := None;
      pl.isPlayerDead := true;
      pl.inSpecialInteractAnimation := false;
      pl.inAnimationWithEnemy := None;
      killingCoroutine := Some(KillRoutine(killingCoroutine.value.victim, Settling));
    }

    /** The end of the kill routine: lock and animation released, a grabbable
        body picked up, back to searching, the routine handle cleared. */
    method FinishKilling(pl: Player)
      requires Valid() && killingCoroutine.Some? && pl == players[killingCoroutine.value.victim]
      modifies this, pl.deadBody
      ensures Valid()
      ensures killingCoroutine == None && inSpecialAnimationWithPlayer == None && !inSpecialAnimation
      ensures state == SearchingForPlayer && searching
      ensures heldItem == (if pl.deadBody != null && pl.deadBody.grabbable then pl.deadBody else old(heldItem))
      ensures pl.deadBody != null && pl.deadBody.grabbable ==> pl.deadBody.isHeldByEnemy
      ensures Tracker() == old(Tracker()) && angerLevel == old(angerLevel) && stunned == old(stunned)
      ensures targetPlayer == old(targetPlayer) && closestDoor == old(closestDoor)
    {
      // The source clears the handle last; nothing runs in between, so it is
      // cleared here together with the lock.
      inSpecialAnimationWithPlayer := None;
      killingCoroutine := None;
      inSpecialAnimation := false;
      var body := pl.deadBody;
      if body != null && body.grabbable {
        SetItemAsHeld(body);
      }
      SwitchToSearchState();
    }

    /** `OnCollideWithPlayer`: a touching player that meets the engine's
        collision conditions is captured when the Drudge is chasing, holds no
        one in a special animation, runs no kill routine, and the player holds
        no item (the last two together being `KillGuard.MayStart`). Capture
        sets both back-links and starts the routine, which runs to its first
        suspension at once. */
    method OnCollideWithPlayer(p: nat, meetsCollisionConditions: bool) returns (wait: real)
      requires Valid() && p < |players|
      modifies this, players[p], players[p].deadBody
      ensures Valid()
      ensures var start := meetsCollisionConditions &&
          KillGuard.MayStart(old(state) == ChasingPlayer, old(inSpecialAnimationWithPlayer).Some?,
                             old(HasItem(players[p])), old(killingCoroutine).Some?);
        var pl := players[p];
        if !start then unchanged(this) && unchanged(pl) && wait == 0.0
        else
          var (q, w) := Resume(Loop(CrushBudget), old(VictimView(pl)).(linked := true, inInteract := true));
          q.At? && VictimView(pl) == q.victim && wait == w
          && killingCoroutine == Some(KillRoutine(p, q.phase))
          && inSpecialAnimationWithPlayer == Some(p) && inSpecialAnimation
          && state == old(state) && heldItem == old(heldItem) && Tracker() == old(Tracker())
    {
      var pl := players[p];
      var has := DoesPlayerHaveAnItem(pl);
      if !meetsCollisionConditions || state != ChasingPlayer || inSpecialAnimationWithPlayer.Some?
         || killingCoroutine.Some? || has {
        return 0.0;
      }
      inSpecialAnimationWithPlayer := Some(p);
      pl.inSpecialInteractAnimation := true;
      pl.inAnimationWithEnemy := Some(id);
      killingCoroutine := Some(KillRoutine(p, Loop(CrushBudget)));
      inSpecialAnimation := true;
      wait := ResumeKillingCoroutine();
    }

    /** `UpdateLightSource`: the light is on exactly when nothing is held. */
    method UpdateLightSource()
      modifies this`lightEnabled
      ensures lightEnabled == (heldItem == null)
    {
      lightEnabled := heldItem == null;
    }

    /** `UpdateInteractTrigger`: the give-item prompt is offered only while
        following, not stunned, to a local player holding an item, and a
        two-handed item only when the configuration allows it. */
    method UpdateInteractTrigger(localHeld: Item?)
      modifies this`interactable
      ensures interactable <==> localHeld != null && state == FollowPlayer && !stunned
                                && (canCarryTwoHanded || !localHeld.twoHanded)
    {
      if localHeld != null && state == FollowPlayer && !stunned {
        interactable := canCarryTwoHanded || !localHeld.twoHanded;
      } else {
        interactable := false;
      }
    }

    /** `UpdateAngerLevel`: a positive anger drains by the frame time outside
        the glaring and chasing states. */
    method UpdateAngerLevel(dt: real)
      modifies this`angerLevel
      ensures angerLevel == Decay(state, old(angerLevel), dt * Accelerator)
    {
      if state != AngrilyLookingAtPlayer && state != ChasingPlayer && angerLevel > 0.0 {
        angerLevel := angerLevel - dt * Accelerator;
      }
    }

    /** `UpdateMovingTowardsTargetPlayer`: moving towards the target exactly
        while chasing one. */
    method UpdateMovingTowardsTargetPlayer()
      modifies this`movingTowardsTargetPlayer
      ensures movingTowardsTargetPlayer <==> currentTargetPlayerId.Some? && state == ChasingPlayer
    {
      movingTowardsTargetPlayer := currentTargetPlayerId.Some? && state == ChasingPlayer;
    }

    /** The per-state part of `Update`: glaring adds the frame time to the
        anger and, at 1 or more, frightens the target to the maximum and starts
        the chase; the killing state returns to the chase once no player is
        held; the other states do nothing here. */
    method UpdateBehaviour(dt: real)
      requires Valid()
      modifies this`angerLevel, this`state, players
      ensures Valid()
      ensures FrameTransition(old(state), state)
      ensures old(state) == AngrilyLookingAtPlayer ==>
        angerLevel == old(angerLevel) + dt * Accelerator
        && state == (if Escalates(angerLevel) then ChasingPlayer else AngrilyLookingAtPlayer)
        && (Escalates(angerLevel) ==> players[currentTargetPlayerId.value].fearLevel == 1.0)
      ensures old(state) != AngrilyLookingAtPlayer ==> angerLevel == old(angerLevel)
      ensures old(state) == KillingPlayer ==>
        state == (if inSpecialAnimationWithPlayer.None? then ChasingPlayer else KillingPlayer)
      ensures old(state) != AngrilyLookingAtPlayer && old(state) != KillingPlayer ==> state == old(state)
    {
      match state {
        case AngrilyLookingAtPlayer =>
          angerLevel := angerLevel + dt * Accelerator;
          if Escalates(angerLevel) {
            players[currentTargetPlayerId.value].fearLevel := 1.0;
            state := ChasingPlayer;
          }
        case KillingPlayer =>
          if inSpecialAnimationWithPlayer.None? {
            state := ChasingPlayer;
          }
        case _ =>
      }
    }

    /** The part of `Update` that runs once no stun is in progress: the light
        is on exactly when nothing is held, the give-item prompt is offered
        only while following a local player who holds an item (two-handed only
        if configured), anger decays in the calm states, the Drudge heads for
        its target only while chasing one, the hysteresis timer advances, and
        the per-state step of `UpdateBehaviour` runs last. */
    method UpdateUnstunned(dt: real, localHeld: Item?)
      requires Valid() && !stunned
      modifies this`lightEnabled, this`interactable, this`angerLevel, this`movingTowardsTargetPlayer
      modifies this`previousTargetPlayerId, this`timeSinceTargetedPreviousPlayer, this`state, players
      ensures Valid()
      ensures FrameTransition(old(state), state)
      ensures lightEnabled == (heldItem == null)
      ensures interactable <==> localHeld != null && old(state) == FollowPlayer
                                && (canCarryTwoHanded || !localHeld.twoHanded)
      ensures movingTowardsTargetPlayer <==> old(currentTargetPlayerId).Some? && old(state) == ChasingPlayer
      ensures Tracker() == Advance(old(Tracker()), dt)
      ensures old(state) == AngrilyLookingAtPlayer ==>
        angerLevel == old(angerLevel) + dt * Accelerator
        && state == (if Escalates(angerLevel) then ChasingPlayer else AngrilyLookingAtPlayer)
        && (Escalates(angerLevel) ==> players[currentTargetPlayerId.value].fearLevel == 1.0)
      ensures old(state) != AngrilyLookingAtPlayer ==>
        angerLevel == Decay(old(state), old(angerLevel), dt * Accelerator)
      ensures old(state) == KillingPlayer ==>
        state == (if inSpecialAnimationWithPlayer.None? then ChasingPlayer else KillingPlayer)
      ensures old(state) != AngrilyLookingAtPlayer && old(state) != KillingPlayer ==> state == old(state)
    {
      UpdateLightSource();
      UpdateInteractTrigger(localHeld);
      UpdateAngerLevel(dt);
      UpdateMovingTowardsTargetPlayer();
      UpdatePreviousTargetPlayer(dt);
      UpdateBehaviour(dt);
    }

    /** `Update`, one frame of `dt` seconds: while the stun timer runs only
        `StunnedState` happens; otherwise the Drudge leaves the stunned state
        and `UpdateUnstunned` runs. */
    method Update(dt: real, stunNormalizedTimer: real, localHeld: Item?)
      requires Valid()
      modifies this, heldItem, players
      ensures Valid()
      ensures FrameTransition(old(state), state)
      ensures stunNormalizedTimer > 0.0 ==>
        stunned && state == old(state) && Tracker() == old(Tracker()) && angerLevel == old(angerLevel)
        && (!old(stunned) ==> heldItem == null && inSpecialAnimationWithPlayer == None)
      ensures stunNormalizedTimer <= 0.0 ==>
        !stunned && lightEnabled == (heldItem == null) && Tracker() == Advance(old(Tracker()), dt)
    {
      if stunNormalizedTimer > 0.0 {
        StunnedState();
        return;
      } else if stunned {
        stunned := false;
      }
      UpdateUnstunned(dt, localHeld);
    }

    /** `DoAIInterval`: nothing while the Drudge or every player is dead;
        otherwise the handler of the current state runs (the killing state has
        none), so the state moves only along `IntervalTransition`. The
        following handler ends with the emote check; it is called here right
        after `FollowPlayerState`, which is the same because the check does
        nothing once the handler has left the following state. */
    method DoAIInterval(s: Senses, emoting: bool, dt: real, p: Pointing, self: nat,
                        isEnemyDead: bool, allPlayersDead: bool)
      requires Valid() && SensesFit(s, |players|, |doors|)
      requires p.atPlayer.Some? ==> p.atPlayer.value < |players|
      requires p.atDoor.Some? ==> p.atDoor.value < |doors|
      modifies this, heldItem, doors
      ensures Valid()
      ensures IntervalTransition(old(state), state)
      ensures isEnemyDead || allPlayersDead || old(state) == KillingPlayer ==> unchanged(this)
      ensures angerLevel == old(angerLevel) && killingCoroutine == old(killingCoroutine)
      ensures previousTargetPlayerId == old(previousTargetPlayerId)
      ensures timeSinceTargetedPreviousPlayer == old(timeSinceTargetedPreviousPlayer)
    {
      if isEnemyDead || allPlayersDead {
        return;
      }
      match state
      case SearchingForPlayer => SearchingForPlayerState(s);
      case FollowPlayer =>
        FollowPlayerState(s);
        CheckLocalPlayerForEmoteActions(emoting, dt, p, self, s);
      case ChasingPlayer => ChasingPlayerState(s);
      case AngrilyLookingAtPlayer => AngrilyLookingAtPlayerState(s);
      case KillingPlayer =>
      case OpeningDoor => OpeningDoorState(s);
    }
  }
}
