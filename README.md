# Drudge enemy: a verified model of its decision logic

The Drudge is a friendly-ish enemy for a co-operative horror game.
- **Searching:** it roams until it finds a player.
- **Following:** it follows a player who carries an item.
- **Glaring and chasing:** it glares at an empty-handed player until its anger reaches 1, then chases them. When it touches a chased player who still holds nothing, it crushes and kills them.
- **Items:** it carries one item, uses it when its owner points at it, and drops it when they point at the ground. It can be told to switch to another player. It walks a key to the nearest door and unlocks it if it is locked. A stun makes it drop what it holds and cancels a kill in progress.

This project models two revisions of that logic:
- the current one, `LC_Drudge` in `Plugin/src/DrudgeAI.cs`;
- the earlier one it grew from, `ExampleEnemyAI` in `Plugin/src/ExampleEnemyAI.cs`.

Every operation is a method on a class whose fields are the enemy's own fields:
- `Drudge.Drudge` (drudge.dfy) models the current revision.
- `Example.ExampleEnemy` (example_enemy.dfy) models the earlier revision.

Players, items and doors are classes whose fields the enemy writes (world.dfy, items.dfy).

The pure decisions behind the methods are functions, and the properties the code promises are lemmas about them:
- choosing a target and its five-second cooldown (scan.dfy, tracker.dfy);
- the state each situation leads to, and the door and emote rules (behaviour.dfy);
- the anger level (anger.dfy);
- the kill sequences and their guards (kill.dfy);
- item use and carry weight (items.dfy).

Each method's `ensures` ties its new state to those functions.

How the engine's side is modelled:
- **Engine queries become inputs.** Distances, line of sight, connected players, the engine's own closest-player pick, the nearest door and what the local player points at all become a `Senses` or `Pointing` value.
- **Coroutines become explicit phases.** A suspended coroutine is a phase value plus the number of seconds it waits. Each resumption is one method call.
- **Floats become `real`.**

The written specification differs from the code in three places. The model follows the code.
- **Anger floor:** the specification says anger is floored at 0. The code (`DrudgeAI.cs:219-227`) subtracts the frame time with no floor, so anger can go below 0 (`Anger.DecayUndershoots`).
- **Number of crushing steps:** the specification gives ⌈(H−1)/20⌉ steps of 20 damage for a victim at health H. The loop at `DrudgeAI.cs:960-965` runs while health is above 20 and at most four times. That is min(4, ⌊(H−1)/20⌋) steps, so a victim at 22 takes one step, not two (`Kill.FullHealthVictim`).
- **Health floor:** the specification says health is clamped at 0. The engine's damage routine is not part of this model, and damage is plain subtraction.

## Model

| member | source | states |
|---|---|---|
| Items.DroppedKinds | Plugin/src/DrudgeAI.cs:778-866 | Exactly the jetpack, the ladder and the grenade are dropped after use. This holds in both revisions, whatever the shells loaded; every other item is kept. |
| Items.RevisionsAgree | Plugin/src/ExampleEnemyAI.cs:533-586 | The two revisions handle an item differently in exactly two cases: the walkie-talkie, and a shotgun with no shells. |
| Items.CarryWeightMultiplier | Plugin/src/DrudgeAI.cs:127-131 | The speed factor for a held item lies between 0.6 and 1. It is 1 up to weight 1, 2 − weight between 1 and 1.4, and 0.6 from 1.4 on. |
| Items.CarryWeightMonotone | Plugin/src/DrudgeAI.cs:127-131 | A heavier item never gives a larger speed factor. |
| World.SlotsHoldItem | Plugin/src/DrudgeAI.cs:588-596 | The slot scan returns true exactly when some inventory slot is filled. |
| Scan.ClosestSpec | Plugin/src/DrudgeAI.cs:645-672 | The closest-player pick finds nobody exactly when every distance is at least the 2000 cap. Otherwise it returns the first index of least distance. |
| Scan.ScanClosest | Plugin/src/DrudgeAI.cs:649-657 | The strict-less-than loop over the connected players returns the first closest player under the cap, or nothing. |
| Tracker.Advance | Plugin/src/DrudgeAI.cs:256-270 | Each frame leaves the current target as it is. While it equals the previous target, nothing changes. While they differ, the timer grows by the frame time as long as it is at most five seconds; once it is past five, the previous target becomes the current one and the timer returns to 0. A change of target does not restart the timer. |
| Tracker.CooldownBlocks | Plugin/src/DrudgeAI.cs:256-270 | While the frames since a switch add up to at most five seconds, the previous target may not be picked again. |
| Tracker.CooldownReleases | Plugin/src/DrudgeAI.cs:256-270 | The first frame that takes the elapsed time past five seconds makes the previous target eligible again. |
| Behaviour.Engage | Plugin/src/DrudgeAI.cs:309-323 | A found player is followed exactly when either they or the Drudge hold an item. Otherwise the Drudge glares at them. |
| Behaviour.DoorDecision | Plugin/src/DrudgeAI.cs:387-414 | The door handler gives up when there is no door or no item. It forgets an unlocked door. It unlocks a locked door within reach and otherwise walks towards it. |
| Behaviour.UnlockedDoorFaults | Plugin/src/ExampleEnemyAI.cs:263-268 | In the earlier revision, an unlocked remembered door, with an item held, reaches the door dereference after the door was cleared. The corrected handler stops there. |
| Behaviour.DoorDecisionsAgreeWhenLocked | Plugin/src/ExampleEnemyAI.cs:256-282 | The written and the corrected door handlers differ exactly on an unlocked remembered door with an item held. |
| Transitions.ChasingOnlyFromGlare | Plugin/src/DrudgeAI.cs:272-307 | No interval handler enters the chase. A frame enters it only from glaring, or from the killing state. Neither cadence ever enters the killing state. |
| Emote.EmoteChoice | Plugin/src/DrudgeAI.cs:472-493 | Pointing at the ground means drop; otherwise pointing at the Drudge means use; otherwise pointing at another player means retarget to them; otherwise pointing at a door while a key is held means unlock. Each case holds in both directions. Pointing at oneself counts as pointing at no player. |
| Anger.LookingEscalation | Plugin/src/DrudgeAI.cs:147-157 | Glaring frames add their time to anger. The Drudge escalates exactly when the starting anger plus the total time reaches 1. |
| Anger.GlareIntervals | Plugin/src/ExampleEnemyAI.cs:333-356 | The earlier revision adds one AI interval per interval. Starting calm, n intervals escalate exactly when n times the interval reaches 1. |
| Anger.DecayBounds | Plugin/src/DrudgeAI.cs:219-227 | Outside glaring and chasing, anger never rises and ends less than one frame below 0. While it stays positive it drops by exactly the time spent. It reaches 0 once that time covers the starting anger. |
| Anger.NoDecayWhenAngry | Plugin/src/DrudgeAI.cs:219-227 | Anger is left untouched while glaring or chasing. |
| Anger.DecayUndershoots | Plugin/src/DrudgeAI.cs:219-227 | There is no floor: 0.25 decayed by a half-second frame is −0.25. |
| Anger.GlareScenario | Plugin/src/DrudgeAI.cs:147-157 | Anger 0.95 plus one 0.06-second glaring frame is 1.01 and escalates. |
| Kill.CrushLoop | Plugin/src/DrudgeAI.cs:960-967 | From the loop head with budget b, a victim at health H takes exactly min(b, ⌊(H−1)/20⌋) steps of 20 damage, half a second apart. The next resumption strikes the final blow, which leaves health at exactly 1, and waits out the rest of the budget. |
| Kill.KillSequence | Plugin/src/DrudgeAI.cs:953-991 | A victim who stays linked and alive is crushed to 1 health and then killed. The whole sequence waits 2.8 seconds in total, and the link is checked after exactly 2 seconds. |
| Kill.LinkCheckKills | Plugin/src/DrudgeAI.cs:968-975 | At the link check, a linked living victim is killed, followed by a 0.8-second wait. |
| Kill.SparedWhenUnlinked | Plugin/src/DrudgeAI.cs:968-976 | A victim no longer linked, or already dead, is left at 1 health. The sequence then ends with no further wait. |
| Kill.FullHealthVictim | Plugin/src/DrudgeAI.cs:960-965 | A victim at 100 health takes four crushing steps; one at 22 health takes one step. |
| KillGuard.SettleAdmitsSecondKill | Plugin/src/DrudgeAI.cs:926 | The collision guard as written admits a new kill while a kill routine is still settling. The corrected guard refuses it. |
| KillGuard.GuardsAgreeWhenIdle | Plugin/src/DrudgeAI.cs:926 | With no routine running, the corrected guard admits exactly what the written guard admits. |
| KillGuard.AftermathAdmitsSecondKill | Plugin/src/ExampleEnemyAI.cs:609 | The earlier revision's guard admits a new kill during the second after a kill. The corrected guard refuses it. |
| SimpleKill.SimpleResume | Plugin/src/ExampleEnemyAI.cs:618-643 | The earlier revision's kill grips for two seconds. It then kills only a linked, living victim, and only then waits one more second. A finished routine leaves the victim untouched. |
| Drudge.Drudge.constructor | Plugin/src/DrudgeAI.cs:85-96 | The Drudge starts searching, calm, holding nothing, with no target, door or routine, and with its light on. |
| Drudge.Drudge.DoesPlayerHaveAnItem | Plugin/src/DrudgeAI.cs:581-598 | With empty-handed kills allowed, a player has an item exactly when they hold one in hand. Otherwise they have one when any slot is filled. |
| Drudge.Drudge.UpdatePreviousTargetPlayer | Plugin/src/DrudgeAI.cs:256-270 | The previous-target fields advance by `Tracker.Advance` on the frame time, and nothing else changes. |
| Drudge.Drudge.SetNewTargetPlayer | Plugin/src/DrudgeAI.cs:565-579 | The target becomes the given player and their id is recorded as the current target. |
| Drudge.Drudge.FoundClosestPlayerInRange | Plugin/src/DrudgeAI.cs:609-625 | A player is found exactly when the engine's pick within sight range, or else within sensing range, gives one. That player becomes the target, subject to the cooldown. |
| Drudge.Drudge.TargetClosestPlayerInAnyCase | Plugin/src/DrudgeAI.cs:645-672 | A player is found exactly when someone is under the 2000 cap. The target switches to the first closest player unless the cooldown forbids the previous target. |
| Drudge.Drudge.FindClosestLockedDoor | Plugin/src/DrudgeAI.cs:627-643 | The remembered door becomes the first nearest door within range, or none. The scan does not look at whether a door is locked. |
| Drudge.Drudge.SwitchToSearchState | Plugin/src/DrudgeAI.cs:438-442 | The state becomes searching and the search routine runs. |
| Drudge.Drudge.SetItemAsHeld | Plugin/src/DrudgeAI.cs:719-727 | The item becomes held and is marked held by an enemy, attached and without physics. A running relay routine survives only if the new item is a walkie-talkie. |
| Drudge.Drudge.DropItem | Plugin/src/DrudgeAI.cs:740-759 | A held item is released and its held and physics flags restored. The Drudge holds nothing afterwards, so the relay routine has ended. With nothing held, nothing changes. |
| Drudge.Drudge.UseHeldItem | Plugin/src/DrudgeAI.cs:778-866 | The held item gets the effect `Items.DrudgeUse` prescribes. It is dropped exactly when `DropsAfterUse` says so, and the grenade's pin is pulled first. A key sends the Drudge to the nearest door within range, if there is one. A switched-on walkie-talkie starts the relay routine when it is stopped, and stops it when it runs, but only while there is a current target. |
| Drudge.Drudge.HitEnemy | Plugin/src/DrudgeAI.cs:761-764 | Being hit uses the held item and changes nothing when nothing is held. |
| Drudge.Drudge.SearchingForPlayerState | Plugin/src/DrudgeAI.cs:309-323 | A found player leads to following or glaring, as `Behaviour.Engage` decides. Otherwise the Drudge keeps searching. |
| Drudge.Drudge.FollowPlayerState | Plugin/src/DrudgeAI.cs:369-385 | A lost or out-of-range target sends the Drudge back to searching. A target and Drudge with no item between them make it glare. Otherwise it keeps following. |
| Drudge.Drudge.ActOnEmote | Plugin/src/DrudgeAI.cs:475-493 | The chosen emote action is carried out, as `EmoteEffect` states. Drop releases the item. Use has the `UseHeldItem` effect for the item's `DrudgeUse` outcome. Retarget sets the target subject to the cooldown and otherwise leaves both the target and the current id alone. Unlock remembers the door and switches to opening it. No action changes nothing. |
| Drudge.Drudge.CheckLocalPlayerForEmoteActions | Plugin/src/DrudgeAI.cs:444-509 | This only acts while following. The pointing time accumulates. The first check past 0.03 s carries out the action `Emote.EmoteChoice` picks, once, with the effect `EmoteEffect` states for it. After 0.1 s the timer and the latch reset, and they clear when the emote stops. |
| Drudge.Drudge.ChasingPlayerState | Plugin/src/DrudgeAI.cs:511-524 | The chase drops back to searching once the target is beyond 20 units and out of sight. It turns to following once the target holds an item, and otherwise goes on. |
| Drudge.Drudge.AngrilyLookingAtPlayerState | Plugin/src/DrudgeAI.cs:526-540 | Glaring ends in searching when the target is lost or far. It ends in following once someone holds an item. Otherwise it goes on. |
| Drudge.Drudge.OpeningDoorState | Plugin/src/DrudgeAI.cs:387-414 | The door step follows `Behaviour.DoorDecision`. Unlocking despawns the held item, ending any relay routine, then unlocks and opens the door, forgets it and returns to searching. |
| Drudge.Drudge.GrabScrapFromPlayer | Plugin/src/DrudgeAI.cs:674-695 | The player's held scrap, if allowed, becomes the Drudge's held item, and no relay routine runs afterwards. An item already held is dropped first. A refused two-handed item changes nothing. |
| Drudge.Drudge.StunnedState | Plugin/src/DrudgeAI.cs:416-436 | The first stunned frame marks the stun, cancels a running kill and releases its victim, and drops the item, which ends the relay routine. Later frames change nothing. |
| Drudge.Drudge.ResumeKillingCoroutine | Plugin/src/DrudgeAI.cs:953-991 | One resumption of the kill routine advances the victim and the phase exactly as `Kill.Resume` does. It returns the seconds to wait. |
| Drudge.Drudge.FinishKilling | Plugin/src/DrudgeAI.cs:976-990 | The end of the kill routine releases the special animation and picks up a grabbable body. It returns to searching and clears the routine. |
| Drudge.Drudge.OnCollideWithPlayer | Plugin/src/DrudgeAI.cs:921-950 | A kill starts exactly when the corrected guard `KillGuard.MayStart` holds. The victim is then locked into the animation and the routine starts crushing. |
| Drudge.Drudge.UpdateLightSource | Plugin/src/DrudgeAI.cs:248-254 | The light is on exactly when nothing is held. |
| Drudge.Drudge.UpdateInteractTrigger | Plugin/src/DrudgeAI.cs:229-247 | The Drudge is interactable exactly when it is following, is not stunned, and the local player holds an item it may carry. |
| Drudge.Drudge.UpdateAngerLevel | Plugin/src/DrudgeAI.cs:219-227 | Anger decays by the frame time outside glaring and chasing, as `Anger.Decay` describes. |
| Drudge.Drudge.UpdateMovingTowardsTargetPlayer | Plugin/src/DrudgeAI.cs:542-551 | The Drudge moves towards its target exactly when it has one and is chasing. |
| Drudge.Drudge.UpdateBehaviour | Plugin/src/DrudgeAI.cs:133-173 | Each frame, glaring adds the frame time to anger and escalates to chasing at 1, scaring the target. The unused killing state reverts to chasing. |
| Drudge.Drudge.UpdateUnstunned | Plugin/src/DrudgeAI.cs:119-173 | One unstunned frame sets the light, the interact trigger and the moving flag, decays anger, and advances the target cooldown by `Tracker.Advance`. It then makes the per-state step. |
| Drudge.Drudge.Update | Plugin/src/DrudgeAI.cs:98-174 | A frame either handles the stun or clears it and makes the unstunned step. The state moves only as `Transitions.FrameTransition` allows. |
| Drudge.Drudge.DoAIInterval | Plugin/src/DrudgeAI.cs:272-307 | One interval moves the state only as `Transitions.IntervalTransition` allows. A dead enemy, a round with all players dead, or the killing state leaves everything unchanged. Anger, the kill routine and the target cooldown are left alone. |
| Example.ExampleEnemy.constructor | Plugin/src/ExampleEnemyAI.cs:75-92 | The earlier revision starts searching and calm, holding nothing, with no target, door or routine, and with its light on. |
| Example.ExampleEnemy.DoesPlayerHaveAnItem | Plugin/src/ExampleEnemyAI.cs:379-390 | A player has an item exactly when some slot is filled. |
| Example.ExampleEnemy.UpdateAngerLevel | Plugin/src/ExampleEnemyAI.cs:140-147 | Anger decays by one AI interval outside glaring and chasing. |
| Example.ExampleEnemy.UpdateMovingTowardsTargetPlayer | Plugin/src/ExampleEnemyAI.cs:367-377 | The enemy moves towards its target exactly when it has one and is chasing. |
| Example.ExampleEnemy.UpdateInteractTrigger | Plugin/src/ExampleEnemyAI.cs:149-161 | The enemy is interactable exactly when it is following and the local player holds an item. |
| Example.ExampleEnemy.Update | Plugin/src/ExampleEnemyAI.cs:94-124 | A frame refreshes the interact trigger and nothing else. |
| Example.ExampleEnemy.TargetClosestPlayerInAnyCase | Plugin/src/ExampleEnemyAI.cs:422-436 | The target becomes the first closest player under the cap. A player is found exactly when there is one. |
| Example.ExampleEnemy.FindClosestLockedDoor | Plugin/src/ExampleEnemyAI.cs:407-420 | The first nearest door within range becomes the remembered door; the scan does not look at locks. With none in range, the old door is kept. |
| Example.ExampleEnemy.SetItemAsHeld | Plugin/src/ExampleEnemyAI.cs:484-493 | The item becomes held and attached. The light is toggled, so it ends on exactly when nothing was held before. |
| Example.ExampleEnemy.DropItem | Plugin/src/ExampleEnemyAI.cs:507-526 | A held item is released with its flags restored, and the enemy holds nothing afterwards. |
| Example.ExampleEnemy.DropItemAndToggleLight | Plugin/src/ExampleEnemyAI.cs:501-505 | Dropping also toggles the light. |
| Example.ExampleEnemy.GrabScrapFromPlayer | Plugin/src/ExampleEnemyAI.cs:438-453 | The player's held scrap becomes the enemy's held item, and the light ends on. |
| Example.ExampleEnemy.UseHeldItem | Plugin/src/ExampleEnemyAI.cs:533-586 | The held item gets the effect `Items.ExampleUse` prescribes and is dropped exactly when `DropsAfterUse` says so. A key runs the door scan and goes to a door if one is remembered afterwards, even one remembered from before. |
| Example.ExampleEnemy.HitEnemy | Plugin/src/ExampleEnemyAI.cs:528-531 | Being hit uses the held item. It changes nothing when nothing is held. |
| Example.ExampleEnemy.SearchingForPlayerState | Plugin/src/ExampleEnemyAI.cs:209-224 | The target becomes the engine's pick by sight, or else by sense. A pick within range stops the search and leads to following or glaring, as `Behaviour.Engage` decides. Otherwise the enemy keeps searching. |
| Example.ExampleEnemy.CheckTargetPlayerForEmoteActions | Plugin/src/ExampleEnemyAI.cs:284-313 | The target's pointing time accumulates. Past 0.03 s it acts once. On the ground it drops the item and the light comes on. On the enemy it uses the item, with the `UseHeldItem` effect for its `ExampleUse` outcome. The latch resets only when the emote stops. |
| Example.ExampleEnemy.FollowPlayerState | Plugin/src/ExampleEnemyAI.cs:236-254 | The target becomes the closest player. A lost target sends the enemy back to searching, an empty-handed pair leads to glaring, and otherwise it keeps following. |
| Example.ExampleEnemy.ChasingPlayerState | Plugin/src/ExampleEnemyAI.cs:315-331 | The target becomes the closest player. The chase drops back to searching when that player is lost, turns to following once they hold an item, and otherwise goes on. |
| Example.ExampleEnemy.AngrilyLookingAtPlayerState | Plugin/src/ExampleEnemyAI.cs:333-356 | Glaring adds one interval to anger and escalates to chasing at 1, scaring the target. It ends in searching when the target is lost and in following once an item is held. |
| Example.ExampleEnemy.KillingPlayerState | Plugin/src/ExampleEnemyAI.cs:358-365 | The killing state reverts to chasing once no player is locked into the animation. |
| Example.ExampleEnemy.OpeningDoorState | Plugin/src/ExampleEnemyAI.cs:256-282 | The door step follows the corrected `Behaviour.DoorDecision`. |
| Example.ExampleEnemy.DoAIInterval | Plugin/src/ExampleEnemyAI.cs:169-207 | One interval moves the state as `Transitions.IntervalTransition` allows, or from glaring or killing into chasing, which this revision does in the interval. A dead enemy or a round with all players dead changes nothing. Outside glaring, anger decays by one interval. |
| Example.ExampleEnemy.OnCollideWithPlayer | Plugin/src/ExampleEnemyAI.cs:604-616 | A kill starts exactly when the corrected guard `KillGuard.MayStartSimple` holds. The victim is then locked in, and the routine grips for two seconds. |
| Example.ExampleEnemy.ResumeKillPlayerAnimation | Plugin/src/ExampleEnemyAI.cs:618-643 | One resumption advances the routine as `SimpleKill.SimpleResume` does. When it ends, the owner returns to searching. |

## Left out

- Transforms, rotation, animation triggers and the special-animation positioning (`DrudgeAI.cs:176-217`): they are presentation.
- Light colour and spot angle: only whether the light is on is modelled.
- Raycasts and look-at tests: they arrive as `Senses` and `Pointing` values.
- The engine's own closest-player pick and its 1.5-unit buffer: it arrives as the `seen` and `sensed` fields of `Senses`.
- Server and client RPC pairs: each pair is one direct call.
- Ownership: a parameter where the code branches on it.
- Network spawning and despawning: an item's `spawned` flag.
- The walkie-talkie coroutine's body (`DrudgeAI.cs:868-897`): only whether it runs is modelled. Its transmissions are audio. The routine loops while a walkie-talkie is held and clears its handle when it stops. The model ends it at the moment the hand changes, not at the routine's next resumption.
- Navigation, destinations, agent speed and search routines: searching is a flag. The carry-weight factor is modelled but not applied to a speed.
- Logging and sound.
- Plugin.cs and Configuration.cs are not part of this model. The two configuration values the core reads, empty-handed kills and two-handed carrying, are constructor parameters.
- The engine's base enemy class, the player's damage and kill routines, and the collision checks:
  - collisions arrive as a boolean;
  - damage is plain subtraction;
  - a kill sets `isPlayerDead`.
- The player's side of handing over scrap, and generic item use (`UseItemOnClient`): they are the engine's item code. `GrabScrapFromPlayer` requires the player to hold an item. The interact trigger is only offered while the local player holds one, so the callback always finds one (`DrudgeAI.cs:229-247`).
- Floating point: times, distances and anger are `real`, so rounding is not modelled. Frame and interval times are parameters.
- Unity's null semantics for destroyed objects: a despawned item is treated like a missing one.
- Coroutine scheduling: the caller resumes a routine after the wait it returned. Each class has one routine slot. Because the guards are corrected (see Findings), a second concurrent routine cannot start.
- Drudge.Drudge.FinishKilling: clears the routine handle together with the other fields rather than as the very last statement; nothing observes the difference.
- Drudge.Drudge.DoAIInterval: states the transition relation and what the interval leaves alone; the per-state details are the contracts of the state handlers it calls.
- Drudge.Drudge.Update: states the transition relation and the stun dispatch; the per-field effects are the contracts of `UpdateUnstunned` and `StunnedState`.
- Example.ExampleEnemy.DoAIInterval: states the transition relation and what the interval leaves alone; the per-state details are the contracts of the state handlers it calls.
- Drudge.Drudge.OnCollideWithPlayer: uses the corrected guard, so it does not admit the second routine the code admits (see Findings).
- Example.ExampleEnemy.OnCollideWithPlayer: uses the corrected guard, so it does not admit the second routine the code admits (see Findings).
- Example.ExampleEnemy.UseHeldItem: generic use (`ExampleEnemyAI.cs:585`) has no exception handler in this revision. A throwing `UseItemOnClient` therefore skips the emote latch (`ExampleEnemyAI.cs:305`), and the use is retried every interval. The model treats generic use as returning normally, so the latch is set after one use.
- Example.ExampleEnemy.OpeningDoorState: uses the corrected door decision, so it does not fault on an unlocked door as the code does (see Findings).

## Findings

| source | as written | input that shows it | evidently intended | confidence | as-written member | corrected member |
|---|---|---|---|---|---|---|
| Plugin/src/ExampleEnemyAI.cs:263-268 | An unlocked remembered door is cleared and the state switched, but the handler does not return. It goes on to read the position of the door it has just cleared. | The enemy is opening a door while holding a key, and someone else unlocks that door first. | Stop after switching to searching, as the current revision does at `DrudgeAI.cs:394-399`. | likely; not executed | Behaviour.UnlockedDoorFaults | Example.ExampleEnemy.OpeningDoorState |
| Plugin/src/DrudgeAI.cs:926 | The kill guard checks the chase state, the special-animation player and the player's items, but not a running routine. After a kill, the routine clears the special-animation player and then waits 0.8 s while the Drudge is still chasing (`DrudgeAI.cs:968-975`). | During that 0.8 s, a second empty-handed player touches the Drudge. A second routine starts, and its handle replaces the first. When the first routine ends (`DrudgeAI.cs:976-989`), it releases the second victim's animation lock, switches to searching and clears the handle. A stun can then no longer cancel the second kill. | Refuse a new kill while a routine is running. | plausible; not executed | KillGuard.SettleAdmitsSecondKill | Drudge.Drudge.OnCollideWithPlayer |
| Plugin/src/ExampleEnemyAI.cs:609 | The guard checks the target, the chase state and the special-animation player. After a kill, the routine clears the special-animation player and then waits 1 s (`ExampleEnemyAI.cs:624-631`). | During that second the interval scan makes another chased player the target, and that player touches the enemy. A second routine runs alongside the first, and the first one's end releases the second victim's lock. | Refuse a new kill while a routine is running. | plausible; not executed | KillGuard.AftermathAdmitsSecondKill | Example.ExampleEnemy.OnCollideWithPlayer |
