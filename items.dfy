/** Items the Drudge can be handed, and what "using" each of them does. */
module Items {

  /** The item types the use dispatch tells apart; every other grabbable
      object (scrap, bodies, tools without special handling) is `Other`. */
  datatype ItemKind =
    | Jetpack
    | WhoopieCushion
    | ExtensionLadder
    | StunGrenade
    | Key
    | SprayPaint
    | WalkieTalkie
    | Shotgun
    | Other

  /** A grabbable object in the scene. The fields are the ones the Drudge reads
      or writes; `attachedToEnemy` stands for `parentObject` pointing at the
      Drudge's grab point. */
  class Item {
    const kind: ItemKind
    const weight: real
    const twoHanded: bool
    const grabbable: bool
    var shellsLoaded: int
    var isHeldByEnemy: bool
    var attachedToEnemy: bool
    var physicsEnabled: bool
    var pinPulled: bool
    var isBeingUsed: bool
    var spawned: bool

    /** A spawned item lying in the world. */
    constructor (kind: ItemKind, weight: real, twoHanded: bool, grabbable: bool, shellsLoaded: int)
      ensures this.kind == kind && this.weight == weight && this.twoHanded == twoHanded
      ensures this.grabbable == grabbable && this.shellsLoaded == shellsLoaded
      ensures !isHeldByEnemy && !attachedToEnemy && physicsEnabled && !pinPulled && !isBeingUsed && spawned
    {
      this.kind := kind;
      this.weight := weight;
      this.twoHanded := twoHanded;
      this.grabbable := grabbable;
      this.shellsLoaded := shellsLoaded;
      isHeldByEnemy := false;
      attachedToEnemy := false;
      physicsEnabled := true;
      pinPulled := false;
      isBeingUsed := false;
      spawned := true;
    }
  }

  /** What one "use" of the held item amounts to. */
  datatype UseOutcome =
    | Detonate        // jetpack explodes, then is dropped
    | Fart            // whoopie cushion sounds, item kept
    | ExtendLadder    // ladder activation attempted (errors swallowed), then dropped
    | PullPin         // grenade pin pulled, then dropped
    | SeekDoor        // key: look for a door within 10 units
    | SprayNothing    // spray paint: deliberately nothing yet
    | ToggleRadio     // walkie-talkie: start or stop the relay routine
    | NoShells        // shotgun without shells: nothing, so it does not try to reload
    | GenericUse      // the item's own client-side use, errors swallowed

  /** The dispatch of the current revision, by item type and loaded shells. */
  function DrudgeUse(kind: ItemKind, shellsLoaded: int): UseOutcome
  {
    match kind
    case Jetpack => Detonate
    case WhoopieCushion => Fart
    case ExtensionLadder => ExtendLadder
    case StunGrenade => PullPin
    case Key => SeekDoor
    case SprayPaint => SprayNothing
    case WalkieTalkie => ToggleRadio
    case Shotgun => if shellsLoaded == 0 then NoShells else GenericUse
    case Other => GenericUse
  }

  /** The dispatch of the earlier revision: no walkie-talkie or shotgun case. */
  function ExampleUse(kind: ItemKind): UseOutcome
  {
    match kind
    case Jetpack => Detonate
    case WhoopieCushion => Fart
    case ExtensionLadder => ExtendLadder
    case StunGrenade => PullPin
    case Key => SeekDoor
    case SprayPaint => SprayNothing
    case _ => GenericUse
  }

  /** Outcomes after which the Drudge no longer holds the item. */
  predicate DropsAfterUse(o: UseOutcome)
  {
    o == Detonate || o == ExtendLadder || o == PullPin
  }

  /** Exactly the jetpack, the ladder and the grenade are dropped after use,
      in both revisions; everything else is kept. */
  lemma DroppedKinds(kind: ItemKind, shells: int)
    ensures DropsAfterUse(DrudgeUse(kind, shells)) <==> kind in {Jetpack, ExtensionLadder, StunGrenade}
    ensures DropsAfterUse(ExampleUse(kind)) <==> kind in {Jetpack, ExtensionLadder, StunGrenade}
  {
  }

  /** The two revisions dispatch alike except for the walkie-talkie, which the
      earlier one uses generically, and an empty shotgun, which the current one
      leaves alone. */
  lemma RevisionsAgree(kind: ItemKind, shells: int)
    ensures DrudgeUse(kind, shells) != ExampleUse(kind)
        <==> kind == WalkieTalkie || (kind == Shotgun && shells == 0)
  {
  }

  /** The speed factor a held item of the given weight leaves: one minus the
      excess weight over 1, clamped to at most 0.4. */
  function CarryWeightMultiplier(weight: real): (m: real)
    ensures 0.6 <= m <= 1.0
    ensures weight <= 1.0 ==> m == 1.0
    ensures weight >= 1.4 ==> m == 0.6
    ensures 1.0 <= weight <= 1.4 ==> m == 2.0 - weight
  {
    var excess := weight - 1.0;
    var t := if excess < 0.0 then 0.0 else if excess > 1.0 then 1.0 else excess;
    1.0 - (if t > 0.4 then 0.4 else t)
  }

  /** A heavier item never makes the Drudge faster. */
  lemma CarryWeightMonotone(w1: real, w2: real)
    requires w1 <= w2
    ensures CarryWeightMultiplier(w2) <= CarryWeightMultiplier(w1)
  {
  }
}
