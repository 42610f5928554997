/** The scene objects the Drudge reads and writes (players and door locks),
    and the per-interval answers of the engine's spatial queries. */
module World {
  import opened Common
  import opened Items

  /** A player. `itemSlots` is the inventory (a null slot is empty);
      `inAnimationWithEnemy` holds the id of the enemy the player is locked
      into a special animation with; `deadBody` is the grabbable body the
      engine leaves once the player is killed. */
  class Player {
    const itemSlots: array<Item?>
    var currentlyHeldObjectServer: Item?
    var health: int
    var isPlayerDead: bool
    var inSpecialInteractAnimation: bool
    var inAnimationWithEnemy: Option<nat>
    var deadBody: Item?
    var fearLevel: real

    /** A living player, not in any special animation. */
    constructor (slots: array<Item?>, held: Item?, health: int, body: Item?)
      ensures itemSlots == slots && currentlyHeldObjectServer == held && this.health == health
      ensures deadBody == body && !isPlayerDead && !inSpecialInteractAnimation
      ensures inAnimationWithEnemy == None && fearLevel == 0.0
    {
      itemSlots := slots;
      currentlyHeldObjectServer := held;
      this.health := health;
      deadBody := body;
      isPlayerDead := false;
      inSpecialInteractAnimation := false;
      inAnimationWithEnemy := None;
      fearLevel := 0.0;
    }
  }

  /** A door lock in the scene. */
  class Door {
    var isLocked: bool
    var isOpen: bool

    constructor (locked: bool)
      ensures isLocked == locked && !isOpen
    {
      isLocked := locked;
      isOpen := false;
    }
  }

  /** Some inventory slot of `p` holds an item. */
  predicate AnySlotFilled(p: Player)
    reads p.itemSlots
  {
    exists i :: 0 <= i < p.itemSlots.Length && p.itemSlots[i] != null
  }

  /** The slot scan: stops at the first filled slot. Reads the inventory and
      changes nothing. */
  method SlotsHoldItem(p: Player) returns (has: bool)
    ensures has <==> AnySlotFilled(p)
  {
    var slots := p.itemSlots;
    var i := 0;
    while i < slots.Length
      invariant 0 <= i <= slots.Length
      invariant forall j :: 0 <= j < i ==> slots[j] == null
    {
      if slots[i] != null {
        return true;
      }
      i := i + 1;
    }
    return false;
  }

  /** What the engine answers during one AI interval: the distance to and line
      of sight to each player (indexed by player id), the highest connected
      player index (`connectedPlayersAmount`), the closest player found by the
      engine's own search with and without line of sight (which already applies
      its 1.5-unit buffer), and the distance to each door lock. */
  datatype Senses = Senses(
    dist: seq<real>,
    sight: seq<bool>,
    connected: nat,
    seen: Option<nat>,
    sensed: Option<nat>,
    doorDist: seq<real>)

  /** The answers fit a session of `players` players and `doors` doors. */
  predicate SensesFit(s: Senses, players: nat, doors: nat)
  {
    |s.dist| == players && |s.sight| == players && s.connected < players
    && (s.seen.Some? ==> s.seen.value < players)
    && (s.sensed.Some? ==> s.sensed.value < players)
    && |s.doorDist| == doors
  }
}
