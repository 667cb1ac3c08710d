/** The parts of a Sponge event that the host hooks look at: what kind of event
    it is, the objects in its cause, and whether it can be cancelled. A context
    that is not an event at all behaves, for every hook, like an event of kind
    OtherEvent with an empty cause that cannot be cancelled. */
module SpongeEvents {
  import opened Wrappers
  import opened Values

  /** An object in an event's cause. A player is an entity as well. */
  datatype CauseObject = PlayerCause(uuid: Uuid) | EntityCause(id: nat) | OtherCause(id: nat)

  /** The classes the hooks ask a cause for: Player.class and Entity.class. */
  datatype CauseClass = PlayerClass | EntityClass

  predicate InstanceOf(c: CauseObject, cls: CauseClass)
  {
    match cls
    case PlayerClass => c.PlayerCause?
    case EntityClass => c.PlayerCause? || c.EntityCause?
  }

  /** The position of the first object of class cls in the cause, or |cause| when there is none. */
  function FirstIndex(cause: seq<CauseObject>, cls: CauseClass): (i: nat)
    ensures i <= |cause|
    ensures forall j | 0 <= j < i :: !InstanceOf(cause[j], cls)
    ensures i < |cause| ==> InstanceOf(cause[i], cls)
  {
    if cause == [] then 0
    else if InstanceOf(cause[0], cls) then 0
    else 1 + FirstIndex(cause[1..], cls)
  }

  /** Cause.first(cls): the first object of that class in the cause, if any. */
  function First(cause: seq<CauseObject>, cls: CauseClass): (r: Option<CauseObject>)
    ensures r.Some? ==> r.value in cause && InstanceOf(r.value, cls)
    ensures r.None? <==> forall c | c in cause :: !InstanceOf(c, cls)
  {
    var i := FirstIndex(cause, cls);
    if i < |cause| then Some(cause[i]) else None
  }

  /** Since a player is an entity, a cause holding a player also holds an
      entity, and its first entity comes no later than its first player. */
  lemma {:induction false} PlayerIsAnEntity(cause: seq<CauseObject>)
    requires First(cause, PlayerClass).Some?
    ensures First(cause, EntityClass).Some?
    ensures FirstIndex(cause, EntityClass) <= FirstIndex(cause, PlayerClass)
  {
    var p := FirstIndex(cause, PlayerClass);
    assert InstanceOf(cause[p], EntityClass);
  }

  /** When no other entity precedes the first player, Entity.class finds that same player. */
  lemma {:induction false} FirstEntityIsThePlayer(cause: seq<CauseObject>)
    requires First(cause, PlayerClass).Some?
    requires forall j | 0 <= j < FirstIndex(cause, PlayerClass) :: !cause[j].EntityCause?
    ensures First(cause, EntityClass) == First(cause, PlayerClass)
  {
    PlayerIsAnEntity(cause);
  }

  /** Where an interactive inventory event happened. */
  datatype Inventory = Plain(id: nat) | Carried(id: nat, carrier: Option<nat>)

  /** InteractInventoryEvent.Open, .Close, or any of its other kinds (Click, ...). */
  datatype Phase = Open | Close | OtherPhase

  datatype EventKind = InteractInventory(phase: Phase, target: Inventory) | OtherEvent

  /** A host event. Only the cancelled flag changes after the event is built. */
  class Event {
    const kind: EventKind
    const cause: seq<CauseObject>
    const cancellable: bool
    var cancelled: bool

    constructor (kind: EventKind, cause: seq<CauseObject>, cancellable: bool)
      ensures this.kind == kind && this.cause == cause && this.cancellable == cancellable
      ensures !cancelled
    {
      this.kind := kind;
      this.cause := cause;
      this.cancellable := cancellable;
      cancelled := false;
    }
  }

  /** The script value a cause object becomes when it is put into a variable map. */
  function AsValue(c: CauseObject): Value
  {
    match c
    case PlayerCause(u) => PlayerRef(u)
    case EntityCause(id) => EntityRef(id)
    case OtherCause(id) => Opaque(id)
  }

  /** extractPlayerFromContext: the UUID of the first player in the event's cause. */
  function ExtractPlayer(e: Event): (r: Option<Uuid>)
    ensures r.Some? ==> PlayerCause(r.value) in e.cause
    ensures r.Some? ==> e.cause[FirstIndex(e.cause, PlayerClass)] == PlayerCause(r.value)
    ensures r.None? <==> forall c | c in e.cause :: !c.PlayerCause?
  {
    match First(e.cause, PlayerClass)
    case Some(c) => Some(c.uuid)
    case None => None
  }

  /** getCustomVarsForTrigger: a new variable map binding "player" to the first
      player in the cause and "entity" to the first entity, each only when there is one. */
  method GetCustomVarsForTrigger(e: Event) returns (variables: map<string, Value>)
    ensures "player" in variables <==> First(e.cause, PlayerClass).Some?
    ensures "player" in variables ==> variables["player"] == AsValue(First(e.cause, PlayerClass).value)
    ensures "entity" in variables <==> First(e.cause, EntityClass).Some?
    ensures "entity" in variables ==> variables["entity"] == AsValue(First(e.cause, EntityClass).value)
    ensures variables.Keys <= {"player", "entity"}
  {
    variables := map[];
    var player := First(e.cause, PlayerClass);
    if player.Some? {
      variables := variables["player" := AsValue(player.value)];
    }
    var entity := First(e.cause, EntityClass);
    if entity.Some? {
      variables := variables["entity" := AsValue(entity.value)];
    }
  }
}
