/** The explosion entity of explosionEntity.ts: a short-lived effect that
    counts down five ticks, may sit relative to the entity that caused it, and
    its descriptor.

    The base entity (entity.ts) is not part of this model. Its part of a
    message is the entity id and the position; its `reconcileFromServer` is
    taken to copy the position, and its `destroy()` to set `markToDestroy`.
    Its descriptor, EntityModelSchema, is the parameter `base`. The entity
    table `game.entities` appears as the realX/realY of each live entity by
    id. */
module Explosion {
  import opened Wrappers
  import opened Codec
  import Messages

  const TotalAliveDuration: int := 5

  /** The descriptor's entity tag. */
  const ExplosionTag: int := 9

  datatype ExplosionEntity = ExplosionEntity(
    entityId: int, x: real, y: real,
    intensity: int, ownerEntityId: Option<int>,
    aliveDuration: int, markToDestroy: bool)

  /** ExplosionModel: the base entity's id and position, then the explosion's own keys. */
  datatype ExplosionModel = ExplosionModel(entityId: int, x: real, y: real, intensity: int, ownerEntityId: Option<int>)

  /** The constructor: the message's keys, and a full countdown. */
  function Create(m: ExplosionModel): (e: ExplosionEntity)
    ensures e.aliveDuration == TotalAliveDuration && !e.markToDestroy
    ensures e.intensity == m.intensity && e.ownerEntityId == m.ownerEntityId
  {
    ExplosionEntity(m.entityId, m.x, m.y, m.intensity, m.ownerEntityId, TotalAliveDuration, false)
  }

  // ---------------------------------------------------------------------
  // realX / realY
  // ---------------------------------------------------------------------

  /** A position on the board. */
  datatype Point = Point(x: real, y: real)

  /** `this.ownerEntityId && this.game.entities.lookup(...)` is truthy: an id
      that is neither absent nor 0, of an entity that is still there. */
  predicate HasOwner(e: ExplosionEntity, world: map<int, Point>) {
    e.ownerEntityId.Some? && e.ownerEntityId.value != 0 && e.ownerEntityId.value in world
  }

  /** realX and realY together: the explosion's own position, offset by its
      owner's real position while the owner can be found. */
  function RealPosition(e: ExplosionEntity, world: map<int, Point>): (r: Point)
    ensures !HasOwner(e, world) ==> r == Point(e.x, e.y)
    ensures HasOwner(e, world) ==> r.x - e.x == world[e.ownerEntityId.value].x
    ensures HasOwner(e, world) ==> r.y - e.y == world[e.ownerEntityId.value].y
  {
    if HasOwner(e, world) then
      var owner := world[e.ownerEntityId.value];
      Point(e.x + owner.x, e.y + owner.y)
    else Point(e.x, e.y)
  }

  // ---------------------------------------------------------------------
  // collide / gameTick
  // ---------------------------------------------------------------------

  /** collide: never blocks, changes nothing. */
  function Collide(e: ExplosionEntity): (r: (bool, ExplosionEntity))
    ensures !r.0 && r.1 == e
  {
    (false, e)
  }

  /** gameTick: one step of the countdown; destruction is asked for once it
      reaches zero. */
  function GameTick(e: ExplosionEntity): (r: ExplosionEntity)
    ensures e.aliveDuration - r.aliveDuration == 1
    ensures r.markToDestroy <==> e.markToDestroy || r.aliveDuration <= 0
    ensures r.(aliveDuration := e.aliveDuration, markToDestroy := e.markToDestroy) == e
  {
    var left := e.aliveDuration - 1;
    e.(aliveDuration := left, markToDestroy := if left <= 0 then true else e.markToDestroy)
  }

  function Ticks(e: ExplosionEntity, n: nat): ExplosionEntity {
    if n == 0 then e else GameTick(Ticks(e, n - 1))
  }

  // ---------------------------------------------------------------------
  // serialize / reconcileFromServer
  // ---------------------------------------------------------------------

  function Serialize(e: ExplosionEntity): (m: ExplosionModel)
    ensures m.intensity == e.intensity && m.ownerEntityId == e.ownerEntityId
  {
    ExplosionModel(e.entityId, e.x, e.y, e.intensity, e.ownerEntityId)
  }

  /** reconcileFromServer: the base entity's position, then the owner and
      intensity; the countdown is the client's own. */
  function Reconcile(e: ExplosionEntity, m: ExplosionModel): (r: ExplosionEntity)
    ensures r.entityId == e.entityId
    ensures r.aliveDuration == e.aliveDuration && r.markToDestroy == e.markToDestroy
  {
    e.(x := m.x, y := m.y, ownerEntityId := m.ownerEntityId, intensity := m.intensity)
  }

  // ---------------------------------------------------------------------
  // ExplosionModelSchema
  // ---------------------------------------------------------------------

  const IntensityField: Field := Field("intensity", Desc(Scalar(UInt8)))
  const OwnerField: Field := Field("ownerEntityId", Desc(Scalar(Int32Optional)))

  /** ExplosionModelSchema: `entityType: 9`, the base entity's keys spread in,
      then intensity and ownerEntityId, as the object literal defines them. */
  function ExplosionFields(base: seq<Field>): (r: seq<Field>)
    ensures OwnerField in r
  {
    var withBase := Messages.AssignAll([Field("entityType", Literal(ExplosionTag))], base);
    Messages.Assign(Messages.Assign(withBase, IntensityField), OwnerField)
  }

  function ExplosionVariant(base: seq<Field>): Variant {
    Variant("explosion", ExplosionFields(base))
  }

  /** The object the codec writes for an explosion: its tag key, the base
      entity's entries, then intensity and ownerEntityId. */
  function ExplosionValue(m: ExplosionModel, baseEntries: seq<Entry>): Value {
    VObj([Entry("entityType", VStr("explosion"))] + baseEntries
         + [Entry("intensity", VInt(m.intensity)), Entry("ownerEntityId", VOpt(m.ownerEntityId))])
  }
}
