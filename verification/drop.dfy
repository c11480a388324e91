/** The drop entity of dropEntity.ts: a pickup that falls down the screen,
    gives its payload to the first player it touches, and its descriptor.

    The base entity (entity.ts) is not part of this model. Its `destroy()` is
    taken to set `markToDestroy`, the flag the server reads at the end of a
    tick. Which side runs the code (`game.isClient`) is the parameter
    `onServer`. The random draws of `randomDrop` are parameters: the weighted
    choices (Utils.randomWeightedElement is not part of this model) arrive as
    their outcome, and `Math.random()` as a real in [0, 1). */
module Drop {
  import opened Wrappers
  import opened Items
  import opened Codec
  import GameConstants
  import Player
  import Messages

  datatype DropEntity = DropEntity(entityId: int, x: real, y: real, drop: DropType, markToDestroy: bool)

  // ---------------------------------------------------------------------
  // collide
  // ---------------------------------------------------------------------

  /** What the drop touched: a player (with the state of its shield entity,
      which addDrop may change) or any other entity. */
  datatype Touched = TouchedPlayer(player: Player.Player, shield: Option<Player.Shield>) | TouchedOther

  /** The drop afterwards, what addDrop did (when it ran), and collide's result. */
  datatype Collision = Collision(drop: DropEntity, pickup: Option<Player.Pickup>, blocks: bool)

  /** collide: touching a player destroys the drop on both sides and hands the
      payload over on the server only. An exception from addDrop propagates,
      and the drop is then not destroyed. */
  function Collide(rules: Player.Rules, onServer: bool, d: DropEntity, other: Touched): (r: Result<Collision, Player.Thrown>)
    ensures r.Ok? ==> !r.value.blocks
    ensures other.TouchedOther? ==> r == Ok(Collision(d, None, false))
    ensures other.TouchedPlayer? && r.Ok? ==> r.value.drop == d.(markToDestroy := true)
    ensures r.Ok? ==> (r.value.pickup.Some? <==> onServer && other.TouchedPlayer?)
    ensures r.Err? <==> onServer && other.TouchedPlayer? && Player.AddDrop(rules, other.player, d.drop, other.shield).Err?
  {
    match other
    case TouchedOther => Ok(Collision(d, None, false))
    case TouchedPlayer(p, shield) =>
      if onServer then
        var pickup :- Player.AddDrop(rules, p, d.drop, shield);
        Ok(Collision(d.(markToDestroy := true), Some(pickup), false))
      else
        Ok(Collision(d.(markToDestroy := true), None, false))
  }

  // ---------------------------------------------------------------------
  // gameTick
  // ---------------------------------------------------------------------

  const FallPerTick: real := 10.0

  /** Below this line a drop is gone: 1.2 screen heights. */
  function ExpiryY(): real { GameConstants.ScreenHeight as real * 1.2 }

  /** gameTick: fall by ten, and ask to be destroyed once below the expiry line. */
  function GameTick(d: DropEntity): (r: DropEntity)
    ensures r.y - d.y == FallPerTick
    ensures r.markToDestroy <==> d.markToDestroy || r.y > ExpiryY()
    ensures r.(y := d.y, markToDestroy := d.markToDestroy) == d
  {
    var y := d.y + FallPerTick;
    d.(y := y, markToDestroy := if y > ExpiryY() then true else d.markToDestroy)
  }

  /** `n` ticks in a row. */
  function Ticks(d: DropEntity, n: nat): DropEntity {
    if n == 0 then d else GameTick(Ticks(d, n - 1))
  }

  // ---------------------------------------------------------------------
  // randomDrop
  // ---------------------------------------------------------------------

  /** The meteor size a drop comes from. */
  datatype MeteorSize = BigMeteor | MedMeteor | SmallMeteor | TinyMeteor

  /** The outcome of the weighted draw of a drop type (weapon 40, shield 10, health 50). */
  datatype DropKind = WeaponKind | ShieldKind | HealthKind

  /** The outcome of the weighted draw of a weapon (laser1Spray10 10, laser2 20,
      rocket 40, torpedo 30). */
  datatype WeaponPick = PickSpray | PickLaser2 | PickRocket | PickTorpedo

  /** Math.ceil. */
  function Ceiling(x: real): (r: int)
    ensures r as real - 1.0 < x <= r as real
  {
    -((-x).Floor)
  }

  function LowAmount(size: MeteorSize): int {
    match size
    case BigMeteor => 5
    case MedMeteor => 4
    case SmallMeteor => 3
    case TinyMeteor => 1
  }

  function HighAmount(size: MeteorSize): int {
    match size
    case BigMeteor => 10
    case MedMeteor => 8
    case SmallMeteor => 6
    case TinyMeteor => 3
  }

  /** The amount a meteor of this size gives for the draw `r`. */
  function Amount(size: MeteorSize, r: real): (a: int)
    requires 0.0 <= r < 1.0
    ensures LowAmount(size) <= a <= HighAmount(size)
  {
    match size
    case BigMeteor => Ceiling(5.0 + r * 5.0)
    case MedMeteor => Ceiling(4.0 + r * 4.0)
    case SmallMeteor => Ceiling(3.0 + r * 3.0)
    case TinyMeteor => Ceiling(1.0 + r * 2.0)
  }

  predicate IsLaserPick(pick: WeaponPick) {
    pick == PickSpray || pick == PickLaser2
  }

  function PickedWeapon(pick: WeaponPick): Weapon {
    match pick
    case PickSpray => Laser1Spray10
    case PickLaser2 => Laser2
    case PickRocket => Rocket
    case PickTorpedo => Torpedo
  }

  /** randomDrop, with its three draws given. */
  function RandomDrop(kind: DropKind, size: MeteorSize, r: real, pick: WeaponPick): (d: DropType)
    requires 0.0 <= r < 1.0
    ensures d.HealthDrop? <==> kind == HealthKind
    ensures d.ShieldDrop? <==> kind == ShieldKind
    ensures d.WeaponDrop? <==> kind == WeaponKind
    ensures d.HealthDrop? ==> d.amount == Amount(size, r)
    ensures d.ShieldDrop? ==> d.level != Small && (d.level == Big <==> Amount(size, r) > 7)
    ensures d.WeaponDrop? ==>
              d.weapon == PickedWeapon(pick) &&
              d.ammo == (if IsLaserPick(pick) then Amount(size, r) * 1000 else Amount(size, r))
  {
    var amount := Amount(size, r);
    match kind
    case WeaponKind =>
      (match pick
       case PickSpray => WeaponDrop(amount * 1000, Laser1Spray10)
       case PickLaser2 => WeaponDrop(amount * 1000, Laser2)
       case PickRocket => WeaponDrop(amount, Rocket)
       case PickTorpedo => WeaponDrop(amount, Torpedo))
    case HealthKind => HealthDrop(amount)
    case ShieldKind => ShieldDrop(if amount > 7 then Big else Medium)
  }

  // ---------------------------------------------------------------------
  // DropModelSchema
  // ---------------------------------------------------------------------

  /** The PlayerWeapon strings. */
  function WeaponName(w: Weapon): string {
    match w
    case Laser1 => "laser1"
    case Laser2 => "laser2"
    case Rocket => "rocket"
    case Torpedo => "torpedo"
    case Laser1Spray10 => "laser1Spray10"
  }

  function WeaponOfName(s: string): (r: Option<Weapon>)
    ensures r.Some? ==> WeaponName(r.value) == s
  {
    if s == "laser1" then Some(Laser1)
    else if s == "laser2" then Some(Laser2)
    else if s == "rocket" then Some(Rocket)
    else if s == "torpedo" then Some(Torpedo)
    else if s == "laser1Spray10" then Some(Laser1Spray10)
    else None
  }

  function LevelName(l: ShieldLevel): string {
    match l
    case Small => "small"
    case Medium => "medium"
    case Big => "big"
  }

  const LevelEnum: Schema := Enum([Code("medium", 1), Code("big", 2)])

  /** The weapon variant's keys: ammo of the given width, then the weapon
      through PlayerWeaponEnumSchema (not part of this model: `weaponEnum`). */
  function WeaponFields(ammo: ScalarKind, weaponEnum: seq<Code>): seq<Field> {
    [Field("ammo", Desc(Scalar(ammo))), Field("weapon", Desc(Enum(weaponEnum)))]
  }

  const HealthFields: seq<Field> := [Field("amount", Desc(Scalar(UInt8)))]
  const ShieldFields: seq<Field> := [Field("level", Desc(LevelEnum))]

  /** The `drop` union as written: no variant carries a numeric `type`, and
      weapon ammo is a uint8. */
  function DropVariants(weaponEnum: seq<Code>): seq<Variant> {
    [Variant("weapon", WeaponFields(UInt8, weaponEnum)), Variant("health", HealthFields), Variant("shield", ShieldFields)]
  }

  function DropUnion(weaponEnum: seq<Code>): Schema {
    Lookup(TypeTag, DropVariants(weaponEnum))
  }

  /** DropModelSchema: the base entity's keys (`base`), then `drop`. */
  function DropModelFields(base: seq<Field>, weaponEnum: seq<Code>): (r: seq<Field>)
    ensures Field("drop", Desc(DropUnion(weaponEnum))) in r
  {
    Messages.Assign(base, Field("drop", Desc(DropUnion(weaponEnum))))
  }

  /** The union with a numeric tag per variant (weapon 1, health 2, shield 3)
      and weapon ammo of the given width. */
  function TaggedVariantsWith(ammo: ScalarKind, weaponEnum: seq<Code>): seq<Variant> {
    [Variant("weapon", [Messages.TagField(1)] + WeaponFields(ammo, weaponEnum)),
     Variant("health", [Messages.TagField(2)] + HealthFields),
     Variant("shield", [Messages.TagField(3)] + ShieldFields)]
  }

  /** The tagged union with ammo wide enough for a laser drop. */
  function TaggedVariants(weaponEnum: seq<Code>): seq<Variant> {
    TaggedVariantsWith(UInt16, weaponEnum)
  }

  function TaggedUnion(weaponEnum: seq<Code>): Schema {
    Lookup(TypeTag, TaggedVariants(weaponEnum))
  }

  /** A drop as the object the codec writes, keys in descriptor order. */
  function DropValue(d: DropType): Value {
    match d
    case WeaponDrop(ammo, w) =>
      VObj([Entry("type", VStr("weapon")), Entry("ammo", VInt(ammo)), Entry("weapon", VStr(WeaponName(w)))])
    case HealthDrop(amount) => VObj([Entry("type", VStr("health")), Entry("amount", VInt(amount))])
    case ShieldDrop(level) => VObj([Entry("type", VStr("shield")), Entry("level", VStr(LevelName(level)))])
  }

  /** Reading a decoded object back as a drop. */
  function DropOfValue(v: Value): Option<DropType> {
    if !v.VObj? || |v.entries| == 0 || v.entries[0].key != "type" || !v.entries[0].value.VStr? then None
    else
      var k := v.entries[0].value.s;
      var es := v.entries[1..];
      if k == "weapon" && |es| == 2 && es[0].key == "ammo" && es[0].value.VInt?
         && es[1].key == "weapon" && es[1].value.VStr? && WeaponOfName(es[1].value.s).Some? then
        Some(WeaponDrop(es[0].value.i, WeaponOfName(es[1].value.s).value))
      else if k == "health" && |es| == 1 && es[0].key == "amount" && es[0].value.VInt? then
        Some(HealthDrop(es[0].value.i))
      else if k == "shield" && |es| == 1 && es[0] == Entry("level", VStr("medium")) then Some(ShieldDrop(Medium))
      else if k == "shield" && |es| == 1 && es[0] == Entry("level", VStr("big")) then Some(ShieldDrop(Big))
      else None
  }

  /** Writing a drop with the tagged union of the given ammo width. */
  function EncodeDropWith(ammo: ScalarKind, weaponEnum: seq<Code>, d: DropType): Result<seq<Token>, CodecError> {
    AddSchema(Lookup(TypeTag, TaggedVariantsWith(ammo, weaponEnum)), DropValue(d))
  }

  /** Reading a drop with the tagged union of the given ammo width. */
  function DecodeDropWith(ammo: ScalarKind, weaponEnum: seq<Code>, toks: seq<Token>): (r: Result<(DropType, seq<Token>), CodecError>)
    ensures r.Ok? ==> |r.value.1| <= |toks|
  {
    var (v, rest) :- ReadSchema(Lookup(TypeTag, TaggedVariantsWith(ammo, weaponEnum)), toks);
    match DropOfValue(v)
    case Some(d) => Ok((d, rest))
    case None => Err(Malformed)
  }

  /** Writing a drop with the tagged union. */
  function EncodeDrop(weaponEnum: seq<Code>, d: DropType): Result<seq<Token>, CodecError> {
    EncodeDropWith(UInt16, weaponEnum, d)
  }

  /** Reading a drop with the tagged union. */
  function DecodeDrop(weaponEnum: seq<Code>, toks: seq<Token>): (r: Result<(DropType, seq<Token>), CodecError>)
    ensures r.Ok? ==> |r.value.1| <= |toks|
  {
    DecodeDropWith(UInt16, weaponEnum, toks)
  }
}
