/** What the drop entity promises: both sides agree on a collision, a drop
    falls ten per tick until it passes the expiry line, random amounts stay in
    (and cover) each size's range, and what its descriptor can and cannot
    carry. */
module DropProofs {
  import opened Wrappers
  import opened Items
  import opened Codec
  import opened CodecProofs
  import opened Drop
  import Player
  import Messages
  import MessagesProofs

  // ---------------------------------------------------------------------
  // collide
  // ---------------------------------------------------------------------

  /** Client and server leave the drop in the same state; only the server
      changes the player, and it changes it exactly as addDrop does. */
  lemma CollideSides(rules: Player.Rules, d: DropEntity, p: Player.Player, shield: Option<Player.Shield>)
    requires Player.AddDrop(rules, p, d.drop, shield).Ok?
    ensures Collide(rules, true, d, TouchedPlayer(p, shield)).Ok?
    ensures Collide(rules, false, d, TouchedPlayer(p, shield)).Ok?
    ensures Collide(rules, false, d, TouchedPlayer(p, shield)).value.drop
         == Collide(rules, true, d, TouchedPlayer(p, shield)).value.drop
    ensures Collide(rules, false, d, TouchedPlayer(p, shield)).value.pickup.None?
    ensures Collide(rules, true, d, TouchedPlayer(p, shield)).value.pickup == Some(Player.AddDrop(rules, p, d.drop, shield).value)
  {
  }

  // ---------------------------------------------------------------------
  // gameTick
  // ---------------------------------------------------------------------

  /** After `n` ticks a drop is `10 n` lower, nothing else about it changed but
      the destroy mark, and it is marked exactly when it was already or it now
      lies below the expiry line. */
  lemma {:induction false} Falls(d: DropEntity, n: nat)
    ensures Ticks(d, n).y == d.y + FallPerTick * n as real
    ensures Ticks(d, n).markToDestroy <==> d.markToDestroy || (n > 0 && Ticks(d, n).y > ExpiryY())
    ensures Ticks(d, n).(y := d.y, markToDestroy := d.markToDestroy) == d
  {
    if n > 0 {
      Falls(d, n - 1);
    }
  }

  /** A drop that starts unmarked above the line is marked on exactly the first
      tick that takes it below. */
  lemma MarkedOnFirstTickBelow(d: DropEntity, n: nat)
    requires !d.markToDestroy && n > 0
    requires d.y + FallPerTick * (n - 1) as real <= ExpiryY() < d.y + FallPerTick * n as real
    ensures !Ticks(d, n - 1).markToDestroy && Ticks(d, n).markToDestroy
  {
    Falls(d, n - 1);
    Falls(d, n);
  }

  // ---------------------------------------------------------------------
  // randomDrop
  // ---------------------------------------------------------------------

  /** Every amount in a size's range is drawn by some `r` in [0, 1). */
  lemma AmountCovers(size: MeteorSize, a: int) returns (r: real)
    requires LowAmount(size) <= a <= HighAmount(size)
    ensures 0.0 <= r < 1.0 && Amount(size, r) == a
  {
    var low := LowAmount(size);
    if a == low {
      r := 0.0;
    } else {
      var span: real := match size
        case BigMeteor => 5.0
        case MedMeteor => 4.0
        case SmallMeteor => 3.0
        case TinyMeteor => 2.0;
      r := ((a as real) - 0.5 - (low as real)) / span;
      assert (low as real) + r * span == (a as real) - 0.5;
    }
  }

  /** A shield drop is big exactly when the amount exceeds seven, so small and
      tiny meteors only ever give medium shields. */
  lemma SmallMeteorsGiveMediumShields(size: MeteorSize, r: real, pick: WeaponPick)
    requires 0.0 <= r < 1.0 && (size == SmallMeteor || size == TinyMeteor)
    ensures RandomDrop(ShieldKind, size, r, pick) == ShieldDrop(Medium)
  {
  }

  /** The ammo of a random weapon drop: a whole number of thousands from 1000
      to 10000 for the two lasers, 1 to 10 rounds for rockets and torpedoes. */
  lemma WeaponAmmoRange(size: MeteorSize, r: real, pick: WeaponPick)
    requires 0.0 <= r < 1.0
    ensures var d := RandomDrop(WeaponKind, size, r, pick);
      if IsLaserPick(pick) then d.ammo % 1000 == 0 && 1000 <= d.ammo <= 10000 else 1 <= d.ammo <= 10
  {
  }

  // ---------------------------------------------------------------------
  // The descriptor as written
  // ---------------------------------------------------------------------

  /** The variants carry no numeric `type`. */
  lemma Untagged(weaponEnum: seq<Code>)
    ensures forall i :: 0 <= i < |DropVariants(weaponEnum)| ==> VariantTag(DropVariants(weaponEnum)[i], TypeTag).None?
  {
    var vs := DropVariants(weaponEnum);
    assert FieldLiteral(vs[0].fields[1..], "type").None?;
    assert VariantTag(vs[0], TypeTag).None?;
    assert VariantTag(vs[1], TypeTag).None?;
    assert FieldLiteral(ShieldFields[1..], "type").None?;
    assert VariantTag(vs[2], TypeTag).None?;
  }

  /** The variant each drop's `type` names, and its index in the union. */
  function VariantIndex(d: DropType): nat {
    match d
    case WeaponDrop(_, _) => 0
    case HealthDrop(_) => 1
    case ShieldDrop(_) => 2
  }

  /** As written, every drop is still written: the variant its `type` names
      has no numeric tag, so the tag byte is undefined, which the byte store
      writes as 0, and the variant's fields follow. That buffer cannot be read
      back: no variant has tag 0. */
  lemma UntaggedWritesTagZero(weaponEnum: seq<Code>, d: DropType, rest: seq<Token>)
    ensures AddSchema(DropUnion(weaponEnum), DropValue(d)).Ok?
    ensures AddSchema(DropUnion(weaponEnum), DropValue(d)).value[0] == TU8(0)
    ensures ReadSchema(DropUnion(weaponEnum), AddSchema(DropUnion(weaponEnum), DropValue(d)).value + rest)
         == Err(SchemaNotFound(TypeTag, 0))
  {
    Untagged(weaponEnum);
    var vs := DropVariants(weaponEnum);
    var v := DropValue(d);
    var i := VariantIndex(d);
    assert Get(v.entries, "type") == Some(VStr(vs[i].key));
    assert FindVariant(vs, vs[i].key) == Some(vs[i]);
    assert VariantTag(vs[i], TypeTag).None?;
    UntaggedFieldsWrite(weaponEnum, d);
    TaglessWritesZero(TypeTag, vs, v.entries, i);
    var buf := AddSchema(DropUnion(weaponEnum), v).value;
    assert (buf + rest)[0] == TU8(0);
    UntaggedNotDecodable(weaponEnum, buf + rest);
  }

  /** A variant without a tag field is written behind the byte 0, the value
      `addUint8(undefined)` stores. */
  lemma TaglessWritesZero(on: TagKey, vs: seq<Variant>, es: seq<Entry>, i: nat)
    requires i < |vs| && Get(es, TagName(on)) == Some(VStr(vs[i].key))
    requires FindVariant(vs, vs[i].key) == Some(vs[i]) && VariantTag(vs[i], on).None?
    requires AddFields(vs[i].fields, es).Ok?
    ensures AddSchema(Lookup(on, vs), VObj(es)) == Ok([TU8(0)] + AddFields(vs[i].fields, es).value)
  {
  }

  /** The fields of the variant a drop names can always be written. */
  lemma UntaggedFieldsWrite(weaponEnum: seq<Code>, d: DropType)
    ensures AddFields(DropVariants(weaponEnum)[VariantIndex(d)].fields, DropValue(d).entries).Ok?
  {
    match d
    case WeaponDrop(ammo, w) => UntaggedWeaponWrites(weaponEnum, ammo, w);
    case HealthDrop(amount) =>
      var es := DropValue(d).entries;
      assert Get(es, "amount") == Some(VInt(amount));
      assert AddFields(HealthFields[1..], es).Ok?;
    case ShieldDrop(level) =>
      var es := DropValue(d).entries;
      assert Get(es, "level") == Some(VStr(LevelName(level)));
      assert AddFields(ShieldFields[1..], es).Ok?;
  }

  lemma UntaggedWeaponWrites(weaponEnum: seq<Code>, ammo: int, w: Weapon)
    ensures AddFields(WeaponFields(UInt8, weaponEnum), DropValue(WeaponDrop(ammo, w)).entries).Ok?
  {
    var es := DropValue(WeaponDrop(ammo, w)).entries;
    var fields := WeaponFields(UInt8, weaponEnum);
    assert Get(es, "ammo") == Some(VInt(ammo));
    assert es[0].key != "weapon" && es[1].key != "weapon";
    assert Get(es[2..], "weapon") == Some(VStr(WeaponName(w)));
    assert Get(es[1..], "weapon") == Get(es[2..], "weapon");
    assert Get(es, "weapon") == Some(VStr(WeaponName(w)));
    assert AddFields(fields[2..], es).Ok?;
    assert AddFields(fields[1..], es).Ok?;
  }

  /** No buffer reads back as a drop with the union as written: every tag byte
      is reported as not found. */
  lemma UntaggedNotDecodable(weaponEnum: seq<Code>, toks: seq<Token>)
    ensures ReadSchema(DropUnion(weaponEnum), toks).Err?
    ensures |toks| > 0 && toks[0].TU8? ==> ReadSchema(DropUnion(weaponEnum), toks) == Err(SchemaNotFound(TypeTag, toks[0].n))
  {
    Untagged(weaponEnum);
    if |toks| > 0 && toks[0].TU8? {
      assert FindTag(DropVariants(weaponEnum), TypeTag, toks[0].n).None?;
    }
  }

  /** A record read fails when it reaches the untagged drop union. */
  lemma {:induction false} ReadFieldsFail(fields: seq<Field>, weaponEnum: seq<Code>, i: nat, toks: seq<Token>)
    requires i < |fields| && fields[i] == Field("drop", Desc(DropUnion(weaponEnum)))
    ensures ReadFields(fields, toks).Err?
    decreases i
  {
    if i == 0 {
      UntaggedNotDecodable(weaponEnum, toks);
    } else if IsTagKey(fields[0].key) {
      ReadFieldsFail(fields[1..], weaponEnum, i - 1, toks);
    } else {
      var r := ReadSpec(fields[0].spec, toks);
      if r.Ok? {
        ReadFieldsFail(fields[1..], weaponEnum, i - 1, r.value.1);
      }
    }
  }

  /** Whatever the base entity's keys, no buffer reads back as a drop entity:
      the read fails at the drop's tag byte at the latest. */
  lemma DropModelUnreadable(base: seq<Field>, weaponEnum: seq<Code>, toks: seq<Token>)
    ensures ReadSchema(Record(DropModelFields(base, weaponEnum)), toks).Err?
  {
    var fields := DropModelFields(base, weaponEnum);
    var f := Field("drop", Desc(DropUnion(weaponEnum)));
    var i :| 0 <= i < |fields| && fields[i] == f;
    ReadFieldsFail(fields, weaponEnum, i, toks);
  }

  // ---------------------------------------------------------------------
  // uint8 ammo
  // ---------------------------------------------------------------------

  /** The weapon variant's record for ammo `a` and weapon `w`. */
  function WeaponRecord(a: int, w: Weapon): Value {
    VObj([Entry("ammo", VInt(a)), Entry("weapon", VStr(WeaponName(w)))])
  }

  /** A weapon enum usable in both directions that names every weapon. */
  predicate WeaponEnumOk(weaponEnum: seq<Code>) {
    WellFormed(Enum(weaponEnum)) && forall w: Weapon :: CodeOf(weaponEnum, WeaponName(w)).Some?
  }

  lemma WeaponRecordConforms(ammo: ScalarKind, weaponEnum: seq<Code>, a: int, w: Weapon)
    requires WeaponEnumOk(weaponEnum) && ScalarConforms(ammo, VInt(a))
    ensures WellFormed(Record(WeaponFields(ammo, weaponEnum)))
    ensures Conforms(Record(WeaponFields(ammo, weaponEnum)), WeaponRecord(a, w))
  {
    var fields := WeaponFields(ammo, weaponEnum);
    var es := WeaponRecord(a, w).entries;
    assert SpecsWellFormed(fields[2..]);
    assert fields[1..][0].spec.schema == Enum(weaponEnum);
    assert SpecsWellFormed(fields[1..]);
    assert SpecsWellFormed(fields);
    assert DistinctFieldKeys(fields);
    MessagesProofs.ConformPairwise(fields, es);
  }

  /** A weapon drop fits the tagged union of any ammo width its ammo fits. */
  lemma WeaponDropConforms(ammo: ScalarKind, weaponEnum: seq<Code>, a: int, w: Weapon)
    requires WeaponEnumOk(weaponEnum) && ScalarConforms(ammo, VInt(a))
    ensures Conforms(Lookup(TypeTag, TaggedVariantsWith(ammo, weaponEnum)), DropValue(WeaponDrop(a, w)))
  {
    var vs := TaggedVariantsWith(ammo, weaponEnum);
    assert DistinctVariantKeys(vs);
    var es := DropValue(WeaponDrop(a, w)).entries[1..];
    WeaponRecordConforms(ammo, weaponEnum, a, w);
    assert es == WeaponRecord(a, w).entries;
    MessagesProofs.ConformSkip(Messages.TagField(1), WeaponFields(ammo, weaponEnum), es);
    MessagesProofs.FindOwnKey(vs, 0);
    MessagesProofs.LookupConforms(TypeTag, vs, vs[0], es);
  }

  /** With the tags added but ammo left a uint8, a weapon drop comes back with
      its ammo reduced modulo 256. */
  lemma Uint8AmmoWraps(weaponEnum: seq<Code>, a: int, w: Weapon, rest: seq<Token>)
    requires WeaponEnumOk(weaponEnum)
    ensures EncodeDropWith(UInt8, weaponEnum, WeaponDrop(a, w)).Ok?
    ensures DecodeDropWith(UInt8, weaponEnum, EncodeDropWith(UInt8, weaponEnum, WeaponDrop(a, w)).value + rest)
         == Ok((WeaponDrop(a % TWO_8, w), rest))
  {
    var s := Lookup(TypeTag, TaggedVariantsWith(UInt8, weaponEnum));
    var d := WeaponDrop(a % TWO_8, w);
    TaggedWellFormedWith(UInt8, weaponEnum);
    WeaponDropConforms(UInt8, weaponEnum, a % TWO_8, w);
    RoundTrip(s, DropValue(d), rest);
    DropValueInverse(d);
    Uint8AmmoSameTokens(weaponEnum, a, w);
  }

  /** A uint8 ammo field writes `a` and `a % 256` as the same tokens. */
  lemma Uint8AmmoSameTokens(weaponEnum: seq<Code>, a: int, w: Weapon)
    ensures EncodeDropWith(UInt8, weaponEnum, WeaponDrop(a, w)) == EncodeDropWith(UInt8, weaponEnum, WeaponDrop(a % TWO_8, w))
  {
    var vs := TaggedVariantsWith(UInt8, weaponEnum);
    var e1 := DropValue(WeaponDrop(a, w)).entries;
    var e2 := DropValue(WeaponDrop(a % TWO_8, w)).entries;
    assert Get(e1, "type") == Get(e2, "type");
    WeaponFieldsSame(weaponEnum, a, w);
    AddFieldsSame(vs[0].fields, e1, e2);
    assert FindVariant(vs, "weapon") == Some(vs[0]);
    LookupSame(TypeTag, vs, e1, e2);
  }

  /** Two objects with the same tag whose variant fields write the same
      tokens are written the same by a type-tagged union. */
  lemma LookupSame(on: TagKey, vs: seq<Variant>, e1: seq<Entry>, e2: seq<Entry>)
    requires Get(e1, TagName(on)) == Get(e2, TagName(on))
    requires Get(e1, TagName(on)).Some? && Get(e1, TagName(on)).value.VStr?
    requires var f := FindVariant(vs, Get(e1, TagName(on)).value.s);
      f.Some? && AddFields(f.value.fields, e1) == AddFields(f.value.fields, e2)
    ensures AddSchema(Lookup(on, vs), VObj(e1)) == AddSchema(Lookup(on, vs), VObj(e2))
  {
  }

  /** Field by field, the two weapon drops write the same tokens. */
  lemma WeaponFieldsSame(weaponEnum: seq<Code>, a: int, w: Weapon)
    ensures var f := TaggedVariantsWith(UInt8, weaponEnum)[0].fields;
      forall j :: 0 <= j < |f| && !IsTagKey(f[j].key) ==>
        AddField(f[j].spec, Get(DropValue(WeaponDrop(a, w)).entries, f[j].key))
        == AddField(f[j].spec, Get(DropValue(WeaponDrop(a % TWO_8, w)).entries, f[j].key))
  {
    var f := TaggedVariantsWith(UInt8, weaponEnum)[0].fields;
    var e1 := DropValue(WeaponDrop(a, w)).entries;
    var e2 := DropValue(WeaponDrop(a % TWO_8, w)).entries;
    assert f == [Messages.TagField(1), Field("ammo", Desc(Scalar(UInt8))), Field("weapon", Desc(Enum(weaponEnum)))];
    forall j | 0 <= j < |f| && !IsTagKey(f[j].key)
      ensures AddField(f[j].spec, Get(e1, f[j].key)) == AddField(f[j].spec, Get(e2, f[j].key))
    {
      if j == 1 {
        AmmoSame(a, w);
      } else {
        WeaponSame(a, w);
      }
    }
  }

  lemma AmmoSame(a: int, w: Weapon)
    ensures AddField(Desc(Scalar(UInt8)), Get(DropValue(WeaponDrop(a, w)).entries, "ammo"))
         == AddField(Desc(Scalar(UInt8)), Get(DropValue(WeaponDrop(a % TWO_8, w)).entries, "ammo"))
  {
    assert Get(DropValue(WeaponDrop(a, w)).entries, "ammo") == Some(VInt(a));
    assert Get(DropValue(WeaponDrop(a % TWO_8, w)).entries, "ammo") == Some(VInt(a % TWO_8));
    assert WrapUnsigned(a % TWO_8, TWO_8) == a % TWO_8 == WrapUnsigned(a, TWO_8);
  }

  lemma WeaponSame(a: int, w: Weapon)
    ensures Get(DropValue(WeaponDrop(a, w)).entries, "weapon") == Get(DropValue(WeaponDrop(a % TWO_8, w)).entries, "weapon")
  {
    var e1 := DropValue(WeaponDrop(a, w)).entries;
    var e2 := DropValue(WeaponDrop(a % TWO_8, w)).entries;
    assert e1[1..][1..] == e2[1..][1..];
    assert Get(e1[1..], "weapon") == Get(e2[1..], "weapon");
  }

  /** Records whose keys write the same tokens field by field write the same
      tokens. */
  lemma {:induction false} AddFieldsSame(fields: seq<Field>, e1: seq<Entry>, e2: seq<Entry>)
    requires forall j :: 0 <= j < |fields| && !IsTagKey(fields[j].key) ==>
      AddField(fields[j].spec, Get(e1, fields[j].key)) == AddField(fields[j].spec, Get(e2, fields[j].key))
    ensures AddFields(fields, e1) == AddFields(fields, e2)
    decreases |fields|
  {
    if |fields| > 0 {
      AddFieldsSame(fields[1..], e1, e2);
    }
  }

  /** Every laser drop loses its ammo through the uint8 field: it is a
      multiple of 1000, never below 256, so it reads back as another drop. */
  lemma LaserAmmoWraps(weaponEnum: seq<Code>, size: MeteorSize, r: real, pick: WeaponPick, rest: seq<Token>)
    requires WeaponEnumOk(weaponEnum) && 0.0 <= r < 1.0 && IsLaserPick(pick)
    ensures var d := RandomDrop(WeaponKind, size, r, pick);
      EncodeDropWith(UInt8, weaponEnum, d).Ok? &&
      DecodeDropWith(UInt8, weaponEnum, EncodeDropWith(UInt8, weaponEnum, d).value + rest).Ok? &&
      DecodeDropWith(UInt8, weaponEnum, EncodeDropWith(UInt8, weaponEnum, d).value + rest).value.0 != d
  {
    var d := RandomDrop(WeaponKind, size, r, pick);
    WeaponAmmoRange(size, r, pick);
    Uint8AmmoWraps(weaponEnum, d.ammo, d.weapon, rest);
    assert d.ammo % TWO_8 != d.ammo;
  }

  /** The largest laser drop, 10000 rounds from a big meteor, reads back as a
      drop of 16. */
  lemma BigLaserDropReadsSixteen(weaponEnum: seq<Code>, rest: seq<Token>)
    requires WeaponEnumOk(weaponEnum)
    ensures RandomDrop(WeaponKind, BigMeteor, 0.9, PickLaser2) == WeaponDrop(10000, Laser2)
    ensures EncodeDropWith(UInt8, weaponEnum, WeaponDrop(10000, Laser2)).Ok?
    ensures DecodeDropWith(UInt8, weaponEnum, EncodeDropWith(UInt8, weaponEnum, WeaponDrop(10000, Laser2)).value + rest)
         == Ok((WeaponDrop(16, Laser2), rest))
  {
    assert Ceiling(5.0 + 0.9 * 5.0) == 10;
    Uint8AmmoWraps(weaponEnum, 10000, Laser2, rest);
  }

  // ---------------------------------------------------------------------
  // The tagged descriptor
  // ---------------------------------------------------------------------

  /** A drop whose numbers fit the tagged descriptor. */
  predicate DropFits(d: DropType) {
    match d
    case WeaponDrop(ammo, _) => InUnsigned(ammo, TWO_16)
    case HealthDrop(amount) => InUnsigned(amount, TWO_8)
    case ShieldDrop(level) => level != Small
  }

  lemma WeaponVariantOk(ammo: ScalarKind, weaponEnum: seq<Code>)
    requires WeaponEnumOk(weaponEnum)
    ensures VariantOk(TypeTag, TaggedVariantsWith(ammo, weaponEnum)[0])
  {
    var w := TaggedVariantsWith(ammo, weaponEnum)[0].fields;
    assert SpecsWellFormed(w[2..]);
    assert SpecsWellFormed(w[1..]);
  }

  lemma HealthVariantOk(ammo: ScalarKind, weaponEnum: seq<Code>)
    ensures VariantOk(TypeTag, TaggedVariantsWith(ammo, weaponEnum)[1])
  {
    assert SpecsWellFormed(TaggedVariantsWith(ammo, weaponEnum)[1].fields[1..]);
  }

  lemma ShieldVariantOk(ammo: ScalarKind, weaponEnum: seq<Code>)
    ensures VariantOk(TypeTag, TaggedVariantsWith(ammo, weaponEnum)[2])
  {
    assert WellFormed(LevelEnum);
    assert SpecsWellFormed(TaggedVariantsWith(ammo, weaponEnum)[2].fields[1..]);
  }

  /** With a tag per variant, the union is well formed whatever the ammo width. */
  lemma TaggedWellFormedWith(ammo: ScalarKind, weaponEnum: seq<Code>)
    requires WeaponEnumOk(weaponEnum)
    ensures WellFormed(Lookup(TypeTag, TaggedVariantsWith(ammo, weaponEnum)))
  {
    WeaponVariantOk(ammo, weaponEnum);
    HealthVariantOk(ammo, weaponEnum);
    ShieldVariantOk(ammo, weaponEnum);
    EachVariantOk(TypeTag, TaggedVariantsWith(ammo, weaponEnum));
  }

  lemma TaggedWellFormed(weaponEnum: seq<Code>)
    requires WeaponEnumOk(weaponEnum)
    ensures WellFormed(TaggedUnion(weaponEnum))
  {
    TaggedWellFormedWith(UInt16, weaponEnum);
  }

  lemma DropConforms(weaponEnum: seq<Code>, d: DropType)
    requires WeaponEnumOk(weaponEnum) && DropFits(d)
    ensures Conforms(TaggedUnion(weaponEnum), DropValue(d))
  {
    var vs := TaggedVariants(weaponEnum);
    assert DistinctVariantKeys(vs);
    match d
    case WeaponDrop(ammo, w) =>
      WeaponDropConforms(UInt16, weaponEnum, ammo, w);
    case HealthDrop(amount) =>
      var es := DropValue(d).entries[1..];
      MessagesProofs.ConformOne(HealthFields[0], es[0]);
      assert es == [es[0]];
      MessagesProofs.ConformSkip(Messages.TagField(2), HealthFields, es);
      MessagesProofs.FindOwnKey(vs, 1);
      MessagesProofs.LookupConforms(TypeTag, vs, vs[1], es);
    case ShieldDrop(level) =>
      var es := DropValue(d).entries[1..];
      MessagesProofs.ConformOne(ShieldFields[0], es[0]);
      assert es == [es[0]];
      MessagesProofs.ConformSkip(Messages.TagField(3), ShieldFields, es);
      MessagesProofs.FindOwnKey(vs, 2);
      MessagesProofs.LookupConforms(TypeTag, vs, vs[2], es);
  }

  lemma DropValueInverse(d: DropType)
    requires DropFits(d)
    ensures DropOfValue(DropValue(d)) == Some(d)
  {
  }

  /** Reading a drop consumes a prefix of the buffer. */
  lemma DecodeConsumesPrefix(weaponEnum: seq<Code>, toks: seq<Token>)
    ensures DecodeDrop(weaponEnum, toks).Ok? ==> IsSuffix(DecodeDrop(weaponEnum, toks).value.1, toks)
  {
    SchemaConsumesPrefix(TaggedUnion(weaponEnum), toks);
  }

  /** With a numeric tag per variant and uint16 ammo, every drop whose numbers
      fit reads back as itself, whatever follows it in the buffer. */
  lemma TaggedRoundTrip(weaponEnum: seq<Code>, d: DropType, rest: seq<Token>)
    requires WeaponEnumOk(weaponEnum) && DropFits(d)
    ensures EncodeDrop(weaponEnum, d).Ok?
    ensures DecodeDrop(weaponEnum, EncodeDrop(weaponEnum, d).value + rest) == Ok((d, rest))
  {
    TaggedWellFormed(weaponEnum);
    DropConforms(weaponEnum, d);
    RoundTrip(TaggedUnion(weaponEnum), DropValue(d), rest);
    DropValueInverse(d);
  }

  /** Every drop randomDrop can produce fits the tagged descriptor, so every
      one of them survives the trip to the client. */
  lemma RandomDropsRoundTrip(weaponEnum: seq<Code>, kind: DropKind, size: MeteorSize, r: real, pick: WeaponPick, rest: seq<Token>)
    requires WeaponEnumOk(weaponEnum) && 0.0 <= r < 1.0
    ensures var d := RandomDrop(kind, size, r, pick);
      DropFits(d) && EncodeDrop(weaponEnum, d).Ok? &&
      DecodeDrop(weaponEnum, EncodeDrop(weaponEnum, d).value + rest) == Ok((d, rest))
  {
    var d := RandomDrop(kind, size, r, pick);
    if kind == WeaponKind {
      WeaponAmmoRange(size, r, pick);
    }
    TaggedRoundTrip(weaponEnum, d, rest);
  }
}
