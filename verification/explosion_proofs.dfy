/** What the explosion entity promises: it is destroyed on exactly its fifth
    tick, it follows its owner only while the owner exists, its message carries
    its own keys unchanged, and its descriptor is tag 9 with a lossless
    round trip. */
module ExplosionProofs {
  import opened Wrappers
  import opened Codec
  import opened CodecProofs
  import opened Explosion
  import Messages
  import MessagesProofs
  import Seqs

  // ---------------------------------------------------------------------
  // Countdown
  // ---------------------------------------------------------------------

  /** After `n` ticks the countdown is `n` lower and nothing else changed but
      the destroy mark, which is set once the countdown reached zero. */
  lemma {:induction false} CountsDown(e: ExplosionEntity, n: nat)
    ensures Ticks(e, n).aliveDuration == e.aliveDuration - n
    ensures Ticks(e, n).markToDestroy <==> e.markToDestroy || (n > 0 && e.aliveDuration - n <= 0)
    ensures Ticks(e, n).(aliveDuration := e.aliveDuration, markToDestroy := e.markToDestroy) == e
  {
    if n > 0 {
      CountsDown(e, n - 1);
    }
  }

  /** A new explosion asks to be destroyed on its fifth tick and not before. */
  lemma DestroyedOnFifthTick(m: ExplosionModel, n: nat)
    ensures Ticks(Create(m), n).markToDestroy <==> n >= TotalAliveDuration
    ensures n <= TotalAliveDuration ==> Ticks(Create(m), n).aliveDuration == TotalAliveDuration - n
  {
    CountsDown(Create(m), n);
  }

  // ---------------------------------------------------------------------
  // Owner-relative position
  // ---------------------------------------------------------------------

  /** The owner id is a weak reference: once the owner is gone from the
      table, the explosion sits at its own position. */
  lemma OwnerGone(e: ExplosionEntity, world: map<int, Point>)
    requires e.ownerEntityId.Some?
    ensures RealPosition(e, world - {e.ownerEntityId.value}) == Point(e.x, e.y)
  {
  }

  /** Moving the owner moves the explosion by the same amount; moving any other
      entity moves it not at all. */
  lemma FollowsOwner(e: ExplosionEntity, world: map<int, Point>, id: int, p: Point)
    requires id in world
    ensures var moved := world[id := p];
      if HasOwner(e, world) && e.ownerEntityId.value == id then
        RealPosition(e, moved).x - RealPosition(e, world).x == p.x - world[id].x &&
        RealPosition(e, moved).y - RealPosition(e, world).y == p.y - world[id].y
      else RealPosition(e, moved) == RealPosition(e, world)
  {
  }

  /** Id 0 never names an owner, whatever the table holds under it. */
  lemma ZeroIsNoOwner(e: ExplosionEntity, world: map<int, Point>)
    requires e.ownerEntityId == Some(0)
    ensures RealPosition(e, world) == Point(e.x, e.y)
  {
  }

  // ---------------------------------------------------------------------
  // serialize / reconcileFromServer
  // ---------------------------------------------------------------------

  /** The message an explosion is built from serializes back unchanged. */
  lemma SerializeCreate(m: ExplosionModel)
    ensures Serialize(Create(m)) == m
  {
  }

  /** Reconciling with a message for the same entity makes it serialize to
      that message, and reconciling with its own snapshot changes nothing. */
  lemma ReconcileSerialize(e: ExplosionEntity, m: ExplosionModel)
    ensures m.entityId == e.entityId ==> Serialize(Reconcile(e, m)) == m
    ensures Reconcile(e, Serialize(e)) == e
  {
  }

  // ---------------------------------------------------------------------
  // Descriptor
  // ---------------------------------------------------------------------

  /** What the spread-in base descriptor must satisfy: well formed and not
      redefining the keys the explosion defines. */
  predicate BaseOk(base: seq<Field>) {
    && FieldsWellFormed(base)
    && !Messages.HasKey(base, "entityType")
    && !Messages.HasKey(base, "intensity")
    && !Messages.HasKey(base, "ownerEntityId")
  }

  const TagFieldNine: Field := Field("entityType", Literal(ExplosionTag))

  /** The descriptor is the tag, the base keys in order, then intensity and
      ownerEntityId. */
  lemma ExplosionShape(base: seq<Field>)
    requires BaseOk(base)
    ensures ExplosionFields(base) == [TagFieldNine] + base + [IntensityField, OwnerField]
  {
    forall j | 0 <= j < |base|
      ensures !Messages.HasKey([TagFieldNine], base[j].key)
    {
      assert base[j].key != "entityType";
    }
    MessagesProofs.AssignAllAppends([TagFieldNine], base);
    var a := [TagFieldNine] + base;
    forall k | 0 <= k < |a|
      ensures a[k].key != "intensity"
    {
      if k > 0 {
        assert a[k] == base[k - 1];
      }
    }
    MessagesProofs.AssignNew(a, IntensityField);
    var b := a + [IntensityField];
    forall k | 0 <= k < |b|
      ensures b[k].key != "ownerEntityId"
    {
      if 0 < k < |a| {
        assert b[k] == base[k - 1];
      }
    }
    MessagesProofs.AssignNew(b, OwnerField);
    assert b + [OwnerField] == [TagFieldNine] + base + [IntensityField, OwnerField];
  }

  /** The variant carries entity tag 9 and a well-formed record. */
  lemma ExplosionVariantOk(base: seq<Field>)
    requires BaseOk(base)
    ensures VariantTag(ExplosionVariant(base), EntityTypeTag) == Some(ExplosionTag)
    ensures FieldsWellFormed(ExplosionFields(base))
  {
    ExplosionShape(base);
    var own := [IntensityField, OwnerField];
    var fields := [TagFieldNine] + base + own;
    assert SpecsWellFormed(own) by {
      assert SpecsWellFormed(own[1..]) by {
        assert SpecsWellFormed(own[2..]);
      }
    }
    MessagesProofs.SpecsAppend(base, own);
    Seqs.DropCons(TagFieldNine, base + own);
    assert SpecsWellFormed([TagFieldNine] + (base + own));
    Seqs.Assoc([TagFieldNine], base, own);
    ExplosionKeysDistinct(base);
  }

  /** The tag key, the base keys and the two own keys never clash. */
  lemma ExplosionKeysDistinct(base: seq<Field>)
    requires BaseOk(base)
    ensures DistinctFieldKeys([TagFieldNine] + base + [IntensityField, OwnerField])
  {
    var fields := [TagFieldNine] + base + [IntensityField, OwnerField];
    forall i, j | 0 <= i < j < |fields|
      ensures fields[i].key != fields[j].key
    {
      if 0 < i && j <= |base| {
        assert fields[i] == base[i - 1] && fields[j] == base[j - 1];
      } else if 0 < i <= |base| {
        assert fields[i] == base[i - 1];
      } else if i == 0 && j <= |base| {
        assert fields[j] == base[j - 1];
      }
    }
  }

  /** What an explosion message must satisfy to cross the wire unchanged:
      intensity in a byte, the owner id in 32 signed bits. */
  predicate ModelFits(m: ExplosionModel) {
    InUnsigned(m.intensity, TWO_8) && (m.ownerEntityId.Some? ==> InSigned(m.ownerEntityId.value, TWO_32))
  }

  function OwnEntries(m: ExplosionModel): seq<Entry> {
    [Entry("intensity", VInt(m.intensity)), Entry("ownerEntityId", VOpt(m.ownerEntityId))]
  }

  lemma OwnConforms(m: ExplosionModel)
    requires ModelFits(m)
    ensures FieldsConform([IntensityField, OwnerField], OwnEntries(m))
  {
    var es := OwnEntries(m);
    MessagesProofs.ConformOne(IntensityField, es[0]);
    MessagesProofs.ConformOne(OwnerField, es[1]);
    MessagesProofs.FieldsConformAppend([IntensityField], [es[0]], [OwnerField], [es[1]]);
    assert [IntensityField] + [OwnerField] == [IntensityField, OwnerField] && [es[0]] + [es[1]] == es;
  }

  lemma ExplosionConforms(base: seq<Field>, m: ExplosionModel, baseEntries: seq<Entry>)
    requires BaseOk(base) && FieldsConform(base, baseEntries) && ModelFits(m)
    ensures FieldsConform(ExplosionFields(base), ExplosionValue(m, baseEntries).entries[1..])
  {
    ExplosionShape(base);
    var own := [IntensityField, OwnerField];
    var ownEs := OwnEntries(m);
    OwnConforms(m);
    MessagesProofs.FieldsConformAppend(base, baseEntries, own, ownEs);
    MessagesProofs.ConformSkip(TagFieldNine, base + own, baseEntries + ownEs);
    Seqs.Assoc([TagFieldNine], base, own);
    var tag := Entry("entityType", VStr("explosion"));
    assert ExplosionValue(m, baseEntries).entries == [tag] + baseEntries + ownEs;
    Seqs.Assoc([tag], baseEntries, ownEs);
    Seqs.DropCons(tag, baseEntries + ownEs);
  }

  /** In any well-formed entity union that lists the explosion variant, an
      explosion is written as tag byte 9 and its fields, and reads back as
      itself, whatever follows it in the buffer. */
  lemma ExplosionRoundTrip(base: seq<Field>, vs: seq<Variant>, i: nat, m: ExplosionModel,
                           baseEntries: seq<Entry>, rest: seq<Token>)
    requires BaseOk(base) && FieldsConform(base, baseEntries) && ModelFits(m)
    requires WellFormed(Lookup(EntityTypeTag, vs)) && i < |vs| && vs[i] == ExplosionVariant(base)
    ensures AddSchema(Lookup(EntityTypeTag, vs), ExplosionValue(m, baseEntries)).Ok?
    ensures AddSchema(Lookup(EntityTypeTag, vs), ExplosionValue(m, baseEntries)).value[0] == TU8(ExplosionTag)
    ensures ReadSchema(Lookup(EntityTypeTag, vs), AddSchema(Lookup(EntityTypeTag, vs), ExplosionValue(m, baseEntries)).value + rest)
         == Ok((ExplosionValue(m, baseEntries), rest))
  {
    var v := ExplosionValue(m, baseEntries);
    ExplosionVariantOk(base);
    ExplosionConforms(base, m, baseEntries);
    MessagesProofs.FindOwnKey(vs, i);
    MessagesProofs.LookupConforms(EntityTypeTag, vs, vs[i], v.entries[1..]);
    assert v == VObj([Entry(TagName(EntityTypeTag), VStr(vs[i].key))] + v.entries[1..]);
    RoundTrip(Lookup(EntityTypeTag, vs), v, rest);
    assert Get(v.entries, "entityType") == Some(VStr("explosion"));
  }
}
