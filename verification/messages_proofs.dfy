/** What ServerToClientSchema promises: it is a well-formed descriptor with six
    distinct message tags, and every batch of in-range messages decodes to
    itself. */
module MessagesProofs {
  import opened Wrappers
  import opened Codec
  import opened CodecProofs
  import opened Seqs
  import opened Messages
  import GameConstants

  // ---------------------------------------------------------------------
  // Spreads
  // ---------------------------------------------------------------------

  lemma {:induction false} AssignNew(fields: seq<Field>, f: Field)
    requires !HasKey(fields, f.key)
    ensures Assign(fields, f) == fields + [f]
    decreases |fields|
  {
    if |fields| > 0 {
      AssignNew(fields[1..], f);
      assert fields[0].key != f.key;
      assert [fields[0]] + (fields[1..] + [f]) == fields + [f];
    }
  }

  lemma HasKeyAppend(fields: seq<Field>, f: Field, key: string)
    ensures HasKey(fields + [f], key) <==> HasKey(fields, key) || f.key == key
  {
    if HasKey(fields, key) {
      var k :| 0 <= k < |fields| && fields[k].key == key;
      assert (fields + [f])[k] == fields[k];
    }
    if f.key == key {
      assert (fields + [f])[|fields|] == f;
    }
    if HasKey(fields + [f], key) {
      var k :| 0 <= k < |fields + [f]| && (fields + [f])[k].key == key;
      if k < |fields| {
        assert fields[k] == (fields + [f])[k];
      }
    }
  }

  /** After appending `more[0]`, none of the rest of `more` is defined yet. */
  lemma AppendKeepsFresh(fields: seq<Field>, more: seq<Field>)
    requires |more| > 0 && DistinctFieldKeys(more)
    requires forall j :: 0 <= j < |more| ==> !HasKey(fields, more[j].key)
    ensures DistinctFieldKeys(more[1..])
    ensures forall j :: 0 <= j < |more[1..]| ==> !HasKey(fields + [more[0]], more[1..][j].key)
  {
    var tail := more[1..];
    forall j | 0 <= j < |tail|
      ensures !HasKey(fields + [more[0]], tail[j].key)
    {
      assert tail[j] == more[j + 1];
      HasKeyAppend(fields, more[0], tail[j].key);
    }
    forall a, b | 0 <= a < b < |tail|
      ensures tail[a].key != tail[b].key
    {
      assert tail[a] == more[a + 1] && tail[b] == more[b + 1];
    }
  }

  /** Spreading keys the object does not yet have appends them in order. */
  lemma {:induction false} AssignAllAppends(fields: seq<Field>, more: seq<Field>)
    requires DistinctFieldKeys(more)
    requires forall j :: 0 <= j < |more| ==> !HasKey(fields, more[j].key)
    ensures AssignAll(fields, more) == fields + more
    decreases |more|
  {
    if |more| > 0 {
      var next := fields + [more[0]];
      var tail := more[1..];
      AppendKeepsFresh(fields, more);
      AssignAllAppends(next, tail);
      assert AssignAll(fields, more) == AssignAll(next, tail) by {
        AssignNew(fields, more[0]);
      }
      SplitFirst(fields, more);
    }
  }

  /** Redefining a key the object already has keeps every key in its place. */
  lemma {:induction false} AssignReplaces(fields: seq<Field>, f: Field)
    requires HasKey(fields, f.key)
    ensures |Assign(fields, f)| == |fields|
    ensures forall i :: 0 <= i < |fields| ==> Assign(fields, f)[i].key == fields[i].key
    decreases |fields|
  {
    if fields[0].key != f.key {
      var k :| 0 <= k < |fields| && fields[k].key == f.key;
      assert fields[1..][k - 1].key == f.key;
      AssignReplaces(fields[1..], f);
    }
  }

  /** Redefining a key keeps the keys distinct. */
  lemma AssignDistinct(fields: seq<Field>, f: Field)
    requires DistinctFieldKeys(fields)
    ensures DistinctFieldKeys(Assign(fields, f))
  {
    if HasKey(fields, f.key) {
      AssignReplaces(fields, f);
    } else {
      AssignNew(fields, f);
    }
  }

  lemma {:induction false} SpecsAppend(a: seq<Field>, b: seq<Field>)
    requires SpecsWellFormed(a) && SpecsWellFormed(b)
    ensures SpecsWellFormed(a + b)
    decreases |a|
  {
    if |a| > 0 {
      SpecsAppend(a[1..], b);
      assert (a + b)[1..] == a[1..] + b;
    } else {
      assert a + b == b;
    }
  }

  lemma {:induction false} AssignSpecs(fields: seq<Field>, f: Field)
    requires SpecsWellFormed(fields) && (f.spec.Desc? ==> WellFormed(f.spec.schema))
    ensures SpecsWellFormed(Assign(fields, f))
    decreases |fields|
  {
    if |fields| == 0 {
      assert SpecsWellFormed(Assign(fields, f)[1..]);
    } else if fields[0].key == f.key {
      assert Assign(fields, f)[1..] == fields[1..];
    } else {
      AssignSpecs(fields[1..], f);
      assert Assign(fields, f)[1..] == Assign(fields[1..], f);
    }
  }

  /** Redefining or adding a tag key changes nothing the codec reads or writes. */
  lemma {:induction false} AssignTagConform(fields: seq<Field>, f: Field, es: seq<Entry>)
    requires IsTagKey(f.key)
    ensures FieldsConform(Assign(fields, f), es) == FieldsConform(fields, es)
    decreases |fields|
  {
    if |fields| == 0 {
      assert Assign(fields, f)[1..] == [];
    } else if fields[0].key == f.key {
      assert Assign(fields, f)[1..] == fields[1..];
    } else {
      assert Assign(fields, f)[1..] == Assign(fields[1..], f);
      if IsTagKey(fields[0].key) {
        AssignTagConform(fields[1..], f, es);
      } else if |es| > 0 {
        AssignTagConform(fields[1..], f, es[1..]);
      }
    }
  }

  lemma {:induction false} FieldsConformAppend(a: seq<Field>, x: seq<Entry>, b: seq<Field>, y: seq<Entry>)
    requires FieldsConform(a, x) && FieldsConform(b, y)
    ensures FieldsConform(a + b, x + y)
    decreases |a|
  {
    if |a| == 0 {
      assert a + b == b && x + y == y;
    } else {
      assert (a + b)[0] == a[0] && (a + b)[1..] == a[1..] + b;
      if IsTagKey(a[0].key) {
        FieldsConformAppend(a[1..], x, b, y);
      } else {
        FieldsConformAppend(a[1..], x[1..], b, y);
        assert (x + y)[0] == x[0] && (x + y)[1..] == x[1..] + y;
      }
    }
  }

  // ---------------------------------------------------------------------
  // Well-formedness
  // ---------------------------------------------------------------------

  /** What the spread-in live player descriptor must satisfy: well formed and
      not redefining `type` or `serverVersion`. */
  predicate LiveOk(live: seq<Field>) {
    FieldsWellFormed(live) && !HasKey(live, "type") && !HasKey(live, "serverVersion")
  }

  const JoinedBase: seq<Field> := [TagField(3), Uint("serverVersion", UInt8)]

  /** The joined variant is its two own keys followed by the live player's keys,
      with `entityType` (never written) redefined in place or appended. */
  lemma JoinedShape(live: seq<Field>)
    requires LiveOk(live)
    ensures AssignAll(JoinedBase, live) == JoinedBase + live
    ensures JoinedFields(live) == Assign(JoinedBase + live, Uint("entityType", Str))
    ensures FieldsWellFormed(JoinedFields(live))
    ensures JoinedFields(live)[0] == TagField(3)
    ensures VariantTag(JoinedVariant(live), TypeTag) == Some(3)
  {
    forall j | 0 <= j < |live|
      ensures !HasKey(JoinedBase, live[j].key)
    {
      assert live[j].key != "type" && live[j].key != "serverVersion";
    }
    AssignAllAppends(JoinedBase, live);
    var all := JoinedBase + live;
    assert DistinctFieldKeys(all) by {
      forall a, b | 0 <= a < b < |all|
        ensures all[a].key != all[b].key
      {
        if b >= 2 && a < 2 {
          assert all[b] == live[b - 2];
        } else if a >= 2 {
          assert all[a] == live[a - 2] && all[b] == live[b - 2];
        }
      }
    }
    AssignDistinct(all, Uint("entityType", Str));
    SpecsAppend(JoinedBase, live);
    AssignSpecs(all, Uint("entityType", Str));
    var jf := JoinedFields(live);
    assert jf == [all[0]] + Assign(all[1..], Uint("entityType", Str));
    assert FieldLiteral(jf, "type") == Some(3);
  }

  predicate EntitiesOk(entities: seq<Variant>) {
    WellFormed(Lookup(EntityTypeTag, entities))
  }

  /** A variant the `type` lookup can carry: tag `n` and a well-formed record. */
  predicate TaggedOk(v: Variant, n: int) {
    VariantTag(v, TypeTag) == Some(n) && FieldsWellFormed(v.fields)
  }

  lemma PongOk()
    ensures TaggedOk(PongVariant(), 1)
  {
  }

  lemma ErrorOk()
    ensures TaggedOk(ErrorVariant(), 2)
  {
  }

  /** A list of fields whose descriptors are all scalars has well-formed specs. */
  lemma {:induction false} ScalarSpecs(fields: seq<Field>)
    requires forall i :: 0 <= i < |fields| ==> fields[i].spec.Desc? && fields[i].spec.schema.Scalar?
    ensures SpecsWellFormed(fields)
    decreases |fields|
  {
    if |fields| > 0 {
      ScalarSpecs(fields[1..]);
    }
  }

  /** The row keys differ in length, except damageGiven and damageTaken,
      which differ in their seventh letter. */
  lemma ScoreKeysDistinct()
    ensures DistinctFieldKeys(ScoreFields)
  {
    forall i, j | 0 <= i < j < |ScoreFields|
      ensures ScoreFields[i].key != ScoreFields[j].key
    {
      if i == 2 && j == 3 {
        assert ScoreFields[i].key[6] != ScoreFields[j].key[6];
      } else {
        assert |ScoreFields[i].key| != |ScoreFields[j].key|;
      }
    }
  }

  lemma ScoreFieldsWellFormed()
    ensures FieldsWellFormed(ScoreFields)
  {
    ScoreKeysDistinct();
    ScalarSpecs(ScoreFields);
  }

  lemma LeaderboardOk(score: seq<Field>)
    requires FieldsWellFormed(score)
    ensures TaggedOk(LeaderboardVariant(score), 4)
  {
    var fs := LeaderboardVariant(score).fields;
    assert WellFormed(Array(CountU16, Record(score)));
    assert SpecsWellFormed(fs[1..]);
  }

  lemma SpectatingOk()
    ensures TaggedOk(SpectatingVariant(), 5)
  {
  }

  lemma WorldStateOk(entities: seq<Variant>)
    requires EntitiesOk(entities)
    ensures TaggedOk(WorldStateVariant(entities), 6)
  {
    var fs := WorldStateVariant(entities).fields;
    assert WellFormed(Array(CountU16, Lookup(EntityTypeTag, entities)));
    assert SpecsWellFormed(fs[1..]);
  }

  lemma JoinedOk(live: seq<Field>)
    requires LiveOk(live)
    ensures TaggedOk(JoinedVariant(live), 3)
  {
    JoinedShape(live);
  }

  /** Six variants tagged 1 to 6 in order, with distinct names, form a
      well-formed `type` lookup. */
  lemma SixTagged(vs: seq<Variant>, a: Variant, b: Variant, c: Variant, d: Variant, e: Variant, f: Variant)
    requires vs == [a, b, c, d, e, f]
    requires TaggedOk(a, 1) && TaggedOk(b, 2) && TaggedOk(c, 3) && TaggedOk(d, 4) && TaggedOk(e, 5) && TaggedOk(f, 6)
    requires DistinctVariantKeys(vs)
    ensures forall k :: 0 <= k < 6 ==> VariantTag(vs[k], TypeTag) == Some(k + 1)
    ensures WellFormed(Lookup(TypeTag, vs))
  {
    forall k | 0 <= k < 6
      ensures VariantTag(vs[k], TypeTag) == Some(k + 1) && VariantOk(TypeTag, vs[k])
    {
      if k == 0 {
        assert vs[k] == a;
      } else if k == 1 {
        assert vs[k] == b;
      } else if k == 2 {
        assert vs[k] == c;
      } else if k == 3 {
        assert vs[k] == d;
      } else if k == 4 {
        assert vs[k] == e;
      } else {
        assert vs[k] == f;
      }
    }
    EachVariantOk(TypeTag, vs);
  }

  /** The six message kinds carry distinct names. */
  lemma MessageKeys(live: seq<Field>, entities: seq<Variant>, score: seq<Field>)
    ensures DistinctVariantKeys(MessageVariants(live, entities, score))
  {
    var vs := MessageVariants(live, entities, score);
    SixKeysDistinct(vs);
  }

  /** The six message keys differ in length, except spectating and
      worldState, which differ in their first letter. */
  lemma SixKeysDistinct(vs: seq<Variant>)
    requires |vs| == 6
    requires vs[0].key == "pong" && vs[1].key == "error" && vs[2].key == "joined"
    requires vs[3].key == "leaderboard" && vs[4].key == "spectating" && vs[5].key == "worldState"
    ensures DistinctVariantKeys(vs)
  {
    forall i, j | 0 <= i < j < |vs|
      ensures vs[i].key != vs[j].key
    {
      if i == 4 && j == 5 {
        assert vs[i].key[0] != vs[j].key[0];
      } else {
        assert |vs[i].key| != |vs[j].key|;
      }
    }
  }

  /** ServerToClientSchema is a well-formed descriptor whenever the player and
      entity descriptors spread into it are; its message kinds are tagged pong
      1, error 2, joined 3, leaderboard 4, spectating 5, worldState 6. */
  lemma SchemaWellFormed(live: seq<Field>, entities: seq<Variant>, score: seq<Field>)
    requires LiveOk(live) && EntitiesOk(entities) && FieldsWellFormed(score)
    ensures WellFormed(SchemaWith(live, entities, score))
    ensures forall k :: 0 <= k < 6 ==> VariantTag(MessageVariants(live, entities, score)[k], TypeTag) == Some(k + 1)
  {
    PongOk();
    ErrorOk();
    JoinedOk(live);
    LeaderboardOk(score);
    SpectatingOk();
    WorldStateOk(entities);
    MessageKeys(live, entities, score);
    SixTagged(MessageVariants(live, entities, score), PongVariant(), ErrorVariant(), JoinedVariant(live),
              LeaderboardVariant(score), SpectatingVariant(), WorldStateVariant(entities));
  }

  // ---------------------------------------------------------------------
  // Messages that fit their descriptor
  // ---------------------------------------------------------------------

  /** A leaderboard row whose counters fit uint32 and whose rank fits uint16. */
  predicate RowFits(r: ScoreRow) {
    && InUnsigned(r.aliveTime, TWO_32) && InUnsigned(r.calculatedScore, TWO_32)
    && InUnsigned(r.damageGiven, TWO_32) && InUnsigned(r.damageTaken, TWO_32)
    && InUnsigned(r.enemiesKilled, TWO_32) && InUnsigned(r.eventsParticipatedIn, TWO_32)
    && InUnsigned(r.shotsFired, TWO_32) && InUnsigned(r.userId, TWO_32)
    && InUnsigned(r.rank, TWO_16)
  }

  /** A message every number of which fits its field's width, every list of
      which fits a uint16 count, and whose spread-in parts fit their own
      descriptors. */
  predicate Fits(live: seq<Field>, entities: seq<Variant>, m: Message) {
    match m
    case Pong(p) => InUnsigned(p, TWO_8)
    case Error(_) => true
    case Joined(v, player) => InUnsigned(v, TWO_8) && FieldsConform(live, player)
    case Leaderboard(rows) => |rows| < TWO_16 && forall i :: 0 <= i < |rows| ==> RowFits(rows[i])
    case Spectating(v) => InUnsigned(v, TWO_8)
    case WorldState(es) =>
      |es| < TWO_16 && forall i :: 0 <= i < |es| ==> Conforms(Lookup(EntityTypeTag, entities), es[i])
  }

  /** Records whose every key is a non-tag key matched, in order, by one entry
      of the right shape conform entry by entry. */
  lemma {:induction false} ConformPairwise(fields: seq<Field>, es: seq<Entry>)
    requires |fields| == |es|
    requires forall i :: 0 <= i < |fields| ==> !IsTagKey(fields[i].key)
    requires forall i :: 0 <= i < |fields| ==> es[i].key == fields[i].key
    requires forall i :: 0 <= i < |fields| ==> SpecConforms(fields[i].spec, es[i].value)
    ensures FieldsConform(fields, es)
    decreases |fields|
  {
    if |fields| > 0 {
      ConformPairwise(fields[1..], es[1..]);
    }
  }

  lemma RecordConforms(fields: seq<Field>, es: seq<Entry>)
    requires FieldsConform(fields, es)
    ensures Conforms(Record(fields), VObj(es))
  {
  }

  lemma ConformOne(f: Field, e: Entry)
    requires !IsTagKey(f.key) && e.key == f.key && SpecConforms(f.spec, e.value)
    ensures FieldsConform([f], [e])
  {
    assert [f][1..] == [] && [e][1..] == [];
  }

  lemma ConformSkip(f: Field, fields: seq<Field>, es: seq<Entry>)
    requires IsTagKey(f.key) && FieldsConform(fields, es)
    ensures FieldsConform([f] + fields, es)
  {
    assert ([f] + fields)[1..] == fields;
  }

  lemma ScoreKeysNotTags()
    ensures forall i :: 0 <= i < |ScoreFields| ==> !IsTagKey(ScoreFields[i].key)
  {
  }

  lemma RowKeys(r: ScoreRow)
    ensures |RowValue(r).entries| == |ScoreFields|
    ensures forall i :: 0 <= i < |ScoreFields| ==> RowValue(r).entries[i].key == ScoreFields[i].key
  {
  }

  lemma RowSpecs(r: ScoreRow)
    requires RowFits(r)
    ensures |RowValue(r).entries| == |ScoreFields|
    ensures forall i :: 0 <= i < |ScoreFields| ==> SpecConforms(ScoreFields[i].spec, RowValue(r).entries[i].value)
  {
  }

  lemma RowConforms(r: ScoreRow)
    requires RowFits(r)
    ensures Conforms(Record(ScoreFields), RowValue(r))
  {
    var es := RowValue(r).entries;
    ScoreKeysNotTags();
    RowKeys(r);
    RowSpecs(r);
    ConformPairwise(ScoreFields, es);
    RecordConforms(ScoreFields, es);
  }

  /** In a list with distinct keys, looking a variant up by its own key finds it. */
  lemma {:induction false} FindOwnKey(vs: seq<Variant>, i: nat)
    requires i < |vs| && DistinctVariantKeys(vs)
    ensures FindVariant(vs, vs[i].key) == Some(vs[i])
    decreases i
  {
    if i > 0 {
      assert vs[0].key != vs[i].key;
      assert DistinctVariantKeys(vs[1..]) by {
        forall a, b | 0 <= a < b < |vs[1..]|
          ensures vs[1..][a].key != vs[1..][b].key
        {
          assert vs[1..][a] == vs[a + 1] && vs[1..][b] == vs[b + 1];
        }
      }
      FindOwnKey(vs[1..], i - 1);
    }
  }

  lemma ArrayConforms(w: CountWidth, el: Schema, items: seq<Value>)
    requires |items| < CountLimit(w) && forall i :: 0 <= i < |items| ==> Conforms(el, items[i])
    ensures Conforms(Array(w, el), VArr(items))
  {
  }

  /** A row descriptor every fitting leaderboard row conforms to. */
  ghost predicate ScoreOk(score: seq<Field>) {
    FieldsWellFormed(score) && forall r :: RowFits(r) ==> Conforms(Record(score), RowValue(r))
  }

  lemma ScoreFieldsOk()
    ensures ScoreOk(ScoreFields)
  {
    ScoreFieldsWellFormed();
    forall r | RowFits(r)
      ensures Conforms(Record(ScoreFields), RowValue(r))
    {
      RowConforms(r);
    }
  }

  lemma RowsConform(score: seq<Field>, rows: seq<ScoreRow>)
    requires ScoreOk(score)
    requires |rows| < TWO_16 && forall i :: 0 <= i < |rows| ==> RowFits(rows[i])
    ensures Conforms(Array(CountU16, Record(score)), VArr(RowValues(rows)))
  {
    var el := Record(score);
    var items := RowValues(rows);
    forall i | 0 <= i < |rows|
      ensures Conforms(el, items[i])
    {
      RowConformsIn(score, rows[i]);
    }
    ArrayConforms(CountU16, el, items);
  }

  lemma RowConformsIn(score: seq<Field>, r: ScoreRow)
    requires ScoreOk(score) && RowFits(r)
    ensures Conforms(Record(score), RowValue(r))
  {
  }

  lemma LeaderboardConforms(score: seq<Field>, items: seq<Value>)
    requires Conforms(Array(CountU16, Record(score)), VArr(items))
    ensures FieldsConform(LeaderboardVariant(score).fields, [Entry("scores", VArr(items))])
  {
    var f := Field("scores", Desc(Array(CountU16, Record(score))));
    var e := Entry("scores", VArr(items));
    ConformOne(f, e);
    ConformSkip(TagField(4), [f], [e]);
  }

  lemma WorldStateConforms(entities: seq<Variant>, es: seq<Value>)
    requires |es| < TWO_16 && forall i :: 0 <= i < |es| ==> Conforms(Lookup(EntityTypeTag, entities), es[i])
    ensures FieldsConform(WorldStateVariant(entities).fields, [Entry("entities", VArr(es))])
  {
    var f := Field("entities", Desc(Array(CountU16, Lookup(EntityTypeTag, entities))));
    var e := Entry("entities", VArr(es));
    ArrayConforms(CountU16, Lookup(EntityTypeTag, entities), es);
    ConformOne(f, e);
    ConformSkip(TagField(6), [f], [e]);
  }

  lemma JoinedConforms(live: seq<Field>, v: int, player: seq<Entry>)
    requires LiveOk(live) && InUnsigned(v, TWO_8) && FieldsConform(live, player)
    ensures FieldsConform(JoinedFields(live), [Entry("serverVersion", VInt(v))] + player)
  {
    JoinedShape(live);
    var sv := [Entry("serverVersion", VInt(v))];
    ConformOne(Uint("serverVersion", UInt8), sv[0]);
    ConformSkip(TagField(3), [Uint("serverVersion", UInt8)], sv);
    FieldsConformAppend(JoinedBase, sv, live, player);
    AssignTagConform(JoinedBase + live, Uint("entityType", Str), sv + player);
  }

  /** A union value conforms when its tag names a variant whose record it fits. */
  lemma LookupConforms(on: TagKey, vs: seq<Variant>, v: Variant, rest: seq<Entry>)
    requires FindVariant(vs, v.key) == Some(v) && FieldsConform(v.fields, rest)
    ensures Conforms(Lookup(on, vs), VObj([Entry(TagName(on), VStr(v.key))] + rest))
  {
    var i :| 0 <= i < |vs| && vs[i] == v;
  }

  lemma FindMessage(live: seq<Field>, entities: seq<Variant>, score: seq<Field>, i: nat)
    requires i < 6
    ensures FindVariant(MessageVariants(live, entities, score), MessageVariants(live, entities, score)[i].key)
         == Some(MessageVariants(live, entities, score)[i])
  {
    MessageKeys(live, entities, score);
    FindOwnKey(MessageVariants(live, entities, score), i);
  }

  lemma ErrorFields()
    ensures FieldsConform(ErrorVariant().fields, [Entry("reason", VStr("nameInUse"))])
  {
    var f := Field("reason", Desc(ErrorReasonEnum));
    var e := Entry("reason", VStr("nameInUse"));
    ConformOne(f, e);
    ConformSkip(TagField(2), [f], [e]);
  }

  /** The `type` lookup of ServerToClientSchema. */
  function MessageLookup(live: seq<Field>, entities: seq<Variant>, score: seq<Field>): Schema {
    Lookup(TypeTag, MessageVariants(live, entities, score))
  }

  /** A message of kind `i` whose own keys conform is a value of the lookup. */
  lemma KindConforms(live: seq<Field>, entities: seq<Variant>, score: seq<Field>, i: nat, rest: seq<Entry>)
    requires i < 6 && FieldsConform(MessageVariants(live, entities, score)[i].fields, rest)
    ensures Conforms(MessageLookup(live, entities, score), Tagged(MessageVariants(live, entities, score)[i].key, rest))
  {
    var vs := MessageVariants(live, entities, score);
    FindMessage(live, entities, score, i);
    LookupConforms(TypeTag, vs, vs[i], rest);
  }

  lemma PongConforms(live: seq<Field>, entities: seq<Variant>, score: seq<Field>, p: int)
    requires InUnsigned(p, TWO_8)
    ensures Conforms(MessageLookup(live, entities, score), ToValue(Pong(p)))
  {
    var e := Entry("ping", VInt(p));
    ConformOne(Uint("ping", UInt8), e);
    ConformSkip(TagField(1), [Uint("ping", UInt8)], [e]);
    KindConforms(live, entities, score, 0, [e]);
  }

  lemma ErrorConforms(live: seq<Field>, entities: seq<Variant>, score: seq<Field>, reason: ErrorReason)
    ensures Conforms(MessageLookup(live, entities, score), ToValue(Error(reason)))
  {
    ErrorFields();
    KindConforms(live, entities, score, 1, [Entry("reason", VStr("nameInUse"))]);
  }

  lemma JoinedMessageConforms(live: seq<Field>, entities: seq<Variant>, score: seq<Field>, v: int, player: seq<Entry>)
    requires LiveOk(live) && InUnsigned(v, TWO_8) && FieldsConform(live, player)
    ensures Conforms(MessageLookup(live, entities, score), ToValue(Joined(v, player)))
  {
    JoinedConforms(live, v, player);
    KindConforms(live, entities, score, 2, [Entry("serverVersion", VInt(v))] + player);
  }

  lemma LeaderboardMessageConforms(live: seq<Field>, entities: seq<Variant>, score: seq<Field>, items: seq<Value>)
    requires Conforms(Array(CountU16, Record(score)), VArr(items))
    ensures Conforms(MessageLookup(live, entities, score), Tagged("leaderboard", [Entry("scores", VArr(items))]))
  {
    LeaderboardConforms(score, items);
    KindConforms(live, entities, score, 3, [Entry("scores", VArr(items))]);
  }

  lemma SpectatingConforms(live: seq<Field>, entities: seq<Variant>, score: seq<Field>, v: int)
    requires InUnsigned(v, TWO_8)
    ensures Conforms(MessageLookup(live, entities, score), ToValue(Spectating(v)))
  {
    var e := Entry("serverVersion", VInt(v));
    ConformOne(Uint("serverVersion", UInt8), e);
    ConformSkip(TagField(5), [Uint("serverVersion", UInt8)], [e]);
    KindConforms(live, entities, score, 4, [e]);
  }

  lemma WorldStateMessageConforms(live: seq<Field>, entities: seq<Variant>, score: seq<Field>, es: seq<Value>)
    requires |es| < TWO_16 && forall i :: 0 <= i < |es| ==> Conforms(Lookup(EntityTypeTag, entities), es[i])
    ensures Conforms(MessageLookup(live, entities, score), ToValue(WorldState(es)))
  {
    WorldStateConforms(entities, es);
    KindConforms(live, entities, score, 5, [Entry("entities", VArr(es))]);
  }

  /** Every message that fits is a value of the `type` lookup. */
  lemma MessageConforms(live: seq<Field>, entities: seq<Variant>, score: seq<Field>, m: Message)
    requires LiveOk(live) && ScoreOk(score) && Fits(live, entities, m)
    ensures Conforms(MessageLookup(live, entities, score), ToValue(m))
  {
    match m
    case Pong(p) => PongConforms(live, entities, score, p);
    case Error(reason) => ErrorConforms(live, entities, score, reason);
    case Joined(v, player) => JoinedMessageConforms(live, entities, score, v, player);
    case Leaderboard(rows) =>
      RowsConform(score, rows);
      LeaderboardMessageConforms(live, entities, score, RowValues(rows));
    case Spectating(v) => SpectatingConforms(live, entities, score, v);
    case WorldState(es) => WorldStateMessageConforms(live, entities, score, es);
  }

  // ---------------------------------------------------------------------
  // The typed view
  // ---------------------------------------------------------------------

  lemma OfRowValue(r: ScoreRow)
    ensures OfRow(RowValue(r)) == Some(r)
  {
  }

  lemma {:induction false} OfRowValues(rows: seq<ScoreRow>)
    ensures OfRows(RowValues(rows)) == Some(rows)
    decreases |rows|
  {
    if |rows| > 0 {
      OfRowValue(rows[0]);
      OfRowValues(rows[1..]);
      DropCons(RowValue(rows[0]), RowValues(rows[1..]));
      HeadTail(rows);
    }
  }

  lemma OfErrorValue()
    ensures OfValue(ToValue(Error(NameInUse))) == Some(Error(NameInUse))
  {
    assert "error" != "pong";
    assert ToValue(Error(NameInUse)).entries[1..] == [Entry("reason", VStr("nameInUse"))];
  }

  lemma OfJoinedValue(v: int, player: seq<Entry>)
    ensures OfValue(ToValue(Joined(v, player))) == Some(Joined(v, player))
  {
    assert ([Entry("serverVersion", VInt(v))] + player)[1..] == player;
  }

  lemma OfLeaderboardValue(rows: seq<ScoreRow>)
    ensures OfValue(ToValue(Leaderboard(rows))) == Some(Leaderboard(rows))
  {
    assert "leaderboard" != "joined";
    OfRowValues(rows);
  }

  /** The client's cast reads back every message the server builds. */
  lemma OfToValue(m: Message)
    ensures OfValue(ToValue(m)) == Some(m)
  {
    match m
    case Pong(_) =>
    case Error(r) =>
      assert m == Error(NameInUse);
      OfErrorValue();
    case Joined(v, player) => OfJoinedValue(v, player);
    case Leaderboard(rows) => OfLeaderboardValue(rows);
    case Spectating(_) =>
      assert "spectating" != "joined" && "spectating" != "leaderboard";
    case WorldState(_) =>
      assert "worldState" != "joined" && "worldState" != "leaderboard" && "worldState" != "spectating";
  }

  lemma OfValuesCons(h: Value, t: seq<Value>)
    requires OfValue(h).Some? && OfValues(t).Some?
    ensures OfValues([h] + t) == Some([OfValue(h).value] + OfValues(t).value)
  {
    assert ([h] + t)[1..] == t;
  }

  lemma {:induction false} OfToValues(ms: seq<Message>)
    ensures OfValues(ToValues(ms)) == Some(ms)
    decreases |ms|
  {
    if |ms| > 0 {
      OfToValue(ms[0]);
      OfToValues(ms[1..]);
      OfValuesCons(ToValue(ms[0]), ToValues(ms[1..]));
      HeadTail(ms);
    }
  }

  // ---------------------------------------------------------------------
  // Round trip of a batch
  // ---------------------------------------------------------------------

  lemma BatchConforms(live: seq<Field>, entities: seq<Variant>, score: seq<Field>, ms: seq<Message>)
    requires LiveOk(live) && ScoreOk(score)
    requires |ms| < TWO_16 && forall i :: 0 <= i < |ms| ==> Fits(live, entities, ms[i])
    ensures Conforms(SchemaWith(live, entities, score), VArr(ToValues(ms)))
  {
    var items := ToValues(ms);
    forall i | 0 <= i < |ms|
      ensures Conforms(MessageLookup(live, entities, score), items[i])
    {
      MessageConforms(live, entities, score, ms[i]);
    }
    ArrayConforms(CountU16, MessageLookup(live, entities, score), items);
  }

  lemma RoundTripWith(live: seq<Field>, entities: seq<Variant>, score: seq<Field>, ms: seq<Message>, rest: seq<Token>)
    requires LiveOk(live) && EntitiesOk(entities) && ScoreOk(score)
    requires |ms| < TWO_16 && forall i :: 0 <= i < |ms| ==> Fits(live, entities, ms[i])
    ensures AddSchema(SchemaWith(live, entities, score), VArr(ToValues(ms))).Ok?
    ensures ReadSchema(SchemaWith(live, entities, score), AddSchema(SchemaWith(live, entities, score), VArr(ToValues(ms))).value + rest)
         == Ok((VArr(ToValues(ms)), rest))
  {
    SchemaWellFormed(live, entities, score);
    BatchConforms(live, entities, score, ms);
    RoundTrip(SchemaWith(live, entities, score), VArr(ToValues(ms)), rest);
  }

  /** Every batch of messages whose numbers fit their widths, with at most
      65535 messages, decodes on the client to the batch the server sent,
      whatever follows it in the buffer. */
  lemma DecodeEncode(live: seq<Field>, entities: seq<Variant>, ms: seq<Message>, rest: seq<Token>)
    requires LiveOk(live) && EntitiesOk(entities)
    requires |ms| < TWO_16 && forall i :: 0 <= i < |ms| ==> Fits(live, entities, ms[i])
    ensures Encode(live, entities, ms).Ok?
    ensures Decode(live, entities, Encode(live, entities, ms).value + rest) == Ok(ms)
  {
    ScoreFieldsOk();
    RoundTripWith(live, entities, ScoreFields, ms, rest);
    OfToValues(ms);
  }
}
