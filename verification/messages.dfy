/** The server-to-client message union of serverToClientMessages.ts and its
    descriptor, `ServerToClientSchema`.

    The source writes this descriptor in an older dialect (`arraySize`,
    `typeLookup: true`, `enum: true`, variants inline). It is read here as
    the node kinds of the codec: `arraySize: 'uint16'` with
    `typeLookup: true` is a uint16-counted array of a type-tagged union,
    `entityTypeLookup: true` the same keyed on `entityType`, `arraySize` over
    plain keys an array of records, and `{enum: true, ...}` an enum without
    its marker. The player and entity descriptors it spreads in are not part
    of this model and are parameters. */
module Messages {
  import opened Wrappers
  import opened Codec
  import opened CodecProofs
  import GameConstants

  // ---------------------------------------------------------------------
  // The typed union
  // ---------------------------------------------------------------------

  datatype ErrorReason = NameInUse

  /** One leaderboard row (LeaderboardEntryRanked). */
  datatype ScoreRow = ScoreRow(
    aliveTime: int, calculatedScore: int, damageGiven: int, damageTaken: int,
    enemiesKilled: int, eventsParticipatedIn: int, shotsFired: int, userId: int,
    username: string, rank: int)

  /** ServerToClientMessage. `P` is the live player model a `joined` message
      spreads in; `E` is one serialized entity. */
  datatype ServerToClientMessage<P, E> =
    | Joined(serverVersion: int, player: P)
    | Spectating(serverVersion: int)
    | Pong(ping: int)
    | Error(reason: ErrorReason)
    | WorldState(entities: seq<E>)
    | Leaderboard(scores: seq<ScoreRow>)

  // ---------------------------------------------------------------------
  // Object literals with spreads
  // ---------------------------------------------------------------------

  /** Defining one property on an object literal: a key already present keeps
      its place and takes the new value, a new key goes last. */
  function Assign(fields: seq<Field>, f: Field): (r: seq<Field>)
    ensures |r| == |fields| || r == fields + [f]
    ensures f in r
  {
    if |fields| == 0 then [f]
    else if fields[0].key == f.key then [f] + fields[1..]
    else [fields[0]] + Assign(fields[1..], f)
  }

  /** Defining several properties in order, as a spread does. */
  function AssignAll(fields: seq<Field>, more: seq<Field>): seq<Field>
    decreases |more|
  {
    if |more| == 0 then fields else AssignAll(Assign(fields, more[0]), more[1..])
  }

  predicate HasKey(fields: seq<Field>, key: string) {
    exists i :: 0 <= i < |fields| && fields[i].key == key
  }

  // ---------------------------------------------------------------------
  // The descriptor
  // ---------------------------------------------------------------------

  function TagField(n: int): Field { Field("type", Literal(n)) }
  function Uint(key: string, k: ScalarKind): Field { Field(key, Desc(Scalar(k))) }

  const ErrorReasonEnum: Schema := Enum([Code("nameInUse", 1)])

  const ScoreFields: seq<Field> := [
    Uint("aliveTime", UInt32), Uint("calculatedScore", UInt32), Uint("damageGiven", UInt32),
    Uint("damageTaken", UInt32), Uint("enemiesKilled", UInt32), Uint("eventsParticipatedIn", UInt32),
    Uint("shotsFired", UInt32), Uint("userId", UInt32), Uint("username", Str), Uint("rank", UInt16)]

  function PongVariant(): Variant { Variant("pong", [TagField(1), Uint("ping", UInt8)]) }
  function ErrorVariant(): Variant { Variant("error", [TagField(2), Field("reason", Desc(ErrorReasonEnum))]) }

  /** `{type: 3, serverVersion: 'uint8', ...live, entityType: 'string'}`. */
  function JoinedFields(live: seq<Field>): seq<Field> {
    Assign(AssignAll([TagField(3), Uint("serverVersion", UInt8)], live), Uint("entityType", Str))
  }
  function JoinedVariant(live: seq<Field>): Variant { Variant("joined", JoinedFields(live)) }

  /** The leaderboard variant over a row descriptor (`ScoreFields` in the program). */
  function LeaderboardVariant(score: seq<Field>): Variant {
    Variant("leaderboard", [TagField(4), Field("scores", Desc(Array(CountU16, Record(score))))])
  }
  function SpectatingVariant(): Variant { Variant("spectating", [TagField(5), Uint("serverVersion", UInt8)]) }
  function WorldStateVariant(entities: seq<Variant>): Variant {
    Variant("worldState", [TagField(6), Field("entities", Desc(Array(CountU16, Lookup(EntityTypeTag, entities))))])
  }

  function MessageVariants(live: seq<Field>, entities: seq<Variant>, score: seq<Field>): seq<Variant> {
    [PongVariant(), ErrorVariant(), JoinedVariant(live), LeaderboardVariant(score), SpectatingVariant(),
     WorldStateVariant(entities)]
  }

  /** ServerToClientSchema: a uint16-counted list of messages, each tagged by `type`. */
  function ServerToClientSchema(live: seq<Field>, entities: seq<Variant>): Schema {
    SchemaWith(live, entities, ScoreFields)
  }

  /** The same descriptor with the leaderboard row descriptor left open. */
  function SchemaWith(live: seq<Field>, entities: seq<Variant>, score: seq<Field>): Schema {
    Array(CountU16, Lookup(TypeTag, MessageVariants(live, entities, score)))
  }

  // ---------------------------------------------------------------------
  // Messages as codec values
  // ---------------------------------------------------------------------

  type Message = ServerToClientMessage<seq<Entry>, Value>

  function Tagged(key: string, rest: seq<Entry>): Value {
    VObj([Entry("type", VStr(key))] + rest)
  }

  function RowValue(r: ScoreRow): Value {
    VObj([Entry("aliveTime", VInt(r.aliveTime)), Entry("calculatedScore", VInt(r.calculatedScore)),
          Entry("damageGiven", VInt(r.damageGiven)), Entry("damageTaken", VInt(r.damageTaken)),
          Entry("enemiesKilled", VInt(r.enemiesKilled)), Entry("eventsParticipatedIn", VInt(r.eventsParticipatedIn)),
          Entry("shotsFired", VInt(r.shotsFired)), Entry("userId", VInt(r.userId)),
          Entry("username", VStr(r.username)), Entry("rank", VInt(r.rank))])
  }

  function RowValues(rows: seq<ScoreRow>): (r: seq<Value>)
    ensures |r| == |rows| && forall i :: 0 <= i < |rows| ==> r[i] == RowValue(rows[i])
  {
    if |rows| == 0 then [] else [RowValue(rows[0])] + RowValues(rows[1..])
  }

  /** The object a message is before it reaches the encoder. */
  function ToValue(m: Message): Value {
    match m
    case Pong(p) => Tagged("pong", [Entry("ping", VInt(p))])
    case Error(_) => Tagged("error", [Entry("reason", VStr("nameInUse"))])
    case Joined(v, player) => Tagged("joined", [Entry("serverVersion", VInt(v))] + player)
    case Leaderboard(rows) => Tagged("leaderboard", [Entry("scores", VArr(RowValues(rows)))])
    case Spectating(v) => Tagged("spectating", [Entry("serverVersion", VInt(v))])
    case WorldState(es) => Tagged("worldState", [Entry("entities", VArr(es))])
  }

  function ToValues(ms: seq<Message>): (r: seq<Value>)
    ensures |r| == |ms| && forall i :: 0 <= i < |ms| ==> r[i] == ToValue(ms[i])
  {
    if |ms| == 0 then [] else [ToValue(ms[0])] + ToValues(ms[1..])
  }

  function IntAt(es: seq<Entry>, i: int, key: string): Option<int> {
    if 0 <= i < |es| && es[i].key == key && es[i].value.VInt? then Some(es[i].value.i) else None
  }

  function OfRow(v: Value): Option<ScoreRow> {
    if !v.VObj? || |v.entries| != 10 then None
    else
      var es := v.entries;
      var a := IntAt(es, 0, "aliveTime");
      var c := IntAt(es, 1, "calculatedScore");
      var dg := IntAt(es, 2, "damageGiven");
      var dt := IntAt(es, 3, "damageTaken");
      var ek := IntAt(es, 4, "enemiesKilled");
      var ep := IntAt(es, 5, "eventsParticipatedIn");
      var sf := IntAt(es, 6, "shotsFired");
      var u := IntAt(es, 7, "userId");
      var rk := IntAt(es, 9, "rank");
      if a.Some? && c.Some? && dg.Some? && dt.Some? && ek.Some? && ep.Some? && sf.Some? && u.Some? && rk.Some?
         && es[8].key == "username" && es[8].value.VStr?
      then Some(ScoreRow(a.value, c.value, dg.value, dt.value, ek.value, ep.value, sf.value, u.value,
                         es[8].value.s, rk.value))
      else None
  }

  function OfRows(vs: seq<Value>): (r: Option<seq<ScoreRow>>)
    ensures r.Some? ==> |r.value| == |vs|
  {
    if |vs| == 0 then Some([])
    else
      var h := OfRow(vs[0]);
      var t := OfRows(vs[1..]);
      if h.Some? && t.Some? then Some([h.value] + t.value) else None
  }

  /** Reading a decoded object back as a message (the client's cast). */
  function OfValue(v: Value): Option<Message> {
    if !v.VObj? || |v.entries| < 2 || v.entries[0].key != "type" || !v.entries[0].value.VStr? then None
    else
      var k := v.entries[0].value.s;
      var es := v.entries[1..];
      if k == "pong" && |es| == 1 && IntAt(es, 0, "ping").Some? then Some(Pong(es[0].value.i))
      else if k == "error" && es == [Entry("reason", VStr("nameInUse"))] then Some(Error(NameInUse))
      else if k == "joined" && IntAt(es, 0, "serverVersion").Some? then Some(Joined(es[0].value.i, es[1..]))
      else if k == "leaderboard" && |es| == 1 && es[0].key == "scores" && es[0].value.VArr? then
        var rows := OfRows(es[0].value.items);
        if rows.Some? then Some(Leaderboard(rows.value)) else None
      else if k == "spectating" && |es| == 1 && IntAt(es, 0, "serverVersion").Some? then Some(Spectating(es[0].value.i))
      else if k == "worldState" && |es| == 1 && es[0].key == "entities" && es[0].value.VArr? then
        Some(WorldState(es[0].value.items))
      else None
  }

  function OfValues(vs: seq<Value>): (r: Option<seq<Message>>)
    ensures r.Some? ==> |r.value| == |vs|
  {
    if |vs| == 0 then Some([])
    else
      var h := OfValue(vs[0]);
      var t := OfValues(vs[1..]);
      if h.Some? && t.Some? then Some([h.value] + t.value) else None
  }

  /** serverSocket's encoding of one batch of messages. */
  function Encode(live: seq<Field>, entities: seq<Variant>, ms: seq<Message>): Result<seq<Token>, CodecError> {
    AddSchema(ServerToClientSchema(live, entities), VArr(ToValues(ms)))
  }

  /** The client's decoding of one batch. */
  function Decode(live: seq<Field>, entities: seq<Variant>, toks: seq<Token>): Result<seq<Message>, CodecError> {
    var (v, _) :- ReadSchema(ServerToClientSchema(live, entities), toks);
    if v.VArr? && OfValues(v.items).Some? then Ok(OfValues(v.items).value) else Err(Malformed)
  }
}
