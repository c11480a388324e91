/** The hand-written codec of playerEntity.ts: addBuffer/readBuffer for the
    player model and addBufferLive/readBufferLive for the live model a client
    receives about its own player, over the same token buffer as the schema
    codec. The fields of the base entity (Entity.addBuffer, entity.ts) are not
    part of this model: the tokens here are the ones that follow them.

    The weapon switch is a table parameter. `SourceWeaponCodes` is the table
    the source writes (four codes); `WeaponCodes` adds the missing fifth
    weapon and is the one the round trip is stated for. A key the builder's
    switch has no code for is an encoding error here; the builder itself is
    not part of this model. */
module PlayerCodec {
  import opened Wrappers
  import opened Items
  import opened Codec
  import Player

  /** PlayerModel, without the base entity fields. */
  datatype PlayerModel = PlayerModel(health: int, color: Player.Color, keys: Player.Keys)

  /** LivePlayerModel, without the base entity fields. */
  datatype LiveModel = LiveModel(
    base: PlayerModel,
    momentumX: Float, momentumY: Float,
    dead: bool,
    lastProcessed: int,
    selected: Weapon,
    weapons: seq<Owned>)

  datatype WeaponCode = WeaponCode(weapon: Weapon, code: int)

  /** The switch of addBufferWeapon and readBufferWeapon, as written. */
  const SourceWeaponCodes: seq<WeaponCode> :=
    [WeaponCode(Laser1, 1), WeaponCode(Laser2, 2), WeaponCode(Rocket, 3), WeaponCode(Torpedo, 4)]

  /** The switch with a code for every weapon. */
  const WeaponCodes: seq<WeaponCode> := SourceWeaponCodes + [WeaponCode(Laser1Spray10, 5)]

  function CodeOfWeapon(table: seq<WeaponCode>, w: Weapon): (r: Option<int>)
    ensures r.Some? ==> WeaponCode(w, r.value) in table
    ensures r.None? ==> forall e :: e in table ==> e.weapon != w
  {
    if |table| == 0 then None
    else if table[0].weapon == w then Some(table[0].code)
    else CodeOfWeapon(table[1..], w)
  }

  function WeaponOfCode(table: seq<WeaponCode>, code: int): (r: Option<Weapon>)
    ensures r.Some? ==> WeaponCode(r.value, code) in table
    ensures r.None? ==> forall e :: e in table ==> e.code != code
  {
    if |table| == 0 then None
    else if table[0].code == code then Some(table[0].weapon)
    else WeaponOfCode(table[1..], code)
  }

  /** A switch table both directions can use: one byte per code, no weapon
      listed twice and no code used twice. */
  predicate TableOk(table: seq<WeaponCode>) {
    (forall i :: 0 <= i < |table| ==> 0 <= table[i].code < TWO_8) &&
    (forall i, j :: 0 <= i < j < |table| ==> table[i].weapon != table[j].weapon && table[i].code != table[j].code)
  }

  function ColorCode(c: Player.Color): int {
    match c
    case Blue => 1
    case Green => 2
    case Orange => 3
    case Red => 4
  }

  function ColorOfCode(code: int): (r: Option<Player.Color>)
    ensures r.Some? ==> ColorCode(r.value) == code
  {
    if code == 1 then Some(Player.Blue)
    else if code == 2 then Some(Player.Green)
    else if code == 3 then Some(Player.Orange)
    else if code == 4 then Some(Player.Red)
    else None
  }

  // ---------------------------------------------------------------------
  // addBuffer / readBuffer
  // ---------------------------------------------------------------------

  /** addBuffer: health as uint8, the colour code, the five input bits. */
  function AddBuffer(m: PlayerModel): (r: seq<Token>)
    ensures |r| == 3 && r[2].TBits? && |r[2].bits| == 5
  {
    [TU8(WrapUnsigned(m.health, TWO_8)), TU8(ColorCode(m.color)),
     TBits([m.keys.up, m.keys.down, m.keys.left, m.keys.right, m.keys.shoot])]
  }

  /** readBuffer: the same three reads; the first five bits are the keys in
      the order up, down, left, right, shoot. */
  function ReadBuffer(toks: seq<Token>): (r: Result<(PlayerModel, seq<Token>), CodecError>)
    ensures r.Ok? ==> |toks| >= 3 && r.value.1 == toks[3..]
    ensures r.Ok? ==> 0 <= r.value.0.health < TWO_8
  {
    var (health, t1) :- ReadU8(toks);
    var (code, t2) :- ReadU8(t1);
    var color :- if ColorOfCode(code).Some? then Ok(ColorOfCode(code).value) else Err(Malformed);
    if |t2| == 0 || !t2[0].TBits? || |t2[0].bits| < 5 || !(0 <= health < TWO_8) then Err(Malformed)
    else
      var b := t2[0].bits;
      Ok((PlayerModel(health, color, Player.Keys(b[0], b[1], b[2], b[3], b[4])), t2[1..]))
  }

  // ---------------------------------------------------------------------
  // addBufferLive / readBufferLive
  // ---------------------------------------------------------------------

  function AddWeapon(table: seq<WeaponCode>, w: Weapon): (r: Result<Token, CodecError>)
    ensures r.Ok? <==> CodeOfWeapon(table, w).Some?
  {
    match CodeOfWeapon(table, w)
    case Some(code) => Ok(TU8(WrapUnsigned(code, TWO_8)))
    case None => Err(NotEncodable)
  }

  function ReadWeapon(table: seq<WeaponCode>, toks: seq<Token>): (r: Result<(Weapon, seq<Token>), CodecError>)
    ensures r.Ok? ==> |toks| > 0 && r.value.1 == toks[1..]
  {
    var (code, rest) :- ReadU8(toks);
    match WeaponOfCode(table, code)
    case Some(w) => Ok((w, rest))
    case None => Err(Malformed)
  }

  /** The loop of addBufferLive over the weapon list: weapon code, then ammo as uint16. */
  function AddWeapons(table: seq<WeaponCode>, ws: seq<Owned>): (r: Result<seq<Token>, CodecError>)
    ensures r.Ok? ==> |r.value| == 2 * |ws|
  {
    if |ws| == 0 then Ok([])
    else
      var w :- AddWeapon(table, ws[0].weapon);
      var tail :- AddWeapons(table, ws[1..]);
      Ok([w, TU16(WrapUnsigned(ws[0].ammo, TWO_16))] + tail)
  }

  function ReadWeapons(table: seq<WeaponCode>, n: nat, toks: seq<Token>): (r: Result<(seq<Owned>, seq<Token>), CodecError>)
    ensures r.Ok? ==> |r.value.0| == n
  {
    if n == 0 then Ok(([], toks))
    else
      var (w, t1) :- ReadWeapon(table, toks);
      if |t1| == 0 || !t1[0].TU16? then Err(Malformed)
      else
        var (tail, t2) :- ReadWeapons(table, n - 1, t1[1..]);
        Ok(([Owned(w, t1[0].n)] + tail, t2))
  }

  /** addBufferLive: the player model, then the live fields. */
  function AddBufferLive(table: seq<WeaponCode>, m: LiveModel): (r: Result<seq<Token>, CodecError>)
    ensures r.Ok? <==> CodeOfWeapon(table, m.selected).Some? && AddWeapons(table, m.weapons).Ok?
  {
    var live :- AddLive(table, m);
    Ok(AddBuffer(m.base) + live)
  }

  /** The live fields: both momenta as float32, dead, the last processed
      sequence number as uint32, the selected weapon, and the uint8-counted
      weapon list. */
  function AddLive(table: seq<WeaponCode>, m: LiveModel): (r: Result<seq<Token>, CodecError>)
    ensures r.Ok? <==> CodeOfWeapon(table, m.selected).Some? && AddWeapons(table, m.weapons).Ok?
  {
    var selected :- AddWeapon(table, m.selected);
    var weapons :- AddWeapons(table, m.weapons);
    Ok([TF32(m.momentumX), TF32(m.momentumY), TBool(m.dead), TU32(WrapUnsigned(m.lastProcessed, TWO_32)),
        selected, TU8(WrapUnsigned(|m.weapons|, TWO_8))] + weapons)
  }

  function ReadBufferLive(table: seq<WeaponCode>, toks: seq<Token>): (r: Result<(LiveModel, seq<Token>), CodecError>)
    ensures r.Ok? ==> |r.value.0.weapons| < TWO_8
  {
    var (base, t0) :- ReadBuffer(toks);
    ReadLive(table, base, t0)
  }

  /** The reads of readBufferLive after the player model, in the order written. */
  function ReadLive(table: seq<WeaponCode>, base: PlayerModel, t0: seq<Token>): (r: Result<(LiveModel, seq<Token>), CodecError>)
    ensures r.Ok? ==> |r.value.0.weapons| < TWO_8 && r.value.0.base == base
  {
    if |t0| < 4 || !t0[0].TF32? || !t0[1].TF32? || !t0[2].TBool? || !t0[3].TU32? then Err(Malformed)
    else
      var (selected, t1) :- ReadWeapon(table, t0[4..]);
      var (count, t2) :- ReadU8(t1);
      if !(0 <= count < TWO_8) then Err(Malformed)
      else
        var (weapons, t3) :- ReadWeapons(table, count, t2);
        Ok((LiveModel(base, t0[0].f, t0[1].f, t0[2].b, t0[3].n, selected, weapons), t3))
  }
}
