/** Round trips of the player codec, what its integer widths do to values out
    of range, and what the four-entry weapon switch does to a player holding
    the fifth weapon. */
module PlayerCodecProofs {
  import opened Wrappers
  import opened Items
  import opened Codec
  import opened PlayerCodec
  import Player

  /** A live model every field of which fits its width. */
  predicate LiveFits(m: LiveModel) {
    0 <= m.base.health < TWO_8 && 0 <= m.lastProcessed < TWO_32 && |m.weapons| < TWO_8 &&
    forall i :: 0 <= i < |m.weapons| ==> 0 <= m.weapons[i].ammo < TWO_16
  }

  /** Every weapon the model names has a code in the table. */
  predicate Coded(table: seq<WeaponCode>, m: LiveModel) {
    CodeOfWeapon(table, m.selected).Some? &&
    forall i :: 0 <= i < |m.weapons| ==> CodeOfWeapon(table, m.weapons[i].weapon).Some?
  }

  /** The switch writes `w` as a byte and reads that byte back as `w`. */
  predicate Invertible(table: seq<WeaponCode>, w: Weapon) {
    CodeOfWeapon(table, w).Some? && 0 <= CodeOfWeapon(table, w).value < TWO_8 &&
    WeaponOfCode(table, CodeOfWeapon(table, w).value) == Some(w)
  }

  /** Every weapon the model names survives the switch. */
  predicate Readable(table: seq<WeaponCode>, m: LiveModel) {
    Invertible(table, m.selected) &&
    forall i :: 0 <= i < |m.weapons| ==> Invertible(table, m.weapons[i].weapon)
  }

  /** readBuffer reads back what addBuffer wrote, whatever follows it. */
  lemma PlayerRoundTrip(m: PlayerModel, rest: seq<Token>)
    requires 0 <= m.health < TWO_8
    ensures ReadBuffer(AddBuffer(m) + rest) == Ok((m, rest))
  {
    var toks := AddBuffer(m) + rest;
    assert toks[1..][1..] == [toks[2]] + rest;
    assert toks[1..][1..][1..] == rest;
  }

  /** Health outside a byte comes back reduced modulo 256: a player hurt below
      zero shows 256 less its deficit. */
  lemma HealthWraps(m: PlayerModel, rest: seq<Token>)
    ensures ReadBuffer(AddBuffer(m) + rest).Ok?
    ensures ReadBuffer(AddBuffer(m) + rest).value.0 == m.(health := m.health % TWO_8)
    ensures m.health == -2 ==> ReadBuffer(AddBuffer(m) + rest).value.0.health == 254
  {
    PlayerRoundTrip(m.(health := m.health % TWO_8), rest);
  }

  lemma {:induction false} CodeRoundTrip(table: seq<WeaponCode>, w: Weapon)
    requires TableOk(table) && CodeOfWeapon(table, w).Some?
    ensures WeaponOfCode(table, CodeOfWeapon(table, w).value) == Some(w)
    decreases |table|
  {
    if table[0].weapon != w {
      assert TableOk(table[1..]);
      CodeRoundTrip(table[1..], w);
      assert WeaponCode(w, CodeOfWeapon(table, w).value) in table[1..];
    }
  }

  /** In a usable table every coded weapon is invertible. */
  lemma TableInvertible(table: seq<WeaponCode>, w: Weapon)
    requires TableOk(table) && CodeOfWeapon(table, w).Some?
    ensures Invertible(table, w)
  {
    CodeRoundTrip(table, w);
    var code := CodeOfWeapon(table, w).value;
    var k :| 0 <= k < |table| && table[k] == WeaponCode(w, code);
  }

  lemma CodedReadable(table: seq<WeaponCode>, m: LiveModel)
    requires TableOk(table) && Coded(table, m)
    ensures Readable(table, m)
  {
    TableInvertible(table, m.selected);
    forall i | 0 <= i < |m.weapons|
      ensures Invertible(table, m.weapons[i].weapon)
    {
      TableInvertible(table, m.weapons[i].weapon);
    }
  }

  lemma WeaponRoundTrip(table: seq<WeaponCode>, w: Weapon, rest: seq<Token>)
    requires Invertible(table, w)
    ensures AddWeapon(table, w).Ok?
    ensures ReadWeapon(table, [AddWeapon(table, w).value] + rest) == Ok((w, rest))
  {
    assert ([AddWeapon(table, w).value] + rest)[1..] == rest;
  }

  /** The layout of a non-empty weapon list. */
  lemma AddWeaponsLayout(table: seq<WeaponCode>, ws: seq<Owned>)
    requires |ws| > 0 && AddWeapons(table, ws).Ok?
    ensures AddWeapons(table, ws).value ==
      [AddWeapon(table, ws[0].weapon).value, TU16(WrapUnsigned(ws[0].ammo, TWO_16))] + AddWeapons(table, ws[1..]).value
  {
  }

  lemma {:induction false} WeaponsRoundTrip(table: seq<WeaponCode>, ws: seq<Owned>, rest: seq<Token>)
    requires forall i :: 0 <= i < |ws| ==> Invertible(table, ws[i].weapon) && 0 <= ws[i].ammo < TWO_16
    ensures AddWeapons(table, ws).Ok?
    ensures ReadWeapons(table, |ws|, AddWeapons(table, ws).value + rest) == Ok((ws, rest))
    decreases |ws|
  {
    if |ws| > 0 {
      WeaponsRoundTrip(table, ws[1..], rest);
      var tail := AddWeapons(table, ws[1..]).value;
      WeaponRoundTrip(table, ws[0].weapon, [TU16(ws[0].ammo)] + tail + rest);
      var w := AddWeapon(table, ws[0].weapon).value;
      var t1 := [TU16(ws[0].ammo)] + tail + rest;
      AddWeaponsLayout(table, ws);
      assert AddWeapons(table, ws).value == [w, TU16(ws[0].ammo)] + tail;
      assert AddWeapons(table, ws).value + rest == [w] + t1;
      assert t1[1..] == tail + rest;
      var toks := [w] + t1;
      assert toks[1..] == t1 && toks[2..] == tail + rest;
      ReadWeaponsCons(table, |ws|, toks, ws[0], ws[1..], rest);
      assert [ws[0]] + ws[1..] == ws;
      assert ReadWeapons(table, |ws|, toks) == Ok((ws, rest));
    } else {
      assert AddWeapons(table, ws).value + rest == rest;
      assert ws == [];
    }
  }

  lemma ReadWeaponsCons(table: seq<WeaponCode>, n: nat, toks: seq<Token>, o: Owned, tail: seq<Owned>, rest: seq<Token>)
    requires n > 0 && |toks| >= 2 && toks[1] == TU16(o.ammo)
    requires ReadWeapon(table, toks) == Ok((o.weapon, toks[1..]))
    requires ReadWeapons(table, n - 1, toks[2..]) == Ok((tail, rest))
    ensures ReadWeapons(table, n, toks) == Ok(([o] + tail, rest))
  {
    assert toks[1..][1..] == toks[2..];
  }

  /** One pass through the live reads, each read given by its result. */
  lemma ReadLiveSteps(table: seq<WeaponCode>, m: LiveModel, t0: seq<Token>, t1: seq<Token>, rest: seq<Token>)
    requires |t0| >= 4 && t0[0] == TF32(m.momentumX) && t0[1] == TF32(m.momentumY) &&
      t0[2] == TBool(m.dead) && t0[3] == TU32(m.lastProcessed)
    requires ReadWeapon(table, t0[4..]) == Ok((m.selected, t1))
    requires |t1| > 0 && t1[0] == TU8(|m.weapons|) && |m.weapons| < TWO_8
    requires ReadWeapons(table, |m.weapons|, t1[1..]) == Ok((m.weapons, rest))
    ensures ReadLive(table, m.base, t0) == Ok((m, rest))
  {
  }

  /** The layout of the live fields, for values that fit their widths. */
  lemma AddLiveLayout(table: seq<WeaponCode>, m: LiveModel, rest: seq<Token>)
    requires AddLive(table, m).Ok?
    requires 0 <= m.lastProcessed < TWO_32 && |m.weapons| < TWO_8
    ensures var t0 := AddLive(table, m).value + rest;
      |t0| >= 4 && t0[0] == TF32(m.momentumX) && t0[1] == TF32(m.momentumY) &&
      t0[2] == TBool(m.dead) && t0[3] == TU32(m.lastProcessed) &&
      t0[4..] == [AddWeapon(table, m.selected).value] + ([TU8(|m.weapons|)] + AddWeapons(table, m.weapons).value + rest)
  {
    var sel := AddWeapon(table, m.selected).value;
    var more := [TU8(|m.weapons|)] + AddWeapons(table, m.weapons).value + rest;
    assert AddLive(table, m).value + rest ==
      [TF32(m.momentumX), TF32(m.momentumY), TBool(m.dead), TU32(m.lastProcessed), sel] + more;
  }

  lemma LiveFieldsRoundTrip(table: seq<WeaponCode>, m: LiveModel, rest: seq<Token>)
    requires Readable(table, m) && LiveFits(m)
    ensures AddLive(table, m).Ok?
    ensures ReadLive(table, m.base, AddLive(table, m).value + rest) == Ok((m, rest))
  {
    WeaponsRoundTrip(table, m.weapons, rest);
    var ws := AddWeapons(table, m.weapons).value;
    var more := [TU8(|m.weapons|)] + ws + rest;
    AddLiveLayout(table, m, rest);
    var t0 := AddLive(table, m).value + rest;
    WeaponRoundTrip(table, m.selected, more);
    assert more[1..] == ws + rest;
    ReadLiveSteps(table, m, t0, more, rest);
  }

  lemma ReadBufferLiveSplit(table: seq<WeaponCode>, toks: seq<Token>, base: PlayerModel, t0: seq<Token>)
    requires ReadBuffer(toks) == Ok((base, t0))
    ensures ReadBufferLive(table, toks) == ReadLive(table, base, t0)
  {
  }

  lemma AddBufferLiveSplit(table: seq<WeaponCode>, m: LiveModel, rest: seq<Token>)
    requires AddLive(table, m).Ok?
    ensures AddBufferLive(table, m).Ok?
    ensures AddBufferLive(table, m).value + rest == AddBuffer(m.base) + (AddLive(table, m).value + rest)
  {
  }

  /** readBufferLive reads back what addBufferLive wrote, for a switch table
      that both directions can use and that codes every weapon the model names. */
  lemma LiveRoundTrip(table: seq<WeaponCode>, m: LiveModel, rest: seq<Token>)
    requires TableOk(table) && Coded(table, m) && LiveFits(m)
    ensures AddBufferLive(table, m).Ok?
    ensures ReadBufferLive(table, AddBufferLive(table, m).value + rest) == Ok((m, rest))
  {
    CodedReadable(table, m);
    LiveFieldsRoundTrip(table, m, rest);
    var t0 := AddLive(table, m).value + rest;
    PlayerRoundTrip(m.base, t0);
    AddBufferLiveSplit(table, m, rest);
    ReadBufferLiveSplit(table, AddBuffer(m.base) + t0, m.base, t0);
  }

  // ---------------------------------------------------------------------
  // The weapon switch
  // ---------------------------------------------------------------------

  /** The switch as written has four codes and no entry for laser1Spray10. */
  lemma SourceTableMissesSpray()
    ensures TableOk(SourceWeaponCodes)
    ensures CodeOfWeapon(SourceWeaponCodes, Laser1Spray10).None?
    ensures forall w :: w != Laser1Spray10 ==> CodeOfWeapon(SourceWeaponCodes, w).Some?
  {
  }

  /** A live player holding or selecting laser1Spray10 cannot be written with
      the switch as written. */
  lemma SprayNotEncodable(m: LiveModel, i: nat)
    requires m.selected == Laser1Spray10 || (i < |m.weapons| && m.weapons[i].weapon == Laser1Spray10)
    ensures AddBufferLive(SourceWeaponCodes, m) == Err(NotEncodable)
  {
    SourceTableMissesSpray();
    if m.selected != Laser1Spray10 {
      SprayInList(m.weapons, i);
    }
  }

  /** The selection does reach laser1Spray10: an input naming it selects it
      (`input.weapon` is taken as is), and the live model of that player
      cannot be written. */
  lemma SpraySelectedByInput(rules: Player.Rules, onServer: bool, p: Player.Player, input: Player.Input, m: LiveModel)
    requires input.weapon == Some(Laser1Spray10) && !input.keys.shoot
    requires m.selected == Player.ApplyInput(rules, onServer, p, input).player.selected
    ensures Player.ApplyInput(rules, onServer, p, input).player.selected == Laser1Spray10
    ensures AddBufferLive(SourceWeaponCodes, m) == Err(NotEncodable)
  {
    SprayNotEncodable(m, 0);
  }

  lemma {:induction false} SprayInList(ws: seq<Owned>, i: nat)
    requires i < |ws| && ws[i].weapon == Laser1Spray10
    ensures AddWeapons(SourceWeaponCodes, ws) == Err(NotEncodable)
    decreases |ws|
  {
    SourceTableMissesSpray();
    if i > 0 && AddWeapon(SourceWeaponCodes, ws[0].weapon).Ok? {
      SprayInList(ws[1..], i - 1);
    }
  }

  /** With a fifth code every weapon is coded and the table stays usable. */
  lemma FullTableCodesAll()
    ensures TableOk(WeaponCodes)
    ensures forall w :: CodeOfWeapon(WeaponCodes, w).Some?
  {
  }

  /** The live round trip with the five-code switch: every in-range live model
      comes back, whatever weapons it holds. */
  lemma LiveRoundTripAll(m: LiveModel, rest: seq<Token>)
    requires LiveFits(m)
    ensures AddBufferLive(WeaponCodes, m).Ok?
    ensures ReadBufferLive(WeaponCodes, AddBufferLive(WeaponCodes, m).value + rest) == Ok((m, rest))
  {
    FullTableCodesAll();
    LiveRoundTrip(WeaponCodes, m, rest);
  }
}
