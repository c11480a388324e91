/** Properties of the player rules: what a drop gives, what a shot costs,
    the invariants the rules keep, and what the postTick ammo clock does to
    the weapon list, including the entry its splice skips. */
module PlayerProofs {
  import opened Wrappers
  import opened Items
  import opened Player
  import GameConstants

  // ---------------------------------------------------------------------
  // Stock: no weapon holds more than its maximum
  // ---------------------------------------------------------------------

  predicate Capped(rules: Rules, o: Owned) {
    o.ammo <= rules.weaponConfig(o.weapon).maxAmmo
  }

  predicate Stocked(rules: Rules, ws: seq<Owned>) {
    forall j :: 0 <= j < |ws| ==> Capped(rules, ws[j])
  }

  lemma {:induction false} WithoutStocked(rules: Rules, ws: seq<Owned>, w: Weapon)
    requires Stocked(rules, ws)
    ensures Stocked(rules, Without(ws, w))
    decreases |ws|
  {
    if |ws| > 0 {
      WithoutStocked(rules, ws[1..], w);
    }
  }

  /** A drop never lifts a weapon above its maximum ammo. */
  lemma AddDropStocked(rules: Rules, p: Player, drop: DropType, shield: Option<Shield>)
    requires Stocked(rules, p.weapons)
    ensures AddDrop(rules, p, drop, shield).Ok? ==> Stocked(rules, AddDrop(rules, p, drop, shield).value.player.weapons)
  {
    if drop.WeaponDrop? && FindOwned(p.weapons, drop.weapon).None? && drop.weapon == Laser2 {
      WithoutStocked(rules, p.weapons, Laser1);
    }
  }

  /** Firing only spends ammo: the stock bound survives applyInput. */
  lemma ApplyInputStocked(rules: Rules, onServer: bool, p: Player, input: Input)
    requires Stocked(rules, p.weapons)
    ensures Stocked(rules, ApplyInput(rules, onServer, p, input).player.weapons)
  {
    var chosen := Begin(p, input);
    if input.keys.shoot && CanFire(rules, onServer, chosen) {
      var i := FindOwned(chosen.weapons, chosen.selected).value;
      var config := rules.weaponConfig(chosen.selected);
      SpendStocked(rules, config, Fired(config, chosen), i);
    }
  }

  lemma SpendStocked(rules: Rules, config: WeaponConfig, p: Player, i: nat)
    requires i < |p.weapons| && Stocked(rules, p.weapons)
    ensures Stocked(rules, Spend(config, p, i).weapons)
  {
    var ws := p.weapons;
    if config.ammoType == PerShot && ws[i].ammo <= 1 {
      var rest := ws[..i] + ws[i + 1..];
      assert forall j :: 0 <= j < |rest| ==> rest[j] == (if j < i then ws[j] else ws[j + 1]);
    }
  }

  // ---------------------------------------------------------------------
  // Drops
  // ---------------------------------------------------------------------

  /** A health drop adds its amount, but never past the starting health. */
  lemma HealthDropCapped(rules: Rules, p: Player, amount: int, shield: Option<Shield>)
    requires p.health <= rules.startingHealth && amount >= 0
    ensures AddDrop(rules, p, HealthDrop(amount), shield).Ok?
    ensures var q := AddDrop(rules, p, HealthDrop(amount), shield).value.player;
      p.health <= q.health <= rules.startingHealth &&
      (q.health == p.health + amount || q.health == rules.startingHealth)
  {
  }

  /** A weapon already owned gains the drop's ammo up to the weapon's maximum,
      in its first entry, and nothing else changes. */
  lemma OwnedWeaponRefills(rules: Rules, p: Player, ammo: int, w: Weapon, shield: Option<Shield>)
    requires FindOwned(p.weapons, w).Some?
    ensures AddDrop(rules, p, WeaponDrop(ammo, w), shield).Ok?
    ensures var i := FindOwned(p.weapons, w).value;
      var q := AddDrop(rules, p, WeaponDrop(ammo, w), shield).value.player;
      |q.weapons| == |p.weapons| && q.selected == p.selected &&
      q.weapons[i].weapon == w &&
      q.weapons[i].ammo <= rules.weaponConfig(w).maxAmmo &&
      (p.weapons[i].ammo + ammo <= rules.weaponConfig(w).maxAmmo ==> q.weapons[i].ammo == p.weapons[i].ammo + ammo) &&
      forall j :: 0 <= j < |p.weapons| && j != i ==> q.weapons[j] == p.weapons[j]
  {
  }

  /** Picking up laser1 without owning it changes nothing. */
  lemma Laser1DropIgnored(rules: Rules, p: Player, ammo: int, shield: Option<Shield>)
    requires FindOwned(p.weapons, Laser1).None?
    ensures AddDrop(rules, p, WeaponDrop(ammo, Laser1), shield) == Ok(Pickup(p, shield))
  {
  }

  /** A first laser2 goes to the front, every laser1 entry goes, and a laser1
      selection becomes laser2; the other entries keep their order. */
  lemma Laser2ReplacesLaser1(rules: Rules, p: Player, ammo: int, shield: Option<Shield>)
    requires FindOwned(p.weapons, Laser2).None?
    ensures AddDrop(rules, p, WeaponDrop(ammo, Laser2), shield).Ok?
    ensures var q := AddDrop(rules, p, WeaponDrop(ammo, Laser2), shield).value.player;
      |q.weapons| > 0 && q.weapons[0].weapon == Laser2 &&
      q.weapons[1..] == Without(p.weapons, Laser1) &&
      FindOwned(q.weapons, Laser1).None? &&
      q.selected == (if p.selected == Laser1 then Laser2 else p.selected)
  {
    var q := AddDrop(rules, p, WeaponDrop(ammo, Laser2), shield).value.player;
    assert q.weapons[1..] == Without(p.weapons, Laser1);
  }

  /** A laser1Spray10 drop the player does not hold reaches the switch's
      `unreachable` and throws. */
  lemma SprayDropThrows(rules: Rules, p: Player, ammo: int, shield: Option<Shield>)
    requires FindOwned(p.weapons, Laser1Spray10).None?
    ensures AddDrop(rules, p, WeaponDrop(ammo, Laser1Spray10), shield) == Err(Unreachable(Laser1Spray10))
  {
  }

  /** A shield drop never weakens the shield: the shield ends at least as
      strong as it was and as the drop, with the full health of its strength. */
  lemma ShieldNeverWeaker(rules: Rules, p: Player, level: ShieldLevel, s: Shield)
    requires level != Small
    ensures AddDrop(rules, p, ShieldDrop(level), Some(s)).Ok?
    ensures var t := AddDrop(rules, p, ShieldDrop(level), Some(s)).value.shield;
      t.Some? &&
      Level(t.value.strength) >= Level(s.strength) && Level(t.value.strength) >= Level(level) &&
      t.value.health == rules.shieldMaxHealth(t.value.strength)
  {
  }

  // ---------------------------------------------------------------------
  // Shooting
  // ---------------------------------------------------------------------

  /** A per-shot weapon pays one round for a shot; an entry that runs dry is
      removed and the selection passes to the entry after it. */
  lemma ShotCostsOneRound(rules: Rules, p: Player)
    requires CanFire(rules, true, p) && rules.weaponConfig(p.selected).ammoType == PerShot
    ensures var i := FindOwned(p.weapons, p.selected).value;
      var q := Shoot(rules, true, p).player;
      if p.weapons[i].ammo > 1 then
        q.weapons == p.weapons[i := Owned(p.selected, p.weapons[i].ammo - 1)]
      else
        q.weapons == p.weapons[..i] + p.weapons[i + 1..] &&
        q.selected == p.weapons[(i + 1) % |p.weapons|].weapon
  {
  }

  /** No shot while the timer runs or off the server. */
  lemma NoShotWhileCooling(rules: Rules, onServer: bool, p: Player, input: Input)
    requires !onServer || p.shootTimer > 0
    ensures ApplyInput(rules, onServer, p, input).effects == []
  {
  }

  // ---------------------------------------------------------------------
  // The ammo clock of postTick
  // ---------------------------------------------------------------------

  /** One entry after one tick of its clock. */
  function Tick(rules: Rules, o: Owned): Owned {
    if Ticking(rules, o) then o.(ammo := o.ammo - GameConstants.ServerTickRate) else o
  }

  /** The heap after the loop has passed the first `k` entries without an expiry. */
  function Ticked(rules: Rules, ws: seq<Owned>, k: nat): (r: seq<Owned>)
    ensures |r| == |ws|
  {
    seq(|ws|, j requires 0 <= j < |ws| => if j < k then Tick(rules, ws[j]) else ws[j])
  }

  /** No timed weapon runs out this tick. */
  predicate Calm(rules: Rules, ws: seq<Owned>) {
    forall j :: 0 <= j < |ws| ==> Ticking(rules, ws[j]) ==> ws[j].ammo > GameConstants.ServerTickRate
  }

  lemma CalmStep(rules: Rules, ws: seq<Owned>, selected: Weapon, k: nat)
    requires k < |ws| && Calm(rules, ws)
    ensures Step(rules, Walk(Ticked(rules, ws, k), Range(|ws|), Range(|ws|), true, selected), k)
         == Walk(Ticked(rules, ws, k + 1), Range(|ws|), Range(|ws|), true, selected)
  {
    var heap := Ticked(rules, ws, k);
    assert heap[k] == ws[k];
    if Ticking(rules, ws[k]) {
      assert heap[k := Tick(rules, ws[k])] == Ticked(rules, ws, k + 1);
    } else {
      assert heap == Ticked(rules, ws, k + 1);
    }
  }

  lemma {:induction false} CalmFrom(rules: Rules, ws: seq<Owned>, selected: Weapon, k: nat)
    requires k <= |ws| && Calm(rules, ws)
    ensures WalkFrom(rules, Walk(Ticked(rules, ws, k), Range(|ws|), Range(|ws|), true, selected), k)
         == Walk(Ticked(rules, ws, |ws|), Range(|ws|), Range(|ws|), true, selected)
    decreases |ws| - k
  {
    if k < |ws| {
      CalmStep(rules, ws, selected, k);
      CalmFrom(rules, ws, selected, k + 1);
    }
  }

  lemma {:induction false} DerefRange(heap: seq<Owned>, n: nat)
    requires n <= |heap|
    ensures Deref(heap, Range(n)) == heap[..n]
  {
  }

  /** When no timed weapon runs out, postTick takes a tick's worth of ammo from
      every timed weapon and leaves the list's order and the selection alone. */
  lemma PostTickCalm(rules: Rules, p: Player)
    requires Calm(rules, p.weapons)
    ensures var q := PostTick(rules, p).player;
      q.selected == p.selected && |q.weapons| == |p.weapons| &&
      forall j :: 0 <= j < |p.weapons| ==> q.weapons[j] == Tick(rules, p.weapons[j])
  {
    var ws := p.weapons;
    assert Ticked(rules, ws, 0) == ws;
    CalmFrom(rules, ws, p.selected, 0);
    DerefRange(Ticked(rules, ws, |ws|), |ws|);
  }

  lemma IdleStep(rules: Rules, w: Walk, k: nat)
    requires WalkOk(w) && k < |w.walked| && !Ticking(rules, w.heap[w.walked[k]])
    ensures Step(rules, w, k) == w
  {
  }

  /** Steps over entries whose weapons have no clock change nothing. */
  lemma {:induction false} IdleFrom(rules: Rules, w: Walk, k: nat)
    requires WalkOk(w) && k <= |w.walked|
    requires forall j :: k <= j < |w.walked| ==> !Ticking(rules, w.heap[w.walked[j]])
    ensures WalkFrom(rules, w, k) == w
    decreases |w.walked| - k
  {
    if k < |w.walked| {
      IdleStep(rules, w, k);
      IdleFrom(rules, w, k + 1);
    }
  }

  lemma {:induction false} IdleUntil(rules: Rules, w: Walk, k: nat, stop: nat)
    requires WalkOk(w) && k <= stop < |w.walked|
    requires forall j :: k <= j < stop ==> !Ticking(rules, w.heap[w.walked[j]])
    ensures WalkFrom(rules, w, k) == WalkFrom(rules, w, stop)
    decreases stop - k
  {
    if k < stop {
      IdleStep(rules, w, k);
      IdleUntil(rules, w, k + 1, stop);
    }
  }

  lemma {:induction false} DropLaser2Deref(heap: seq<Owned>, ids: seq<nat>)
    requires forall j :: 0 <= j < |ids| ==> ids[j] < |heap|
    ensures Deref(heap, DropLaser2(heap, ids)) == Without(Deref(heap, ids), Laser2)
    decreases |ids|
  {
    if |ids| > 0 {
      DropLaser2Deref(heap, ids[1..]);
      assert Deref(heap, ids)[1..] == Deref(heap, ids[1..]);
    }
  }

  lemma {:induction false} WithoutSame(ws: seq<Owned>, i: nat, o: Owned)
    requires i < |ws| && ws[i].weapon == o.weapon
    ensures Without(ws[i := o], o.weapon) == Without(ws, o.weapon)
    decreases |ws|
  {
    if i > 0 {
      WithoutSame(ws[1..], i - 1, o);
      assert ws[i := o][1..] == ws[1..][i - 1 := o];
    } else {
      assert ws[i := o][1..] == ws[1..];
    }
  }

  /** The heap once the clock of entry `i` has run. */
  function Clocked(ws: seq<Owned>, i: nat): (r: seq<Owned>)
    requires i < |ws|
    ensures |r| == |ws|
  {
    ws[i := ws[i].(ammo := ws[i].ammo - GameConstants.ServerTickRate)]
  }

  lemma Laser2Step(rules: Rules, p: Player, i: nat)
    requires i < |p.weapons| && p.weapons[i].weapon == Laser2
    requires Ticking(rules, p.weapons[i]) && p.weapons[i].ammo <= GameConstants.ServerTickRate
    ensures var heap2 := Clocked(p.weapons, i) + [Owned(Laser1, 0)];
      var n := |p.weapons|;
      Step(rules, Start(p), i) ==
      Walk(heap2, Range(n), [n] + DropLaser2(heap2, Range(n)), false, if p.selected == Laser2 then Laser1 else p.selected)
  {
  }

  lemma DerefCons(heap: seq<Owned>, x: nat, ids: seq<nat>)
    requires x < |heap| && forall j :: 0 <= j < |ids| ==> ids[j] < |heap|
    ensures Deref(heap, [x] + ids) == [heap[x]] + Deref(heap, ids)
  {
    assert ([x] + ids)[1..] == ids;
  }

  lemma Laser2List(ws: seq<Owned>, i: nat)
    requires i < |ws| && ws[i].weapon == Laser2
    ensures var heap2 := Clocked(ws, i) + [Owned(Laser1, 0)];
      Deref(heap2, [|ws|] + DropLaser2(heap2, Range(|ws|))) == [Owned(Laser1, 0)] + Without(ws, Laser2)
  {
    var n := |ws|;
    var heap := Clocked(ws, i);
    var heap2 := heap + [Owned(Laser1, 0)];
    var kept := DropLaser2(heap2, Range(n));
    DropLaser2Deref(heap2, Range(n));
    DerefRange(heap2, n);
    assert heap2[..n] == heap;
    WithoutSame(ws, i, heap[i]);
    assert Deref(heap2, kept) == Without(ws, Laser2);
    DerefCons(heap2, n, kept);
  }

  /** The walk of postTick when only an expiring laser2 at `i` is on a clock:
      idle up to `i`, the laser2 branch at `i`, idle after. */
  lemma Laser2Walk(rules: Rules, p: Player, i: nat)
    requires i < |p.weapons| && p.weapons[i].weapon == Laser2
    requires Ticking(rules, p.weapons[i]) && p.weapons[i].ammo <= GameConstants.ServerTickRate
    requires forall j :: 0 <= j < |p.weapons| && j != i ==> !Ticking(rules, p.weapons[j])
    ensures var heap2 := Clocked(p.weapons, i) + [Owned(Laser1, 0)];
      var n := |p.weapons|;
      WalkFrom(rules, Start(p), 0) ==
      Walk(heap2, Range(n), [n] + DropLaser2(heap2, Range(n)), false, if p.selected == Laser2 then Laser1 else p.selected)
  {
    var n := |p.weapons|;
    var heap2 := Clocked(p.weapons, i) + [Owned(Laser1, 0)];
    IdleUntil(rules, Start(p), 0, i);
    Laser2Step(rules, p, i);
    var w1 := Walk(heap2, Range(n), [n] + DropLaser2(heap2, Range(n)), false, if p.selected == Laser2 then Laser1 else p.selected);
    assert WalkFrom(rules, Start(p), i) == WalkFrom(rules, w1, i + 1);
    assert forall j :: i + 1 <= j < n ==> heap2[Range(n)[j]] == p.weapons[j];
    IdleFrom(rules, w1, i + 1);
  }

  /** An expired laser2 (the only weapon on a clock) reverts to laser1: a fresh,
      empty laser1 entry goes to the front, the laser2 entries go, and a laser2
      selection becomes laser1. */
  lemma PostTickLaser2Expires(rules: Rules, p: Player, i: nat)
    requires i < |p.weapons| && p.weapons[i].weapon == Laser2
    requires Ticking(rules, p.weapons[i]) && p.weapons[i].ammo <= GameConstants.ServerTickRate
    requires forall j :: 0 <= j < |p.weapons| && j != i ==> !Ticking(rules, p.weapons[j])
    ensures var q := PostTick(rules, p).player;
      q.weapons == [Owned(Laser1, 0)] + Without(p.weapons, Laser2) &&
      q.selected == (if p.selected == Laser2 then Laser1 else p.selected)
  {
    Laser2Walk(rules, p, i);
    Laser2List(p.weapons, i);
  }

  lemma SkipStep(rules: Rules, a: Owned, b: Owned)
    requires Ticking(rules, a) && a.weapon != Laser2 && a.ammo <= GameConstants.ServerTickRate
    ensures Step(rules, Walk([a, b], [0, 1], [0, 1], true, a.weapon), 0)
         == Walk(Clocked([a, b], 0), [1], [1], true, b.weapon)
  {
    var heap := Clocked([a, b], 0);
    assert IndexOfWeapon(heap, [0, 1], a.weapon) == 0;
    assert IndexOfId([0, 1], 0) == 0;
    assert Splice([0, 1], 0) == [1];
  }

  /** The loop walks the array it splices: when the first of two timed weapons
      runs out (and is not laser2), the second moves into the freed slot and is
      never visited, so its clock does not run this tick. */
  lemma PostTickSkipsNext(rules: Rules, p: Player, a: Owned, b: Owned)
    requires p.weapons == [a, b] && p.selected == a.weapon
    requires Ticking(rules, a) && Ticking(rules, b)
    requires a.weapon != Laser2 && a.ammo <= GameConstants.ServerTickRate
    ensures PostTick(rules, p).player.weapons == [b]
    ensures PostTick(rules, p).player.selected == b.weapon
  {
    assert Range(2) == [0, 1];
    assert Start(p) == Walk([a, b], [0, 1], [0, 1], true, a.weapon);
    SkipStep(rules, a, b);
    var w1 := Walk(Clocked([a, b], 0), [1], [1], true, b.weapon);
    assert WalkFrom(rules, w1, 1) == w1;
    assert Deref(w1.heap, [1]) == [b];
  }

  // ---------------------------------------------------------------------
  // The stock bound survives the clock
  // ---------------------------------------------------------------------

  predicate HeapStocked(rules: Rules, w: Walk) {
    forall j :: 0 <= j < |w.heap| ==> Capped(rules, w.heap[j])
  }

  lemma StepStocked(rules: Rules, w: Walk, k: nat)
    requires WalkOk(w) && k < |w.walked| && HeapStocked(rules, w)
    requires rules.weaponConfig(Laser1).maxAmmo >= 0
    ensures HeapStocked(rules, Step(rules, w, k))
  {
  }

  lemma {:induction false} WalkStocked(rules: Rules, w: Walk, k: nat)
    requires WalkOk(w) && HeapStocked(rules, w)
    requires rules.weaponConfig(Laser1).maxAmmo >= 0
    ensures HeapStocked(rules, WalkFrom(rules, w, k))
    decreases |w.walked| - k
  {
    if k < |w.walked| {
      StepStocked(rules, w, k);
      WalkStocked(rules, Step(rules, w, k), k + 1);
    }
  }

  /** The clock only takes ammo away, and the laser1 it may hand back is empty. */
  lemma PostTickStocked(rules: Rules, p: Player)
    requires Stocked(rules, p.weapons) && rules.weaponConfig(Laser1).maxAmmo >= 0
    ensures Stocked(rules, PostTick(rules, p).player.weapons)
  {
    WalkStocked(rules, Start(p), 0);
  }

  // ---------------------------------------------------------------------
  // Movement, damage and death
  // ---------------------------------------------------------------------

  /** With a deceleration factor in [0, 1], a direction with no input this
      tick never speeds up: its momentum only shrinks or snaps to 0. */
  lemma CoastingSlows(rules: Rules, p: Player)
    requires 0.0 <= rules.momentumDeceleration <= 1.0
    ensures !p.xInputs ==> Abs(UpdatePosition(rules, p).momentumX) <= Abs(p.momentumX)
    ensures !p.yInputs ==> Abs(UpdatePosition(rules, p).momentumY) <= Abs(p.momentumY)
  {
    var q := UpdatePosition(rules, p);
    var d := rules.momentumDeceleration;
    if !p.xInputs {
      assert q.momentumX == 0.0 || q.momentumX == p.momentumX * d;
      SnapShrinks(p.momentumX, d, q.momentumX);
    }
    if !p.yInputs {
      assert q.momentumY == 0.0 || q.momentumY == p.momentumY * d;
      SnapShrinks(p.momentumY, d, q.momentumY);
    }
  }

  lemma SnapShrinks(m: real, d: real, m': real)
    requires 0.0 <= d <= 1.0 && (m' == 0.0 || m' == m * d)
    ensures Abs(m') <= Abs(m)
  {
    ScaleShrinks(m, d);
  }

  lemma ScaleShrinks(m: real, d: real)
    requires 0.0 <= d <= 1.0
    ensures Abs(m * d) <= Abs(m)
  {
    if m < 0.0 {
      assert m * d >= m * 1.0;
    } else {
      assert m * d <= m * 1.0;
    }
  }

  /** Two unshielded hits add up: the health lost is the sum of the damages
      and the pushes add to the momentum. */
  lemma UnguardedHitsAdd(onServer: bool, p: Player, d1: int, x1: real, y1: real, d2: int, x2: real, y2: real)
    ensures var q := Hurt(onServer, Hurt(onServer, p, d1, x1, y1, Unguarded).player, d2, x2, y2, Unguarded).player;
      && q.health == p.health - (d1 + d2)
      && q.momentumX == p.momentumX + x1 + x2 && q.momentumY == p.momentumY + y1 + y2
      && q.weapons == p.weapons && q.dead == p.dead
  {
  }

  /** A hit the shield absorbs entirely changes nothing but the momentum and
      spawns no explosion. */
  lemma AbsorbedHitHarmless(onServer: bool, p: Player, damage: int, x: real, y: real)
    ensures var r := Hurt(onServer, p, damage, x, y, Guarded(0));
      && r.player.(momentumX := p.momentumX, momentumY := p.momentumY) == p
      && forall e :: e in r.effects ==> !e.SpawnExplosion?
  {
  }

  /** Dying twice is dying once: the second death leaves the player as the
      first left it. */
  lemma DieIdempotent(p: Player)
    ensures Die(Die(p).player).player == Die(p).player
    ensures Die(p).player.dead && Die(p).player.health == 0
  {
  }
}
