/** The rules of playerEntity.ts: input application (weapon choice, firing,
    momentum ramp and clamp), drop pickup, shield-first damage, the per-tick
    timer and movement, death, and the per-tick ammo clock of postTick.

    The player is an immutable record and every method of the class is a
    function from the old record to the new one. What the class does to the
    rest of the game (spawning a shot or an explosion, leaderboard counters,
    destroying the shield) is returned as a list of effects, in the order the
    source performs them. Positions and momenta are `real`: the model does not
    round to binary floating point. */
module Player {
  import opened Wrappers
  import opened Items
  import GameConstants

  // ---------------------------------------------------------------------
  // Rules and state
  // ---------------------------------------------------------------------

  /** The entries of GameRules and WeaponConfigs the player code reads. */
  datatype Rules = Rules(
    maxSideSpeed: real,
    maxForwardSpeed: real,
    maxReverseSpeed: real,
    startingHealth: int,
    momentumDeceleration: real,
    weaponConfig: Weapon -> WeaponConfig,
    shieldMaxHealth: ShieldLevel -> int)

  datatype Side = LeftSide | RightSide
  datatype Color = Blue | Green | Orange | Red

  /** PlayerInputKeys. */
  datatype Keys = Keys(up: bool, down: bool, left: bool, right: bool, shoot: bool)

  /** PlayerInput: the keys, the client's sequence number and an optional weapon choice. */
  datatype Input = Input(keys: Keys, sequenceNumber: int, weapon: Option<Weapon>)

  /** The state of one PlayerEntity that its rules read or write. */
  datatype Player = Player(
    entityId: int,
    x: real, y: real,
    momentumX: real, momentumY: real,
    health: int,
    dead: bool,
    color: Color,
    aliveTick: int,
    weapons: seq<Owned>,
    selected: Weapon,
    shootTimer: int,
    shotSide: Side,
    xInputs: bool, yInputs: bool,
    lastInput: Option<Keys>,
    lastProcessed: int,
    shieldId: Option<int>)

  /** The PlayerWeaponEntity a shot creates. */
  datatype Shot = Shot(x: real, y: real, owner: int, offsetX: real, weapon: Weapon)

  /** The leaderboard counters the player feeds. */
  datatype Stat = ShotsFired | DamageTaken | AliveTime

  /** What the player asks of the rest of the game. */
  datatype Effect =
    | Score(id: int, stat: Stat, amount: int)                    // gameLeaderboard.increaseEntry
    | Fire(shot: Shot)                                           // a new PlayerWeaponEntity
    | SpawnExplosion(x: real, y: real, intensity: int, owner: int) // a new ExplosionEntity
    | Destroy(id: int)                                           // entities.lookup(id)?.destroy()
    | Explode(id: int)                                           // game.explode(entity, 'big')
    | LeaveBoard(id: int)                                        // gameLeaderboard.removePlayer

  datatype Outcome = Outcome(player: Player, effects: seq<Effect>)

  /** Ramp added to momentum per pressed direction and tick. */
  const Ramp: real := 30.0
  /** Intensity of the explosion a hit spawns. */
  const ExplosionIntensity: int := 2
  /** Below this magnitude, momentum snaps to zero. */
  const MomentumFloor: real := 3.0

  /** The band the player's y is kept in: 0.1 and 1.1 of the screen height. */
  function TopY(): real { GameConstants.ScreenHeight as real * 0.1 }
  function BottomY(): real { GameConstants.ScreenHeight as real * 1.1 }

  const StartingWeapons: seq<Owned> := [Owned(Laser1, 0), Owned(Rocket, 5), Owned(Torpedo, 3)]

  // ---------------------------------------------------------------------
  // Weapon lists
  // ---------------------------------------------------------------------

  /** `availableWeapons.findIndex(w => w.weapon === weapon)`, when found. */
  function FindOwned(ws: seq<Owned>, w: Weapon): (r: Option<nat>)
    ensures r.Some? ==> r.value < |ws| && ws[r.value].weapon == w
    ensures r.Some? ==> forall j :: 0 <= j < r.value ==> ws[j].weapon != w
    ensures r.None? ==> forall j :: 0 <= j < |ws| ==> ws[j].weapon != w
  {
    if |ws| == 0 then None
    else if ws[0].weapon == w then Some(0)
    else match FindOwned(ws[1..], w)
      case None => None
      case Some(i) => Some(i + 1)
  }

  /** `availableWeapons.filter(w => w.weapon !== weapon)`. */
  function Without(ws: seq<Owned>, w: Weapon): (r: seq<Owned>)
    ensures |r| <= |ws|
    ensures forall j :: 0 <= j < |r| ==> r[j].weapon != w
    ensures forall o :: o in ws && o.weapon != w ==> o in r
    ensures forall o :: o in r ==> o in ws
  {
    if |ws| == 0 then []
    else if ws[0].weapon == w then Without(ws[1..], w)
    else [ws[0]] + Without(ws[1..], w)
  }

  /** The constructor's starting state (the health comes from the message model). */
  function NewPlayer(entityId: int, x: real, y: real, health: int, color: Color): (p: Player)
    ensures FindOwned(p.weapons, p.selected) == Some(0)
    ensures p.health == health && !p.dead && p.shootTimer == 1 && p.aliveTick == 0
  {
    Player(entityId, x, y, 0.0, 0.0, health, false, color, 0, StartingWeapons, Laser1, 1, LeftSide,
           false, false, None, 0, None)
  }

  // ---------------------------------------------------------------------
  // applyInput
  // ---------------------------------------------------------------------

  /** The bookkeeping at the top of applyInput, and the weapon choice. */
  function Begin(p: Player, input: Input): (q: Player)
    ensures q.aliveTick == p.aliveTick + 1 && q.lastInput == Some(input.keys)
    ensures !q.xInputs && !q.yInputs
    ensures q.selected == (if input.weapon.Some? then input.weapon.value else p.selected)
    ensures q.weapons == p.weapons && q.shootTimer == p.shootTimer && q.health == p.health
  {
    p.(aliveTick := p.aliveTick + 1, lastInput := Some(input.keys), xInputs := false, yInputs := false,
       selected := if input.weapon.Some? then input.weapon.value else p.selected)
  }

  /** The firing condition: on the server, with the timer run down, holding the
      selected weapon, whose first entry is infinite or has ammo left. */
  predicate CanFire(rules: Rules, onServer: bool, p: Player) {
    onServer && p.shootTimer <= 0 &&
    exists i :: 0 <= i < |p.weapons| && p.weapons[i].weapon == p.selected &&
      (forall j :: 0 <= j < i ==> p.weapons[j].weapon != p.selected) &&
      (rules.weaponConfig(p.selected).ammoType == Infinite || p.weapons[i].ammo > 0)
  }

  /** The shoot branch of applyInput. */
  function Shoot(rules: Rules, onServer: bool, p: Player): (r: Outcome)
    ensures |r.effects| > 0 <==> CanFire(rules, onServer, p)
    ensures !CanFire(rules, onServer, p) ==> r == Outcome(p, [])
    ensures CanFire(rules, onServer, p) ==>
      r.player.shootTimer == rules.weaponConfig(p.selected).resetShootTimer &&
      |r.effects| == 2 && r.effects[0] == Score(p.entityId, ShotsFired, 1) &&
      r.effects[1].Fire? && r.effects[1].shot.weapon == p.selected &&
      r.effects[1].shot.owner == p.entityId && r.effects[1].shot.y == p.y - 6.0
  {
    if !onServer || p.shootTimer > 0 then Outcome(p, [])
    else match FindOwned(p.weapons, p.selected)
      case None => Outcome(p, [])
      case Some(i) =>
        var config := rules.weaponConfig(p.selected);
        if config.ammoType != Infinite && p.weapons[i].ammo <= 0 then Outcome(p, [])
        else
          var offsetX := if !config.alternateSide then 0.0 else if p.shotSide == LeftSide then -42.0 else 42.0;
          var shot := Shot(p.x + offsetX, p.y - 6.0, p.entityId, offsetX, p.selected);
          Outcome(Spend(config, Fired(config, p), i), [Score(p.entityId, ShotsFired, 1), Fire(shot)])
  }

  /** The shooter after a shot: the side alternates if the weapon does, and the timer is re-armed. */
  function Fired(config: WeaponConfig, p: Player): (q: Player)
    ensures q.weapons == p.weapons && q.shootTimer == config.resetShootTimer
  {
    var side := if !config.alternateSide then p.shotSide else if p.shotSide == LeftSide then RightSide else LeftSide;
    p.(shotSide := side, shootTimer := config.resetShootTimer)
  }

  /** Ammo bookkeeping after a shot from entry `i`: a per-shot weapon loses one
      round; once empty it is removed and the selection moves to the entry after it. */
  function Spend(config: WeaponConfig, p: Player, i: nat): (q: Player)
    requires i < |p.weapons|
    ensures config.ammoType != PerShot ==> q == p
    ensures config.ammoType == PerShot && p.weapons[i].ammo > 1 ==>
      q == p.(weapons := p.weapons[i := Owned(p.weapons[i].weapon, p.weapons[i].ammo - 1)])
    ensures config.ammoType == PerShot && p.weapons[i].ammo <= 1 ==>
      q.weapons == p.weapons[..i] + p.weapons[i + 1..] &&
      q.selected == p.weapons[(i + 1) % |p.weapons|].weapon
    ensures q.shootTimer == p.shootTimer && q.health == p.health && q.entityId == p.entityId
  {
    if config.ammoType != PerShot then p
    else
      var ws := p.weapons[i := Owned(p.weapons[i].weapon, p.weapons[i].ammo - 1)];
      if ws[i].ammo > 0 then p.(weapons := ws)
      else p.(weapons := ws[..i] + ws[i + 1..], selected := ws[(i + 1) % |ws|].weapon)
  }

  /** The momentum ramp: each pressed direction adds 30 and clamps on its own side. */
  function Steer(rules: Rules, keys: Keys, p: Player): (q: Player)
    ensures q.xInputs == (p.xInputs || keys.left || keys.right)
    ensures q.yInputs == (p.yInputs || keys.up || keys.down)
    ensures !keys.left && !keys.right ==> q.momentumX == p.momentumX
    ensures !keys.up && !keys.down ==> q.momentumY == p.momentumY
    ensures keys.left && rules.maxSideSpeed >= 0.0 ==> q.momentumX >= -rules.maxSideSpeed
    ensures keys.right ==> q.momentumX <= rules.maxSideSpeed
    ensures keys.up && rules.maxReverseSpeed >= 0.0 && rules.maxForwardSpeed >= 0.0 ==> q.momentumY >= -rules.maxForwardSpeed
    ensures keys.down ==> q.momentumY <= rules.maxReverseSpeed
    ensures keys.left && !keys.right && p.momentumX - Ramp >= -rules.maxSideSpeed ==> q.momentumX == p.momentumX - Ramp
    ensures keys.right && !keys.left && p.momentumX + Ramp <= rules.maxSideSpeed ==> q.momentumX == p.momentumX + Ramp
    ensures keys.up && !keys.down && p.momentumY - Ramp >= -rules.maxForwardSpeed ==> q.momentumY == p.momentumY - Ramp
    ensures keys.down && !keys.up && p.momentumY + Ramp <= rules.maxReverseSpeed ==> q.momentumY == p.momentumY + Ramp
    ensures q == p.(momentumX := q.momentumX, momentumY := q.momentumY, xInputs := q.xInputs, yInputs := q.yInputs)
  {
    var mx1 := if keys.left then Floor(p.momentumX - Ramp, -rules.maxSideSpeed) else p.momentumX;
    var mx2 := if keys.right then Ceil(mx1 + Ramp, rules.maxSideSpeed) else mx1;
    var my1 := if keys.up then Floor(p.momentumY - Ramp, -rules.maxForwardSpeed) else p.momentumY;
    var my2 := if keys.down then Ceil(my1 + Ramp, rules.maxReverseSpeed) else my1;
    p.(momentumX := mx2, momentumY := my2,
       xInputs := p.xInputs || keys.left || keys.right,
       yInputs := p.yInputs || keys.up || keys.down)
  }

  /** `if (m < low) m = low`. */
  function Floor(m: real, low: real): (r: real)
    ensures r >= low && (m >= low ==> r == m)
  {
    if m < low then low else m
  }

  /** `if (m > high) m = high`. */
  function Ceil(m: real, high: real): (r: real)
    ensures r <= high && (m <= high ==> r == m)
  {
    if m > high then high else m
  }

  /** applyInput: bookkeeping and weapon choice, the shoot branch, then the ramp. */
  function ApplyInput(rules: Rules, onServer: bool, p: Player, input: Input): (r: Outcome)
    ensures r.player.aliveTick == p.aliveTick + 1
    ensures r.player.lastInput == Some(input.keys)
    ensures r.player.health == p.health && r.player.entityId == p.entityId
  {
    var chosen := Begin(p, input);
    var shot := if input.keys.shoot then Shoot(rules, onServer, chosen) else Outcome(chosen, []);
    Outcome(Steer(rules, input.keys, shot.player), shot.effects)
  }

  // ---------------------------------------------------------------------
  // addDrop
  // ---------------------------------------------------------------------

  /** The player's shield entity, as found through its id. */
  datatype Shield = Shield(health: int, strength: ShieldLevel)

  datatype Pickup = Pickup(player: Player, shield: Option<Shield>)

  /** An exception the source throws. */
  datatype Thrown = Unreachable(weapon: Weapon)

  function Level(s: ShieldLevel): int {
    match s
    case Small => 0
    case Medium => 1
    case Big => 2
  }

  function Min(a: int, b: int): int { if a < b then a else b }

  /** addDrop. A weapon the switch has no case for throws (`unreachable`). */
  function AddDrop(rules: Rules, p: Player, drop: DropType, shield: Option<Shield>): (r: Result<Pickup, Thrown>)
    ensures r.Err? <==> drop.WeaponDrop? && drop.weapon == Laser1Spray10 && FindOwned(p.weapons, Laser1Spray10).None?
    ensures r.Ok? && !drop.ShieldDrop? ==> r.value.shield == shield
    ensures r.Ok? && !drop.HealthDrop? ==> r.value.player.health == p.health
    ensures r.Ok? && !drop.WeaponDrop? ==> r.value.player.weapons == p.weapons && r.value.player.selected == p.selected
  {
    match drop
    case HealthDrop(amount) =>
      Ok(Pickup(p.(health := Min(p.health + amount, rules.startingHealth)), shield))
    case ShieldDrop(level) =>
      if shield.None? then Ok(Pickup(p, shield))
      else if level == Medium && shield.value.strength == Big then
        Ok(Pickup(p, Some(shield.value.(health := rules.shieldMaxHealth(Big)))))
      else
        Ok(Pickup(p, Some(Shield(rules.shieldMaxHealth(level), level))))
    case WeaponDrop(ammo, w) =>
      var cap := rules.weaponConfig(w).maxAmmo;
      match FindOwned(p.weapons, w)
      case Some(i) =>
        Ok(Pickup(p.(weapons := p.weapons[i := Owned(w, Min(p.weapons[i].ammo + ammo, cap))]), shield))
      case None =>
        match w
        case Laser1 => Ok(Pickup(p, shield))
        case Laser2 =>
          var selected := if p.selected == Laser1 then Laser2 else p.selected;
          Ok(Pickup(p.(weapons := [Owned(Laser2, Min(ammo, cap))] + Without(p.weapons, Laser1), selected := selected), shield))
        case Rocket => Ok(Pickup(p.(weapons := p.weapons + [Owned(w, Min(ammo, cap))]), shield))
        case Torpedo => Ok(Pickup(p.(weapons := p.weapons + [Owned(w, Min(ammo, cap))]), shield))
        case Laser1Spray10 => Err(Unreachable(w))
  }

  // ---------------------------------------------------------------------
  // hurt, die, gameTick, updatedPositionFromMomentum
  // ---------------------------------------------------------------------

  /** What the player's shield does with a hit: there is no undepleted shield,
      or there is one and its own `hurt` returned `left` as the damage left over. */
  datatype Guard = Unguarded | Guarded(left: int)

  function Hurt(onServer: bool, p: Player, damage: int, x: real, y: real, guard: Guard): (r: Outcome)
    ensures r.player.momentumX == p.momentumX + x && r.player.momentumY == p.momentumY + y
    ensures guard == Guarded(0) ==> r.player.health == p.health
    ensures guard.Guarded? && guard.left != 0 ==> r.player.health == p.health - guard.left
    ensures guard.Unguarded? ==> r.player.health == p.health - damage
    ensures r.effects ==
      (if onServer then [Score(p.entityId, DamageTaken, damage)] else []) +
      (if guard == Guarded(0) then [] else [SpawnExplosion(x, y, ExplosionIntensity, p.entityId)])
    ensures r.player == p.(momentumX := r.player.momentumX, momentumY := r.player.momentumY, health := r.player.health)
  {
    var pushed := p.(momentumX := p.momentumX + x, momentumY := p.momentumY + y);
    var scored := if onServer then [Score(p.entityId, DamageTaken, damage)] else [];
    if guard == Guarded(0) then Outcome(pushed, scored)
    else
      var taken := if guard.Guarded? then guard.left else damage;
      Outcome(pushed.(health := p.health - taken), scored + [SpawnExplosion(x, y, ExplosionIntensity, p.entityId)])
  }

  /** die: no health, dead, the shield destroyed (when the id is set and non-zero),
      a big explosion, and the player leaves the leaderboard. */
  function Die(p: Player): (r: Outcome)
    ensures r.player == p.(health := 0, dead := true)
    ensures |r.effects| >= 2 && r.effects[|r.effects| - 2..] == [Explode(p.entityId), LeaveBoard(p.entityId)]
    ensures |r.effects| == 3 <==> p.shieldId.Some? && p.shieldId.value != 0
  {
    var shield := if p.shieldId.Some? && p.shieldId.value != 0 then [Destroy(p.shieldId.value)] else [];
    Outcome(p.(health := 0, dead := true), shield + [Explode(p.entityId), LeaveBoard(p.entityId)])
  }

  function Abs(m: real): real { if m < 0.0 then -m else m }

  /** updatedPositionFromMomentum. The deceleration multiply of a direction with
      no input this tick uses the rule's factor. */
  function UpdatePosition(rules: Rules, p: Player): (q: Player)
    ensures q.x == p.x + p.momentumX
    ensures TopY() <= q.y <= BottomY()
    ensures TopY() <= p.y + p.momentumY <= BottomY() ==> q.y == p.y + p.momentumY
    ensures !(TopY() <= p.y + p.momentumY <= BottomY()) ==> q.momentumY == 0.0
    ensures q.momentumX == 0.0 || Abs(q.momentumX) >= MomentumFloor
    ensures q.momentumY == 0.0 || Abs(q.momentumY) >= MomentumFloor
    ensures p.xInputs ==> q.momentumX == (if Abs(p.momentumX) < MomentumFloor then 0.0 else p.momentumX)
    ensures !p.xInputs ==>
      q.momentumX == (if Abs(p.momentumX * rules.momentumDeceleration) < MomentumFloor then 0.0 else p.momentumX * rules.momentumDeceleration)
    ensures TopY() <= p.y + p.momentumY <= BottomY() && !p.yInputs ==>
      q.momentumY == (if Abs(p.momentumY * rules.momentumDeceleration) < MomentumFloor then 0.0 else p.momentumY * rules.momentumDeceleration)
    ensures q == p.(x := q.x, y := q.y, momentumX := q.momentumX, momentumY := q.momentumY)
  {
    var x := p.x + p.momentumX;
    var y := p.y + p.momentumY;
    var mx := if p.xInputs then p.momentumX else p.momentumX * rules.momentumDeceleration;
    var my := if p.yInputs then p.momentumY else p.momentumY * rules.momentumDeceleration;
    var mx := if Abs(mx) < MomentumFloor then 0.0 else mx;
    var my := if Abs(my) < MomentumFloor then 0.0 else my;
    if y < TopY() then p.(x := x, y := TopY(), momentumX := mx, momentumY := 0.0)
    else if y > BottomY() then p.(x := x, y := BottomY(), momentumX := mx, momentumY := 0.0)
    else p.(x := x, y := y, momentumX := mx, momentumY := my)
  }

  /** gameTick: the shoot timer runs down to zero, the player moves, and on the
      server a player out of health dies. */
  function GameTick(rules: Rules, onServer: bool, p: Player): (r: Outcome)
    ensures r.player.shootTimer >= 0
    ensures p.shootTimer >= 1 ==> r.player.shootTimer == p.shootTimer - 1
    ensures r.player.dead <==> p.dead || (onServer && p.health <= 0)
    ensures r.effects != [] <==> onServer && p.health <= 0
    ensures r.player.weapons == p.weapons && r.player.selected == p.selected
  {
    var timed := p.(shootTimer := if p.shootTimer - 1 > 0 then p.shootTimer - 1 else 0);
    var moved := UpdatePosition(rules, timed);
    if onServer && moved.health <= 0 then Die(moved) else Outcome(moved, [])
  }

  // ---------------------------------------------------------------------
  // postTick: the ammo clock
  // ---------------------------------------------------------------------

  /** The state of postTick's for-of loop. Weapon entries are objects: `heap`
      holds them by identity, `walked` is the array the loop iterates (its
      length is re-read at every step) and `current` is this.availableWeapons.
      Until an expired laser2 replaces the array they are the same array
      (`shared`), so a splice of one is a splice of the other. */
  datatype Walk = Walk(heap: seq<Owned>, walked: seq<nat>, current: seq<nat>, shared: bool, selected: Weapon)

  predicate WalkOk(w: Walk) {
    (forall j :: 0 <= j < |w.walked| ==> w.walked[j] < |w.heap|) &&
    (forall j :: 0 <= j < |w.current| ==> w.current[j] < |w.heap|) &&
    (w.shared ==> w.walked == w.current)
  }

  function Range(n: nat): (r: seq<nat>)
    ensures |r| == n && forall j :: 0 <= j < n ==> r[j] == j
  {
    if n == 0 then [] else Range(n - 1) + [n - 1]
  }

  /** The entries `ids` name, in order. */
  function Deref(heap: seq<Owned>, ids: seq<nat>): (r: seq<Owned>)
    requires forall j :: 0 <= j < |ids| ==> ids[j] < |heap|
    ensures |r| == |ids| && forall j :: 0 <= j < |ids| ==> r[j] == heap[ids[j]]
  {
    if |ids| == 0 then [] else [heap[ids[0]]] + Deref(heap, ids[1..])
  }

  /** `filter(w => w.weapon !== 'laser2')` over the objects `ids` name. */
  function DropLaser2(heap: seq<Owned>, ids: seq<nat>): (r: seq<nat>)
    requires forall j :: 0 <= j < |ids| ==> ids[j] < |heap|
    ensures forall j :: 0 <= j < |r| ==> r[j] < |heap| && heap[r[j]].weapon != Laser2
    ensures |r| <= |ids|
  {
    if |ids| == 0 then []
    else if heap[ids[0]].weapon == Laser2 then DropLaser2(heap, ids[1..])
    else [ids[0]] + DropLaser2(heap, ids[1..])
  }

  /** `findIndex(a => a.weapon === weapon)`, -1 when absent. */
  function IndexOfWeapon(heap: seq<Owned>, ids: seq<nat>, weapon: Weapon): (r: int)
    requires forall j :: 0 <= j < |ids| ==> ids[j] < |heap|
    ensures -1 <= r < |ids|
  {
    if |ids| == 0 then -1
    else if heap[ids[0]].weapon == weapon then 0
    else var k := IndexOfWeapon(heap, ids[1..], weapon); if k == -1 then -1 else k + 1
  }

  /** `indexOf(object)`, -1 when absent. */
  function IndexOfId(ids: seq<nat>, id: nat): (r: int)
    ensures -1 <= r < |ids|
    ensures r >= 0 ==> ids[r] == id && forall j :: 0 <= j < r ==> ids[j] != id
    ensures r == -1 ==> forall j :: 0 <= j < |ids| ==> ids[j] != id
  {
    if |ids| == 0 then -1
    else if ids[0] == id then 0
    else var k := IndexOfId(ids[1..], id); if k == -1 then -1 else k + 1
  }

  /** `splice(at, 1)`: a negative start counts from the end. */
  function Splice(ids: seq<nat>, at: int): (r: seq<nat>)
    requires -1 <= at < |ids|
    ensures |ids| > 0 ==> |r| == |ids| - 1
    ensures forall j :: 0 <= j < |r| ==> r[j] in ids
  {
    if |ids| == 0 then ids
    else if at == -1 then ids[..|ids| - 1]
    else ids[..at] + ids[at + 1..]
  }

  predicate Ticking(rules: Rules, o: Owned) {
    rules.weaponConfig(o.weapon).ammoType == Timed
  }

  /** One pass of the loop body, on the entry at position `k` of the walked array. */
  function Step(rules: Rules, w: Walk, k: nat): (r: Walk)
    requires WalkOk(w) && k < |w.walked|
    ensures WalkOk(r) && |r.heap| >= |w.heap|
    ensures !r.shared ==> r.walked == w.walked
  {
    var id := w.walked[k];
    var o := w.heap[id];
    if !Ticking(rules, o) then w
    else
      var heap := w.heap[id := o.(ammo := o.ammo - GameConstants.ServerTickRate)];
      if heap[id].ammo > 0 then w.(heap := heap)
      else if o.weapon == Laser2 then
        var added := |heap|;
        var heap2 := heap + [Owned(Laser1, 0)];
        var current := [added] + DropLaser2(heap2, w.current);
        w.(heap := heap2, current := current, shared := false,
           selected := if w.selected == Laser2 then Laser1 else w.selected)
      else
        var n := |w.current|;
        var index := IndexOfWeapon(heap, w.current, w.selected);
        var next := if n == 0 then w.selected else heap[w.current[(index + 1) % n]].weapon;
        var current := Splice(w.current, IndexOfId(w.current, id));
        w.(heap := heap, current := current, walked := if w.shared then current else w.walked, selected := next)
  }

  /** The loop from position `k` on. */
  function WalkFrom(rules: Rules, w: Walk, k: nat): (r: Walk)
    requires WalkOk(w)
    ensures WalkOk(r) && |r.heap| >= |w.heap|
    decreases |w.walked| - k
  {
    if k >= |w.walked| then w else WalkFrom(rules, Step(rules, w, k), k + 1)
  }

  function Start(p: Player): (w: Walk)
    ensures WalkOk(w)
  {
    Walk(p.weapons, Range(|p.weapons|), Range(|p.weapons|), true, p.selected)
  }

  /** postTick: the alive-time counter, then the ammo clock of every timed weapon. */
  function PostTick(rules: Rules, p: Player): (r: Outcome)
    ensures r.effects == [Score(p.entityId, AliveTime, GameConstants.ServerTickRate)]
    ensures r.player == p.(weapons := r.player.weapons, selected := r.player.selected)
  {
    var w := WalkFrom(rules, Start(p), 0);
    Outcome(p.(weapons := Deref(w.heap, w.current), selected := w.selected),
            [Score(p.entityId, AliveTime, GameConstants.ServerTickRate)])
  }
}
