/** The vocabulary the player and drop entities share: weapons, the rule
    table entries the code reads for them, shield levels and drop payloads.
    The rule tables themselves (GameRules, WeaponConfigs) are not part of
    this model; their entries are parameters. */
module Items {

  /** PlayerWeapon. `Laser1Spray10` is a weapon drops can carry. */
  datatype Weapon = Laser1 | Laser2 | Rocket | Torpedo | Laser1Spray10

  /** How a weapon's ammo is spent: never, one per shot, or by the clock. */
  datatype AmmoType = Infinite | PerShot | Timed

  /** The entries of `WeaponConfigs[weapon]` the player code reads. */
  datatype WeaponConfig = WeaponConfig(ammoType: AmmoType, maxAmmo: int, resetShootTimer: int, alternateSide: bool)

  /** A shield's strength; drops only carry `Medium` or `Big`. */
  datatype ShieldLevel = Small | Medium | Big

  /** DropType: what a drop gives the player who touches it. */
  datatype DropType =
    | HealthDrop(amount: int)
    | ShieldDrop(level: ShieldLevel)
    | WeaponDrop(ammo: int, weapon: Weapon)

  /** One entry of a player's `availableWeapons`. */
  datatype Owned = Owned(weapon: Weapon, ammo: int)
}
