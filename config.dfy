/**
 * The tunable parameter tables of the newer simulation, one record per table. Most systems
 * write these numbers as literals of their own; the lemmas at the end tie those literals
 * back to the tables.
 */
module Config {
  import opened Geometry

  datatype TowerTable = TowerTable(hp: real, maxHp: real)

  datatype FireballTable = FireballTable(
    fireRate: real, damage: real, speed: real, knockback: real, splashRadius: real,
    splashForce: real, splashDamageMult: real, projectileRadius: real, mass: real,
    launchAngleMin: real, launchAngleMax: real, maxAge: real, hitRadius: real)

  datatype ArrowTable = ArrowTable(
    fireRate: real, damage: real, speed: real, knockback: real, projectileRadius: real,
    mass: real, launchAngleMin: real, launchAngleMax: real, maxAge: real, hitRadius: real)

  datatype ArcaneTable = ArcaneTable(
    fireRate: real, damage: real, speed: real, steerForce: real, knockback: real,
    projectileRadius: real, mass: real, maxAge: real, hitRadius: real,
    initialSpeedFractionXZ: real, initialSpeedFractionY: real)

  datatype LightningTable = LightningTable(
    fireRate: real, damage: real, chains: int, chainRange: real, stunDuration: real,
    arcFadeTime: real)

  datatype EnemyTable = EnemyTable(
    baseHp: real, hpScalePerWave: real, speedMin: real, speedMax: real, damage: real,
    spawnRadius: real, mass: real, towerDamageRange: real, forceMult: real, stunDamping: real)

  datatype WaveTable = WaveTable(
    baseEnemies: real, linearScale: real, quadraticScale: real, spawnInterval: real,
    reprieveDuration: real)

  datatype PhysicsTable = PhysicsTable(gravity: real, tickRate: real)

  datatype DeathTable = DeathTable(
    launchUpMin: real, launchUpMax: real, launchSideMult: real, ragdollSpin: real)

  datatype MinionTable = MinionTable(
    count: int, damage: real, attackRange: real, windupTime: real, cooldownTime: real,
    speed: real, mass: real, forceMult: real, recoveryTime: real, flingThreshold: real,
    pushForce: real, spawnRadius: real)

  const TOWER := TowerTable(10.0, 10.0)

  const FIREBALL := FireballTable(
    1.0, 2.5, 20.0, 22.0, 5.0, 14.0, 0.5, 0.35, 2.0, Pi / 5.0, Pi / 3.0, 6.0, 1.0)

  const ARROW := ArrowTable(2.5, 1.0, 45.0, 8.0, 0.1, 0.3, Pi / 12.0, Pi / 5.0, 4.0, 0.7)

  const ARCANE := ArcaneTable(0.8, 1.8, 12.0, 280.0, 6.0, 0.2, 0.5, 8.0, 1.0, 0.4, 0.6)

  const LIGHTNING := LightningTable(0.6, 0.8, 3, 8.0, 0.4, 0.25)

  const ENEMY := EnemyTable(3.0, 0.15, 3.0, 4.5, 1.0, 45.0, 5.0, 2.5, 3.0, 0.92)

  const WAVE := WaveTable(5.0, 3.0, 0.5, 1.5, 3.0)

  const PHYSICS := PhysicsTable(20.0, 1.0 / 60.0)

  const DEATH := DeathTable(15.0, 25.0, 2.0, 20.0)

  const MINION := MinionTable(1, 1.5, 1.8, 0.4, 0.6, 5.0, 1.5, 4.0, 1.2, 8.0, 3.0, 4.0)

  /** Every attack fires at a positive rate, so `1 / fireRate` is a finite reload time. */
  lemma FireRatesPositive()
    ensures FIREBALL.fireRate > 0.0 && ARROW.fireRate > 0.0
    ensures ARCANE.fireRate > 0.0 && LIGHTNING.fireRate > 0.0
  {
  }

  /** Splash never deals more than the direct-hit damage. */
  lemma SplashMultInUnitInterval()
    ensures 0.0 < FIREBALL.splashDamageMult <= 1.0
  {
  }

  lemma TowerStartsAtFullHealth()
    ensures TOWER.hp == TOWER.maxHp
  {
  }

  /** Each launch-angle window is a non-empty interval. */
  lemma LaunchWindowsOrdered()
    ensures 0.0 < FIREBALL.launchAngleMin < FIREBALL.launchAngleMax
    ensures 0.0 < ARROW.launchAngleMin < ARROW.launchAngleMax
  {
  }
}
