/**
 * The records of the older prototype. They are separate from the newer simulation's records;
 * only the vector and body values of `Geometry` are shared. An enemy keeps both its mesh
 * position (what targeting measures) and its physics body (what movement drives).
 * Entities that the prototype refers to by object reference are referred to here by id.
 */
module LegacyTypes {
  import opened Common
  import opened Geometry

  datatype EnemyType = Basic | Fast | Tank | Flying | Swarm | Shielded | Boss

  datatype AttackType = Lightning | Fireball | Blizzard | Laser | Meteor | Vortex

  datatype LegacyEnemy = LegacyEnemy(
    id: int,
    meshPosition: Vec3,
    body: Body,
    health: real,
    maxHealth: real,
    speed: real,
    damage: real,
    reward: real,
    kind: EnemyType,
    alive: bool,
    stunTimer: real,
    burnTimer: real,
    burnDamage: real,
    slowFactor: real,
    slowTimer: real)

  /** Per-type stats; the mesh builder of the prototype is not part of the model. */
  datatype EnemyConfig = EnemyConfig(health: real, speed: real, damage: real, reward: real, color: int, scale: real)

  datatype AttackConfig = AttackConfig(
    name: string,
    kind: AttackType,
    damage: real,
    cooldown: real,
    range: real,
    color: int,
    description: string,
    level: int)

  datatype TowerState = TowerState(
    level: int,
    health: real,
    maxHealth: real,
    attacks: seq<AttackConfig>,
    activeAttackIndex: int,
    attackTimers: seq<real>,
    gold: int,
    kills: int,
    wave: int,
    waveTimer: real,
    waveActive: bool,
    enemiesRemaining: int,
    autoUpgrade: bool)

  /** A prototype projectile; `target` and `chainTargets` hold enemy ids. */
  datatype LegacyProjectile = LegacyProjectile(
    target: Option<int>,
    position: Vec3,
    velocity: Vec3,
    damage: real,
    attackType: AttackType,
    lifetime: real,
    chainTargets: Option<seq<int>>,
    aoeRadius: Option<real>)
}
