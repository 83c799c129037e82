/**
 * The prototype's tower: its initial state and the two upgrade-cost formulas.
 */
module LegacyTower {
  import opened Common
  import opened Geometry
  import opened LegacyTypes
  import opened LegacyAttacks

  /** `createTowerState`: a level-1 tower at full health with every attack ready. */
  function CreateTowerState(): (t: TowerState)
    ensures t.health == t.maxHealth == 100.0 && t.level == 1
    ensures t.gold == 0 && t.kills == 0 && t.wave == 0 && t.enemiesRemaining == 0 && !t.waveActive
    ensures t.attacks == AttackConfigs && t.activeAttackIndex == 0 && 0 < |t.attacks|
    ensures t.waveTimer == 0.0 && !t.autoUpgrade
    ensures |t.attackTimers| == |t.attacks| && forall i :: 0 <= i < |t.attackTimers| ==> t.attackTimers[i] == 0.0
  {
    AttackConfigsWellFormed();
    TowerState(1, 100.0, 100.0, AttackConfigs, 0, Repeat(0.0, |AttackConfigs|), 0, 0, 0, 0.0, false, 0, false)
  }

  /** `Math.pow(b, e)` for an integer exponent. */
  function Pow(b: real, e: int): (r: real)
    requires b > 0.0
    ensures r > 0.0
    decreases if e < 0 then -e else e, if e < 0 then 1 else 0
  {
    if e == 0 then 1.0
    else if e > 0 then b * Pow(b, e - 1)
    else 1.0 / Pow(b, -e)
  }

  /** A base of at least 1 raised to a larger natural exponent gives at least as much, from 1 up. */
  lemma {:induction false} PowMono(b: real, i: nat, j: nat)
    requires b >= 1.0 && i <= j
    ensures 1.0 <= Pow(b, i) <= Pow(b, j)
    decreases j
  {
    if j > 0 {
      if i == j {
        PowMono(b, i - 1, j - 1);
        MulLe(b, Pow(b, j - 1));
      } else {
        PowMono(b, i, j - 1);
        MulLe(b, Pow(b, j - 1));
      }
    }
  }

  /** Multiplying by a factor of at least 1 does not shrink a positive value. */
  lemma MulLe(b: real, x: real)
    requires b >= 1.0 && x >= 1.0
    ensures x <= b * x
  {
    assert (b - 1.0) * x >= 0.0;
  }

  lemma FloorMono(x: real, y: real)
    requires x <= y
    ensures x.Floor <= y.Floor
  {
  }

  /** `getUpgradeCost`: `floor(50 * 1.5^(level - 1))`. */
  function UpgradeCost(level: int): int
  {
    (50.0 * Pow(1.5, level - 1)).Floor
  }

  /** `getAttackUpgradeCost`: `floor(30 * 1.4^(level - 1))`. */
  function AttackUpgradeCost(level: int): int
  {
    (30.0 * Pow(1.4, level - 1)).Floor
  }

  /** A cost of the form `floor(base * b^(level - 1))` is `base` at level 1 and grows with the level. */
  lemma {:induction false} CostGrows(base: real, b: real, i: int, j: int)
    requires base > 0.0 && b >= 1.0 && 1 <= i <= j
    ensures base <= base * Pow(b, i - 1) <= base * Pow(b, j - 1)
  {
    PowMono(b, i - 1, j - 1);
    PowMono(b, 0, i - 1);
    MulLeft(base, 1.0, Pow(b, i - 1));
    MulLeft(base, Pow(b, i - 1), Pow(b, j - 1));
  }

  /**
   * The tower upgrade costs 50 at level 1, never less for a higher level, and is at least 50
   * at every level from 1 on.
   */
  lemma UpgradeCostRules(i: int, j: int)
    requires 1 <= i <= j
    ensures UpgradeCost(1) == 50
    ensures 50 <= UpgradeCost(i) <= UpgradeCost(j)
  {
    CostGrows(50.0, 1.5, i, j);
    FloorMono(50.0, 50.0 * Pow(1.5, i - 1));
    FloorMono(50.0 * Pow(1.5, i - 1), 50.0 * Pow(1.5, j - 1));
  }

  /**
   * An attack upgrade costs 30 at level 1, never less for a higher level, and is at least 30
   * at every level from 1 on.
   */
  lemma AttackUpgradeCostRules(i: int, j: int)
    requires 1 <= i <= j
    ensures AttackUpgradeCost(1) == 30
    ensures 30 <= AttackUpgradeCost(i) <= AttackUpgradeCost(j)
  {
    CostGrows(30.0, 1.4, i, j);
    FloorMono(30.0, 30.0 * Pow(1.4, i - 1));
    FloorMono(30.0 * Pow(1.4, i - 1), 30.0 * Pow(1.4, j - 1));
  }
}
