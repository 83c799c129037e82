# Tower defence simulation, modelled in Dafny

This project models the game logic of a browser tower-defence game written in TypeScript.
A tower stands at the origin, enemies walk at it from a spawn ring, and the tower shoots back.
The repository holds two generations of the simulation, and the model keeps them apart.
They share no record types; only the vector and body values of `Geometry` are common.

**The newer simulation** (`src/state.ts`, `src/config.ts`, `src/systems/*`, `src/entities/*`):

- `GameState` is a class whose fields every system reassigns.
  - It holds the tower, the wave director, and the enemies, projectiles, lightning arcs and minions.
  - Entities are values held in those sequences.
  - Where the source keeps a reference to an entity, the model keeps its index or its id.
- The module-level id counter is the `IdAllocator` class.
- `Math.random` is the `Rng` class, which reads an infinite stream of draws in [0, 1).
- The physics world is the `World` class.
  - It only logs `addBody`/`removeBody` calls, by entity id.
- Square root, cosine and sine are passed in as function parameters.
  - Square root is constrained to the non-negative root (`IsSqrt`).
  - Cosine and sine are only bounded to [-1, 1] (`ValidMath`).
- The model covers:
  - the wave director (`updateWaves`, `startNextWave`);
  - walker spawning, locomotion and tower-contact damage;
  - the five-state minion machine;
  - chain lightning and arc aging;
  - projectile hits, splash and kill bookkeeping;
  - the tower's fire timers and target heuristics;
  - projectile launching, lead prediction, homing and aging;
  - the renderer's swap-and-pop sweep of dead entities, with the mesh registries as id sets.

**The older prototype** (`src/enemies.ts`, `src/attacks.ts`, `src/tower.ts`, with the records of `src/types.ts`):

- the enemy table, wave composition, spawning and the per-frame status-effect update;
- the attack table, range-bounded targeting, radius filtering, and the chain selection of chain lightning;
- the records the projectile constructors build;
- the tower's initial state and its upgrade-cost formulas.

Every loop of the source is a `method` with a `while`/`for` loop. Each such method is proved equal to a specification function. The properties the game relies on are proved about those functions as lemmas or as their own `ensures`: minimum/maximum selection, chains without repeats, kills counted once per death, and sweeps that remove exactly the matching elements. Numbers are exact reals; see "Left out".

Four places where the code and its own description disagree, and what the model does:

- `EnemyState` declares `stunTimer` (`src/state.ts:50`), but `spawnEnemy` builds its record without it (`src/entities/enemy.ts:27-38`). The first lightning strike then computes `Math.max(undefined, stun)`, which is NaN. Nothing in the newer simulation reads the field. The model's `SpawnEnemy` starts it at 0; see "Left out".
- `GameState` has no `minions`, yet `updateMinions` iterates over it. The model's `GameState` has the field.
- `killEnemy` in `src/systems/damage.ts` is not exported, yet `src/entities/minion.ts` imports it. The model treats it as an ordinary operation (`Damage.KillEnemy`) that minions call.
- `GROUP_MINION` is imported from `src/systems/physics.ts`, which does not define it. Collision groups are not modelled.

## Model

| member | source | states |
|---|---|---|
| Config.FireRatesPositive | src/config.ts:17-63 | The fireball, arrow, arcane and lightning fire rates are all strictly positive. |
| Config.SplashMultInUnitInterval | src/config.ts:23 | The splash damage multiplier lies in (0, 1]. |
| Config.TowerStartsAtFullHealth | src/config.ts:10-13 | The tower table starts at full health (`hp == maxHp`). |
| Config.LaunchWindowsOrdered | src/config.ts:26-41 | Each ballistic launch-angle window is non-empty and positive: 0 < min < max. |
| State.FilterAlive | src/systems/combat.ts:8 | The snapshot `filter(e => e.alive)` holds exactly the live enemies and is no longer than the list. |
| State.FilterAliveAppend | src/systems/combat.ts:8 | Filtering keeps list order: the filter of a concatenation is the concatenation of the filters. |
| State.FilterAliveEmpty | src/systems/waves.ts:37-38 | The live-enemy count is zero exactly when no enemy in the list is alive. |
| State.DeathsUpdate | src/systems/damage.ts:104-110 | Replacing one record counts one death exactly when a live enemy becomes dead. |
| State.DeathsTrans | src/systems/damage.ts:4-41 | Deaths over two successive passes without revival add up. |
| State.DeathsAtMostAlive | src/systems/damage.ts:97-99 | One pass over the list never counts more deaths than there were live enemies. |
| State.IdAllocator.constructor | src/state.ts:93 | Ids start at 1 and none has been handed out. |
| State.IdAllocator.Next | src/state.ts:95-97 | `nextEntityId` returns the counter and bumps it by one; the result exceeds every id handed out before, so it is fresh. |
| State.InitialTower | src/state.ts:101-127 | The tower starts at the origin with `hp == maxHp == 10`, all four attack toggles on, and every fire rate positive. |
| State.InitialWave | src/state.ts:131-141 | Wave 1 with no kills, not in reprieve, 0 of 5 enemies spawned, so spawned <= total. |
| State.GameState.constructor | src/state.ts:99-145 | The initial state: the initial tower and wave, no enemies, projectiles, arcs or minions, and a zero clock. |
| State.CreateTwice | src/state.ts:99-145 | Two calls build two distinct fresh state objects with field-for-field equal contents. |
| Waves.WaveSize | src/systems/waves.ts:48 | Wave `n` has `5 + 3n + floor(n²/2)` enemies. |
| Waves.WaveSizeNonNegative | src/systems/waves.ts:48 | Every wave size is non-negative. |
| Waves.WaveSizeMatchesTable | src/config.ts:86-89 | The size agrees with the table formula `floor(baseEnemies + n·linearScale + n²·quadraticScale)`. |
| Waves.WaveSizeSamples | src/config.ts:87-89 | Waves 1, 5, 10 and 20 have 8, 32, 85 and 265 enemies. |
| Waves.WaveSizeIncreasing | src/systems/waves.ts:48 | From wave 0 on, a later wave is strictly larger. |
| Waves.SpawnInterval | src/systems/waves.ts:50 | The spawn interval is `1.5 - 0.08n` up to wave 15 and 0.3 from then on; never below 0.3. |
| Waves.SpawnIntervalAt100 | src/systems/waves.ts:50 | At wave 100 the interval is exactly 0.3. |
| Waves.SpawnIntervalNonIncreasing | src/systems/waves.ts:50 | Later waves never spawn more slowly. |
| Waves.NextSpawnDelay | src/systems/waves.ts:31-32 | After the k-th of `total` spawns the timer lies in [0.4·interval, interval). |
| Waves.NextWave | src/systems/waves.ts:44-52 | The next wave: number + 1, counters and spawn timer zeroed, size and interval from the formulas, kills and reprieve fields kept, spawned <= total. |
| Waves.StartNextWave | src/systems/waves.ts:44-52 | `startNextWave` turns the wave record into `NextWave` of the old one. |
| Waves.ReprieveTick | src/systems/waves.ts:13-20 | In reprieve the timer drops by dt; at or below zero the reprieve ends and the next wave starts; nothing is spawned. |
| Waves.SpawnTick | src/systems/waves.ts:23-33 | While enemies remain to spawn the timer runs down; when it runs out, spawned and remaining each grow by exactly one and the timer is reset; spawned <= total is kept. |
| Waves.CompletionCheck | src/systems/waves.ts:37-41 | With everything spawned and nothing alive, the director enters a 3-second reprieve; otherwise the record is unchanged. |
| Waves.ReprievePhase | src/systems/waves.ts:13-20 | The reprieve branch performs `ReprieveTick` on the state. |
| Waves.SpawnPhase | src/systems/waves.ts:23-33 | The spawn branch performs `SpawnTick`; on a spawn, one live enemy with a fresh id and full hp for the wave is appended and its body added; otherwise enemies and world are untouched. |
| Waves.UpdateWaves | src/systems/waves.ts:7-42 | A downed tower changes nothing; in reprieve only the reprieve branch runs; otherwise spawn then completion check; spawned <= total is preserved. |
| Waves.AtMostOneSpawn | src/systems/waves.ts:23-33 | At most one enemy is spawned per call. |
| EnemyAI.SpawnHp | src/entities/enemy.ts:25-31 | A wave-`n` enemy has `baseHp · (1 + (n-1)·hpScalePerWave)` hit points. |
| EnemyAI.SpawnHpIncreasing | src/config.ts:73-74 | Enemy hit points strictly increase with the wave number. |
| EnemyAI.SpawnHpAtLeastBase | src/config.ts:73-74 | From wave 1 on, a spawned enemy has at least the base hit points. |
| EnemyAI.SpawnEnemy | src/entities/enemy.ts:7-39 | Three draws in order (ring angle, speed, leg phase), one body added, one fresh id; alive with `hp == maxHp == SpawnHp(wave)`, speed in [3, 4.5), damage 1, no stun. |
| EnemyAI.AtTowerIffClose | src/entities/enemy.ts:50-52 | The contact test `dist < 2.5` holds exactly when the squared horizontal distance is below 6.25. |
| EnemyAI.StepEnemy | src/entities/enemy.ts:44-92 | A dead enemy is untouched. An enemy at the tower is pushed back at half its offset with its leg phase kept. Any other enemy has horizontal speed capped at its own speed, vertical velocity kept, and leg phase advanced by `dt·speed·2.5`. hp and alive never change. |
| EnemyAI.ContactDamageNonNegative | src/entities/enemy.ts:52-54 | With non-negative damage and dt, the contact damage of a sweep is non-negative. |
| EnemyAI.ContactDamageZero | src/entities/enemy.ts:52-54 | Only live enemies at the tower contribute contact damage. |
| EnemyAI.TickEnemy | src/entities/enemy.ts:45-91 | One loop turn computes the enemy's new record and the damage it deals the tower. |
| EnemyAI.UpdateEnemies | src/entities/enemy.ts:41-93 | Every enemy is replaced by `StepEnemy` of itself, and tower hp drops by exactly the summed `damage·dt` of live enemies at the tower. |
| EnemyAI.UpdateEnemiesNeverHeals | src/entities/enemy.ts:52-54 | `updateEnemies` never raises the tower's hp. |
| Geometry.CapHorizontalSpeed | src/entities/enemy.ts:76-84 | The capped velocity has horizontal speed at most the cap and the same vertical part. A velocity already within the cap is kept; a faster one is scaled down along its own horizontal direction. |
| Geometry.CapSpeed | src/entities/projectile.ts:239-246 | The rescaled velocity has speed at most the cap. One already within it is kept; a faster one is scaled down along its own direction. |
| Geometry.SqrtBelow | src/entities/enemy.ts:50-52 | `sqrt(x) < r` exactly when `x < r²`, which lets distance tests become squared-distance tests. |
| Physics.World.AddBody | src/entities/enemy.ts:23 | The world log gains exactly one `Added` entry. |
| Physics.World.RemoveBody | src/systems/renderer.ts:238 | The world log gains exactly one `Removed` entry. |
| Random.Rng.Next | src/entities/enemy.ts:8 | `Math.random`: the next draw of the stream, in [0, 1), and one more draw consumed. |
| Minions.SpawnMinion | src/entities/minion.ts:7-34 | Two draws (ring angle, then leg phase), one body on the radius-4 ring, one fresh id; roaming, with no timer and no target. |
| Minions.DespawnMinion | src/entities/minion.ts:36-38 | Exactly the minion's body is removed from the world. |
| Minions.FlungIff | src/entities/minion.ts:45-48 | The fling test `speed > 8` holds exactly when the squared speed exceeds 64. |
| Minions.MoveToward | src/entities/minion.ts:93-124 | Within 0.1 of the target nothing changes. Otherwise horizontal speed is capped at the minion speed, vertical velocity is kept, and legs advance by `dt·speed·3`. |
| Minions.RoamingStep | src/entities/minion.ts:126-143 | With no live enemy the minion idles. If the nearest live enemy is within attack range, the minion winds up on it for 0.4 s with that enemy's id as target. Otherwise it walks toward that enemy. |
| Minions.WindupStep | src/entities/minion.ts:145-166 | The timer runs down. Without a live target the minion roams and forgets the target. With one it keeps the target, and it enters bonk with a 0.1 timer exactly when the timer reached zero. |
| Minions.BonkStep | src/entities/minion.ts:168-194 | A live target loses exactly the minion damage and is killed, and counted, exactly when it drops to zero; at most one kill; the minion always cools down for 0.6 s with no target. |
| Minions.CooldownStep | src/entities/minion.ts:196-201 | The timer drops by dt; back to roaming exactly when it reaches zero; otherwise unchanged. |
| Minions.RecoveryStep | src/entities/minion.ts:203-212 | The timer drops by dt; horizontal velocity is damped by 5%, never growing; back to roaming exactly when the timer reaches zero. |
| Minions.StepMinion | src/entities/minion.ts:43-73 | A flung minion not in recovery goes to recovery for 1.2 s with no target and does nothing else; only a bonk touches the enemies; at most one kill per turn, counted as a death. |
| Minions.StepKeepsTargetInv | src/entities/minion.ts:43-73 | Every turn keeps "a target is held exactly in windup and bonk". |
| Minions.SpawnedTargetInv | src/entities/minion.ts:28-30 | A freshly spawned minion satisfies that invariant. |
| Minions.NoDoubleKill | src/entities/minion.ts:171-187 | Two minions bonking the same target in one sweep kill it at most once between them. |
| Minions.StepFirst | src/entities/minion.ts:43-73 | After n turns no enemy is revived, kills equal the deaths caused, and minions not yet stepped are unchanged. |
| Minions.StepFirstKeepsTargetInv | src/entities/minion.ts:43-73 | A whole sweep keeps the target invariant of every minion. |
| Minions.UpdateRoaming | src/entities/minion.ts:126-143 | The roaming update equals `RoamingStep`. |
| Minions.UpdateWindup | src/entities/minion.ts:145-166 | The windup update equals `WindupStep`. |
| Minions.UpdateBonk | src/entities/minion.ts:168-194 | The bonk update applies `BonkStep` to the state: the target's damage and kill, and the wave's kill count. |
| Minions.TickMinion | src/entities/minion.ts:44-72 | One loop turn applies `StepMinion` to the minion, the enemies and the kill count. |
| Minions.UpdateMinions | src/entities/minion.ts:40-74 | The whole sweep, against one snapshot of live enemies taken first, equals `StepFirst` over all minions. |
| Queries.Nearest | src/entities/minion.ts:76-91 | The nearest enemy by horizontal distance, the first on ties; none exactly when the list is empty. |
| Queries.FindNearestEnemy | src/systems/combat.ts:79-97 | The running-minimum loop from infinity returns `Nearest`. |
| Queries.FindLive | src/entities/minion.ts:149 | `find(e => e.id === targetId && e.alive)`: the first live enemy with that id, and none when there is none. |
| Queries.FindLiveEnemy | src/entities/projectile.ts:203 | The search loop returns `FindLive`. |
| Queries.FilterAliveLoop | src/systems/combat.ts:8 | The loop that builds the live snapshot returns `FilterAlive`. |
| Lightning.First | src/systems/lightning.ts:71-84 | The first link is a live enemy. |
| Lightning.FirstIsNearest | src/systems/lightning.ts:14 | The first link is the live enemy nearest the tower, the first on ties; there is one exactly when some enemy lives. |
| Lightning.NextLink | src/systems/lightning.ts:86-105 | The next link is a live enemy not yet struck. |
| Lightning.NextLinkIsNearest | src/systems/lightning.ts:86-105 | The next link is the live, not-yet-struck enemy nearest the previous link by squared horizontal distance, the first on ties, and strictly within range. |
| Lightning.ChainIds | src/systems/lightning.ts:18-26 | The `hit` set is exactly the ids of the chain's links: every link's id is in it, and nothing else is. |
| Lightning.Extend | src/systems/lightning.ts:22-28 | The chain loop only appends, at most one link per turn. |
| Lightning.SelectChain | src/systems/lightning.ts:10-28 | The selected chain's links are indices into the enemy list. |
| Lightning.LinkedStep | src/systems/lightning.ts:23-27 | Appending the next link keeps the chain well formed. |
| Lightning.ExtendLinked | src/systems/lightning.ts:22-28 | The chain loop keeps the chain well formed: links live, ids distinct, each within range of the one before. |
| Lightning.ExtendStops | src/systems/lightning.ts:24 | The loop ends early only when no candidate is left within range. |
| Lightning.SelectChainValid | src/systems/lightning.ts:10-28 | The chain is empty exactly when nothing lives. Otherwise it starts at the live enemy nearest the tower and has at most `max(1, lightningChains)` links. Its links are live with distinct ids, each later one strictly within range of the one before, and it stops early only when no candidate remains. |
| Lightning.LinkedDistinct | src/systems/lightning.ts:18 | A well-formed chain never lists the same enemy twice. |
| Lightning.FindNearest | src/systems/lightning.ts:71-84 | The `findNearest` loop returns `First`. |
| Lightning.FindNearestExcluding | src/systems/lightning.ts:86-105 | The loop starting at the squared range returns `NextLink`. |
| Lightning.BuildChain | src/systems/lightning.ts:17-28 | The chain loop returns `Extend` of the first link by `lightningChains - 1` turns. |
| Lightning.Struck | src/systems/lightning.ts:31-44 | A struck link loses exactly the damage; its stun becomes `max(old, stun)`; it dies exactly when it was alive and drops to zero; its position is kept. |
| Lightning.Kill | src/systems/lightning.ts:35-37 | A strike counts one kill exactly when it is lethal. |
| Lightning.StrikeOne | src/systems/lightning.ts:31-44 | One link is struck in place; a kill adds one to `kills` and consumes two draws, and anything else consumes none. |
| Lightning.StrikeFirst | src/systems/lightning.ts:31-45 | Striking the first n links keeps the list length. |
| Lightning.StrikeOthers | src/systems/lightning.ts:31-45 | Enemies off the chain are untouched by the strike. |
| Lightning.StrikeKills | src/systems/lightning.ts:35-37 | Over distinct links, kills are exactly the links that were alive and reach zero hp, with two draws each. |
| Lightning.StrikeLink | src/systems/lightning.ts:31-44 | Over distinct links, each link is struck once, from its record before the strike. |
| Lightning.StrikeChain | src/systems/lightning.ts:31-45 | The damage loop leaves the enemies, the kill count and the draws as `StrikeFirst` of the whole chain. |
| Lightning.ChainPoints | src/systems/lightning.ts:48-51 | The arc has one point more than the chain, starting at the tower top. |
| Lightning.ChainPointsAt | src/systems/lightning.ts:49-51 | Each later point is the position of the link at that place. |
| Lightning.StrikeKeepsPositions | src/systems/lightning.ts:31-45 | The strike moves nobody. |
| Lightning.ArcPoints | src/systems/lightning.ts:48-51 | The loop that builds the arc returns `ChainPoints`. |
| Lightning.FireLightning | src/systems/lightning.ts:8-58 | The selected chain is struck and exactly one arc (chain length + 1 points, age 0, max age 0.25) is appended. With no live enemy nothing changes. |
| Lightning.StrikeEffect | src/systems/lightning.ts:30-45 | For a chain without repeats, each link loses exactly the damage and gets the stun maximum. Everyone else is untouched. Kills are the links that were alive and reach zero hp. |
| Lightning.AgeArcs | src/systems/lightning.ts:61-69 | Every surviving arc is younger than its maximum age, and no arc is added. |
| Lightning.AgeArcsMembers | src/systems/lightning.ts:64-66 | The survivors are exactly the aged arcs still younger than their maximum age. |
| Lightning.AgeArcsAppend | src/systems/lightning.ts:61-69 | Survivors keep their original order. |
| Lightning.SpliceStep | src/systems/lightning.ts:62-67 | One turn of the backwards loop extends the processed suffix by arc i, aged or spliced out. |
| Lightning.UpdateLightningArcs | src/systems/lightning.ts:61-69 | The backwards splice loop leaves exactly `AgeArcs` of the old arcs. |
| Damage.KillEnemy | src/systems/damage.ts:104-110 | The enemy becomes dead and `kills` grows by exactly one; nothing else changes. |
| Damage.KillTwice | src/systems/damage.ts:104-110 | There is no alive guard: killing the same enemy twice counts two kills. |
| Damage.SplashAmount | src/systems/damage.ts:80-85 | Inside the radius, splash damage lies in (0, damage/2] for positive damage. |
| Damage.SplashHit | src/systems/damage.ts:74-99 | Dead and excluded enemies are skipped. Enemies outside the radius are untouched. Others lose the falloff amount and die exactly when they reach zero, counted as one kill. |
| Damage.SplashAll | src/systems/damage.ts:67-102 | The splash is applied to every enemy independently; nobody is revived. |
| Damage.SplashOne | src/systems/damage.ts:74-100 | One loop turn applies `SplashHit` to one enemy and counts its kill. |
| Damage.ApplySplashDamage | src/systems/damage.ts:67-102 | The list becomes `SplashAll` and `kills` grows by exactly the deaths caused, so each enemy is killed at most once. |
| Damage.SplashKillsAtMostAlive | src/systems/damage.ts:75 | A splash kills no more enemies than were alive. |
| Damage.DirectHit | src/systems/damage.ts:43-65 | The hit enemy loses exactly the projectile's damage and dies exactly when it drops to zero. |
| Damage.ApplyDirectHit | src/systems/damage.ts:43-65 | The state gets the `DirectHit` record and one kill when it was lethal. |
| Damage.HitRadius | src/systems/damage.ts:18 | Arrows hit within 0.7, everything else within 1.0. |
| Damage.FirstHit | src/systems/damage.ts:20-24 | The first live enemy in list order within the hit radius, and none before it; or none at all. |
| Damage.Resolve | src/systems/damage.ts:5-38 | Resolving one projectile keeps the list length and revives nobody. Kills equal the deaths caused and dead enemies stay as they were. A projectile still alive afterwards changed nothing. |
| Damage.DeadProjectileSkipped | src/systems/damage.ts:6 | Dead projectiles are skipped. |
| Damage.GroundBurstRules | src/systems/damage.ts:9-15 | A grounded, falling, non-arcane projectile dies without a direct hit, with a splash radius it applies `SplashAll` to every enemy, sparing none; without one it changes no enemy. An arcane bolt touching nobody flies on. |
| Damage.DirectHitRules | src/systems/damage.ts:18-38 | At most one direct hit, on the first live enemy touched. It costs that enemy exactly the damage and ends the projectile. With a splash radius, the enemies then become `SplashAll` of the hit list, sparing the hit enemy's id. |
| Damage.ResolveFirst | src/systems/damage.ts:5-40 | After n projectiles, kills equal the deaths caused, later projectiles are unchanged, and surviving ones were not touched. |
| Damage.FindDirectHit | src/systems/damage.ts:20-37 | The inner scan returns `FirstHit`. |
| Damage.ResolveProjectile | src/systems/damage.ts:6-37 | One projectile's turn applies `Resolve` to the projectile, the enemies and the kill count. |
| Damage.HitAndSplash | src/systems/damage.ts:30-35 | A direct hit, then, for a splashing projectile, a splash that spares the hit enemy; kills equal the deaths caused. |
| Damage.CheckProjectileHits | src/systems/damage.ts:4-41 | The whole pass equals `ResolveFirst` over all projectiles. |
| Combat.NeighborsUpTo | src/systems/combat.ts:56-62 | The neighbour count never exceeds the number of enemies scanned. |
| Combat.NeighborsCountSet | src/systems/combat.ts:56-62 | The count is the number of other enemies within horizontal distance 5, each counted once. |
| Combat.BestFireballTarget | src/systems/combat.ts:45-77 | Any target is a member of the list. |
| Combat.BestFireballTargetRules | src/systems/combat.ts:45-77 | With at most two enemies, the nearest one. With more, the first enemy of greatest score `3·neighbours - 0.1·distance`. A target exists exactly when the list is not empty. |
| Combat.CountNeighbors | src/systems/combat.ts:56-62 | The inner loop returns `NeighborsUpTo` over the whole list. |
| Combat.FindBestFireballTarget | src/systems/combat.ts:51-76 | The running maximum from minus infinity returns `BestFireballTarget`. |
| Combat.Reload | src/systems/combat.ts:12-24 | A timer drops by dt, and once at or below zero it is reset to exactly the period. |
| Combat.FireballShots | src/systems/combat.ts:12-25 | At most one fireball per tick. |
| Combat.ArrowShots | src/systems/combat.ts:28-41 | At most one arrow per tick. |
| Combat.Volley | src/systems/combat.ts:12-41 | At most two shots per tick, with consecutive fresh ids, alive and aged 0. |
| Combat.VolleyRules | src/systems/combat.ts:12-41 | With live enemies, a fireball fires exactly when its timer runs out and an arrow exactly when its timer does, fireball first. |
| Combat.UpdateTowerCombat | src/systems/combat.ts:5-42 | A downed tower or no live enemy changes nothing, timers included. Otherwise both timers reload and the volley is appended after the untouched existing projectiles. |
| Combat.FireVolley | src/systems/combat.ts:11-41 | Both halves together reload both timers and append the volley. |
| Combat.FireballPhase | src/systems/combat.ts:11-25 | The fireball timer reloads with `1/fireRate`, and its shot is appended. |
| Combat.ArrowPhase | src/systems/combat.ts:27-41 | The arrow timer reloads with `1/arrowFireRate`, and its shot is appended. |
| Projectiles.LaunchConfigsMatchTables | src/entities/projectile.ts:19-47 | The launcher's configurations agree with the tuning tables. |
| Projectiles.FlightTime | src/entities/projectile.ts:71 | The horizontal flight time is distance over speed when the speed exceeds 0.1, and 1 otherwise; never negative. |
| Projectiles.EstimatedTime | src/entities/projectile.ts:66-76 | One step's time estimate is non-negative and at most the horizontal flight time. |
| Projectiles.InterceptStep | src/entities/projectile.ts:66-82 | One refinement aims half a unit above the target, at its own x and z when it does not move horizontally. |
| Projectiles.Intercept | src/entities/projectile.ts:63-85 | After at least one refinement the aim height is `targetPos.y + 0.5`. A horizontally still target is aimed at where it stands. |
| Projectiles.PredictIntercept | src/entities/projectile.ts:55-86 | The loop runs exactly three refinements. |
| Projectiles.LaunchAngle | src/entities/projectile.ts:108-110 | The launch angle stays in the window: the low end at the tower, the high end from 50 units out. |
| Projectiles.Lerp | src/entities/projectile.ts:109-110 | Interpolating with a factor in [0, 1] stays between the ends. |
| Projectiles.LaunchVelocity | src/entities/projectile.ts:116-124 | Upward speed is `sin(angle)·speed`. Beyond 0.1 of the tower axis, the horizontal part is the horizontal offset to the aim point rescaled to length `cos(angle)·speed`, so it points at the aim point. Within 0.1 it is zero. |
| Projectiles.ArcaneVelocity | src/entities/projectile.ts:159-171 | An arcane bolt leaves upward at 0.6 of its speed. Its horizontal drift is the offset to the target divided by its length (or by 1 for a zero length) times 0.4 of its speed: toward the target, at exactly 0.4 of the speed when the offset is not zero. |
| Projectiles.Shot | src/entities/projectile.ts:88-192 | Every new projectile is alive, aged 0, at the tower top, with its kind's damage, lifetime, splash and mass. Ballistic shots have no homing target; arcane bolts carry the given one. |
| Projectiles.ShotLaunchFacts | src/entities/projectile.ts:108-124 | A ballistic shot's angle lies in its kind's window. Its vertical speed is `sin(angle)·speed` and its horizontal speed at most `cos(angle)·speed`. |
| Projectiles.FireArcaneBolt | src/entities/projectile.ts:153-192 | One body added and one fresh id, returning the arcane `Shot`. |
| Projectiles.FireProjectile | src/entities/projectile.ts:88-151 | One body added and one fresh id, returning the `Shot` of the requested kind. |
| Projectiles.Nearest3D | src/entities/projectile.ts:205-218 | The retarget choice is a live enemy. |
| Projectiles.Nearest3DIsNearest | src/entities/projectile.ts:205-218 | The retarget is the first live enemy nearest by squared 3D distance; there is none exactly when no enemy lives. |
| Projectiles.FindNearest3D | src/entities/projectile.ts:205-213 | The search loop returns `Nearest3D`. |
| Projectiles.Homed | src/entities/projectile.ts:195-247 | Homing changes at most the target id and the velocity. |
| Projectiles.HomingRules | src/entities/projectile.ts:196-246 | Dead bolts, other kinds and bolts with no target are untouched. A bolt whose target is gone or dead takes the nearest live enemy's id, or none, without steering. A bolt with a live target keeps it. Within 0.1 of its aim point it is left alone; otherwise its velocity becomes `CapSpeed` of itself, so its speed is at most 12. |
| Projectiles.HomeOne | src/entities/projectile.ts:195-247 | One loop turn returns `Homed`. |
| Projectiles.UpdateArcaneHoming | src/entities/projectile.ts:194-248 | Every projectile is replaced by its `Homed` record against the current enemies. |
| Projectiles.Aged | src/entities/projectile.ts:251-257 | A live projectile ages by exactly dt and dies exactly when its age exceeds its maximum. Dead ones are untouched and never revived. |
| Projectiles.UpdateProjectiles | src/entities/projectile.ts:250-258 | Every projectile is replaced by its `Aged` record. |
| Projectiles.AgedNFacts | src/entities/projectile.ts:250-258 | A projectile still alive after n ticks was alive before and has aged by exactly n·dt. A dead one stays as it is. |
| Renderer.Select | src/systems/renderer.ts:254-264 | Selecting by a predicate keeps exactly the elements that match. |
| Renderer.SelectSplit | src/systems/renderer.ts:254-264 | Every element lands on exactly one side of the split. |
| Renderer.Partition | src/systems/renderer.ts:254-264 | Any split of a list into rejected and accepted parts has, as multisets, exactly the selected parts. |
| Renderer.SwapPop | src/systems/renderer.ts:258-259 | One removal shortens the array by one, drops exactly that element from the multiset, and keeps the prefix before it. |
| Renderer.Sweep | src/systems/renderer.ts:255-263 | The sweep keeps the scanned prefix; kept and removed elements together have the original length. |
| Renderer.SweepFacts | src/systems/renderer.ts:255-263 | Nothing kept matches the predicate and everything removed does. Together they form the original multiset, and the prefix already passed stays in place. |
| Renderer.SweepKept | src/systems/renderer.ts:257-261 | No kept element matches the predicate. |
| Renderer.SweepGone | src/systems/renderer.ts:257-259 | Every removed element matches the predicate. |
| Renderer.SweepCount | src/systems/renderer.ts:257-260 | Kept and removed elements together are the original multiset. |
| Renderer.SweepRemovesExactly | src/systems/renderer.ts:254-264 | As multisets, the sweep keeps exactly the non-matching elements and removes exactly the matching ones. The length drops by the number removed. |
| Renderer.SwapRemove | src/systems/renderer.ts:254-264 | The loop terminates and leaves `Sweep`: nothing left matches, and the remaining multiset is the original minus the matching elements. |
| Renderer.CleanupDeadEntities | src/systems/renderer.ts:234-251 | Both lists are swept. `removeBody` is called with the id of each swept enemy in sweep order, then with the id of each swept projectile, and for nothing kept. |
| Renderer.Registered | src/systems/renderer.ts:88-90 | The sync's registry bookkeeping touches only listed ids, and the last sighting of a projectile decides: its id ends up registered exactly when it was seen alive. |
| Renderer.RemoveBodies | src/systems/renderer.ts:238-246 | The world log gains exactly one `Removed` entry per id, in order. |
| Renderer.CleanupRules | src/systems/renderer.ts:236-250 | An enemy is removed exactly when it is dead and its mesh is gone, so no live enemy is ever removed. A projectile is removed exactly when it is dead and unregistered. |
| Renderer.RegisteredRules | src/systems/renderer.ts:88-90 | With distinct ids, after a sync a listed projectile is registered exactly when it is alive. Unlisted ids keep their registration. |
| Renderer.SyncThenSweep | src/systems/renderer.ts:62-95 | A sync followed by a sweep removes every dead listed projectile and keeps every live one. |
| LegacyEnemies.ConfigsPositive | src/enemies.ts:139-203 | Every enemy type has positive health, speed, damage, reward and scale, and none outlasts the boss. |
| LegacyEnemies.WaveCount | src/enemies.ts:340-369 | Each type's count is the sum over the push loops that push it. |
| LegacyEnemies.WaveComposition | src/enemies.ts:342-366 | Wave w has `5 + 2w` basics, `floor(1.5w)` fast from wave 2, `floor(0.5w) + floor(0.8w)` swarm from wave 3, `floor(0.4w)` tanks from wave 4, `floor(0.5w)` flyers from wave 5, `floor(0.3w)` shielded from wave 7, and one boss exactly when w is a positive multiple of 5. |
| LegacyEnemies.PushRepeated | src/enemies.ts:345 | One push loop appends exactly n copies of its type, and none for negative n. |
| LegacyEnemies.GetWaveEnemies | src/enemies.ts:340-369 | The push loops in program order build `WaveEnemies`. |
| LegacyEnemies.EnemyIds.constructor | src/enemies.ts:276 | The prototype's enemy id counter starts at 0. |
| LegacyEnemies.EnemyIds.Next | src/enemies.ts:276 | `nextEnemyId++` returns the old value and bumps the counter. |
| LegacyEnemies.Spawned | src/enemies.ts:244-292 | A spawned enemy is alive with all status effects clear and `health == maxHealth == floor(config.health · waveMultiplier)`, at least the base health for a multiplier of 1 or more. It stands at height 1 or more. |
| LegacyEnemies.SpawnEnemy | src/enemies.ts:238-293 | One body added, the next id taken, returning the `Spawned` record. |
| LegacyEnemies.UpdateEnemy | src/enemies.ts:295-338 | A dead enemy is unchanged and a stunned one only counts its stun down. Otherwise the slow timer runs down and resets the factor to 1 at zero; a burn costs exactly `burnDamage·dt`. Beyond 0.1 from the tower the velocity is the offset to the tower rescaled to length `speed·slowFactor`, pointing straight at it. The mesh follows the body (flyers bob). |
| LegacyEnemies.TickStatus | src/enemies.ts:303-310 | The slow timer runs down by dt and the factor returns to 1 once it reaches zero. While burning, health drops by exactly `burnDamage·dt`. Nothing else changes. |
| LegacyEnemies.SteerAtTower | src/enemies.ts:313-323 | Beyond 0.1 from the tower the velocity is the offset to the tower rescaled to length `speed·slowFactor`, pointing straight at it. Otherwise the enemy is unchanged. |
| LegacyAttacks.AttackConfigsWellFormed | src/attacks.ts:4-65 | Six attacks of pairwise distinct types, all at level 1, with positive cooldowns and ranges. |
| LegacyAttacks.Target | src/attacks.ts:67-87 | Any target is a live enemy. |
| LegacyAttacks.TargetRules | src/attacks.ts:67-87 | The target is a live enemy strictly within range, by mesh distance from the tower, and no farther than any live enemy, the first on ties. There is none exactly when no live enemy is in range. |
| LegacyAttacks.FindTarget | src/attacks.ts:67-87 | The running-minimum loop from `range` returns `Target`. |
| LegacyAttacks.InRadius | src/attacks.ts:89-98 | Exactly the live enemies strictly within the radius. |
| LegacyAttacks.InRadiusAppend | src/attacks.ts:94-97 | The filter keeps the original order. |
| LegacyAttacks.Jump | src/attacks.ts:131-140 | A jump lands on a live, unvisited enemy. |
| LegacyAttacks.JumpRules | src/attacks.ts:131-140 | The jump lands strictly within 10 of the last link, on the live, unvisited enemy nearest to it by mesh distance; there is none exactly when no candidate is within 10. |
| LegacyAttacks.Chain | src/attacks.ts:126-146 | At most `count` links, all indices into the list. |
| LegacyAttacks.ChainHops | src/attacks.ts:130-146 | The chain loop produces valid jumps: each alive, unvisited, and within 10 of the previous position. |
| LegacyAttacks.HopsRules | src/attacks.ts:130-146 | Valid jumps are alive, outside the visited set and pairwise distinct, each within 10 of the link before it. |
| LegacyAttacks.ChainRules | src/attacks.ts:126-146 | The chained enemies are alive, unvisited and pairwise distinct, each within 10 of the previous link. |
| LegacyAttacks.FindJump | src/attacks.ts:131-140 | The inner running-best loop from 10 returns `Jump`. |
| LegacyAttacks.CreateLightningProjectile | src/attacks.ts:100-158 | The bolt carries the chain of `2 + level` rounds from the primary target (excluded from the start), no velocity, and a 0.15 s lifetime. |
| LegacyAttacks.ChainNext | src/attacks.ts:130-146 | A round without a jump changes nothing; a jump adds its enemy and moves on from it. |
| LegacyAttacks.LightningChainRules | src/attacks.ts:126-146 | At most `2 + level` chain targets, pairwise distinct, never the primary target, all alive, each within 10 of the link before it. |
| LegacyAttacks.SquareZero | src/attacks.ts:179 | A coordinate whose square is zero is zero. |
| LegacyAttacks.Toward | src/attacks.ts:179-186 | `normalize()` then scale: the offset to the target rescaled to length `speed`, pointing at the target; zero for a zero offset. |
| LegacyAttacks.FireballShot | src/attacks.ts:160-192 | A fireball flies at speed 20 along the offset from its start to the target's mesh, with `aoeRadius = 4 + level` and a 3 s lifetime. |
| LegacyAttacks.LaserShot | src/attacks.ts:194-215 | A laser is still, without area, and lives 0.3 s. |
| LegacyAttacks.MeteorShot | src/attacks.ts:217-256 | A meteor starts 30 above its target and falls at 25 per second, with `aoeRadius = 6 + level` and a 2 s lifetime. |
| LegacyAttacks.VortexEffect | src/attacks.ts:258-290 | A vortex has no target and no damage, with `aoeRadius = 12 + 2·level` and a 2 s lifetime. |
| LegacyAttacks.LightningShotWellFormed | src/attacks.ts:148-157 | The lightning bolt has the shape every constructor gives its record. |
| LegacyTower.CreateTowerState | src/tower.ts:5-21 | Level 1 with `health == maxHealth == 100`. No gold, kills, wave or remaining enemies; wave timer 0, wave inactive, auto-upgrade off. The attacks are the attack table, the first one active, with one zero timer per attack. |
| LegacyTower.Pow | src/tower.ts:107 | A positive base to any integer power is positive. |
| LegacyTower.PowMono | src/tower.ts:107 | For a base of at least 1, powers grow with the exponent, from 1 up. |
| LegacyTower.CostGrows | src/tower.ts:106-112 | `base · b^(level-1)` is at least base and grows with the level. |
| LegacyTower.UpgradeCostRules | src/tower.ts:106-108 | The tower upgrade costs 50 at level 1, at least 50 at every level, and never less at a higher level. |
| LegacyTower.AttackUpgradeCostRules | src/tower.ts:110-112 | An attack upgrade costs 30 at level 1, at least 30 at every level, and never less at a higher level. |

## Left out

- Rendering, meshes, particles, health bars, the HUD, the DOM and the banner timer are not modelled. This covers `src/systems/meshes.ts`, `src/systems/scene.ts`, `src/scene.ts`, `src/systems/hud.ts`, `src/ui.ts`, the mesh builders of `src/enemies.ts`, `createTowerMesh`/`animateTower`, the line and ring geometry of `src/attacks.ts`, and `createParticleExplosion`/`updateParticles`. They are display code with no simulation state.
- The `sync*` functions of the renderer are not modelled, except the projectile-registry bookkeeping of `syncProjectiles` (`Renderer.Registered`). The enemy mesh registry enters `cleanupDeadEntities` as a set of ids.
- The physics engine (cannon-es) is outside the model: `createPhysicsWorld`, collision groups, integration, and every force, impulse, orientation, damping and angular velocity.
  - The walking and steering forces of walkers, minions and arcane bolts are not modelled, and neither is the gravity cancel of arcane bolts.
  - Knockback, splash shockwave, bonk push and death-launch impulses are not modelled either.
  - A body is its position, velocity and mass. Only velocities the simulation sets or rescales directly are modelled.
  - The world is a log of `addBody`/`removeBody` calls by entity id. For that reason the order of id allocation and `addBody` inside a spawn is not observable.
- Floating point is modelled as exact real arithmetic: no rounding, no NaN or infinity. `Math.floor` is `.Floor`, and `Math.pow` is an exact power.
- `Math.sqrt`, `Math.cos` and `Math.sin` are passed-in functions. Square root is constrained to the non-negative root (`IsSqrt`). Cosine and sine are only bounded to [-1, 1] (`ValidMath`), so angle-dependent quantities are stated in terms of `cos(angle)` and `sin(angle)`.
- `Math.random` values enter through `Rng`. Draws that feed only the physics engine or visuals are not modelled: death launch, spin, spawn-sphere radius and angles, and jitter. The legacy spawn point is a parameter of `LegacyEnemies.Spawned`.
- The legacy flyer's bob reads `Date.now()`, which is a `clock` parameter of `LegacyEnemies.UpdateEnemy`.
- The legacy prototype's enemies and projectiles refer to each other by id rather than by object reference.
- The repository has no main loop in the modelled files. The order in which the systems run within one frame is not modelled; each system is a separate operation on `GameState`.
- `Projectiles.LaunchVelocity`: the source computes `(pdx / dist) * hSpeed`; the model computes `pdx * (hSpeed / dist)`. These are equal over the reals.
- `Projectiles.EstimatedTime`, `Projectiles.InterceptStep`, `Projectiles.Intercept`, `Projectiles.PredictIntercept`: these require positive gravity. The source always passes 20.
- `Combat.UpdateTowerCombat`, `Combat.FireVolley`, `Combat.FireballPhase`, `Combat.ArrowPhase`: these require positive fire rates, which the initial tower has and nothing changes. With a zero rate the source would divide by zero and reset the timer to infinity.
- `Waves.UpdateWaves`, `Waves.SpawnPhase`, `Waves.SpawnTick`: these require `0 <= enemiesSpawned <= enemiesTotal`. The initial wave establishes it and every call preserves it. It keeps the `spawned / total` division away from a zero total.
- `EnemyAI.UpdateEnemies`: this requires non-negative walker speeds, which `spawnEnemy` guarantees (speeds are drawn from [3, 4.5)).
- `Lightning.StrikeEffect`, `Lightning.StrikeKills`, `Lightning.StrikeLink`: these state the per-link effect for chains without repeated links. Every chain `fireLightning` selects has that property (`Lightning.SelectChainValid`, `Lightning.LinkedDistinct`).
- `Minions.MoveToward`: the speed cap uses the velocity the body already has, because forces take effect only at the engine's next step.
- `EnemyAI.StepEnemy`: the same applies to the speed cap here.
- `Renderer.SyncThenSweep`: this requires distinct projectile ids, which the id counter guarantees.
- `Renderer.RegisteredRules`: this also requires distinct projectile ids.
- `EnemyAI.SpawnEnemy`: the walker's `stunTimer` starts at 0, where the source leaves it undefined and the first lightning strike turns it into NaN. NaN is outside the exact-real model, and no modelled code reads the field.
- `LegacyTower.UpgradeCost`, `LegacyTower.AttackUpgradeCost`: their properties are stated as the lemmas `UpgradeCostRules` and `AttackUpgradeCostRules` rather than as `ensures`. Floating-point `Math.pow` can round; the exact power is modelled.
