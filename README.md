# Space Flapper gameplay rules in Dafny

A model of the rules of Space Flapper, a scrolling arcade game. The player's
ship flies between pipes, shoots enemies, gates and UFOs, and collects
power-ups. Its shields absorb hits, and its score rises with every pipe passed
and every kill. The model covers the parts of `space_flapper.py` that work on
integer or enumerated state against millisecond timestamps:

- the weapon state machine: ammo, cooldowns, charging, the spread quirk, and the nuke slot;
- the bullet stat table;
- the ship's shields, invincibility, trigger and nuke detonation;
- the small entity steps: pipes, enemies, gates, power-ups and explosions;
- difficulty levels and spawn timers;
- rectangle collisions;
- the top-level session that `main` keeps in local variables: the game state, score, high score, entity lists, spawn timers and charging flag, with the key handlers and frame passes that update them.

Modules, in dependency order:

- `Lists`: Python's `list.remove` (`RemoveFirst`) and filtering a list through a mask (`KeepIf`), with their lemmas.
- `Weapons`: `WeaponType`, `Ammo` (`Infinite | Finite(n)` for the default gun's infinite ammo), the stat table, and the `Bullet` and `Weapon` classes.
- `Entities`: the screen size, the `Rgb` colour type, and the `Pipe`, `Enemy`, `Ufo`, `Gate` and `Explosion` classes.
- `Player`: the `Bird` class (the ship), its hit rule as a value function (`AfterHit`), and the nuke blast passes.
- `PowerUps`: the `PowerUp` class and the power-up spawn timer.
- `Difficulty`: the level, gap size, background colour and spawn timers.
- `Collision`: integer rectangles, overlap, and the pipe collision test.
- `Scroll`: the scrolling passes over the pipe, enemy, gate and power-up lists.
- `Contacts`: which entities touch the ship or a bullet, and what a frame's power-up pick-ups do.
- `Game`: the `Session` class, holding `main`'s state with its key handlers and frame passes.
- `Scenarios`: worked plays with concrete outcomes.

Random choices are parameters, and so is time (`now`, in milliseconds):
- the gap height;
- enemy heights and speeds;
- the power-up kind and height;
- the gate height;
- the UFO roll and height;
- the UFO drop.

Where the code and the game's stated rules disagree, the model follows the code:
- **Hits to die.** A full ship dies on the fourth hit, not the third (`Scenarios.HitsToDie`).
- **Spread gun's last round.** The weapon's own `shoot` with one round left fires five shots. It leaves ammo at -1, turns the gun into a default one and signals no reset (`Scenarios.GunSpreadLastRound`). The ship's trigger fires three shots and does signal a reset (`Scenarios.ShipSpreadLastRound`).
- **Nuke ammo.** Nuke ammo is spent when the nuke goes off, not when it is launched.
- **Nuke blast.** The blast is limited to its radius; it does not clear the whole screen.
- **Nuke against a gate or a UFO.** A nuke that meets a gate, or comes within reach of a UFO, is removed like any shot instead of going off. The ship's record of its launched nuke is not cleared, so the nuke weapon can neither set it off nor launch another (see Findings). The as-written passes are `BulletHitsGateAsWritten` and `BulletHitsUfoAsWritten`; the rest of the model uses the corrected `BulletHitsGate` and `BulletHitsUfo`, which clear the record.
- **UFO drops.** A downed UFO never drops a nuke pick-up.
- **Negative ammo.** Ammo can go below zero.

## Model

| member | source | states |
|---|---|---|
| Lists.RemoveFirst | space_flapper.py:611 | removing a present value shortens the list by one; removing an absent one leaves it; nothing new appears |
| Lists.RemoveFirstMultiset | space_flapper.py:611 | `list.remove` takes away exactly one occurrence of the value |
| Lists.RemoveFirstDistinct | space_flapper.py:1416-1418 | from a list without repeats, removal leaves the value absent and the list still without repeats |
| Lists.RemoveFirstKeepsOthers | space_flapper.py:1396-1397 | removing one value keeps every other member |
| Lists.KeepIfMembers | space_flapper.py:1322-1325 | filtering a list without repeats keeps exactly the marked members |
| Weapons.StartingAmmo | space_flapper.py:63-77 | only the default gun has infinite ammo; every other starts positive, nukes with 3 |
| Weapons.CooldownOf | space_flapper.py:63-77 | cooldowns lie in 100..1000 ms; 1000 exactly for the nuke, 100 exactly for the laser |
| Weapons.NextCharge | space_flapper.py:86-89 | a charge tick keeps the level even in 0..100, raises it by at most 2, and stalls only at 100 |
| Weapons.ChargeAfterTicks | space_flapper.py:86-89 | after n ticks from 0 the level is min(100, 2n) |
| Weapons.StatsFor | space_flapper.py:196-233 | every shot moves and does at least 1 damage; 100 damage exactly for the nuke; box shape exactly for default and laser; charge shots have radius 10..20 and damage 2..6, the maximum at full charge |
| Weapons.ChargeStatsMatchRealFormula | space_flapper.py:209-212 | on every charge level the integer stats equal the truncated real-number formulas |
| Weapons.ChargeStatsMonotone | space_flapper.py:209-212 | more charge never gives less damage or a smaller shot |
| Weapons.BurstAngles | space_flapper.py:147-159 | at 80 or more, 16 shots at 22.5·i degrees, all distinct, ascending and within a turn; otherwise one straight shot |
| Weapons.VolleyAngles | space_flapper.py:175-180 | the gun's own volley is five ascending angles within ±30° for spread, and a single shot otherwise |
| Weapons.Volley | space_flapper.py:151-154 | one new, distinct bullet per angle, each with the stats of its kind and charge |
| Weapons.Bullet.constructor | space_flapper.py:196-233 | a bullet takes its position, kind and angle, and its stats from the table |
| Weapons.Weapon.constructor | space_flapper.py:57-78 | a new weapon has its type's ammo and cooldown, no charge, and has never fired |
| Weapons.Weapon.StartCharging | space_flapper.py:80-84 | only an idle charge weapon starts charging, from level 0 with the cue clock at `now`; otherwise nothing changes |
| Weapons.Weapon.UpdateCharge | space_flapper.py:86-94 | while charging, the level takes one charge step; the cue fires exactly when 100 ms have passed since the last one |
| Weapons.Weapon.ReleaseCharge | space_flapper.py:133-165 | releasing always stops charging. Below 20 the level is dropped and nothing fires. With ammo and the cooldown elapsed, a burst or single shot fires, one round is spent, the level resets and a reset is signalled iff ammo ≤ 0. Otherwise the level is kept |
| Weapons.Weapon.Shoot | space_flapper.py:167-193 | after the cooldown, with ammo: fires the volley and spends a round. Spread spends a second round and turns default at ≤ 0. The reset flag is `ammo == 0`. Otherwise nothing changes |
| Entities.Pipe.constructor | space_flapper.py:764-769 | a pipe enters at the right edge, unpassed, with the given gap |
| Entities.Pipe.Update | space_flapper.py:771-772 | a pipe moves left by the pipe speed |
| Entities.Enemy.constructor | space_flapper.py:673-683 | an enemy enters at the right edge at the given height and speed |
| Entities.Enemy.Update | space_flapper.py:685-686 | an enemy moves left by its speed |
| Entities.Ufo.constructor | space_flapper.py:784-798 | a UFO starts at the given point with 3 health |
| Entities.Gate.constructor | space_flapper.py:712-722 | a gate enters at the right edge with 4 health, intact |
| Entities.Gate.Hit | space_flapper.py:724-732 | health drops by the damage, the flash restarts, and the result is true iff health ≤ 0, which destroys the gate |
| Entities.Gate.Update | space_flapper.py:734-735 | a gate moves left by 3 and nothing else about it changes |
| Entities.Explosion.constructor | space_flapper.py:905-914 | an explosion starts at radius 0 and full alpha, unfinished |
| Entities.Explosion.Update | space_flapper.py:916-924 | it grows by 20 until the radius is reached, then fades by 3; each update of an unfinished explosion brings it one step nearer the end, and it is finished exactly when no steps remain |
| Player.ShieldColor | space_flapper.py:403-412 | red exactly when shields are not 1, 2 or 3; full red channel unless at 3 shields |
| Player.HullMatchesHud | space_flapper.py:335-339 | the ship's colour matches the shield indicator's colour, and different shield counts give different colours |
| Player.FatalHit | space_flapper.py:378-390 | a hit is fatal exactly when the ship is not invincible and has no shields |
| Player.HitKeepsShieldRange | space_flapper.py:386-401 | a hit keeps shields in 0..3 and costs at most one |
| Player.SecondHitIsHarmless | space_flapper.py:378-395 | a second hit at the same moment changes nothing |
| Player.EnemiesOutside | space_flapper.py:584-589 | exactly the enemies outside the blast are left, in order |
| Player.EnemiesOutsideDistinct | space_flapper.py:584-589 | the enemies left after a blast contain no repeats |
| Player.UfosOutside | space_flapper.py:593-598 | exactly the UFOs outside the blast are left, in order |
| Player.GatesNewlyInBlast | space_flapper.py:604-608 | counts the intact gates within reach; zero exactly when none is |
| Player.BlastEnemies | space_flapper.py:584-590 | removes the enemies in the blast and scores one kill per enemy removed |
| Player.BlastUfos | space_flapper.py:593-601 | removes the UFOs in the blast and scores two kills per UFO removed |
| Player.BlastGates | space_flapper.py:604-608 | destroys exactly the gates within reach and scores one kill per gate newly destroyed |
| Player.Blast | space_flapper.py:579-608 | the three blast passes together, with their kill total |
| Player.Bird.constructor | space_flapper.py:298-341 | a new ship has 3 shields, a default gun, no nuke and no invincibility |
| Player.Bird.Reset | space_flapper.py:343-356 | a reset ship is in the same state as a new one |
| Player.Bird.Rearm | space_flapper.py:1251-1252 | a spent weapon is replaced by a new default gun; nothing else changes |
| Player.Bird.Color | space_flapper.py:403-412 | red exactly at 0 shields, green exactly at full shields |
| Player.Bird.Update | space_flapper.py:374-376 | invincibility lapses exactly when 1000 ms have passed since the hit |
| Player.Bird.TakeHit | space_flapper.py:378-401 | while invincible a hit changes nothing. Without invincibility, at 0 shields the hit is fatal; otherwise it costs exactly one shield and starts invincibility at `now` |
| Player.Bird.Shoot | space_flapper.py:515-545 | before the cooldown nothing changes. A nuke weapon with no nuke out launches one into the slot without spending ammo. Other weapons fire their volley; non-default ones spend a round and signal a reset iff ammo ≤ 0. A charge weapon or a nuke already out fires nothing but still spends a round |
| Player.BirdVolleyAngles | space_flapper.py:526-535 | the ship fires three spread shots at -15, 0 and 15 degrees, one straight shot for default and laser, and nothing for charge or nuke |
| Player.Bird.StartCharging | space_flapper.py:547-548 | the ship's charge start is the weapon's |
| Player.Bird.UpdateCharge | space_flapper.py:550-551 | while charging, the level takes one charge step, the cue fires exactly when 100 ms have passed since the last one, and the cue clock moves to `now` only on a cue; otherwise nothing changes |
| Player.Bird.ReleaseCharge | space_flapper.py:553-560 | a charge weapon releases, and one that reports itself spent is replaced by a default gun; other weapons do nothing |
| Player.Bird.DetonateNuke | space_flapper.py:573-619 | with no nuke out, or one no longer in the list, nothing changes and no kills are scored. Otherwise the nuke leaves the list and the slot is cleared. Enemies and UFOs in the blast are removed and gates in reach destroyed. Kills are enemies + 2·UFOs + newly destroyed gates; one round is spent and a reset is signalled iff ammo ≤ 0 |
| Player.Bird.Detonate | space_flapper.py:574-618 | the detonation itself, including the explosion it leaves where the nuke was |
| PowerUps.WeaponFor | space_flapper.py:668-670 | a weapon pick-up never hands out the default gun |
| PowerUps.WeaponForInjective | space_flapper.py:668-670 | different weapon pick-ups hand out different weapons |
| PowerUps.PowerUp.constructor | space_flapper.py:622-628 | a pick-up starts at the given point, uncollected, of size 20 |
| PowerUps.PowerUp.Update | space_flapper.py:642-647 | an uncollected pick-up moves left by 2 and reports whether it is past the left edge |
| PowerUps.PowerUp.Collect | space_flapper.py:661-670 | a shield pick-up adds one shield up to the maximum; any other gives a new weapon of the matching type |
| PowerUps.SpawnPowerup | space_flapper.py:1125-1137 | once 8000 ms have passed, a pick-up appears at the right edge and the timer restarts; otherwise nothing |
| Difficulty.LevelOf | space_flapper.py:977 | the level is the number of whole hundreds in the score |
| Difficulty.GapSize | space_flapper.py:980 | the gap lies in 100..220, shrinks by 20 per level and is 100 exactly from score 600 |
| Difficulty.GapSizeMonotone | space_flapper.py:980 | a higher score never widens the gap |
| Difficulty.LevelMonotone | space_flapper.py:977 | a higher score never lowers the level |
| Difficulty.Background | space_flapper.py:983-994 | black at level 0, red from level 5 on |
| Difficulty.BackgroundsDistinct | space_flapper.py:983-994 | levels 0 to 5 each have their own background |
| Difficulty.HalfGap | space_flapper.py:1002 | the half gap lies between 50 and 110 |
| Difficulty.GapRangeNonEmpty | space_flapper.py:1003 | the gap centre's range always has a member and lies within 100..500 |
| Difficulty.DueBoundary | space_flapper.py:1288 | pipe, enemy and gate timers fire strictly after their interval; the power-up timer fires at exactly 8000 ms |
| Collision.OverlapsSymmetric | space_flapper.py:1010-1011 | rectangle overlap is symmetric |
| Collision.OverlapsMeansSharedPixel | space_flapper.py:1010-1011 | two rectangles overlap exactly when they share a pixel |
| Collision.ShipBox | space_flapper.py:562-566 | the ship's collision box is a square of side 24 centred on the ship |
| Collision.ShipSquare | space_flapper.py:1342 | the pick-up and enemy test uses a 30-pixel square whose top left is the ship's position |
| Collision.CheckCollision | space_flapper.py:1006-1017 | a pipe hit needs the ship's box to overlap the pipe's columns; for a ship on screen, the ship hits a pipe exactly when its box overlaps the pipe's columns and reaches past either gap edge |
| Collision.OffScreenPowerUpUntouchable | space_flapper.py:1339-1343 | a pick-up past the left edge cannot touch the ship |
| Scroll.NewlyPassed | space_flapper.py:1326-1328 | at most one point per pipe; none exactly when no unpassed pipe crosses the ship's column |
| Scroll.PassPipe | space_flapper.py:1323-1328 | a pipe moves, and scores and is marked passed exactly when it is newly left of the ship |
| Scroll.MovePipes | space_flapper.py:1322-1328 | every pipe moves and is marked passed once it is left of the ship; the points equal the newly passed pipes |
| Scroll.PipesOnScreenMembers | space_flapper.py:1324-1325 | exactly the pipes whose right edge is on screen stay, without repeats |
| Scroll.MoveEnemies | space_flapper.py:1331-1332 | every enemy moves left by its own speed |
| Scroll.EnemiesOnScreenMembers | space_flapper.py:1333-1334 | exactly the enemies whose right edge is on screen stay, without repeats |
| Scroll.MoveGates | space_flapper.py:1348-1349 | every gate moves left by 3 and keeps its health and state |
| Scroll.GatesOnScreenMembers | space_flapper.py:1350-1351 | exactly the gates whose right edge is on screen stay, without repeats |
| Scroll.MovePowerUps | space_flapper.py:1337-1338 | every uncollected pick-up moves left by 2 |
| Contacts.PipeContacts | space_flapper.py:1422-1423 | marks exactly the pipes the ship touches |
| Contacts.EnemyContacts | space_flapper.py:1431-1433 | marks exactly the enemies the ship touches |
| Contacts.GateContacts | space_flapper.py:1352-1354 | marks exactly the intact gates the ship touches |
| Contacts.PowerUpMask | space_flapper.py:1339-1345 | keeps exactly the pick-ups that are on screen and not touched |
| Contacts.PowerUpsLeftMembers | space_flapper.py:1339-1345 | exactly the on-screen, untouched pick-ups stay, without repeats |
| Contacts.ShieldsAfterCapped | space_flapper.py:663-665 | a frame's shield pick-ups add one shield each, capped at 3 |
| Contacts.PickupsSplit | space_flapper.py:663-670 | every pick-up is either a shield or a weapon |
| Contacts.CollectTouched | space_flapper.py:1342-1345 | the ship collects exactly the touched pick-ups, in order; shields follow the capped count, and the weapon is the last weapon pick-up's, or unchanged if there was none |
| Contacts.BulletBox | space_flapper.py:280-294 | every bullet's collision box is non-empty |
| Contacts.BulletMask | space_flapper.py:1441-1445 | keeps exactly the bullets not past the right edge, and the launched nuke |
| Contacts.BulletsLeftMembers | space_flapper.py:1441-1445 | a bullet stays exactly when it is not past the right edge or is the launched nuke |
| Game.Session.constructor | space_flapper.py:1207-1212 | the game starts at the menu with an empty round and a high score of 0 |
| Game.Session.ResetGame | space_flapper.py:1019-1034 | a new round: a new ship, empty lists, score 0 and every spawn timer at `now`; state and high score untouched |
| Game.Session.ClearRound | space_flapper.py:1021-1033 | the lists are emptied, the score zeroed and the timers restarted |
| Game.Session.PressSpace | space_flapper.py:1235-1242 | space moves the menu to play and game over to a new round in play; during play it changes nothing |
| Game.Session.PlayerHit | space_flapper.py:1355-1359 | a hit follows the ship's hit rule; a fatal one records max(score, high score) and ends the game; the high score never drops |
| Game.Session.SpawnPipe | space_flapper.py:1288-1293 | strictly after 1500 ms a pipe with the level's half gap is appended and the timer restarts; otherwise nothing |
| Game.Session.SpawnEnemy | space_flapper.py:1296-1298 | strictly after 2000 ms an enemy is appended and the timer restarts; otherwise nothing |
| Game.Session.SpawnPowerup | space_flapper.py:1301-1303 | the power-up timer's pick-up, if any, is appended |
| Game.Session.SpawnGate | space_flapper.py:1306-1308 | strictly after 6000 ms a gate is appended and the timer restarts; otherwise nothing |
| Game.Session.SpawnUfo | space_flapper.py:1311-1316 | with no UFO, a score above 5 and a successful roll, a UFO appears; the UFO timer restarts every frame |
| Game.Session.FireWeapon | space_flapper.py:1253-1258 | the ship's shot joins the bullet list, and a weapon that reports itself spent is replaced |
| Game.Session.DetonateActiveNuke | space_flapper.py:1247-1252 | with the nuke in flight: it leaves the list and the slot; the enemies and UFOs in the blast leave their lists; exactly the intact gates in reach are destroyed, and no gate moves or loses health; the ship's shields and invincibility stay; kills are enemies + 2·UFOs + newly destroyed gates, five points each; one nuke round is spent and a weapon with none left is replaced by a new default gun. Otherwise nothing changes |
| Game.Session.Blast | space_flapper.py:1249-1250 | the detonation on the session's lists: survivors replace the lists, exactly the intact gates in reach are destroyed with no other change to any gate, the ship's shields and invincibility stay, five points per kill, one nuke round spent and a reset signalled iff none is left |
| Game.Session.PressFire | space_flapper.py:1243-1258 | outside play nothing happens. A charge weapon starts charging. A nuke out and in flight is set off: the enemies and UFOs outside the blast stay, exactly the intact gates in reach are destroyed, the ship's shields and invincibility stay, the kills score five each, one nuke round is spent and a spent weapon becomes a new default gun; a nuke out but no longer in flight changes nothing. Any other weapon fires as the ship's trigger does: nothing before the cooldown, nothing without ammo, otherwise the ship's volley (a single nuke launched ahead of the ship, without spending ammo), one round spent except by the default gun, and a new default gun when the ammo runs out |
| Game.Session.ReleaseFire | space_flapper.py:1260-1266 | releasing after a charge start fires the charge and clears the flag; otherwise nothing |
| Game.Session.HoldFire | space_flapper.py:1273-1281 | outside play, during a charge, or with a nuke weapon, nothing happens. A held key starts an idle charge weapon. Any other weapon fires as the ship's trigger does: nothing before the cooldown, nothing without ammo, otherwise the ship's volley, one round spent except by the default gun, and a new default gun when the ammo runs out |
| Game.Session.ChargeTick | space_flapper.py:1284-1285 | while charging, the weapon takes one charge step and the cue fires exactly when 100 ms have passed since the last one |
| Game.Session.ScrollPipes | space_flapper.py:1322-1328 | pipes move, newly passed ones score one point each, and exactly the on-screen ones stay |
| Game.Session.DropPipes | space_flapper.py:1324-1325 | exactly the on-screen pipes stay |
| Game.Session.ScrollEnemies | space_flapper.py:1331-1334 | enemies move and exactly the on-screen ones stay |
| Game.Session.TakeHits | space_flapper.py:1422-1428 | the ship takes a hit iff anything touches it; the hit follows the hit rule |
| Game.Session.PipeCollisions | space_flapper.py:1422-1428 | the ship is hit iff it touches a pipe |
| Game.Session.EnemyCollisions | space_flapper.py:1431-1438 | the ship is hit iff it touches an enemy |
| Game.Session.ScrollGates | space_flapper.py:1348-1359 | gates move, exactly the on-screen ones stay, and the ship is hit iff it touches an intact gate |
| Game.Session.ShiftGates | space_flapper.py:1348-1351 | gates move and exactly the on-screen ones stay |
| Game.Session.ScrollPowerUps | space_flapper.py:1337-1345 | pick-ups move; the touched ones are collected and leave; exactly the on-screen untouched ones stay; shields and weapon follow the pick-ups |
| Game.Session.MoveAndCollect | space_flapper.py:1337-1345 | pick-ups move and the touched ones are applied to the ship, in order |
| Game.Session.DropPowerUps | space_flapper.py:1339-1345 | exactly the on-screen, untouched pick-ups stay |
| Game.Session.DropBullet | space_flapper.py:1396-1397 | a spent shot leaves the list, and if it is the launched nuke the slot is cleared, so the slot only ever holds a nuke in flight |
| Game.Session.DropBulletAsWritten | space_flapper.py:1396-1397 | removing the launched nuke as the gate and UFO checks do leaves the slot holding a nuke no longer in flight |
| Game.Session.PruneBullets | space_flapper.py:1441-1445 | a bullet stays exactly when it is not past the right edge or is the launched nuke |
| Game.Session.BulletHitsGate | space_flapper.py:1391-1398 | corrected gate check: a shot hits iff it overlaps an intact gate; the gate takes its damage, a destroyed gate scores 5, the shot is spent, and a spent launched nuke is cleared from the ship's record |
| Game.Session.BulletHitsGateAsWritten | space_flapper.py:1391-1398 | the gate check as written: the same hit, damage, score and removal, with the ship left untouched, so a launched nuke that hits a gate leaves the record naming a shot no longer in flight |
| Game.Session.BulletHitsEnemy | space_flapper.py:1401-1418 | a shot hits iff it overlaps the enemy. The launched nuke in flight goes off with the full detonation effect: survivors, destroyed gates, kill count, five points per kill, one round spent and a new default gun when none is left; a launched nuke no longer in the list changes nothing. Any other shot scores twice its damage and removes itself and the enemy |
| Game.Session.ShotKillsEnemy | space_flapper.py:1411-1418 | an ordinary hit scores twice the damage and removes the shot and the enemy |
| Game.Session.BulletHitsUfo | space_flapper.py:1369-1386 | corrected UFO check: a shot hits iff it is within radius + 5; the shot is spent and a spent launched nuke is cleared from the ship's record; the UFO loses one health; at 0 it leaves, scores 10 and drops a pick-up where it was |
| Game.Session.BulletHitsUfoAsWritten | space_flapper.py:1369-1386 | the UFO check as written: the same hit, damage, score and drop, with the ship left untouched, so a launched nuke that reaches a UFO leaves the record naming a shot no longer in flight |
| Scenarios.DefaultCooldown | space_flapper.py:515-527 | a default shot 400 ms after another yields nothing, and ammo stays infinite |
| Scenarios.ChargeToTheTop | space_flapper.py:86-89 | fifty ticks charge to 100 |
| Scenarios.HitsToDie | space_flapper.py:378-401 | with invincibility lapsing between hits, three hits cost a shield each and the fourth kills |
| Scenarios.InvincibleWindow | space_flapper.py:374-381 | a hit 500 ms after another costs nothing |
| Scenarios.ShipSpreadLastRound | space_flapper.py:529-542 | the ship's last spread round fires three shots and asks for a reset |
| Scenarios.GunSpreadLastRound | space_flapper.py:171-185 | the gun's own last spread round fires five shots, leaves ammo at -1, turns default, and signals no reset |
| Scenarios.ExplosionLifetime | space_flapper.py:916-924 | a nuke's explosion finishes after exactly 87 updates |
| Scenarios.GateUnderFire | space_flapper.py:724-732 | a gate falls on the fourth default hit |
| Scenarios.NukeLostToGate | space_flapper.py:1391-1397 | after a nuke is removed by the gate check, the fire key neither sets anything off nor launches |
| Scenarios.NukeClearedByGate | space_flapper.py:1391-1397 | with the slot cleared, the fire key launches a new nuke |
| Scenarios.NukeLostToUfo | space_flapper.py:1369-1375 | after a nuke is removed by the UFO check, the fire key neither sets anything off nor launches |
| Scenarios.NukeClearedByUfo | space_flapper.py:1369-1375 | with the slot cleared, the fire key launches a new nuke |
| Scenarios.LaserHeldDown | space_flapper.py:1276-1281 | a held key with a laser fires one shot and spends one of its fifty rounds, then fires nothing 50 ms later inside the cooldown |

## Left out

- Drawing, fonts, the title screen and all sound, including `create_sounds.py`: output only.
- Flapping, gravity and the ship's vertical motion (`Bird.flap`, the first half of `Bird.update`): floating-point motion. The ship's height is a field that no operation changes.
- Bullet flight (`Bullet.update`, `is_off_screen`): cosine and sine of real angles. Bullet positions are fields.
- UFO movement, its own shots, its off-screen removal and its flash timer (`UFO.update`, lines 1362-1366): floating-point motion and randomness.
- Stars: decoration.
- The event queue and the clock: key presses are method calls, and time is the `now` parameter.
- Random choices: they are parameters of the methods that use them.
- `pygame.Rect` truncates float sizes. The model uses the integer sizes the game asks for: a 24-pixel ship box, and 32-pixel boxes for enemies and pick-ups.
- Square roots: distance tests compare squared distances, which is the same test on integers.
- `Weapon.draw_charge_indicator` and `Bird.launch_nuke`: the first draws, and nothing calls the second.
- The `SHIELD` member of the weapon type: no weapon is ever made with it.
- The frame as one method: `main` calls the passes in a fixed order, and the model provides each pass, not their composition.
- Game.Session.BulletHitsGate, Game.Session.BulletHitsGateAsWritten, Game.Session.BulletHitsEnemy, Game.Session.BulletHitsUfo, Game.Session.BulletHitsUfoAsWritten: model one bullet against one target. The loops over all pairs, including the `for … else` that runs the enemy pass after each bullet that misses every gate, are not modelled.
- Game.Session.BulletHitsEnemy: requires the shot to do at least 1 damage, which every bullet the game makes does, because the score bound relies on it.
- Game.Session.BulletHitsUfo, Game.Session.BulletHitsUfoAsWritten: require the drop not to be a nuke pick-up, as the game's drop list has none.
- Contacts.CollectTouched / Game.Session.ScrollPowerUps / Game.Session.MoveAndCollect: do not state that a weapon pick-up's weapon is a new object, only that it is in its initial state.

## Findings

| source | as written | input that shows it | evidently intended | confidence | as-written member | corrected member |
|---|---|---|---|---|---|---|
| space_flapper.py:1396-1397 | a shot that hits a gate is removed from the bullet list; when it is the launched nuke, `active_nuke` still points at it | a nuke launched and flown into a gate: afterwards the fire key calls `detonate_nuke`, which finds no nuke in the list and does nothing, and no new nuke can be launched while the slot is full | removing the launched nuke also clears the slot, as `detonate_nuke` does | medium, not executed | Game.Session.BulletHitsGateAsWritten | Game.Session.BulletHitsGate |
| space_flapper.py:1375 | a shot within reach of a UFO is removed from the bullet list; when it is the launched nuke, `active_nuke` still points at it | a nuke launched and flown to within 25 pixels of a UFO's centre: afterwards the fire key calls `detonate_nuke`, which finds no nuke in the list and does nothing, and no new nuke can be launched while the slot is full | removing the launched nuke also clears the slot, as `detonate_nuke` does | medium, not executed | Game.Session.BulletHitsUfoAsWritten | Game.Session.BulletHitsUfo |
