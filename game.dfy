/**
 * One play session: the menu / playing / game-over state machine, the score
 * and high score, the entity lists and the spawn timers, and the steps one
 * frame of the play loop takes on them. Time is the millisecond clock
 * reading passed in as `now`; the outcomes of random draws are parameters.
 */
module Game {
  import opened Lists
  import opened Weapons
  import opened Entities
  import opened Player
  import opened PowerUps
  import opened Collision
  import opened Scroll
  import opened Contacts
  import Difficulty

  datatype GameState = Menu | Playing | GameOver

  /** The clock readings at which each kind of entity last spawned. */
  datatype Timers = Timers(pipe: int, enemy: int, powerup: int, gate: int, ufo: int)

  /** Points for each kill a detonation reports. */
  const KillPoints := 5
  /** Points for destroying a gate with a shot. */
  const GatePoints := 5
  /** A UFO needs this many points on the board before it may appear. */
  const UfoMinScore := 5
  /** Points for shooting down a UFO. */
  const UfoPoints := 10
  /** A shot that hits an enemy scores this many points per point of damage. */
  const ShotPointsPerDamage := 2

  class Session {
    var state: GameState
    var bird: Bird
    var pipes: seq<Pipe>
    var enemies: seq<Enemy>
    var bullets: seq<Bullet>
    var powerups: seq<PowerUp>
    var gates: seq<Gate>
    var ufos: seq<Ufo>
    var score: int
    var highScore: int
    /** When each kind of entity last spawned. */
    var timers: Timers
    /** Whether the fire key started a charge that its release has not yet let go. */
    var chargingStarted: bool

    ghost predicate Valid()
      reads this, bird, bird.weapon
    {
      && bird.Valid() && bird.x == StartX && bird.radius == BirdRadius
      && score >= 0 && highScore >= 0
      && Distinct(pipes) && Distinct(enemies) && Distinct(gates) && Distinct(powerups)
    }

    /** The state `reset_game` produces: a new ship, empty lists, no score, all timers at `now`. */
    ghost predicate FreshRound(now: int)
      reads this, bird, bird.weapon
    {
      && bird.Initial()
      && pipes == [] && enemies == [] && bullets == [] && powerups == [] && gates == [] && ufos == []
      && score == 0
      && timers == Timers(now, now, now, now, now)
    }

    constructor (now: int)
      ensures Valid() && FreshRound(now) && fresh(bird) && fresh(bird.weapon)
      ensures state == Menu && highScore == 0 && !chargingStarted
    {
      state := Menu;
      bird := new Bird();
      pipes, enemies, bullets, powerups, gates, ufos := [], [], [], [], [], [];
      score, highScore := 0, 0;
      timers := Timers(now, now, now, now, now);
      chargingStarted := false;
    }

    /** A new round; the state, the high score and the charging flag are left as they were. */
    method ResetGame(now: int)
      requires highScore >= 0
      modifies this
      ensures Valid() && FreshRound(now) && fresh(bird) && fresh(bird.weapon)
      ensures state == old(state) && highScore == old(highScore) && chargingStarted == old(chargingStarted)
    {
      ClearRound(now);
      bird := new Bird();
    }

    /** Empties the entity lists, zeroes the score and restarts every spawn timer. */
    method ClearRound(now: int)
      modifies this
      ensures pipes == [] && enemies == [] && bullets == [] && powerups == [] && gates == [] && ufos == []
      ensures score == 0 && timers == Timers(now, now, now, now, now)
      ensures bird == old(bird) && state == old(state) && highScore == old(highScore)
      ensures chargingStarted == old(chargingStarted)
    {
      pipes, enemies, bullets, powerups, gates, ufos := [], [], [], [], [], [];
      score := 0;
      timers := Timers(now, now, now, now, now);
    }

    /**
     * The flap key: it starts play from the menu and starts a new round
     * after a game over. While playing it flaps, which only changes the
     * ship's vertical speed, outside this model.
     */
    method PressSpace(now: int)
      requires Valid()
      modifies this
      ensures Valid() && highScore == old(highScore)
      ensures old(state) == Menu ==>
                && state == Playing && bird == old(bird) && score == old(score) && timers == old(timers)
                && pipes == old(pipes) && enemies == old(enemies) && bullets == old(bullets)
                && powerups == old(powerups) && gates == old(gates) && ufos == old(ufos)
                && chargingStarted == old(chargingStarted)
      ensures old(state) == Playing ==> unchanged(this)
      ensures old(state) == GameOver ==>
                state == Playing && FreshRound(now) && fresh(bird)
    {
      if state == Menu {
        state := Playing;
      } else if state == GameOver {
        ResetGame(now);
        state := Playing;
      }
    }

    /**
     * The ship takes a hit; a fatal one records the high score and ends
     * the game.
     */
    method PlayerHit(now: int) returns (dead: bool)
      requires Valid()
      modifies this, bird
      ensures Valid() && bird == old(bird) && bird.weapon == old(bird.weapon)
      ensures bird.y == old(bird.y) && bird.activeNuke == old(bird.activeNuke)
      ensures (bird.Status(), dead) == AfterHit(old(bird.Status()), now)
      ensures dead ==> highScore == Max(score, old(highScore)) && state == GameOver
      ensures !dead ==> highScore == old(highScore) && state == old(state)
      ensures highScore >= old(highScore) && highScore >= 0
      ensures score == old(score) && chargingStarted == old(chargingStarted)
      ensures pipes == old(pipes) && enemies == old(enemies) && bullets == old(bullets)
      ensures powerups == old(powerups) && gates == old(gates) && ufos == old(ufos)
    {
      dead := bird.TakeHit(now);
      if dead {
        highScore := Max(score, highScore);
        state := GameOver;
      }
    }

    /** A pipe pair appears once more than 1.5 s have passed; its half-gap follows the frame's score. */
    method SpawnPipe(now: int, frameScore: int, gapY: int)
      requires Valid()
      requires frameScore >= 0 && Difficulty.ValidGapY(Difficulty.HalfGap(frameScore), gapY)
      modifies this
      ensures Valid() && bird == old(bird)
      ensures Difficulty.Due(old(timers.pipe), now, Difficulty.PipeInterval) ==>
                && |pipes| == |old(pipes)| + 1 && pipes[..|old(pipes)|] == old(pipes)
                && fresh(pipes[|old(pipes)|]) && timers.pipe == now
                && pipes[|old(pipes)|].x == ScreenWidth && !pipes[|old(pipes)|].passed
                && pipes[|old(pipes)|].gapSize == Difficulty.HalfGap(frameScore)
                && pipes[|old(pipes)|].gapY == gapY
      ensures !Difficulty.Due(old(timers.pipe), now, Difficulty.PipeInterval) ==> pipes == old(pipes) && timers.pipe == old(timers.pipe)
      ensures score == old(score) && highScore == old(highScore) && state == old(state)
      ensures enemies == old(enemies) && gates == old(gates) && powerups == old(powerups)
    {
      if now - timers.pipe > Difficulty.PipeInterval {
        var p := new Pipe(Difficulty.HalfGap(frameScore), gapY);
        pipes := pipes + [p];
        timers := timers.(pipe := now);
      }
    }

    /** An enemy appears once more than 2 s have passed. */
    method SpawnEnemy(now: int, y: int, speed: int)
      requires Valid()
      modifies this
      ensures Valid() && bird == old(bird)
      ensures Difficulty.Due(old(timers.enemy), now, Difficulty.EnemyInterval) ==>
                && |enemies| == |old(enemies)| + 1 && enemies[..|old(enemies)|] == old(enemies)
                && fresh(enemies[|old(enemies)|]) && timers.enemy == now
                && enemies[|old(enemies)|].x == ScreenWidth && enemies[|old(enemies)|].y == y
                && enemies[|old(enemies)|].speed == speed
      ensures !Difficulty.Due(old(timers.enemy), now, Difficulty.EnemyInterval) ==>
                enemies == old(enemies) && timers.enemy == old(timers.enemy)
      ensures score == old(score) && highScore == old(highScore) && state == old(state)
      ensures pipes == old(pipes) && gates == old(gates) && powerups == old(powerups)
    {
      if now - timers.enemy > Difficulty.EnemyInterval {
        var e := new Enemy(y, speed);
        enemies := enemies + [e];
        timers := timers.(enemy := now);
      }
    }

    /** A pick-up appears once 8 s have passed. */
    method SpawnPowerup(now: int, kind: PowerUpType, y: int)
      requires Valid()
      modifies this
      ensures Valid() && bird == old(bird)
      ensures Difficulty.PowerUpDue(old(timers.powerup), now) ==>
                && |powerups| == |old(powerups)| + 1 && powerups[..|old(powerups)|] == old(powerups)
                && fresh(powerups[|old(powerups)|]) && timers.powerup == now
                && powerups[|old(powerups)|].kind == kind
      ensures !Difficulty.PowerUpDue(old(timers.powerup), now) ==>
                powerups == old(powerups) && timers.powerup == old(timers.powerup)
      ensures score == old(score) && highScore == old(highScore) && state == old(state)
      ensures pipes == old(pipes) && enemies == old(enemies) && gates == old(gates)
    {
      var p, last := PowerUps.SpawnPowerup(timers.powerup, now, kind, y);
      timers := timers.(powerup := last);
      if p != null {
        powerups := powerups + [p];
      }
    }

    /** A gate appears once more than 6 s have passed. */
    method SpawnGate(now: int, y: int)
      requires Valid()
      modifies this
      ensures Valid() && bird == old(bird)
      ensures Difficulty.Due(old(timers.gate), now, Difficulty.GateInterval) ==>
                && |gates| == |old(gates)| + 1 && gates[..|old(gates)|] == old(gates)
                && fresh(gates[|old(gates)|]) && timers.gate == now
                && gates[|old(gates)|].health == GateHealth && !gates[|old(gates)|].destroyed
      ensures !Difficulty.Due(old(timers.gate), now, Difficulty.GateInterval) ==>
                gates == old(gates) && timers.gate == old(timers.gate)
      ensures score == old(score) && highScore == old(highScore) && state == old(state)
      ensures pipes == old(pipes) && enemies == old(enemies) && powerups == old(powerups)
    {
      if now - timers.gate > Difficulty.GateInterval {
        var g := new Gate(y);
        gates := gates + [g];
        timers := timers.(gate := now);
      }
    }

    /**
     * A UFO may appear only while none is on screen and the score is above
     * five, when the frame's draw (`roll`, true with probability 0.002)
     * comes up; the UFO timer is restarted every frame regardless.
     */
    method SpawnUfo(now: int, roll: bool, y: int)
      requires Valid()
      modifies this
      ensures Valid() && bird == old(bird) && timers.ufo == now
      ensures |old(ufos)| == 0 && old(score) > UfoMinScore && roll ==>
                |ufos| == 1 && fresh(ufos[0]) && ufos[0].x == ScreenWidth + UfoRadius && ufos[0].y == y
                && ufos[0].health == 3
      ensures !(|old(ufos)| == 0 && old(score) > UfoMinScore && roll) ==> ufos == old(ufos)
      ensures score == old(score) && highScore == old(highScore) && state == old(state)
      ensures pipes == old(pipes) && enemies == old(enemies) && powerups == old(powerups) && gates == old(gates)
    {
      if |ufos| == 0 && score > UfoMinScore {
        if roll {
          var u := new Ufo(ScreenWidth + UfoRadius, y);
          ufos := ufos + [u];
        }
      }
      timers := timers.(ufo := now);
    }

    /** The launched nuke, if any, is still in the bullet list, where a detonation can find it. */
    ghost predicate NukeTracked()
      reads this, bird
    {
      bird.activeNuke != null ==> bird.activeNuke in bullets
    }

    /**
     * The outcome of a run of collision checks: no contact leaves the ship
     * and the game as they were; any contact amounts to exactly one hit,
     * a fatal one recording the high score and ending the game.
     */
    twostate predicate HitEffect(hit: bool, now: int)
      reads this, bird
    {
      && bird == old(bird)
      && (!hit ==> bird.Status() == old(bird.Status()) && state == old(state) && highScore == old(highScore))
      && (hit ==> bird.Status() == AfterHit(old(bird.Status()), now).0)
      && (hit && AfterHit(old(bird.Status()), now).1 ==> state == GameOver && highScore == Max(score, old(highScore)))
      && (hit && !AfterHit(old(bird.Status()), now).1 ==> state == old(state) && highScore == old(highScore))
    }

    /**
     * The effect of a detonation of `nuke` on the session: the nuke leaves
     * the bullet list and the ship's slot; the enemies and UFOs the blast
     * reaches leave their lists; the intact gates in reach are destroyed and
     * no gate moves or loses health; the ship's shields and invincibility
     * are untouched; and each kill scores five.
     */
    twostate predicate Exploded(nuke: Bullet, kills: int)
      reads this, bird, gates
    {
      && bird == old(bird) && gates == old(gates)
      && bird.activeNuke == null && bird.Status() == old(bird.Status())
      && bullets == RemoveFirst(old(bullets), nuke)
      && enemies == old(EnemiesOutside(enemies, nuke.x, nuke.y))
      && ufos == old(UfosOutside(ufos, nuke.x, nuke.y))
      && (forall g :: g in gates ==> g.x == old(g.x) && g.health == old(g.health) && g.flashStart == old(g.flashStart))
      && (forall g :: g in gates ==> g.destroyed == (old(g.destroyed) || old(GateInReach(g, nuke.x))))
      && kills == (|old(enemies)| - |enemies|) + 2 * (|old(ufos)| - |ufos|) + old(GatesNewlyInBlast(gates, nuke.x))
      && score == old(score) + KillPoints * kills
    }

    /**
     * The ship fires its weapon; the new bullets join the list, and a weapon
     * that reports itself spent is replaced by a new default one.
     */
    method FireWeapon(now: int) returns (fired: seq<Bullet>, reset: bool)
      requires Valid()
      modifies this, bird, bird.weapon
      ensures Valid() && bird == old(bird) && bird.y == old(bird.y) && bird.Status() == old(bird.Status())
      ensures bullets == old(bullets) + fired
      ensures old(NukeTracked()) ==> NukeTracked()
      ensures reset ==> fresh(bird.weapon) && bird.weapon.Pristine(Default)
      ensures !reset ==> bird.weapon == old(bird.weapon)
      ensures old(bird.weapon.kind) != Nuke ==> bird.activeNuke == old(bird.activeNuke)
      ensures var w := old(bird.weapon);
              !CooldownElapsed(old(w.lastShotTime), w.cooldown, now) ==>
                fired == [] && !reset && unchanged(w) && bird.activeNuke == old(bird.activeNuke)
      ensures var w := old(bird.weapon);
              CooldownElapsed(old(w.lastShotTime), w.cooldown, now) ==> w.lastShotTime == now
      ensures var w := old(bird.weapon);
              CooldownElapsed(old(w.lastShotTime), w.cooldown, now) && !old(w.ammo).Positive() ==>
                fired == [] && !reset && w.ammo == old(w.ammo) && bird.activeNuke == old(bird.activeNuke)
      ensures var w := old(bird.weapon);
              CooldownElapsed(old(w.lastShotTime), w.cooldown, now) && old(w.ammo).Positive()
              && old(w.kind) == Nuke && old(bird.activeNuke) == null ==>
                && NewVolley(fired, StartX + 2 * BirdRadius, bird.y, Nuke, 0, [0.0])
                && bird.activeNuke == fired[0] && w.ammo == old(w.ammo) && !reset
      ensures var w := old(bird.weapon);
              CooldownElapsed(old(w.lastShotTime), w.cooldown, now) && old(w.ammo).Positive()
              && !(old(w.kind) == Nuke && old(bird.activeNuke) == null) ==>
                && NewVolley(fired, StartX, bird.y, old(w.kind), 0, BirdVolleyAngles(old(w.kind)))
                && bird.activeNuke == old(bird.activeNuke)
                && (old(w.kind) == Default ==> w.ammo == old(w.ammo) && !reset)
                && (old(w.kind) != Default ==> w.ammo == old(w.ammo).Dec() && reset == w.ammo.Exhausted())
      ensures !reset ==> bird.weapon.kind == old(bird.weapon.kind)
      ensures old(bird.weapon).kind == old(bird.weapon.kind)
      ensures score == old(score) && state == old(state) && highScore == old(highScore)
      ensures chargingStarted == old(chargingStarted) && timers == old(timers)
      ensures pipes == old(pipes) && enemies == old(enemies) && powerups == old(powerups)
      ensures gates == old(gates) && ufos == old(ufos)
    {
      fired, reset := bird.Shoot(now);
      bullets := bullets + fired;
      if reset {
        bird.Rearm();
      }
    }

    /**
     * Sets off the launched nuke and scores five points per kill; a nuke
     * weapon out of ammo is replaced by a new default one. Nothing happens
     * when no launched nuke is in the bullet list.
     */
    method DetonateActiveNuke() returns (kills: int)
      requires Valid()
      modifies this, bird, bird.weapon, gates
      ensures Valid() && bird == old(bird) && gates == old(gates)
      ensures score == old(score) + KillPoints * kills && kills >= 0
      ensures old(NukeTracked()) ==> NukeTracked()
      ensures old(bird.activeNuke) == null || old(bird.activeNuke) !in old(bullets) ==>
                kills == 0 && unchanged(this) && unchanged(bird) && unchanged(old(bird.weapon)) && unchanged(gates)
      ensures old(bird.activeNuke) != null && old(bird.activeNuke) in old(bullets) ==>
                && Exploded(old(bird.activeNuke), kills)
                && old(bird.weapon).ammo == old(bird.weapon.ammo).Dec()
                && (old(bird.weapon).ammo.Exhausted() ==> fresh(bird.weapon) && bird.weapon.Pristine(Default))
                && (!old(bird.weapon).ammo.Exhausted() ==> bird.weapon == old(bird.weapon))
      ensures state == old(state) && highScore == old(highScore) && chargingStarted == old(chargingStarted)
      ensures pipes == old(pipes) && powerups == old(powerups)
    {
      if bird.activeNuke == null || bird.activeNuke !in bullets {
        return 0;
      }
      var reset;
      kills, reset := Blast();
      if reset {
        bird.Rearm();
      }
    }

    /** The detonation itself, on the session's lists: the survivors replace the lists and each kill scores five. */
    method Blast() returns (kills: int, reset: bool)
      requires Valid() && bird.activeNuke != null && bird.activeNuke in bullets
      modifies this, bird, bird.weapon, gates
      ensures Valid() && bird == old(bird) && gates == old(gates) && bird.weapon == old(bird.weapon)
      ensures score == old(score) + KillPoints * kills && kills >= 0
      ensures Exploded(old(bird.activeNuke), kills)
      ensures bird.weapon.ammo == old(bird.weapon.ammo).Dec() && reset == bird.weapon.ammo.Exhausted()
      ensures state == old(state) && highScore == old(highScore) && chargingStarted == old(chargingStarted)
      ensures pipes == old(pipes) && powerups == old(powerups)
    {
      var nuke: Bullet := bird.activeNuke;
      EnemiesOutsideDistinct(enemies, nuke.x, nuke.y);
      var es, bs, us;
      es, bs, us, reset, kills := bird.Detonate(enemies, bullets, ufos, gates);
      enemies, bullets, ufos := es, bs, us;
      score := score + KillPoints * kills;
    }

    /**
     * The fire key goes down while playing: a charge weapon starts charging;
     * a nuke weapon with a nuke out sets it off, scoring five per kill; any
     * other weapon fires. Outside play the key does nothing.
     */
    method PressFire(now: int) returns (fired: seq<Bullet>, kills: int)
      requires Valid()
      modifies this, bird, bird.weapon, gates
      ensures Valid() && bird == old(bird) && state == old(state) && highScore == old(highScore)
      ensures old(NukeTracked()) ==> NukeTracked()
      ensures old(state) != Playing ==>
                fired == [] && kills == 0 && unchanged(this) && unchanged(bird) && unchanged(old(bird.weapon))
      // a charge weapon starts charging
      ensures old(state) == Playing && old(bird.weapon.kind) == Charge ==>
                && chargingStarted && bird.weapon == old(bird.weapon) && bird.weapon.isCharging
                && fired == [] && kills == 0 && bullets == old(bullets) && score == old(score)
      // a nuke weapon with a nuke out sets it off, as `DetonateActiveNuke` does
      ensures old(state) == Playing && old(bird.weapon.kind) == Nuke && old(bird.activeNuke) != null ==>
                && fired == [] && kills >= 0 && score == old(score) + KillPoints * kills
                && chargingStarted == old(chargingStarted)
                && (old(bird.activeNuke) !in old(bullets) ==>
                      kills == 0 && unchanged(this) && unchanged(bird) && unchanged(old(bird.weapon)) && unchanged(gates))
      ensures old(state) == Playing && old(bird.weapon.kind) == Nuke
              && old(bird.activeNuke) != null && old(bird.activeNuke) in old(bullets) ==>
                && Exploded(old(bird.activeNuke), kills)
                && old(bird.weapon).ammo == old(bird.weapon.ammo).Dec()
                && (old(bird.weapon).ammo.Exhausted() ==> fresh(bird.weapon) && bird.weapon.Pristine(Default))
                && (!old(bird.weapon).ammo.Exhausted() ==> bird.weapon == old(bird.weapon))
      // any other weapon fires, as `FireWeapon` does
      ensures old(state) == Playing && old(bird.weapon.kind) != Charge
              && !(old(bird.weapon.kind) == Nuke && old(bird.activeNuke) != null) ==>
                && kills == 0 && bullets == old(bullets) + fired && score == old(score)
                && chargingStarted == old(chargingStarted) && gates == old(gates)
      ensures var w := old(bird.weapon);
              old(state) == Playing && old(w.kind) != Charge && !(old(w.kind) == Nuke && old(bird.activeNuke) != null)
              && !CooldownElapsed(old(w.lastShotTime), w.cooldown, now) ==>
                fired == [] && unchanged(w) && bird.weapon == w && bird.activeNuke == old(bird.activeNuke)
      ensures var w := old(bird.weapon);
              old(state) == Playing && old(w.kind) != Charge && !(old(w.kind) == Nuke && old(bird.activeNuke) != null)
              && CooldownElapsed(old(w.lastShotTime), w.cooldown, now) && !old(w.ammo).Positive() ==>
                && fired == [] && w.lastShotTime == now && w.ammo == old(w.ammo)
                && bird.weapon == w && bird.activeNuke == old(bird.activeNuke)
      ensures var w := old(bird.weapon);
              old(state) == Playing && old(w.kind) == Nuke && old(bird.activeNuke) == null
              && CooldownElapsed(old(w.lastShotTime), w.cooldown, now) && old(w.ammo).Positive() ==>
                && NewVolley(fired, StartX + 2 * BirdRadius, bird.y, Nuke, 0, [0.0])
                && bird.activeNuke == fired[0] && w.lastShotTime == now && w.ammo == old(w.ammo) && bird.weapon == w
      ensures var w := old(bird.weapon);
              old(state) == Playing && old(w.kind) in {Default, Spread, Laser}
              && CooldownElapsed(old(w.lastShotTime), w.cooldown, now) && old(w.ammo).Positive() ==>
                && NewVolley(fired, StartX, bird.y, old(w.kind), 0, BirdVolleyAngles(old(w.kind)))
                && w.lastShotTime == now && w.kind == old(w.kind) && bird.activeNuke == old(bird.activeNuke)
                && (old(w.kind) == Default ==> w.ammo == old(w.ammo) && bird.weapon == w)
                && (old(w.kind) != Default ==> w.ammo == old(w.ammo).Dec())
                && (old(w.kind) != Default && w.ammo.Exhausted() ==> fresh(bird.weapon) && bird.weapon.Pristine(Default))
                && (old(w.kind) != Default && !w.ammo.Exhausted() ==> bird.weapon == w)
    {
      fired, kills := [], 0;
      if state != Playing {
        return;
      }
      if bird.weapon.kind == Charge {
        bird.StartCharging(now);
        chargingStarted := true;
      } else if bird.weapon.kind == Nuke && bird.activeNuke != null {
        kills := DetonateActiveNuke();
      } else {
        var reset;
        fired, reset := FireWeapon(now);
      }
    }

    /**
     * The fire key comes up after it started a charge, in any game state:
     * the charge is let go, its bullets join the list, and a spent weapon is
     * replaced by a new default one.
     */
    method ReleaseFire(now: int) returns (fired: seq<Bullet>, reset: bool)
      requires Valid()
      modifies this, bird, bird.weapon
      ensures Valid() && bird == old(bird) && state == old(state) && highScore == old(highScore)
      ensures score == old(score) && bird.activeNuke == old(bird.activeNuke)
      ensures old(NukeTracked()) ==> NukeTracked()
      ensures !old(chargingStarted) ==>
                fired == [] && !reset && unchanged(this) && unchanged(bird) && unchanged(old(bird.weapon))
      ensures old(chargingStarted) ==> !chargingStarted && bullets == old(bullets) + fired
      ensures old(chargingStarted) && old(bird.weapon.kind) != Charge ==> fired == [] && !reset
      ensures old(chargingStarted) && old(bird.weapon.kind) == Charge ==>
                Released(old(bird.weapon), StartX, bird.y, now, fired, reset)
      ensures reset ==> fresh(bird.weapon) && bird.weapon.Pristine(Default)
      ensures !reset ==> bird.weapon == old(bird.weapon)
    {
      fired, reset := [], false;
      if chargingStarted {
        fired, reset := bird.ReleaseCharge(now);
        bullets := bullets + fired;
        if reset {
          bird.Rearm();
        }
        chargingStarted := false;
      }
    }

    /**
     * The fire key held down during a frame of play: a charge weapon not yet
     * charging starts; otherwise, unless a charge is under way or the weapon
     * is a nuke, the weapon fires.
     */
    method HoldFire(now: int) returns (fired: seq<Bullet>)
      requires Valid()
      modifies this, bird, bird.weapon
      ensures Valid() && bird == old(bird) && state == old(state) && highScore == old(highScore)
      ensures score == old(score) && bullets == old(bullets) + fired
      ensures old(NukeTracked()) ==> NukeTracked()
      ensures old(state) != Playing || old(chargingStarted) || old(bird.weapon.kind) == Nuke ==>
                fired == [] && unchanged(this) && unchanged(bird) && unchanged(old(bird.weapon))
      ensures old(state) == Playing && !old(chargingStarted) && old(bird.weapon.kind) == Charge ==>
                chargingStarted && bird.weapon == old(bird.weapon) && bird.weapon.isCharging && fired == []
      ensures old(state) == Playing && !old(chargingStarted) && old(bird.weapon.kind) !in {Charge, Nuke} ==>
                !chargingStarted && bird.activeNuke == old(bird.activeNuke)
      ensures var w := old(bird.weapon);
              old(state) == Playing && !old(chargingStarted) && old(w.kind) !in {Charge, Nuke}
              && !CooldownElapsed(old(w.lastShotTime), w.cooldown, now) ==>
                fired == [] && unchanged(w) && bird.weapon == w
      ensures var w := old(bird.weapon);
              old(state) == Playing && !old(chargingStarted) && old(w.kind) !in {Charge, Nuke}
              && CooldownElapsed(old(w.lastShotTime), w.cooldown, now) && !old(w.ammo).Positive() ==>
                fired == [] && w.lastShotTime == now && w.ammo == old(w.ammo) && bird.weapon == w
      ensures var w := old(bird.weapon);
              old(state) == Playing && !old(chargingStarted) && old(w.kind) !in {Charge, Nuke}
              && CooldownElapsed(old(w.lastShotTime), w.cooldown, now) && old(w.ammo).Positive() ==>
                && NewVolley(fired, StartX, bird.y, old(w.kind), 0, BirdVolleyAngles(old(w.kind)))
                && w.lastShotTime == now && w.kind == old(w.kind)
                && (old(w.kind) == Default ==> w.ammo == old(w.ammo) && bird.weapon == w)
                && (old(w.kind) != Default ==> w.ammo == old(w.ammo).Dec())
                && (old(w.kind) != Default && w.ammo.Exhausted() ==> fresh(bird.weapon) && bird.weapon.Pristine(Default))
                && (old(w.kind) != Default && !w.ammo.Exhausted() ==> bird.weapon == w)
    {
      fired := [];
      if state != Playing {
        return;
      }
      if bird.weapon.kind == Charge && !chargingStarted {
        bird.StartCharging(now);
        chargingStarted := true;
      } else if !chargingStarted && bird.weapon.kind != Nuke {
        var reset;
        fired, reset := FireWeapon(now);
      }
    }

    /** While a charge started by the fire key is under way, the charge grows each frame. */
    method ChargeTick(now: int) returns (cue: bool)
      requires Valid()
      modifies bird.weapon
      ensures Valid()
      ensures chargingStarted && old(bird.weapon.isCharging) ==>
                && bird.weapon.chargeLevel == NextCharge(old(bird.weapon.chargeLevel))
                && cue == (now - old(bird.weapon.lastChargeCue) >= ChargeCueInterval)
                && bird.weapon.lastChargeCue == (if cue then now else old(bird.weapon.lastChargeCue))
      ensures !(chargingStarted && old(bird.weapon.isCharging)) ==> unchanged(bird.weapon) && !cue
      ensures bird.weapon.kind == old(bird.weapon.kind) && bird.weapon.ammo == old(bird.weapon.ammo)
    {
      cue := false;
      if chargingStarted {
        cue := bird.UpdateCharge(now);
      }
    }

    /**
     * The pipe pass: every pipe scrolls, each pipe the ship has newly
     * overtaken scores one point, and pipes past the left edge leave.
     */
    method ScrollPipes()
      requires Valid()
      modifies this, pipes
      ensures Valid() && bird == old(bird)
      ensures score == old(score) + old(NewlyPassed(pipes, StartX))
      ensures forall p :: p in old(pipes) ==> p.x == old(p.x) - PipeSpeed && p.passed == (old(p.passed) || p.x < StartX)
      ensures forall p :: p in pipes <==> p in old(pipes) && p.x + p.width >= 0
      ensures state == old(state) && highScore == old(highScore) && chargingStarted == old(chargingStarted)
      ensures enemies == old(enemies) && bullets == old(bullets) && gates == old(gates)
      ensures powerups == old(powerups) && ufos == old(ufos)
    {
      var scored := MovePipes(pipes, bird.x);
      score := score + scored;
      DropPipes();
    }

    /** The pipes whose right edge has crossed the left border leave the list. */
    method DropPipes()
      requires Valid()
      modifies this
      ensures Valid() && bird == old(bird)
      ensures forall p :: p in pipes <==> p in old(pipes) && p.x + p.width >= 0
      ensures score == old(score) && state == old(state) && highScore == old(highScore)
      ensures chargingStarted == old(chargingStarted)
      ensures enemies == old(enemies) && bullets == old(bullets) && gates == old(gates)
      ensures powerups == old(powerups) && ufos == old(ufos)
    {
      PipesOnScreenMembers(pipes);
      pipes := PipesOnScreen(pipes);
    }

    /** The enemy pass: every enemy scrolls at its own speed, and enemies past the left edge leave. */
    method ScrollEnemies()
      requires Valid()
      modifies this, enemies
      ensures Valid() && bird == old(bird)
      ensures forall e :: e in old(enemies) ==> e.x == old(e.x) - e.speed
      ensures forall e :: e in enemies <==> e in old(enemies) && e.x + e.size >= 0
      ensures score == old(score) && state == old(state) && highScore == old(highScore)
      ensures chargingStarted == old(chargingStarted)
      ensures pipes == old(pipes) && bullets == old(bullets) && gates == old(gates)
      ensures powerups == old(powerups) && ufos == old(ufos)
    {
      MoveEnemies(enemies);
      EnemiesOnScreenMembers(enemies);
      enemies := EnemiesOnScreen(enemies);
    }

    /**
     * The collision checks of one kind: the ship takes a hit for every
     * marked contact, in order. After the first hit the ship is either
     * invincible or dead, so further hits change nothing: any number of
     * contacts costs exactly one hit.
     */
    method TakeHits(touch: seq<bool>, now: int) returns (hit: bool)
      requires Valid()
      modifies this, bird
      ensures Valid() && HitEffect(hit, now)
      ensures hit <==> true in touch
      ensures bird.y == old(bird.y) && bird.weapon == old(bird.weapon) && bird.activeNuke == old(bird.activeNuke)
      ensures score == old(score) && chargingStarted == old(chargingStarted)
      ensures pipes == old(pipes) && enemies == old(enemies) && bullets == old(bullets)
      ensures powerups == old(powerups) && gates == old(gates) && ufos == old(ufos)
    {
      hit := false;
      for i := 0 to |touch|
        invariant Valid() && HitEffect(hit, now)
        invariant hit <==> true in touch[..i]
        invariant bird.y == old(bird.y) && bird.weapon == old(bird.weapon) && bird.activeNuke == old(bird.activeNuke)
        invariant score == old(score) && chargingStarted == old(chargingStarted)
        invariant pipes == old(pipes) && enemies == old(enemies) && bullets == old(bullets)
        invariant powerups == old(powerups) && gates == old(gates) && ufos == old(ufos)
      {
        if touch[i] {
          var _ := PlayerHit(now);
          if hit {
            SecondHitIsHarmless(old(bird.Status()), now);
          }
          hit := true;
        }
        assert touch[..i + 1] == touch[..i] + [touch[i]];
      }
      assert touch[..|touch|] == touch;
    }

    /** The ship against every pipe pair: any contact costs one hit. */
    method PipeCollisions(now: int) returns (hit: bool)
      requires Valid()
      modifies this, bird
      ensures Valid() && HitEffect(hit, now)
      ensures hit <==> exists k :: 0 <= k < |pipes| && PipeTouches(pipes[k], bird.y)
      ensures bird.y == old(bird.y) && bird.weapon == old(bird.weapon) && bird.activeNuke == old(bird.activeNuke)
      ensures score == old(score) && chargingStarted == old(chargingStarted)
      ensures pipes == old(pipes) && enemies == old(enemies) && bullets == old(bullets)
      ensures powerups == old(powerups) && gates == old(gates) && ufos == old(ufos)
    {
      var touch := PipeContacts(pipes, bird.y);
      hit := TakeHits(touch, now);
      assert hit <==> exists k :: 0 <= k < |touch| && touch[k];
    }

    /** The ship against every enemy: any contact costs one hit. */
    method EnemyCollisions(now: int) returns (hit: bool)
      requires Valid()
      modifies this, bird
      ensures Valid() && HitEffect(hit, now)
      ensures hit <==> exists k :: 0 <= k < |enemies| && EnemyTouches(enemies[k], bird.y)
      ensures bird.y == old(bird.y) && bird.weapon == old(bird.weapon) && bird.activeNuke == old(bird.activeNuke)
      ensures score == old(score) && chargingStarted == old(chargingStarted)
      ensures pipes == old(pipes) && enemies == old(enemies) && bullets == old(bullets)
      ensures powerups == old(powerups) && gates == old(gates) && ufos == old(ufos)
    {
      var touch := EnemyContacts(enemies, bird.y);
      hit := TakeHits(touch, now);
      assert hit <==> exists k :: 0 <= k < |touch| && touch[k];
    }

    /**
     * The gate pass: every gate scrolls, gates past the left edge leave,
     * and the ship takes a hit if it touches any gate still standing.
     */
    method ScrollGates(now: int) returns (hit: bool)
      requires Valid()
      modifies this, bird, gates
      ensures Valid() && HitEffect(hit, now)
      ensures forall g :: g in old(gates) ==>
                && g.x == old(g.x) - GateSpeed && g.health == old(g.health)
                && g.destroyed == old(g.destroyed) && g.flashStart == old(g.flashStart)
      ensures forall g :: g in gates <==> g in old(gates) && g.x + g.width >= 0
      ensures hit <==> exists k :: 0 <= k < |gates| && GateTouches(gates[k], bird.y)
      ensures bird.y == old(bird.y) && bird.weapon == old(bird.weapon) && bird.activeNuke == old(bird.activeNuke)
      ensures score == old(score) && chargingStarted == old(chargingStarted)
      ensures pipes == old(pipes) && enemies == old(enemies) && bullets == old(bullets)
      ensures powerups == old(powerups) && ufos == old(ufos)
    {
      ShiftGates();
      var touch := GateContacts(gates, bird.y);
      hit := TakeHits(touch, now);
      assert hit <==> exists k :: 0 <= k < |touch| && touch[k];
    }

    /** The moving half of the gate pass: every gate scrolls and gates past the left edge leave. */
    method ShiftGates()
      requires Valid()
      modifies this, gates
      ensures Valid() && bird == old(bird)
      ensures forall g :: g in old(gates) ==>
                && g.x == old(g.x) - GateSpeed && g.health == old(g.health)
                && g.destroyed == old(g.destroyed) && g.flashStart == old(g.flashStart)
      ensures forall g :: g in gates <==> g in old(gates) && g.x + g.width >= 0
      ensures score == old(score) && state == old(state) && highScore == old(highScore)
      ensures chargingStarted == old(chargingStarted)
      ensures pipes == old(pipes) && enemies == old(enemies) && bullets == old(bullets)
      ensures powerups == old(powerups) && ufos == old(ufos)
    {
      MoveGates(gates);
      GatesOnScreenMembers(gates);
      gates := GatesOnScreen(gates);
    }

    /**
     * The power-up pass: every pick-up scrolls, the ship collects the ones
     * it touches in list order, and those and the ones past the left edge
     * leave. A pick-up past the left edge is out of the ship's reach, so no
     * pick-up is removed twice.
     */
    method ScrollPowerUps() returns (picked: seq<PowerUpType>)
      requires Valid()
      modifies this, bird, powerups
      ensures Valid() && bird == old(bird)
      ensures forall p :: p in old(powerups) ==>
                p.x == old(p.x) - (if old(p.collected) then 0 else p.scrollSpeed) && p.collected == old(p.collected)
      ensures picked == PickedKinds(old(powerups), bird.y)
      ensures forall p :: p in powerups <==> p in old(powerups) && p.x + p.size >= 0 && !PowerUpTouches(p, bird.y)
      ensures forall p :: p in old(powerups) && p.x + p.size < 0 ==> !PowerUpTouches(p, bird.y)
      ensures bird.shields == Min(old(bird.shields) + ShieldCount(picked), MaxShields)
      ensures WeaponPickups(picked) == [] ==> bird.weapon == old(bird.weapon)
      ensures WeaponPickups(picked) != [] ==> bird.weapon.Pristine(WeaponFor(Last(WeaponPickups(picked))))
      ensures bird.y == old(bird.y) && bird.activeNuke == old(bird.activeNuke)
      ensures bird.invincible == old(bird.invincible) && bird.invincibleStart == old(bird.invincibleStart)
      ensures score == old(score) && state == old(state) && highScore == old(highScore)
      ensures chargingStarted == old(chargingStarted)
      ensures pipes == old(pipes) && enemies == old(enemies) && bullets == old(bullets)
      ensures gates == old(gates) && ufos == old(ufos)
    {
      picked := MoveAndCollect();
      DropPowerUps();
    }

    /** The first half of the power-up pass: the pick-ups scroll and the touched ones are applied. */
    method MoveAndCollect() returns (picked: seq<PowerUpType>)
      requires Valid()
      modifies bird, powerups
      ensures Valid()
      ensures forall p :: p in powerups ==>
                p.x == old(p.x) - (if old(p.collected) then 0 else p.scrollSpeed) && p.collected == old(p.collected)
      ensures picked == PickedKinds(powerups, bird.y)
      ensures bird.shields == Min(old(bird.shields) + ShieldCount(picked), MaxShields)
      ensures WeaponPickups(picked) == [] ==> bird.weapon == old(bird.weapon)
      ensures WeaponPickups(picked) != [] ==> bird.weapon.Pristine(WeaponFor(Last(WeaponPickups(picked))))
      ensures bird.y == old(bird.y) && bird.activeNuke == old(bird.activeNuke)
      ensures bird.invincible == old(bird.invincible) && bird.invincibleStart == old(bird.invincibleStart)
    {
      MovePowerUps(powerups);
      picked := CollectTouched(powerups, bird);
      ShieldsAfterCapped(old(bird.shields), picked);
    }

    /** The second half of the power-up pass: the touched pick-ups and those past the left edge leave. */
    method DropPowerUps()
      requires Valid()
      modifies this
      ensures Valid() && bird == old(bird)
      ensures forall p :: p in powerups <==> p in old(powerups) && p.x + p.size >= 0 && !PowerUpTouches(p, bird.y)
      ensures forall p :: p in old(powerups) && p.x + p.size < 0 ==> !PowerUpTouches(p, bird.y)
      ensures score == old(score) && state == old(state) && highScore == old(highScore)
      ensures chargingStarted == old(chargingStarted)
      ensures pipes == old(pipes) && enemies == old(enemies) && bullets == old(bullets)
      ensures gates == old(gates) && ufos == old(ufos)
    {
      forall p | p in powerups && p.x + p.size < 0 ensures !PowerUpTouches(p, bird.y) {
        OffScreenPowerUpUntouchable(p.x, p.y, bird.y, p.size);
      }
      PowerUpsLeftMembers(powerups, bird.y);
      powerups := PowerUpsLeft(powerups, bird.y);
    }

    /**
     * A shot that hit something leaves the bullet list; if it was the
     * launched nuke, the ship no longer has one out.
     */
    method DropBullet(b: Bullet)
      requires Valid()
      modifies this, bird
      ensures Valid() && bird == old(bird) && bird.weapon == old(bird.weapon) && bird.BodyUnchanged()
      ensures bullets == RemoveFirst(old(bullets), b)
      ensures old(bird.activeNuke) == b ==> bird.activeNuke == null
      ensures old(bird.activeNuke) != b ==> bird.activeNuke == old(bird.activeNuke)
      ensures old(NukeTracked()) ==> NukeTracked()
      ensures score == old(score) && state == old(state) && highScore == old(highScore)
      ensures chargingStarted == old(chargingStarted)
      ensures pipes == old(pipes) && enemies == old(enemies) && powerups == old(powerups)
      ensures gates == old(gates) && ufos == old(ufos)
    {
      bullets := RemoveFirst(bullets, b);
      if bird.activeNuke == b {
        bird.activeNuke := null;
      } else if bird.activeNuke != null && bird.activeNuke in old(bullets) {
        var nuke: Bullet := bird.activeNuke;
        RemoveFirstKeepsOthers(old(bullets), b, nuke);
      }
    }

    /**
     * The removal as the UFO and gate checks write it: the shot leaves the
     * list and the ship's record of its launched nuke is left alone. When
     * the shot is the launched nuke, the record then names a shot that is
     * no longer in the list, so no later key press can set it off and no new
     * nuke can be launched until the next round.
     */
    method DropBulletAsWritten(b: Bullet)
      requires Valid()
      modifies this
      ensures Valid() && bullets == RemoveFirst(old(bullets), b) && bird == old(bird)
      ensures score == old(score) && state == old(state) && highScore == old(highScore)
      ensures chargingStarted == old(chargingStarted)
      ensures pipes == old(pipes) && enemies == old(enemies) && powerups == old(powerups)
      ensures gates == old(gates) && ufos == old(ufos)
      ensures Distinct(old(bullets)) && old(NukeTracked()) && old(bird.activeNuke) == b ==> !NukeTracked()
    {
      bullets := RemoveFirst(bullets, b);
      if Distinct(old(bullets)) && bird.activeNuke == b {
        RemoveFirstDistinct(old(bullets), b);
      }
    }

    /**
     * The bullet pass: shots past the right edge leave the list, except the
     * launched nuke, which stays until it is set off.
     */
    method PruneBullets()
      requires Valid()
      modifies this
      ensures Valid() && bird == old(bird)
      ensures forall b :: b in bullets <==> b in old(bullets) && (b.x <= ScreenWidth || b == bird.activeNuke)
      ensures old(NukeTracked()) ==> NukeTracked()
      ensures score == old(score) && state == old(state) && highScore == old(highScore)
      ensures chargingStarted == old(chargingStarted)
      ensures pipes == old(pipes) && enemies == old(enemies) && powerups == old(powerups)
      ensures gates == old(gates) && ufos == old(ufos)
    {
      BulletsLeftMembers(bullets, bird.activeNuke);
      bullets := BulletsLeft(bullets, bird.activeNuke);
    }

    /**
     * A shot against a gate: a shot that meets a gate still standing
     * damages it, leaves the list, and scores five if the gate falls.
     */
    method BulletHitsGate(b: Bullet, g: Gate, now: int) returns (struck: bool, destroyed: bool)
      requires Valid()
      modifies this, bird, g
      ensures Valid() && bird == old(bird) && bird.weapon == old(bird.weapon)
      ensures struck <==> old(BulletTouchesGate(b, g))
      ensures !struck ==> !destroyed && unchanged(this) && unchanged(bird) && unchanged(g)
      ensures struck ==>
                && g.health == old(g.health) - b.stats.damage && g.flashStart == now
                && (destroyed <==> g.health <= 0) && g.destroyed == destroyed
                && score == old(score) + (if destroyed then GatePoints else 0)
                && bullets == RemoveFirst(old(bullets), b)
                && bird.activeNuke == (if old(bird.activeNuke) == b then null else old(bird.activeNuke))
      ensures old(NukeTracked()) ==> NukeTracked()
      ensures state == old(state) && highScore == old(highScore) && chargingStarted == old(chargingStarted)
      ensures pipes == old(pipes) && enemies == old(enemies) && powerups == old(powerups)
      ensures gates == old(gates) && ufos == old(ufos)
    {
      struck, destroyed := BulletTouchesGate(b, g), false;
      if struck {
        destroyed := g.Hit(b.stats.damage, now);
        if destroyed {
          score := score + GatePoints;
        }
        DropBullet(b);
      }
    }

    /**
     * The gate check as written: the same hit, but the shot leaves the list
     * through `DropBulletAsWritten`, so a launched nuke that meets a gate
     * leaves the ship's record of it pointing at a shot no longer in flight.
     */
    method BulletHitsGateAsWritten(b: Bullet, g: Gate, now: int) returns (struck: bool, destroyed: bool)
      requires Valid()
      modifies this, g
      ensures Valid() && bird == old(bird) && unchanged(bird)
      ensures struck <==> old(BulletTouchesGate(b, g))
      ensures !struck ==> !destroyed && unchanged(this) && unchanged(g)
      ensures struck ==>
                && g.health == old(g.health) - b.stats.damage && g.flashStart == now
                && (destroyed <==> g.health <= 0) && g.destroyed == destroyed
                && score == old(score) + (if destroyed then GatePoints else 0)
                && bullets == RemoveFirst(old(bullets), b)
      ensures struck && Distinct(old(bullets)) && old(NukeTracked()) && old(bird.activeNuke) == b ==> !NukeTracked()
      ensures state == old(state) && highScore == old(highScore) && chargingStarted == old(chargingStarted)
      ensures pipes == old(pipes) && enemies == old(enemies) && powerups == old(powerups)
      ensures gates == old(gates) && ufos == old(ufos)
    {
      struck, destroyed := BulletTouchesGate(b, g), false;
      if struck {
        destroyed := g.Hit(b.stats.damage, now);
        if destroyed {
          score := score + GatePoints;
        }
        DropBulletAsWritten(b);
      }
    }

    /**
     * A shot against an enemy: the launched nuke goes off on contact,
     * scoring five per kill; any other shot scores twice its damage and
     * takes the enemy with it.
     */
    method BulletHitsEnemy(b: Bullet, e: Enemy) returns (struck: bool, kills: int)
      requires Valid()
      requires b.stats.damage >= 1  // every shot the game makes does damage
      modifies this, bird, bird.weapon, gates
      ensures Valid() && bird == old(bird)
      ensures struck <==> old(BulletTouchesEnemy(b, e))
      ensures !struck ==> kills == 0 && unchanged(this) && unchanged(bird) && unchanged(old(bird.weapon)) && unchanged(gates)
      ensures struck && old(bird.activeNuke) == b ==> kills >= 0 && score == old(score) + KillPoints * kills
      ensures struck && old(bird.activeNuke) == b && b in old(bullets) ==>
                && Exploded(b, kills)
                && old(bird.weapon).ammo == old(bird.weapon.ammo).Dec()
                && (old(bird.weapon).ammo.Exhausted() ==> fresh(bird.weapon) && bird.weapon.Pristine(Default))
                && (!old(bird.weapon).ammo.Exhausted() ==> bird.weapon == old(bird.weapon))
      ensures struck && old(bird.activeNuke) == b && b !in old(bullets) ==>
                kills == 0 && unchanged(this) && unchanged(bird) && unchanged(old(bird.weapon)) && unchanged(gates)
      ensures struck && old(bird.activeNuke) != b ==>
                && kills == 0 && score == old(score) + ShotPointsPerDamage * b.stats.damage
                && bullets == RemoveFirst(old(bullets), b) && enemies == RemoveFirst(old(enemies), e)
                && bird.activeNuke == old(bird.activeNuke) && bird.weapon == old(bird.weapon)
      ensures old(NukeTracked()) ==> NukeTracked()
      ensures state == old(state) && highScore == old(highScore) && chargingStarted == old(chargingStarted)
      ensures pipes == old(pipes) && powerups == old(powerups) && gates == old(gates)
    {
      struck, kills := BulletTouchesEnemy(b, e), 0;
      if !struck {
        return;
      }
      if b.kind == Nuke && b == bird.activeNuke {
        kills := DetonateActiveNuke();
      } else {
        ShotKillsEnemy(b, e);
      }
    }

    /** An ordinary shot meets an enemy: it scores twice its damage, and shot and enemy leave their lists. */
    method ShotKillsEnemy(b: Bullet, e: Enemy)
      requires Valid() && b.stats.damage >= 1 && bird.activeNuke != b
      modifies this, bird
      ensures Valid() && bird == old(bird) && bird.weapon == old(bird.weapon)
      ensures score == old(score) + ShotPointsPerDamage * b.stats.damage
      ensures bullets == RemoveFirst(old(bullets), b) && enemies == RemoveFirst(old(enemies), e)
      ensures bird.activeNuke == old(bird.activeNuke)
      ensures old(NukeTracked()) ==> NukeTracked()
      ensures state == old(state) && highScore == old(highScore) && chargingStarted == old(chargingStarted)
      ensures pipes == old(pipes) && powerups == old(powerups) && gates == old(gates)
    {
      score := score + ShotPointsPerDamage * b.stats.damage;
      DropBullet(b);
      RemoveFirstDistinct(enemies, e);
      enemies := RemoveFirst(enemies, e);
    }

    /**
     * A shot against a UFO: a shot within reach of its centre leaves the
     * list and costs the UFO one health; a UFO out of health leaves, scores
     * ten and drops a pick-up of the drawn kind, never a nuke, where it was.
     */
    method BulletHitsUfo(b: Bullet, u: Ufo, drop: PowerUpType) returns (struck: bool, downed: bool)
      requires Valid() && drop != NukeUp
      requires b in bullets && u in ufos
      modifies this, bird, u
      ensures Valid() && bird == old(bird) && bird.weapon == old(bird.weapon)
      ensures struck <==> old(BulletNearUfo(b, u))
      ensures !struck ==> !downed && unchanged(this) && unchanged(bird) && unchanged(u)
      ensures struck ==>
                && u.health == old(u.health) - 1 && (downed <==> u.health <= 0)
                && bullets == RemoveFirst(old(bullets), b)
                && bird.activeNuke == (if old(bird.activeNuke) == b then null else old(bird.activeNuke))
      ensures downed ==>
                && ufos == RemoveFirst(old(ufos), u) && score == old(score) + UfoPoints
                && |powerups| == |old(powerups)| + 1 && powerups[..|old(powerups)|] == old(powerups)
                && fresh(powerups[|old(powerups)|]) && powerups[|old(powerups)|].kind == drop
                && powerups[|old(powerups)|].x == u.x && powerups[|old(powerups)|].y == u.y
      ensures !downed ==> ufos == old(ufos) && score == old(score) && powerups == old(powerups)
      ensures old(NukeTracked()) ==> NukeTracked()
      ensures state == old(state) && highScore == old(highScore) && chargingStarted == old(chargingStarted)
      ensures pipes == old(pipes) && enemies == old(enemies) && gates == old(gates)
    {
      struck, downed := BulletNearUfo(b, u), false;
      if !struck {
        return;
      }
      DropBullet(b);
      u.health := u.health - 1;
      if u.health <= 0 {
        downed := true;
        ufos := RemoveFirst(ufos, u);
        score := score + UfoPoints;
        var p := new PowerUp(drop, u.x, u.y);
        powerups := powerups + [p];
      }
    }

    /**
     * The UFO check as written: the same hit, but the shot leaves the list
     * through `DropBulletAsWritten`, so a launched nuke that comes within
     * reach of a UFO leaves the ship's record of it pointing at a shot no
     * longer in flight.
     */
    method BulletHitsUfoAsWritten(b: Bullet, u: Ufo, drop: PowerUpType) returns (struck: bool, downed: bool)
      requires Valid() && drop != NukeUp
      requires b in bullets && u in ufos
      modifies this, u
      ensures Valid() && bird == old(bird) && unchanged(bird)
      ensures struck <==> old(BulletNearUfo(b, u))
      ensures !struck ==> !downed && unchanged(this) && unchanged(u)
      ensures struck ==>
                && u.health == old(u.health) - 1 && (downed <==> u.health <= 0)
                && bullets == RemoveFirst(old(bullets), b)
      ensures struck && Distinct(old(bullets)) && old(NukeTracked()) && old(bird.activeNuke) == b ==> !NukeTracked()
      ensures downed ==>
                && ufos == RemoveFirst(old(ufos), u) && score == old(score) + UfoPoints
                && |powerups| == |old(powerups)| + 1 && powerups[..|old(powerups)|] == old(powerups)
                && fresh(powerups[|old(powerups)|]) && powerups[|old(powerups)|].kind == drop
                && powerups[|old(powerups)|].x == u.x && powerups[|old(powerups)|].y == u.y
      ensures !downed ==> ufos == old(ufos) && score == old(score) && powerups == old(powerups)
      ensures state == old(state) && highScore == old(highScore) && chargingStarted == old(chargingStarted)
      ensures pipes == old(pipes) && enemies == old(enemies) && gates == old(gates)
    {
      struck, downed := BulletNearUfo(b, u), false;
      if !struck {
        return;
      }
      DropBulletAsWritten(b);
      u.health := u.health - 1;
      if u.health <= 0 {
        downed := true;
        ufos := RemoveFirst(ufos, u);
        score := score + UfoPoints;
        var p := new PowerUp(drop, u.x, u.y);
        powerups := powerups + [p];
      }
    }
  }
}
