/**
 * Worked plays of the rules, each stated as the outcome a player sees: the
 * default gun's cooldown, a charge held to the top, the hits a full set of
 * shields absorbs, the spread gun's last round, the life of an explosion and
 * of a gate, and a launched nuke lost to a gate.
 */
module Scenarios {
  import opened Lists
  import opened Weapons
  import opened Entities
  import opened Player
  import opened PowerUps
  import opened Game

  /**
   * A new default gun fires at 1000 ms and again at 1400 ms: the cooldown
   * is 500 ms, so the second try yields nothing, and no ammo is ever spent.
   */
  method DefaultCooldown() returns (first: seq<Bullet>, second: seq<Bullet>, ammo: Ammo)
    ensures |first| == 1 && second == [] && ammo == Infinite
  {
    var bird := new Bird();
    var reset;
    first, reset := bird.Shoot(1000);
    second, reset := bird.Shoot(1400);
    ammo := bird.weapon.ammo;
  }

  /**
   * A charge started at 0 ms and ticked every 20 ms through 1000 ms: the
   * fifty ticks take the level to 100, and the tick before the last one
   * had already left it at 98.
   */
  method ChargeToTheTop() returns (level: int)
    ensures level == MaxCharge
  {
    var w := new Weapon(Charge);
    w.StartCharging(0);
    var n := 0;
    while n < 50
      invariant 0 <= n <= 50
      invariant w.Valid() && w.isCharging && w.kind == Charge
      invariant w.chargeLevel == ChargeAfter(n)
    {
      var _ := w.UpdateCharge(20 * (n + 1));
      n := n + 1;
    }
    ChargeAfterTicks(50);
    level := w.chargeLevel;
  }

  /**
   * A full ship hit once a second, each hit after the previous second of
   * invincibility has run out: three hits cost a shield each and the
   * fourth is fatal.
   */
  method HitsToDie() returns (d1: bool, d2: bool, d3: bool, d4: bool, shieldsLeft: int)
    ensures !d1 && !d2 && !d3 && d4 && shieldsLeft == 0
  {
    var bird := new Bird();
    d1 := bird.TakeHit(0);
    bird.Update(1000);
    d2 := bird.TakeHit(1000);
    bird.Update(2000);
    d3 := bird.TakeHit(2000);
    bird.Update(3000);
    d4 := bird.TakeHit(3000);
    shieldsLeft := bird.shields;
  }

  /** A second hit half a second after the first falls inside the invincibility and costs nothing. */
  method InvincibleWindow() returns (dead: bool, shields: int)
    ensures !dead && shields == MaxShields - 1
  {
    var bird := new Bird();
    var _ := bird.TakeHit(0);
    bird.Update(500);
    dead := bird.TakeHit(500);
    shields := bird.shields;
  }

  /** The ship's spread gun with one round left fires three shots and asks to be replaced. */
  method ShipSpreadLastRound() returns (shots: seq<Bullet>, reset: bool)
    ensures |shots| == 3 && reset
  {
    var bird := new Bird();
    bird.weapon := new Weapon(Spread);
    bird.weapon.ammo := Finite(1);
    shots, reset := bird.Shoot(1000);
  }

  /**
   * The gun's own shot with one spread round left: five shots, two rounds
   * spent, the gun turns into a default one, and no reset is signalled
   * because the count went past zero.
   */
  method GunSpreadLastRound() returns (shots: seq<Bullet>, reset: bool, ammo: Ammo, kind: WeaponType)
    ensures |shots| == 5 && !reset && ammo == Finite(-1) && kind == Default
  {
    var w := new Weapon(Spread);
    w.ammo := Finite(1);
    shots, reset := w.Shoot(StartX, StartY, 1000);
    ammo, kind := w.ammo, w.kind;
  }

  /** A nuke's explosion grows for 20 updates and fades for 67: it is finished after the 87th update. */
  method ExplosionLifetime() returns (updates: nat)
    ensures updates == 87
  {
    var e := new Explosion(0, 0, BlastRadius);
    updates := 0;
    while !e.isFinished
      invariant e.Valid() && updates + e.Remaining() == 87
      decreases e.Remaining()
    {
      e.Update();
      updates := updates + 1;
    }
  }

  /** A gate under default shots: it stands three hits and falls on the fourth. */
  method GateUnderFire() returns (k1: bool, k2: bool, k3: bool, k4: bool)
    ensures !k1 && !k2 && !k3 && k4
  {
    var g := new Gate(100);
    k1 := g.Hit(1, 0);
    k2 := g.Hit(1, 100);
    k3 := g.Hit(1, 200);
    k4 := g.Hit(1, 300);
  }

  /**
   * The opening the nuke plays share: a round starts at 0 ms, the ship
   * picks up a nuke gun and at 1000 ms launches a nuke, which is then the
   * only shot in flight.
   */
  method LaunchNuke() returns (s: Session, nuke: Bullet)
    ensures fresh(s) && fresh(s.bird) && fresh(s.bird.weapon)
    ensures s.Valid() && s.state == Playing && s.gates == [] && s.ufos == []
    ensures s.bird.weapon.kind == Nuke && s.bird.weapon.ammo.Positive()
    ensures s.bird.weapon.lastShotTime == 1000 && s.bird.weapon.cooldown == 1000
    ensures s.bird.activeNuke == nuke && s.bullets == [nuke]
  {
    s := new Session(0);
    s.PressSpace(0);
    var pick := new PowerUp(NukeUp, StartX, StartY);
    pick.Collect(s.bird);
    assert s.bird.weapon.kind == Nuke && s.bird.activeNuke == null && s.gates == [];
    assert CooldownElapsed(s.bird.weapon.lastShotTime, s.bird.weapon.cooldown, 1000);
    assert s.bird.weapon.ammo.Positive();
    var launched, _ := s.FireWeapon(1000);
    assert |launched| == 1;
    nuke := launched[0];
  }

  /**
   * A launched nuke that hits a gate and is removed the way the gate check
   * removes shots: the ship still holds a nuke that is no longer in
   * flight, and the fire key then neither sets anything off nor launches a
   * new nuke.
   */
  method NukeLostToGate() returns (stale: bool, fired: seq<Bullet>, kills: int)
    ensures stale && fired == [] && kills == 0
  {
    var s, nuke := LaunchNuke();
    s.DropBulletAsWritten(nuke);
    stale := s.bird.activeNuke != null && s.bird.activeNuke !in s.bullets;
    fired, kills := s.PressFire(2000);
  }

  /**
   * The same play with the nuke removed as every shot should be: the ship
   * forgets it, and the next press of the fire key launches a new one.
   */
  method NukeClearedByGate() returns (fired: seq<Bullet>)
    ensures |fired| == 1
  {
    var s, nuke := LaunchNuke();
    s.DropBullet(nuke);
    var kills;
    fired, kills := s.PressFire(2000);
  }

  /**
   * A launched nuke that comes within reach of a UFO and is removed the way
   * the UFO check removes shots: the ship still holds a nuke that is no
   * longer in flight, and the fire key then neither sets anything off nor
   * launches a new nuke.
   */
  method NukeLostToUfo() returns (stale: bool, fired: seq<Bullet>, kills: int)
    ensures stale && fired == [] && kills == 0
  {
    var s, nuke := LaunchNuke();
    var u := new Ufo(nuke.x, nuke.y);
    s.ufos := [u];
    var struck, _ := s.BulletHitsUfoAsWritten(nuke, u, ShieldUp);
    assert struck;
    stale := s.bird.activeNuke != null && s.bird.activeNuke !in s.bullets;
    fired, kills := s.PressFire(2000);
  }

  /**
   * The same play with the nuke removed as every shot should be: the ship
   * forgets it, and the next press of the fire key launches a new one.
   */
  method NukeClearedByUfo() returns (fired: seq<Bullet>)
    ensures |fired| == 1
  {
    var s, nuke := LaunchNuke();
    var u := new Ufo(nuke.x, nuke.y);
    s.ufos := [u];
    var struck, _ := s.BulletHitsUfo(nuke, u, ShieldUp);
    assert struck;
    var kills;
    fired, kills := s.PressFire(2000);
  }

  /**
   * The fire key held through two frames with a laser picked up: the first
   * frame fires one shot and spends one of the fifty rounds; the next frame,
   * 50 ms later, is inside the 100 ms cooldown and fires nothing.
   */
  method LaserHeldDown() returns (first: seq<Bullet>, second: seq<Bullet>, ammo: Ammo)
    ensures |first| == 1 && second == [] && ammo == Finite(49)
  {
    var s := new Session(0);
    s.PressSpace(0);
    var pick := new PowerUp(LaserUp, StartX, StartY);
    pick.Collect(s.bird);
    assert s.bird.weapon.kind == Laser && s.bird.weapon.ammo == Finite(50) && !s.chargingStarted;
    assert CooldownElapsed(s.bird.weapon.lastShotTime, s.bird.weapon.cooldown, 1000);
    first := s.HoldFire(1000);
    assert s.bird.weapon.ammo == Finite(49) && s.bird.weapon.lastShotTime == 1000;
    second := s.HoldFire(1050);
    ammo := s.bird.weapon.ammo;
  }
}
