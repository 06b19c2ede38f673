/**
 * The player's weapon state machine and the projectile stat table: per-type
 * starting ammunition and cooldown, charge accumulation and release, and the
 * weapon-level shot. Times are the game clock in milliseconds; angles are in
 * degrees.
 */
module Weapons {
  import opened Lists

  /** The kinds of weapon. The source's enumeration also lists SHIELD, which never names a weapon. */
  datatype WeaponType = Default | Spread | Laser | Charge | Nuke

  /**
   * Ammunition. The default weapon holds `float('inf')`: it is positive, never
   * exhausted, and stays infinite when one is subtracted.
   */
  datatype Ammo = Infinite | Finite(n: int) {
    /** `ammo > 0` */
    predicate Positive() { Infinite? || n > 0 }

    /** `ammo <= 0` */
    predicate Exhausted() { Finite? && n <= 0 }

    /** `ammo == 0` */
    predicate IsZero() { Finite? && n == 0 }

    /** `ammo -= 1` */
    function Dec(): Ammo { if Infinite? then Infinite else Finite(n - 1) }
  }

  const MinCharge := 20
  const SuperCharge := 80
  const MaxCharge := 100
  const ChargeStep := 2
  const ChargeCueInterval := 100
  const BurstSize := 16

  /** Starting ammunition per weapon type. */
  function StartingAmmo(t: WeaponType): (a: Ammo)
    ensures a.Infinite? <==> t == Default
    ensures a.Positive() && !a.Exhausted()
    ensures t == Nuke ==> a == Finite(3)
  {
    match t
    case Default => Infinite
    case Spread => Finite(30)
    case Laser => Finite(50)
    case Charge => Finite(20)
    case Nuke => Finite(3)
  }

  /** Milliseconds that must pass between two shots, per weapon type. */
  function CooldownOf(t: WeaponType): (ms: int)
    ensures 100 <= ms <= 1000
    ensures ms == 1000 <==> t == Nuke
    ensures ms == 100 <==> t == Laser
  {
    match t
    case Default => 500
    case Spread => 700
    case Laser => 100
    case Charge => 800
    case Nuke => 1000
  }

  /** `current_time - last_shot_time >= cooldown` */
  predicate CooldownElapsed(lastShot: int, cooldown: int, now: int) {
    now - lastShot >= cooldown
  }

  /** Charge levels a weapon can hold: it starts at 0 and moves in steps of 2 up to 100. */
  predicate ValidChargeLevel(level: int) {
    0 <= level <= MaxCharge && level % ChargeStep == 0
  }

  /** One charging tick: `min(100, charge_level + 2)`. */
  function NextCharge(level: int): (r: int)
    requires ValidChargeLevel(level)
    ensures ValidChargeLevel(r)
    ensures level <= r <= level + ChargeStep
    ensures r == level <==> level == MaxCharge
  {
    Min(MaxCharge, level + ChargeStep)
  }

  /** The charge level after `ticks` charging ticks from a fresh start. */
  function ChargeAfter(ticks: nat): (r: int)
    ensures ValidChargeLevel(r)
  {
    if ticks == 0 then 0 else NextCharge(ChargeAfter(ticks - 1))
  }

  /** The charge rises by 2 per tick from 0 and stays at 100 once it gets there. */
  lemma {:induction false} ChargeAfterTicks(ticks: nat)
    ensures ChargeAfter(ticks) == Min(MaxCharge, ChargeStep * ticks)
  {
    if ticks > 0 {
      ChargeAfterTicks(ticks - 1);
    }
  }

  /** Collision geometry of a projectile. */
  datatype Shape = Circle(radius: int) | Box(width: int, height: int)

  /** What the weapon type fixes about a projectile: speed in pixels per frame, damage, geometry. */
  datatype Stats = Stats(speed: int, damage: int, shape: Shape)

  /**
   * The projectile stat table. For a charge shot, `int((level / 100) * 10)` and
   * `int((level / 100) * 4)` are written as integer floor division.
   */
  function StatsFor(kind: WeaponType, chargeLevel: int): (s: Stats)
    requires 0 <= chargeLevel <= MaxCharge
    ensures s.speed > 0 && s.damage >= 1
    ensures s.damage == 100 <==> kind == Nuke
    ensures s.shape.Box? <==> kind == Default || kind == Laser
    ensures kind == Charge ==> s.shape.Circle? && 10 <= s.shape.radius <= 20 && 2 <= s.damage <= 6
    ensures kind == Charge && chargeLevel == MaxCharge ==> s.shape.radius == 20 && s.damage == 6
    ensures kind != Charge ==> s == StatsFor(kind, 0)
  {
    match kind
    case Nuke => Stats(3, 100, Circle(5))
    case Charge => Stats(8, 2 + chargeLevel * 4 / 100, Circle(10 + chargeLevel * 10 / 100))
    case Spread => Stats(8, 2, Circle(8))
    case Laser => Stats(12, 1, Box(20, 4))
    case Default => Stats(10, 1, Box(10, 5))
  }

  /** `int(x)` of a non-negative real: truncation, which is the floor there. */
  function Trunc(x: real): int
    requires x >= 0.0
  {
    x.Floor
  }

  /**
   * The integer charge formulas agree with the source's real-valued ones,
   * `10 + int((level / 100) * 10)` and `2 + int((level / 100) * 4)`.
   */
  lemma ChargeStatsMatchRealFormula(level: int)
    requires 0 <= level <= MaxCharge
    ensures StatsFor(Charge, level).shape.radius == 10 + Trunc((level as real / 100.0) * 10.0)
    ensures StatsFor(Charge, level).damage == 2 + Trunc((level as real / 100.0) * 4.0)
  {
    var q, r := level * 10 / 100, level * 10 % 100;
    assert (level as real / 100.0) * 10.0 == q as real + r as real / 100.0;
    var q', r' := level * 4 / 100, level * 4 % 100;
    assert (level as real / 100.0) * 4.0 == q' as real + r' as real / 100.0;
  }

  /** A stronger charge never gives a smaller or weaker projectile. */
  lemma ChargeStatsMonotone(a: int, b: int)
    requires 0 <= a <= b <= MaxCharge
    ensures StatsFor(Charge, a).damage <= StatsFor(Charge, b).damage
    ensures StatsFor(Charge, a).shape.radius <= StatsFor(Charge, b).shape.radius
  {
    assert a * 4 <= b * 4 && a * 10 <= b * 10;
  }

  /**
   * Angles of a charge release: a full ring of 16 projectiles from level 80 on,
   * otherwise one projectile straight ahead.
   */
  function BurstAngles(level: int): (r: seq<real>)
    ensures |r| == if level >= SuperCharge then BurstSize else 1
    ensures level < SuperCharge ==> r == [0.0]
    ensures level >= SuperCharge ==> forall i :: 0 <= i < |r| ==> r[i] == 22.5 * i as real
    ensures forall i :: 0 <= i < |r| ==> 0.0 <= r[i] < 360.0
    ensures forall i, j :: 0 <= i < j < |r| ==> r[i] < r[j]
  {
    if level >= SuperCharge then
      seq(BurstSize, i requires 0 <= i < BurstSize => (360.0 / BurstSize as real) * i as real)
    else
      [0.0]
  }

  /** Angles of a weapon-level shot (`Weapon.shoot`): five for the spread gun, one otherwise. */
  function VolleyAngles(kind: WeaponType): (r: seq<real>)
    ensures |r| == if kind == Spread then 5 else 1
    ensures forall i :: 0 <= i < |r| ==> -30.0 <= r[i] <= 30.0
    ensures forall i, j :: 0 <= i < j < |r| ==> r[i] < r[j]
  {
    if kind == Spread then [-30.0, -15.0, 0.0, 15.0, 30.0] else [0.0]
  }

  /** A projectile. It is an object: the player keeps a reference to its active nuke. */
  class Bullet {
    var x: int
    var y: int
    const kind: WeaponType
    const angle: real
    const stats: Stats

    constructor (x: int, y: int, kind: WeaponType, chargeLevel: int, angle: real)
      requires 0 <= chargeLevel <= MaxCharge
      ensures this.x == x && this.y == y && this.kind == kind && this.angle == angle
      ensures stats == StatsFor(kind, chargeLevel)
    {
      this.x := x;
      this.y := y;
      this.kind := kind;
      this.angle := angle;
      this.stats := StatsFor(kind, chargeLevel);
    }
  }

  /**
   * `bullets` are new projectiles of `kind` at (x, y), one per angle of
   * `angles` and in that order, with the stats of `chargeLevel`.
   */
  twostate predicate NewVolley(new bullets: seq<Bullet>, x: int, y: int, kind: WeaponType, chargeLevel: int, angles: seq<real>)
    requires 0 <= chargeLevel <= MaxCharge
    reads bullets
  {
    && |bullets| == |angles|
    && Distinct(bullets)
    && forall i :: 0 <= i < |bullets| ==>
         && fresh(bullets[i])
         && bullets[i].x == x && bullets[i].y == y
         && bullets[i].kind == kind && bullets[i].angle == angles[i]
         && bullets[i].stats == StatsFor(kind, chargeLevel)
  }

  /** Builds one projectile per angle, in order: the source's `for angle in ...: bullets.append(Bullet(...))`. */
  method Volley(x: int, y: int, kind: WeaponType, chargeLevel: int, angles: seq<real>) returns (bullets: seq<Bullet>)
    requires 0 <= chargeLevel <= MaxCharge
    ensures NewVolley(bullets, x, y, kind, chargeLevel, angles)
  {
    bullets := [];
    for i := 0 to |angles|
      invariant |bullets| == i && Distinct(bullets)
      invariant forall k :: 0 <= k < i ==>
                  && fresh(bullets[k])
                  && bullets[k].x == x && bullets[k].y == y
                  && bullets[k].kind == kind && bullets[k].angle == angles[k]
                  && bullets[k].stats == StatsFor(kind, chargeLevel)
    {
      var b := new Bullet(x, y, kind, chargeLevel, angles[i]);
      bullets := bullets + [b];
    }
  }

  /** The player's weapon. */
  class Weapon {
    var kind: WeaponType
    var ammo: Ammo
    const cooldown: int
    var chargeLevel: int
    var isCharging: bool
    var lastChargeCue: int
    var lastShotTime: int

    /** Only a charge weapon charges, and the level stays an even number in 0..100. */
    ghost predicate Valid()
      reads this
    {
      ValidChargeLevel(chargeLevel) && (isCharging ==> kind == Charge)
    }

    /** A weapon as `Weapon(t)` builds it. */
    ghost predicate Pristine(t: WeaponType)
      reads this
    {
      && kind == t && ammo == StartingAmmo(t) && cooldown == CooldownOf(t)
      && chargeLevel == 0 && !isCharging && lastChargeCue == 0 && lastShotTime == 0
    }

    constructor (t: WeaponType)
      ensures Valid() && Pristine(t)
    {
      kind := t;
      ammo := StartingAmmo(t);
      cooldown := CooldownOf(t);
      chargeLevel := 0;
      isCharging := false;
      lastChargeCue := 0;
      lastShotTime := 0;
    }

    /** Begins charging a charge weapon that is not already charging, from level 0. */
    method StartCharging(now: int)
      requires Valid()
      modifies this
      ensures Valid()
      ensures !old(isCharging) && kind == Charge ==>
                isCharging && chargeLevel == 0 && lastChargeCue == now
      ensures old(isCharging) || kind != Charge ==> unchanged(this)
      ensures kind == old(kind) && ammo == old(ammo) && lastShotTime == old(lastShotTime)
    {
      if !isCharging && kind == Charge {
        isCharging := true;
        chargeLevel := 0;
        lastChargeCue := now;
      }
    }

    /**
     * One charging tick: the level rises by 2, capped at 100. `cue` is the charge
     * sound, due every 100 ms while charging.
     */
    method UpdateCharge(now: int) returns (cue: bool)
      requires Valid()
      modifies this
      ensures Valid()
      ensures isCharging && kind == Charge ==>
                && chargeLevel == NextCharge(old(chargeLevel))
                && cue == (now - old(lastChargeCue) >= ChargeCueInterval)
                && lastChargeCue == (if cue then now else old(lastChargeCue))
      ensures !(isCharging && kind == Charge) ==> !cue && unchanged(this)
      ensures kind == old(kind) && ammo == old(ammo) && isCharging == old(isCharging)
      ensures lastShotTime == old(lastShotTime)
    {
      cue := false;
      if isCharging && kind == Charge {
        chargeLevel := NextCharge(chargeLevel);
        if now - lastChargeCue >= ChargeCueInterval {
          cue := true;
          lastChargeCue := now;
        }
      }
    }

    /** Releasing the charge at (x, y), as `Weapon.release_charge` does it. */
    method ReleaseCharge(x: int, y: int, now: int) returns (bullets: seq<Bullet>, reset: bool)
      requires Valid()
      modifies this
      ensures Valid()
      ensures Released(this, x, y, now, bullets, reset)
    {
      bullets, reset := [], false;
      if !isCharging {
        return;
      }
      isCharging := false;
      if chargeLevel < MinCharge {
        chargeLevel := 0;
        return;
      }
      if ammo.Positive() && CooldownElapsed(lastShotTime, cooldown, now) {
        lastShotTime := now;
        var level := chargeLevel;
        if level >= SuperCharge {
          bullets := Volley(x, y, Charge, level, BurstAngles(level));
        } else {
          var b := new Bullet(x, y, Charge, level, 0.0);
          bullets := [b];
        }
        ammo := ammo.Dec();
        chargeLevel := 0;
        reset := ammo.Exhausted();
      }
    }

    /**
     * The weapon-level shot, `Weapon.shoot`. The game itself fires through the
     * player's `Shoot`; this one is kept with its quirks: a spread shot spends
     * two rounds and turns the weapon into a default one once ammunition is
     * gone, and the reset signal is `ammo == 0`, not `ammo <= 0`.
     */
    method Shoot(x: int, y: int, now: int) returns (bullets: seq<Bullet>, reset: bool)
      requires Valid()
      modifies this
      ensures Valid()
      ensures old(kind) == Charge || !old(ammo).Positive() || !CooldownElapsed(old(lastShotTime), cooldown, now) ==>
                bullets == [] && !reset && unchanged(this)
      ensures old(kind) != Charge && old(ammo).Positive() && CooldownElapsed(old(lastShotTime), cooldown, now) ==>
                && lastShotTime == now
                && NewVolley(bullets, x, y, old(kind), 0, VolleyAngles(old(kind)))
                && (old(kind) == Spread ==>
                      ammo == old(ammo).Dec().Dec() && kind == (if ammo.Exhausted() then Default else Spread))
                && (old(kind) != Spread ==> ammo == old(ammo).Dec() && kind == old(kind))
                && reset == ammo.IsZero()
      ensures chargeLevel == old(chargeLevel) && isCharging == old(isCharging)
      ensures lastChargeCue == old(lastChargeCue)
    {
      bullets, reset := [], false;
      if kind == Charge {
        return;
      }
      if ammo.Positive() && CooldownElapsed(lastShotTime, cooldown, now) {
        lastShotTime := now;
        ammo := ammo.Dec();
        if kind == Spread {
          bullets := Volley(x, y, Spread, 0, VolleyAngles(Spread));
          ammo := ammo.Dec();
          if ammo.Exhausted() {
            kind := Default;
          }
          reset := ammo.IsZero();
        } else {
          var b := new Bullet(x, y, kind, 0, 0.0);
          bullets := [b];
          reset := ammo.IsZero();
        }
      }
    }
  }

  /**
   * What releasing a charge does to weapon `w`: nothing unless it was charging;
   * otherwise charging stops, a charge under 20 is dropped, and a charge of 20 or
   * more fires when there is ammunition and the cooldown has passed (one round
   * per release, whatever the number of projectiles), and is kept otherwise.
   */
  twostate predicate Released(w: Weapon, x: int, y: int, now: int, new bullets: seq<Bullet>, reset: bool)
    reads w, bullets
  {
    && w.kind == old(w.kind)
    && w.lastChargeCue == old(w.lastChargeCue)
    && (!old(w.isCharging) ==>
          bullets == [] && !reset && w.isCharging == old(w.isCharging) && w.chargeLevel == old(w.chargeLevel)
          && w.ammo == old(w.ammo) && w.lastShotTime == old(w.lastShotTime))
    && (old(w.isCharging) ==> !w.isCharging)
    && (old(w.isCharging) && old(w.chargeLevel) < MinCharge ==>
          bullets == [] && !reset && w.chargeLevel == 0 && w.ammo == old(w.ammo) && w.lastShotTime == old(w.lastShotTime))
    && (old(w.isCharging) && old(w.chargeLevel) >= MinCharge && old(w.ammo).Positive()
        && CooldownElapsed(old(w.lastShotTime), w.cooldown, now) ==>
          && 0 <= old(w.chargeLevel) <= MaxCharge
          && NewVolley(bullets, x, y, Charge, old(w.chargeLevel), BurstAngles(old(w.chargeLevel)))
          && w.ammo == old(w.ammo).Dec() && w.chargeLevel == 0 && w.lastShotTime == now
          && reset == w.ammo.Exhausted())
    && (old(w.isCharging) && old(w.chargeLevel) >= MinCharge
        && !(old(w.ammo).Positive() && CooldownElapsed(old(w.lastShotTime), w.cooldown, now)) ==>
          bullets == [] && !reset && w.chargeLevel == old(w.chargeLevel)
          && w.ammo == old(w.ammo) && w.lastShotTime == old(w.lastShotTime))
  }
}
