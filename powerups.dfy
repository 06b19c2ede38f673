/**
 * Power-ups: pick-ups that scroll left with the pipes. A shield pick-up
 * restores one shield, up to the maximum; any other hands the ship a new,
 * fully loaded weapon of the matching type.
 */
module PowerUps {
  import opened Lists
  import opened Weapons
  import opened Entities
  import opened Player
  import Difficulty

  datatype PowerUpType = ShieldUp | SpreadUp | LaserUp | ChargeUp | NukeUp

  const PowerUpSize := 20
  const PowerUpScroll := 2

  /** The weapon a weapon pick-up hands out: the weapon type of the same name. */
  function WeaponFor(t: PowerUpType): (w: WeaponType)
    requires t != ShieldUp
    ensures w != Default
  {
    match t
    case SpreadUp => Spread
    case LaserUp => Laser
    case ChargeUp => Charge
    case NukeUp => Nuke
  }

  /** Each weapon pick-up names a different weapon. */
  lemma WeaponForInjective(s: PowerUpType, t: PowerUpType)
    requires s != ShieldUp && t != ShieldUp && s != t
    ensures WeaponFor(s) != WeaponFor(t)
  {
  }

  class PowerUp {
    const kind: PowerUpType
    var x: int
    const y: int
    const size: int := PowerUpSize
    /** Never set by the game: a collected pick-up is removed from the list instead. */
    var collected: bool
    const scrollSpeed: int := PowerUpScroll

    constructor (kind: PowerUpType, x: int, y: int)
      ensures this.kind == kind && this.x == x && this.y == y
      ensures size == PowerUpSize && scrollSpeed == PowerUpScroll && !collected
    {
      this.kind := kind;
      this.x := x;
      this.y := y;
      collected := false;
    }

    /** Scrolls left unless collected; reports whether it has left the screen entirely. */
    method Update() returns (offScreen: bool)
      modifies this
      ensures collected == old(collected)
      ensures !collected ==> x == old(x) - scrollSpeed && (offScreen <==> x < -size)
      ensures collected ==> x == old(x) && !offScreen
    {
      if !collected {
        x := x - scrollSpeed;
        return x < -size;
      }
      return false;
    }

    /** Applies the pick-up to the ship. */
    method Collect(bird: Bird)
      requires bird.Valid()
      modifies bird
      ensures bird.Valid()
      ensures bird.y == old(bird.y) && bird.activeNuke == old(bird.activeNuke) && bird.explosion == old(bird.explosion)
      ensures bird.invincible == old(bird.invincible) && bird.invincibleStart == old(bird.invincibleStart)
      ensures kind == ShieldUp ==>
                bird.shields == Min(old(bird.shields) + 1, bird.maxShields) && bird.weapon == old(bird.weapon)
      ensures kind != ShieldUp ==>
                bird.shields == old(bird.shields) && fresh(bird.weapon) && bird.weapon.Pristine(WeaponFor(kind))
    {
      if kind == ShieldUp {
        if bird.shields < bird.maxShields {
          bird.shields := bird.shields + 1;
        }
      } else {
        bird.weapon := new Weapon(WeaponFor(kind));
      }
    }
  }

  /**
   * Every eight seconds a pick-up of the given kind appears at the right
   * edge at height `y`; the spawn time is then restarted from `now`.
   */
  method SpawnPowerup(last: int, now: int, kind: PowerUpType, y: int) returns (p: PowerUp?, newLast: int)
    ensures Difficulty.PowerUpDue(last, now) ==>
              && p != null && fresh(p) && newLast == now
              && p.kind == kind && p.x == ScreenWidth && p.y == y && !p.collected && p.size == PowerUpSize
    ensures !Difficulty.PowerUpDue(last, now) ==> p == null && newLast == last
  {
    if now - last >= Difficulty.PowerUpInterval {
      p := new PowerUp(kind, ScreenWidth, y);
      return p, now;
    }
    return null, last;
  }
}
