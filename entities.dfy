/**
 * The scrolling and destructible entities of the playfield, each with the
 * integer state its own update step changes. Positions are whole pixels;
 * the playfield is 400 wide and 600 high and scrolls leftwards.
 */
module Entities {

  const ScreenWidth := 400
  const ScreenHeight := 600

  /** A display colour, one byte per channel. */
  datatype Rgb = Rgb(r: int, g: int, b: int)
  const PipeSpeed := 3
  const PipeWidth := 50
  const EnemySize := 20
  const UfoRadius := 20
  const GateWidth := 30
  const GateHeight := 100
  const GateSpeed := 3
  const GateHealth := 4
  const ExplosionGrowth := 20
  const ExplosionFade := 3
  const ExplosionAlpha := 200

  /** An obstacle pair: a column with a gap of half-height `gapSize` around `gapY`. */
  class Pipe {
    var x: int
    var passed: bool
    const width: int
    const gapSize: int
    const gapY: int

    constructor (gapSize: int, gapY: int)
      ensures x == ScreenWidth && !passed && width == PipeWidth
      ensures this.gapSize == gapSize && this.gapY == gapY
    {
      x := ScreenWidth;
      passed := false;
      width := PipeWidth;
      this.gapSize := gapSize;
      this.gapY := gapY;
    }

    /** Scrolls the pair left by the pipe speed. */
    method Update()
      modifies this
      ensures x == old(x) - PipeSpeed && passed == old(passed)
    {
      x := x - PipeSpeed;
    }
  }

  /** A ground enemy drifting left at its own speed. */
  class Enemy {
    var x: int
    const y: int
    const speed: int
    const size: int

    constructor (y: int, speed: int)
      ensures x == ScreenWidth && this.y == y && this.speed == speed && size == EnemySize
    {
      x := ScreenWidth;
      this.y := y;
      this.speed := speed;
      size := EnemySize;
    }

    method Update()
      modifies this
      ensures x == old(x) - speed
    {
      x := x - speed;
    }
  }

  /** A UFO. Its Lissajous motion and its own shots are not part of this model. */
  class Ufo {
    var x: int
    var y: int
    var health: int
    const radius: int

    constructor (x: int, y: int)
      ensures this.x == x && this.y == y && health == 3 && radius == UfoRadius
    {
      this.x := x;
      this.y := y;
      health := 3;
      radius := UfoRadius;
    }
  }

  /** A destructible gate: four points of health, flashing for a moment when hit. */
  class Gate {
    var x: int
    const y: int
    var health: int
    var destroyed: bool
    var flashStart: int
    const width: int
    const height: int

    constructor (y: int)
      ensures x == ScreenWidth && this.y == y && health == GateHealth && !destroyed && flashStart == 0
      ensures width == GateWidth && height == GateHeight
    {
      x := ScreenWidth;
      this.y := y;
      health := GateHealth;
      destroyed := false;
      flashStart := 0;
      width := GateWidth;
      height := GateHeight;
    }

    /** Takes `damage`; reports whether the gate is now at or below zero health, hence destroyed. */
    method Hit(damage: int, now: int) returns (killed: bool)
      modifies this
      ensures health == old(health) - damage && flashStart == now && x == old(x)
      ensures killed <==> health <= 0
      ensures destroyed == (old(destroyed) || killed)
    {
      health := health - damage;
      flashStart := now;
      if health <= 0 {
        destroyed := true;
        return true;
      }
      return false;
    }

    method Update()
      modifies this
      ensures x == old(x) - GateSpeed
      ensures health == old(health) && destroyed == old(destroyed) && flashStart == old(flashStart)
    {
      x := x - GateSpeed;
    }
  }

  /**
   * The nuke's blast: the circle grows by 20 per update up to `radius`, then its
   * alpha fades by 3 per update; it is finished once alpha is at or below zero.
   */
  class Explosion {
    const x: int
    const y: int
    const radius: int
    var currentRadius: int
    var currentAlpha: int
    var isFinished: bool

    /** Finished exactly when faded out, and fading only starts once fully grown. */
    ghost predicate Valid()
      reads this
    {
      && currentRadius >= 0
      && (isFinished <==> currentAlpha <= 0)
      && (currentAlpha < ExplosionAlpha ==> currentRadius >= radius)
    }

    /** Updates still to come before the explosion is finished. */
    ghost function Remaining(): nat
      reads this
      requires Valid()
    {
      var grow := if currentRadius < radius then (radius - currentRadius + ExplosionGrowth - 1) / ExplosionGrowth else 0;
      var fade := if isFinished then 0 else (currentAlpha + ExplosionFade - 1) / ExplosionFade;
      grow + fade
    }

    constructor (x: int, y: int, radius: int)
      ensures this.x == x && this.y == y && this.radius == radius
      ensures currentRadius == 0 && currentAlpha == ExplosionAlpha && !isFinished
      ensures Valid()
    {
      this.x := x;
      this.y := y;
      this.radius := radius;
      currentRadius := 0;
      currentAlpha := ExplosionAlpha;
      isFinished := false;
    }

    method Update()
      requires Valid()
      modifies this
      ensures Valid()
      ensures old(currentRadius) < radius ==>
                currentRadius == old(currentRadius) + ExplosionGrowth
                && currentAlpha == old(currentAlpha) && isFinished == old(isFinished)
      ensures old(currentRadius) >= radius ==>
                currentRadius == old(currentRadius) && currentAlpha == old(currentAlpha) - ExplosionFade
                && isFinished == (old(isFinished) || currentAlpha <= 0)
      ensures isFinished <==> Remaining() == 0
      ensures !old(isFinished) ==> Remaining() == old(Remaining()) - 1
    {
      if currentRadius < radius {
        currentRadius := currentRadius + ExplosionGrowth;
      } else {
        currentAlpha := currentAlpha - ExplosionFade;
        if currentAlpha <= 0 {
          isFinished := true;
        }
      }
    }
  }
}
