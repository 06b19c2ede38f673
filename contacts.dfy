/**
 * What the ship touches in a frame: pipes, enemies, standing gates and
 * pick-ups, each tested with the box the game uses for it, and what a run
 * of pick-ups collected in list order does to the shields and the weapon.
 */
module Contacts {
  import opened Lists
  import opened Weapons
  import opened Entities
  import opened Player
  import opened PowerUps
  import opened Collision

  /** The ship at height `y` runs into the pipe pair: its small box against either pipe. */
  predicate PipeTouches(p: Pipe, y: int)
    reads p
  {
    CheckCollision(y, p.x, p.width, p.gapSize, p.gapY)
  }

  /** The ship's full square at height `y` against the enemy's box. */
  predicate EnemyTouches(e: Enemy, y: int)
    reads e
  {
    Overlaps(ShipSquare(y), CentredBox(e.x, e.y, EnemyHalfBox))
  }

  /** A gate still standing whose box the ship's small box at height `y` overlaps. */
  predicate GateTouches(g: Gate, y: int)
    reads g
  {
    !g.destroyed && Overlaps(ShipBox(y), GateBox(g.x, g.y, g.width, g.height))
  }

  /** The ship's full square at height `y` against the pick-up's box. */
  predicate PowerUpTouches(p: PowerUp, y: int)
    reads p
  {
    Overlaps(ShipSquare(y), CentredBox(p.x, p.y, PowerUpHalfBox))
  }

  function PipeContacts(ps: seq<Pipe>, y: int): (m: seq<bool>)
    reads ps
    ensures |m| == |ps|
    ensures forall k :: 0 <= k < |ps| ==> m[k] == PipeTouches(ps[k], y)
  {
    seq(|ps|, k requires 0 <= k < |ps| reads ps => PipeTouches(ps[k], y))
  }

  function EnemyContacts(es: seq<Enemy>, y: int): (m: seq<bool>)
    reads es
    ensures |m| == |es|
    ensures forall k :: 0 <= k < |es| ==> m[k] == EnemyTouches(es[k], y)
  {
    seq(|es|, k requires 0 <= k < |es| reads es => EnemyTouches(es[k], y))
  }

  function GateContacts(gs: seq<Gate>, y: int): (m: seq<bool>)
    reads gs
    ensures |m| == |gs|
    ensures forall k :: 0 <= k < |gs| ==> m[k] == GateTouches(gs[k], y)
  {
    seq(|gs|, k requires 0 <= k < |gs| reads gs => GateTouches(gs[k], y))
  }

  /** For each pick-up, whether it stays in the list: still on screen and not touched by the ship. */
  function PowerUpMask(ps: seq<PowerUp>, y: int): (m: seq<bool>)
    reads ps
    ensures |m| == |ps|
    ensures forall k :: 0 <= k < |ps| ==> m[k] == (ps[k].x + ps[k].size >= 0 && !PowerUpTouches(ps[k], y))
  {
    seq(|ps|, k requires 0 <= k < |ps| reads ps => ps[k].x + ps[k].size >= 0 && !PowerUpTouches(ps[k], y))
  }

  /** The pick-ups left after a pass, in order. */
  function PowerUpsLeft(ps: seq<PowerUp>, y: int): seq<PowerUp>
    reads ps
  {
    KeepIf(ps, PowerUpMask(ps, y))
  }

  /** Exactly the pick-ups on screen that the ship missed stay, none twice. */
  lemma PowerUpsLeftMembers(ps: seq<PowerUp>, y: int)
    requires Distinct(ps)
    ensures forall k :: 0 <= k < |ps| ==>
              (ps[k] in PowerUpsLeft(ps, y) <==> ps[k].x + ps[k].size >= 0 && !PowerUpTouches(ps[k], y))
    ensures forall p :: p in PowerUpsLeft(ps, y) ==> p in ps
    ensures Distinct(PowerUpsLeft(ps, y))
  {
    KeepIfMembers(ps, PowerUpMask(ps, y));
    KeepIfDistinct(ps, PowerUpMask(ps, y));
    forall p | p in PowerUpsLeft(ps, y) ensures p in ps {
      KeepIfSubset(ps, PowerUpMask(ps, y), p);
    }
  }

  /** The kinds of the pick-ups the ship at height `y` touches, in list order. */
  function PickedKinds(ps: seq<PowerUp>, y: int): (r: seq<PowerUpType>)
    reads ps
    ensures |r| <= |ps|
  {
    KeepIf(KindsOf(ps), TouchMask(ps, y))
  }

  /** The kind of each pick-up, in order. */
  function KindsOf(ps: seq<PowerUp>): (r: seq<PowerUpType>)
    ensures |r| == |ps| && forall k :: 0 <= k < |ps| ==> r[k] == ps[k].kind
  {
    seq(|ps|, k requires 0 <= k < |ps| => ps[k].kind)
  }

  /** For each pick-up, whether the ship at height `y` touches it. */
  function TouchMask(ps: seq<PowerUp>, y: int): (m: seq<bool>)
    reads ps
    ensures |m| == |ps| && forall k :: 0 <= k < |ps| ==> m[k] == PowerUpTouches(ps[k], y)
  {
    seq(|ps|, k requires 0 <= k < |ps| reads ps => PowerUpTouches(ps[k], y))
  }

  /** The shield count after collecting pick-ups of these kinds in order from `shields`. */
  function ShieldsAfter(shields: int, kinds: seq<PowerUpType>): int {
    if kinds == [] then shields
    else
      var n := |kinds| - 1;
      var s := ShieldsAfter(shields, kinds[..n]);
      if kinds[n] == ShieldUp then Min(s + 1, MaxShields) else s
  }

  /** How many of the pick-ups are shields. */
  function ShieldCount(kinds: seq<PowerUpType>): (n: nat)
    ensures n <= |kinds|
  {
    if kinds == [] then 0
    else
      var n := |kinds| - 1;
      ShieldCount(kinds[..n]) + (if kinds[n] == ShieldUp then 1 else 0)
  }

  /** The weapon pick-ups among the kinds, in order. */
  function WeaponPickups(kinds: seq<PowerUpType>): (r: seq<PowerUpType>)
    ensures forall k :: 0 <= k < |r| ==> r[k] != ShieldUp
  {
    if kinds == [] then []
    else
      var n := |kinds| - 1;
      WeaponPickups(kinds[..n]) + (if kinds[n] != ShieldUp then [kinds[n]] else [])
  }

  /**
   * Collecting shields one after another gains one shield each, up to the
   * maximum: the count never passes the maximum, and no shield is lost.
   */
  lemma {:induction false} ShieldsAfterCapped(shields: int, kinds: seq<PowerUpType>)
    requires shields <= MaxShields
    ensures ShieldsAfter(shields, kinds) == Min(shields + ShieldCount(kinds), MaxShields)
  {
    if kinds != [] {
      ShieldsAfterCapped(shields, kinds[..|kinds| - 1]);
    }
  }

  /** Every pick-up is either a shield or a weapon. */
  lemma {:induction false} PickupsSplit(kinds: seq<PowerUpType>)
    ensures ShieldCount(kinds) + |WeaponPickups(kinds)| == |kinds|
  {
    if kinds != [] {
      PickupsSplit(kinds[..|kinds| - 1]);
    }
  }

  /**
   * Applies, in list order, every pick-up the ship at its height touches,
   * and reports their kinds in that order; the pick-ups themselves do not
   * change.
   */
  method CollectTouched(ps: seq<PowerUp>, bird: Bird) returns (picked: seq<PowerUpType>)
    requires bird.Valid()
    modifies bird
    ensures picked == PickedKinds(ps, bird.y)
    ensures bird.Valid() && bird.y == old(bird.y) && bird.activeNuke == old(bird.activeNuke)
    ensures bird.explosion == old(bird.explosion)
    ensures bird.invincible == old(bird.invincible) && bird.invincibleStart == old(bird.invincibleStart)
    ensures bird.shields == ShieldsAfter(old(bird.shields), picked)
    ensures WeaponPickups(picked) == [] ==> bird.weapon == old(bird.weapon)
    ensures WeaponPickups(picked) != [] ==> bird.weapon.Pristine(WeaponFor(Last(WeaponPickups(picked))))
  {
    var touch := TouchMask(ps, bird.y);
    ghost var kinds := KindsOf(ps);
    picked := [];
    ghost var armed: PowerUpType := ShieldUp;
    for i := 0 to |ps|
      invariant bird.Valid() && bird.y == old(bird.y) && bird.activeNuke == old(bird.activeNuke)
      invariant bird.explosion == old(bird.explosion)
      invariant bird.invincible == old(bird.invincible) && bird.invincibleStart == old(bird.invincibleStart)
      invariant picked == KeepIf(kinds[..i], touch[..i])
      invariant bird.shields == ShieldsAfter(old(bird.shields), picked)
      invariant WeaponPickups(picked) == [] ==> bird.weapon == old(bird.weapon)
      invariant WeaponPickups(picked) != [] ==> armed != ShieldUp && armed == Last(WeaponPickups(picked))
      invariant armed != ShieldUp ==> bird.weapon.Pristine(WeaponFor(armed))
    {
      assert kinds[..i + 1][..i] == kinds[..i] && touch[..i + 1][..i] == touch[..i];
      if touch[i] {
        var k := ps[i].kind;
        PickStep(picked, old(bird.shields), k);
        ps[i].Collect(bird);
        picked := picked + [k];
        if k != ShieldUp {
          armed := k;
        }
      }
    }
    assert kinds[..|ps|] == kinds && touch[..|ps|] == touch;
  }

  /** The weapon the last of a non-empty run of weapon pick-ups hands out. */
  function Last(w: seq<PowerUpType>): (t: PowerUpType)
    requires w != [] && forall k :: 0 <= k < |w| ==> w[k] != ShieldUp
    ensures t != ShieldUp
  {
    w[|w| - 1]
  }

  /** One more pick-up of kind `k` after `kinds`: its effect on the shield count and on the weapon pick-ups. */
  lemma PickStep(kinds: seq<PowerUpType>, shields: int, k: PowerUpType)
    ensures ShieldsAfter(shields, kinds + [k])
            == if k == ShieldUp then Min(ShieldsAfter(shields, kinds) + 1, MaxShields) else ShieldsAfter(shields, kinds)
    ensures WeaponPickups(kinds + [k]) == WeaponPickups(kinds) + if k == ShieldUp then [] else [k]
    ensures k != ShieldUp ==> Last(WeaponPickups(kinds + [k])) == k
  {
    assert (kinds + [k])[..|kinds|] == kinds;
  }

  /** The box a projectile is tested with: a square for round shots, the shot's own box for flat ones. */
  function BulletBox(b: Bullet): (r: Rect)
    reads b
    ensures r.width > 0 && r.height > 0
  {
    if b.kind == Nuke then CentredBox(b.x, b.y, StatsFor(Nuke, 0).shape.radius)
    else if b.kind == Spread || b.kind == Charge then CentredBox(b.x, b.y, RoundShotHalfBox)
    else
      var s := StatsFor(b.kind, 0).shape;
      Rect(b.x, b.y - s.height / 2, s.width, s.height)
  }

  /** A round non-nuke shot is tested with a 20-pixel square, whatever its drawn radius. */
  const RoundShotHalfBox := 10
  /** A shot within the UFO's radius plus this margin of its centre hits it. */
  const UfoHitMargin := 5

  /** The shot meets a gate still standing. */
  predicate BulletTouchesGate(b: Bullet, g: Gate)
    reads b, g
  {
    !g.destroyed && Overlaps(BulletBox(b), GateBox(g.x, g.y, g.width, g.height))
  }

  /** The shot meets the enemy's box. */
  predicate BulletTouchesEnemy(b: Bullet, e: Enemy)
    reads b, e
  {
    Overlaps(BulletBox(b), CentredBox(e.x, e.y, EnemyHalfBox))
  }

  /**
   * The shot's centre is closer to the UFO's centre than the UFO's radius
   * plus the margin: the distance test, squared on both sides.
   */
  predicate BulletNearUfo(b: Bullet, u: Ufo)
    reads b, u
  {
    var dx, dy := b.x - u.x, b.y - u.y;
    u.radius + UfoHitMargin > 0 && dx * dx + dy * dy < (u.radius + UfoHitMargin) * (u.radius + UfoHitMargin)
  }

  /** For each shot, whether it stays: it has not passed the right edge, or it is the launched nuke. */
  function BulletMask(bs: seq<Bullet>, nuke: Bullet?): (m: seq<bool>)
    reads bs
    ensures |m| == |bs|
    ensures forall k :: 0 <= k < |bs| ==> m[k] == (bs[k].x <= ScreenWidth || bs[k] == nuke)
  {
    seq(|bs|, k requires 0 <= k < |bs| reads bs => bs[k].x <= ScreenWidth || bs[k] == nuke)
  }

  /** The shots left after the pass, in order. */
  function BulletsLeft(bs: seq<Bullet>, nuke: Bullet?): seq<Bullet>
    reads bs
  {
    KeepIf(bs, BulletMask(bs, nuke))
  }

  /**
   * Exactly the shots still on screen, and the launched nuke wherever it
   * is, stay: the nuke is never pruned.
   */
  lemma BulletsLeftMembers(bs: seq<Bullet>, nuke: Bullet?)
    ensures forall b :: b in BulletsLeft(bs, nuke) <==> b in bs && (b.x <= ScreenWidth || b == nuke)
  {
    var m := BulletMask(bs, nuke);
    forall b | b in BulletsLeft(bs, nuke) ensures b in bs && (b.x <= ScreenWidth || b == nuke) {
      var k := KeepIfMarked(bs, m, b);
    }
    forall b | b in bs && (b.x <= ScreenWidth || b == nuke) ensures b in BulletsLeft(bs, nuke) {
      var k :| 0 <= k < |bs| && bs[k] == b;
      KeepIfKeeps(bs, m, k);
    }
  }
}
