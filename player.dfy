/**
 * The player's ship (the "bird"): its shields and post-hit invincibility,
 * its hull colour, its weapon, and the nuke it can launch and detonate.
 * Vertical motion under gravity is not part of this model; `y` is whatever
 * the last frame left it at.
 */
module Player {
  import opened Lists
  import opened Weapons
  import opened Entities

  const StartX := 50
  const StartY := ScreenHeight / 2
  const BirdRadius := 15
  const MaxShields := 3
  const InvincibleDuration := 1000
  /** Reach of a nuke's blast, the default radius of its explosion. */
  const BlastRadius := 400

  const Green := Rgb(0, 255, 0)
  const Yellow := Rgb(255, 255, 0)
  const Orange := Rgb(255, 165, 0)
  const Red := Rgb(255, 0, 0)

  /** Hull colour for a shield count: green, yellow, orange for 3, 2, 1 and red otherwise. */
  function ShieldColor(shields: int): (c: Rgb)
    ensures c == Red <==> shields !in {1, 2, 3}
    ensures c.r == 255 <==> shields != 3
    ensures c.b == 0
  {
    if shields == 3 then Green
    else if shields == 2 then Yellow
    else if shields == 1 then Orange
    else Red
  }

  /** The colours of the shield boxes drawn above the ship, one per remaining shield. */
  const HudColors: map<int, Rgb> := map[3 := Green, 2 := Yellow, 1 := Orange]

  /** The hull always wears the colour of the shield boxes, and distinct counts look distinct. */
  lemma HullMatchesHud(s: int, t: int)
    ensures s in HudColors ==> ShieldColor(s) == HudColors[s]
    ensures 0 <= s < t <= MaxShields ==> ShieldColor(s) != ShieldColor(t)
  {
  }

  /** What a hit can change: the shield count and the invincibility window. */
  datatype Vitals = Vitals(shields: int, invincible: bool, invincibleStart: int)

  /** One hit at time `now`: the new vitals, and whether the hit was fatal. */
  function AfterHit(v: Vitals, now: int): (Vitals, bool) {
    if v.invincible then (v, false)
    else if v.shields <= 0 then (v, true)
    else (Vitals(v.shields - 1, true, now), false)
  }

  /** A hit is fatal exactly when it finds the ship vulnerable with no shield left. */
  lemma FatalHit(v: Vitals, now: int)
    ensures AfterHit(v, now).1 <==> !v.invincible && v.shields <= 0
  {
  }

  /** Shields stay within 0..3 under hits, and each hit costs at most one. */
  lemma HitKeepsShieldRange(v: Vitals, now: int)
    requires 0 <= v.shields <= MaxShields
    ensures 0 <= AfterHit(v, now).0.shields <= MaxShields
    ensures AfterHit(v, now).0.shields >= v.shields - 1
  {
  }

  /** A second hit at the same moment changes nothing more: the first one left the ship invincible or dead. */
  lemma SecondHitIsHarmless(v: Vitals, now: int)
    ensures AfterHit(AfterHit(v, now).0, now) == AfterHit(v, now)
  {
  }

  /** A blast centred on (cx, cy) reaches (px, py): Euclidean distance at most the blast radius. */
  predicate InBlast(px: int, py: int, cx: int, cy: int) {
    (px - cx) * (px - cx) + (py - cy) * (py - cy) <= BlastRadius * BlastRadius
  }

  /** The enemies a blast at (cx, cy) spares, in their original order. */
  function EnemiesOutside(es: seq<Enemy>, cx: int, cy: int): (r: seq<Enemy>)
    reads es
    ensures |r| <= |es|
    ensures forall k :: 0 <= k < |r| ==> r[k] in es && !InBlast(r[k].x, r[k].y, cx, cy)
    ensures forall k :: 0 <= k < |es| && !InBlast(es[k].x, es[k].y, cx, cy) ==> es[k] in r
    ensures r == es <==> forall k :: 0 <= k < |es| ==> !InBlast(es[k].x, es[k].y, cx, cy)
  {
    if es == [] then []
    else
      var last := es[|es| - 1];
      assert es == es[..|es| - 1] + [last];
      EnemiesOutside(es[..|es| - 1], cx, cy) + (if InBlast(last.x, last.y, cx, cy) then [] else [last])
  }

  /** The enemies a blast spares hold no object twice if the list did not. */
  lemma {:induction false} EnemiesOutsideDistinct(es: seq<Enemy>, cx: int, cy: int)
    requires Distinct(es)
    ensures Distinct(EnemiesOutside(es, cx, cy))
  {
    if es != [] {
      var n := |es| - 1;
      assert Distinct(es[..n]) by {
        forall i, j | 0 <= i < j < n ensures es[..n][i] != es[..n][j] {
          assert es[..n][i] == es[i] && es[..n][j] == es[j];
        }
      }
      EnemiesOutsideDistinct(es[..n], cx, cy);
      var r := EnemiesOutside(es[..n], cx, cy);
      assert es[n] !in r by {
        forall k | 0 <= k < |r| ensures r[k] != es[n] {
          assert r[k] in es[..n];
        }
      }
      forall i, j | 0 <= i < j < |r| + 1 ensures (r + [es[n]])[i] != (r + [es[n]])[j] {
        if j == |r| {
          assert (r + [es[n]])[i] == r[i];
        } else {
          assert (r + [es[n]])[i] == r[i] && (r + [es[n]])[j] == r[j];
        }
      }
    }
  }

  /** The UFOs a blast at (cx, cy) spares, in their original order. */
  function UfosOutside(us: seq<Ufo>, cx: int, cy: int): (r: seq<Ufo>)
    reads us
    ensures |r| <= |us|
    ensures forall k :: 0 <= k < |r| ==> r[k] in us && !InBlast(r[k].x, r[k].y, cx, cy)
    ensures forall k :: 0 <= k < |us| && !InBlast(us[k].x, us[k].y, cx, cy) ==> us[k] in r
    ensures r == us <==> forall k :: 0 <= k < |us| ==> !InBlast(us[k].x, us[k].y, cx, cy)
  {
    if us == [] then []
    else
      var last := us[|us| - 1];
      assert us == us[..|us| - 1] + [last];
      UfosOutside(us[..|us| - 1], cx, cy) + (if InBlast(last.x, last.y, cx, cy) then [] else [last])
  }

  /** One more element of the sweep considered: removed when the blast reaches it, kept otherwise. */
  lemma EnemiesOutsideStep(es: seq<Enemy>, i: int, cx: int, cy: int, left: seq<Enemy>)
    requires 0 <= i < |es|
    requires left == EnemiesOutside(es[..i], cx, cy) + es[i..]
    ensures InBlast(es[i].x, es[i].y, cx, cy) ==>
              && RemoveFirst(left, es[i]) == EnemiesOutside(es[..i + 1], cx, cy) + es[i + 1..]
              && |EnemiesOutside(es[..i + 1], cx, cy)| == |EnemiesOutside(es[..i], cx, cy)|
    ensures !InBlast(es[i].x, es[i].y, cx, cy) ==>
              && left == EnemiesOutside(es[..i + 1], cx, cy) + es[i + 1..]
              && |EnemiesOutside(es[..i + 1], cx, cy)| == |EnemiesOutside(es[..i], cx, cy)| + 1
  {
    var kept, rest := EnemiesOutside(es[..i], cx, cy), es[i + 1..];
    SplitAt(es, i);
    Assoc(kept, [es[i]], rest);
    if InBlast(es[i].x, es[i].y, cx, cy) {
      RemoveFirstAfter(kept, es[i], rest);
    }
  }

  /** One more element of the sweep considered: removed when the blast reaches it, kept otherwise. */
  lemma UfosOutsideStep(us: seq<Ufo>, i: int, cx: int, cy: int, left: seq<Ufo>)
    requires 0 <= i < |us|
    requires left == UfosOutside(us[..i], cx, cy) + us[i..]
    ensures InBlast(us[i].x, us[i].y, cx, cy) ==>
              && RemoveFirst(left, us[i]) == UfosOutside(us[..i + 1], cx, cy) + us[i + 1..]
              && |UfosOutside(us[..i + 1], cx, cy)| == |UfosOutside(us[..i], cx, cy)|
    ensures !InBlast(us[i].x, us[i].y, cx, cy) ==>
              && left == UfosOutside(us[..i + 1], cx, cy) + us[i + 1..]
              && |UfosOutside(us[..i + 1], cx, cy)| == |UfosOutside(us[..i], cx, cy)| + 1
  {
    var kept, rest := UfosOutside(us[..i], cx, cy), us[i + 1..];
    SplitAt(us, i);
    Assoc(kept, [us[i]], rest);
    if InBlast(us[i].x, us[i].y, cx, cy) {
      RemoveFirstAfter(kept, us[i], rest);
    }
  }

  /** A gate a blast centred at column `cx` destroys: only the horizontal distance matters. */
  predicate GateInReach(g: Gate, cx: int)
    reads g
  {
    Abs(g.x - cx) <= BlastRadius
  }

  /** The number of still-standing gates a blast centred at column `cx` destroys. */
  function GatesNewlyInBlast(gs: seq<Gate>, cx: int): (n: nat)
    reads gs
    ensures n <= |gs|
    ensures n == 0 <==> forall k :: 0 <= k < |gs| ==> gs[k].destroyed || !GateInReach(gs[k], cx)
  {
    if gs == [] then 0
    else
      var last := gs[|gs| - 1];
      GatesNewlyInBlast(gs[..|gs| - 1], cx) + (if !last.destroyed && GateInReach(last, cx) then 1 else 0)
  }

  /** The enemy sweep of a detonation: the survivors, in order, and one kill per enemy removed. */
  method BlastEnemies(enemies: seq<Enemy>, cx: int, cy: int) returns (left: seq<Enemy>, kills: int)
    ensures left == EnemiesOutside(enemies, cx, cy)
    ensures kills == |enemies| - |left| && kills >= 0
  {
    left, kills := enemies, 0;
    for i := 0 to |enemies|
      invariant left == EnemiesOutside(enemies[..i], cx, cy) + enemies[i..]
      invariant kills == i - |EnemiesOutside(enemies[..i], cx, cy)|
    {
      var e := enemies[i];
      EnemiesOutsideStep(enemies, i, cx, cy, left);
      if InBlast(e.x, e.y, cx, cy) {
        left := RemoveFirst(left, e);
        kills := kills + 1;
      }
    }
    assert enemies[..|enemies|] == enemies;
  }

  /** The UFO sweep of a detonation: the survivors, in order, and two kills per UFO removed. */
  method BlastUfos(ufos: seq<Ufo>, cx: int, cy: int) returns (left: seq<Ufo>, kills: int)
    ensures left == UfosOutside(ufos, cx, cy)
    ensures kills == 2 * (|ufos| - |left|) && kills >= 0
  {
    left, kills := ufos, 0;
    for i := 0 to |ufos|
      invariant left == UfosOutside(ufos[..i], cx, cy) + ufos[i..]
      invariant kills == 2 * (i - |UfosOutside(ufos[..i], cx, cy)|)
    {
      var u := ufos[i];
      UfosOutsideStep(ufos, i, cx, cy, left);
      if InBlast(u.x, u.y, cx, cy) {
        left := RemoveFirst(left, u);
        kills := kills + 2;
      }
    }
    assert ufos[..|ufos|] == ufos;
  }

  /** The gate sweep of a detonation: standing gates in reach fall, one kill each. */
  method BlastGates(gates: seq<Gate>, cx: int) returns (kills: int)
    requires Distinct(gates)
    modifies gates
    ensures forall g :: g in gates ==> g.destroyed == (old(g.destroyed) || old(GateInReach(g, cx)))
    ensures forall g :: g in gates ==> g.x == old(g.x) && g.health == old(g.health) && g.flashStart == old(g.flashStart)
    ensures kills == old(GatesNewlyInBlast(gates, cx))
  {
    kills := 0;
    for i := 0 to |gates|
      invariant forall k :: 0 <= k < i ==> gates[k].destroyed == (old(gates[k].destroyed) || old(GateInReach(gates[k], cx)))
      invariant forall k :: i <= k < |gates| ==> gates[k].destroyed == old(gates[k].destroyed)
      invariant forall g :: g in gates ==> g.x == old(g.x) && g.health == old(g.health) && g.flashStart == old(g.flashStart)
      invariant kills == old(GatesNewlyInBlast(gates[..i], cx))
    {
      var g := gates[i];
      assert gates[..i + 1][..i] == gates[..i];
      if GateInReach(g, cx) && !g.destroyed {
        g.destroyed := true;
        kills := kills + 1;
      }
    }
    assert gates[..|gates|] == gates;
  }

  /**
   * The sweeps of a blast centred on (cx, cy), in the source's order: enemies,
   * then UFOs, then gates.
   */
  method Blast(enemies: seq<Enemy>, ufos: seq<Ufo>, gates: seq<Gate>, cx: int, cy: int)
    returns (enemiesLeft: seq<Enemy>, ufosLeft: seq<Ufo>, kills: int)
    requires Distinct(gates)
    modifies gates
    ensures enemiesLeft == old(EnemiesOutside(enemies, cx, cy))
    ensures ufosLeft == old(UfosOutside(ufos, cx, cy))
    ensures forall g :: g in gates ==> g.x == old(g.x) && g.health == old(g.health) && g.flashStart == old(g.flashStart)
    ensures forall g :: g in gates ==> g.destroyed == (old(g.destroyed) || old(GateInReach(g, cx)))
    ensures kills == (|enemies| - |enemiesLeft|) + 2 * (|ufos| - |ufosLeft|) + old(GatesNewlyInBlast(gates, cx))
  {
    var enemyKills, ufoKills, gateKills;
    enemiesLeft, enemyKills := BlastEnemies(enemies, cx, cy);
    ufosLeft, ufoKills := BlastUfos(ufos, cx, cy);
    gateKills := BlastGates(gates, cx);
    kills := enemyKills + ufoKills + gateKills;
  }

  /** The player's ship. */
  class Bird {
    const x: int
    var y: int
    const radius: int
    var shields: int
    const maxShields: int
    var invincible: bool
    var invincibleStart: int
    var weapon: Weapon
    /** The launched nuke still in flight, if any. */
    var activeNuke: Bullet?
    /** The blast of the last detonated nuke, while it is on screen. */
    var explosion: Explosion?

    ghost predicate Valid()
      reads this, weapon
    {
      && 0 <= shields <= maxShields
      && maxShields == MaxShields
      && weapon.Valid()
      && (activeNuke != null ==> activeNuke.kind == Nuke)
    }

    /** The state of a new game: full shields, a default weapon, nothing launched. */
    ghost predicate Initial()
      reads this, weapon
    {
      && y == StartY
      && shields == MaxShields
      && !invincible && invincibleStart == 0
      && activeNuke == null && explosion == null
      && weapon.Pristine(Default)
    }

    function Status(): Vitals
      reads this
    {
      Vitals(shields, invincible, invincibleStart)
    }

    /** Shields, invincibility, position and explosion are as they were. */
    twostate predicate BodyUnchanged()
      reads this
    {
      && y == old(y) && shields == old(shields)
      && invincible == old(invincible) && invincibleStart == old(invincibleStart)
      && explosion == old(explosion)
    }

    constructor ()
      ensures Valid() && Initial() && fresh(weapon)
      ensures x == StartX && radius == BirdRadius
    {
      x := StartX;
      y := StartY;
      radius := BirdRadius;
      shields := MaxShields;
      maxShields := MaxShields;
      invincible := false;
      invincibleStart := 0;
      weapon := new Weapon(Default);
      activeNuke := null;
      explosion := null;
    }

    /** Back to the state of a new game, with a new default weapon. */
    method Reset()
      requires maxShields == MaxShields
      modifies this
      ensures Valid() && Initial() && fresh(weapon)
    {
      y := StartY;
      shields := MaxShields;
      weapon := new Weapon(Default);
      invincible := false;
      invincibleStart := 0;
      activeNuke := null;
      explosion := null;
    }

    /** The play loop's response to a spent weapon: a new default weapon; nothing else about the ship changes. */
    method Rearm()
      requires Valid()
      modifies this
      ensures Valid() && BodyUnchanged() && activeNuke == old(activeNuke)
      ensures fresh(weapon) && weapon.Pristine(Default)
    {
      weapon := new Weapon(Default);
    }

    function Color(): (c: Rgb)
      reads this, weapon
      requires Valid()
      ensures c == Red <==> shields == 0
      ensures c == Green <==> shields == maxShields
    {
      ShieldColor(shields)
    }

    /** Per-frame bookkeeping of the ship itself: invincibility lapses a full second after the hit. */
    method Update(now: int)
      modifies this
      ensures invincible <==> old(invincible) && now - invincibleStart < InvincibleDuration
      ensures y == old(y) && shields == old(shields) && invincibleStart == old(invincibleStart)
      ensures weapon == old(weapon) && activeNuke == old(activeNuke) && explosion == old(explosion)
    {
      if invincible && now - invincibleStart >= InvincibleDuration {
        invincible := false;
      }
    }

    /**
     * A hit: ignored while invincible; fatal only when no shield is left;
     * otherwise it costs one shield and starts a second of invincibility.
     */
    method TakeHit(now: int) returns (dead: bool)
      requires Valid()
      modifies this
      ensures Valid()
      ensures y == old(y) && weapon == old(weapon) && activeNuke == old(activeNuke) && explosion == old(explosion)
      ensures (Status(), dead) == AfterHit(old(Status()), now)
      ensures dead <==> !old(invincible) && old(shields) == 0
      ensures old(invincible) || dead ==>
                shields == old(shields) && invincible == old(invincible) && invincibleStart == old(invincibleStart)
      ensures !old(invincible) && !dead ==>
                shields == old(shields) - 1 && invincible && invincibleStart == now
    {
      if invincible {
        return false;
      }
      if shields <= 0 {
        return true;
      }
      shields := shields - 1;
      invincible := true;
      invincibleStart := now;
      return false;
    }

    /**
     * The ship's own trigger. After the cooldown: a nuke weapon with no nuke
     * in flight launches one ahead of the ship without spending ammo; other
     * weapons with ammo fire their volley (three spread shots, not the five
     * of the weapon's own `Shoot`) and, unless default, spend one round,
     * asking for a reset once ammo reaches zero. A nuke weapon with a nuke in
     * flight, and a charge weapon, spend a round and fire nothing.
     */
    method Shoot(now: int) returns (bullets: seq<Bullet>, reset: bool)
      requires Valid()
      modifies this, weapon
      ensures Valid() && BodyUnchanged() && weapon == old(weapon)
      ensures weapon.kind == old(weapon.kind) && weapon.chargeLevel == old(weapon.chargeLevel)
      ensures weapon.isCharging == old(weapon.isCharging) && weapon.lastChargeCue == old(weapon.lastChargeCue)
      ensures !CooldownElapsed(old(weapon.lastShotTime), weapon.cooldown, now) ==>
                bullets == [] && !reset && unchanged(this) && unchanged(weapon)
      ensures CooldownElapsed(old(weapon.lastShotTime), weapon.cooldown, now) ==> weapon.lastShotTime == now
      ensures CooldownElapsed(old(weapon.lastShotTime), weapon.cooldown, now) && !old(weapon.ammo).Positive() ==>
                bullets == [] && !reset && weapon.ammo == old(weapon.ammo) && activeNuke == old(activeNuke)
      ensures CooldownElapsed(old(weapon.lastShotTime), weapon.cooldown, now) && old(weapon.ammo).Positive()
              && weapon.kind == Nuke && old(activeNuke) == null ==>
                && NewVolley(bullets, x + 2 * radius, y, Nuke, 0, [0.0])
                && activeNuke == bullets[0]
                && weapon.ammo == old(weapon.ammo) && !reset
      ensures CooldownElapsed(old(weapon.lastShotTime), weapon.cooldown, now) && old(weapon.ammo).Positive()
              && !(weapon.kind == Nuke && old(activeNuke) == null) ==>
                && NewVolley(bullets, x, y, weapon.kind, 0, BirdVolleyAngles(weapon.kind))
                && activeNuke == old(activeNuke)
                && (weapon.kind == Default ==> weapon.ammo == old(weapon.ammo) && !reset)
                && (weapon.kind != Default ==> weapon.ammo == old(weapon.ammo).Dec() && reset == weapon.ammo.Exhausted())
    {
      bullets, reset := [], false;
      if !CooldownElapsed(weapon.lastShotTime, weapon.cooldown, now) {
        return;
      }
      weapon.lastShotTime := now;
      if weapon.ammo.Positive() {
        if weapon.kind == Nuke && activeNuke == null {
          var nuke := new Bullet(x + radius * 2, y, Nuke, 0, 0.0);
          activeNuke := nuke;
          bullets := [nuke];
          return;
        } else if weapon.kind == Default {
          var b := new Bullet(x, y, Default, 0, 0.0);
          bullets := [b];
        } else if weapon.kind == Spread {
          bullets := Volley(x, y, Spread, 0, BirdVolleyAngles(Spread));
        } else if weapon.kind == Laser {
          var b := new Bullet(x, y, Laser, 0, 0.0);
          bullets := [b];
        }
        if weapon.kind != Default {
          weapon.ammo := weapon.ammo.Dec();
          reset := weapon.ammo.Exhausted();
        }
      }
    }

    method StartCharging(now: int)
      requires Valid()
      modifies weapon
      ensures Valid()
      ensures weapon.kind == Charge && !old(weapon.isCharging) ==>
                weapon.isCharging && weapon.chargeLevel == 0 && weapon.lastChargeCue == now
      ensures !(weapon.kind == Charge && !old(weapon.isCharging)) ==> unchanged(weapon)
      ensures weapon.kind == old(weapon.kind) && weapon.ammo == old(weapon.ammo)
      ensures weapon.lastShotTime == old(weapon.lastShotTime)
    {
      weapon.StartCharging(now);
    }

    method UpdateCharge(now: int) returns (cue: bool)
      requires Valid()
      modifies weapon
      ensures Valid()
      ensures old(weapon.isCharging) ==> weapon.chargeLevel == NextCharge(old(weapon.chargeLevel))
      ensures !old(weapon.isCharging) ==> unchanged(weapon) && !cue
      ensures old(weapon.isCharging) ==>
                && cue == (now - old(weapon.lastChargeCue) >= ChargeCueInterval)
                && weapon.lastChargeCue == (if cue then now else old(weapon.lastChargeCue))
      ensures weapon.kind == old(weapon.kind) && weapon.ammo == old(weapon.ammo)
      ensures weapon.isCharging == old(weapon.isCharging) && weapon.lastShotTime == old(weapon.lastShotTime)
    {
      cue := weapon.UpdateCharge(now);
    }

    /**
     * Lets a charge weapon go (any other weapon ignores the release); a weapon
     * whose ammo runs out is swapped for a new default one.
     */
    method ReleaseCharge(now: int) returns (bullets: seq<Bullet>, reset: bool)
      requires Valid()
      modifies this, weapon
      ensures Valid() && BodyUnchanged() && activeNuke == old(activeNuke)
      ensures old(weapon.kind) != Charge ==>
                bullets == [] && !reset && weapon == old(weapon) && unchanged(old(weapon))
      ensures old(weapon.kind) == Charge ==> Released(old(weapon), x, y, now, bullets, reset)
      ensures reset ==> fresh(weapon) && weapon.Pristine(Default)
      ensures !reset ==> weapon == old(weapon)
    {
      bullets, reset := [], false;
      if weapon.kind == Charge {
        bullets, reset := weapon.ReleaseCharge(x, y, now);
        if reset {
          weapon := new Weapon(Default);
        }
      }
    }

    /**
     * Sets off the nuke in flight, if it is still among `bullets`: every
     * enemy and UFO within the blast radius of it is removed, every standing
     * gate within that horizontal distance is destroyed, the nuke leaves the
     * bullet list, an explosion starts where it was, and one round of nuke
     * ammo is spent. `kills` scores one per enemy, two per UFO and one per
     * newly destroyed gate.
     */
    method DetonateNuke(enemies: seq<Enemy>, bullets: seq<Bullet>, ufos: seq<Ufo>, gates: seq<Gate>)
      returns (enemiesLeft: seq<Enemy>, bulletsLeft: seq<Bullet>, ufosLeft: seq<Ufo>, reset: bool, kills: int)
      requires Valid() && Distinct(gates)
      modifies this, weapon, gates
      ensures Valid() && weapon == old(weapon)
      ensures old(activeNuke) == null || old(activeNuke) !in bullets ==>
                && enemiesLeft == enemies && bulletsLeft == bullets && ufosLeft == ufos
                && !reset && kills == 0
                && unchanged(this) && unchanged(weapon) && unchanged(gates)
      ensures old(activeNuke) != null && old(activeNuke) in bullets ==>
                Detonated(old(activeNuke), enemies, bullets, ufos, gates, enemiesLeft, bulletsLeft, ufosLeft, reset, kills)
    {
      enemiesLeft, bulletsLeft, ufosLeft, reset, kills := enemies, bullets, ufos, false, 0;
      if activeNuke == null || activeNuke !in bullets {
        return;
      }
      enemiesLeft, bulletsLeft, ufosLeft, reset, kills := Detonate(enemies, bullets, ufos, gates);
    }

    /** The effect of a detonation of `nuke`, as the next method states it. */
    twostate predicate Detonated(nuke: Bullet, enemies: seq<Enemy>, bullets: seq<Bullet>, ufos: seq<Ufo>, gates: seq<Gate>,
                                 new enemiesLeft: seq<Enemy>, new bulletsLeft: seq<Bullet>, new ufosLeft: seq<Ufo>, reset: bool, kills: int)
      reads this, weapon, gates, explosion
    {
      && y == old(y) && shields == old(shields)
      && invincible == old(invincible) && invincibleStart == old(invincibleStart)
      && weapon.kind == old(weapon.kind) && weapon.chargeLevel == old(weapon.chargeLevel)
      && weapon.isCharging == old(weapon.isCharging) && weapon.lastShotTime == old(weapon.lastShotTime)
      && weapon.lastChargeCue == old(weapon.lastChargeCue)
      && activeNuke == null
      && enemiesLeft == old(EnemiesOutside(enemies, nuke.x, nuke.y))
      && ufosLeft == old(UfosOutside(ufos, nuke.x, nuke.y))
      && bulletsLeft == RemoveFirst(bullets, nuke)
      && (forall g :: g in gates ==> g.x == old(g.x) && g.health == old(g.health) && g.flashStart == old(g.flashStart))
      && (forall g :: g in gates ==> g.destroyed == (old(g.destroyed) || old(GateInReach(g, nuke.x))))
      && kills == (|enemies| - |enemiesLeft|) + 2 * (|ufos| - |ufosLeft|) + old(GatesNewlyInBlast(gates, nuke.x))
      && weapon.ammo == old(weapon.ammo).Dec() && reset == weapon.ammo.Exhausted()
      && explosion != null && fresh(explosion) && explosion.Valid()
      && explosion.x == old(nuke.x) && explosion.y == old(nuke.y)
      && explosion.radius == BlastRadius && explosion.currentRadius == 0 && !explosion.isFinished
    }

    method Detonate(enemies: seq<Enemy>, bullets: seq<Bullet>, ufos: seq<Ufo>, gates: seq<Gate>)
      returns (enemiesLeft: seq<Enemy>, bulletsLeft: seq<Bullet>, ufosLeft: seq<Ufo>, reset: bool, kills: int)
      requires Valid() && Distinct(gates) && activeNuke != null && activeNuke in bullets
      modifies this, weapon, gates
      ensures Valid() && weapon == old(weapon)
      ensures Detonated(old(activeNuke), enemies, bullets, ufos, gates, enemiesLeft, bulletsLeft, ufosLeft, reset, kills)
    {
      var nuke: Bullet := activeNuke;
      bulletsLeft := RemoveFirst(bullets, nuke);
      enemiesLeft, ufosLeft, kills := Blast(enemies, ufos, gates, nuke.x, nuke.y);
      explosion := new Explosion(nuke.x, nuke.y, BlastRadius);
      activeNuke := null;
      weapon.ammo := weapon.ammo.Dec();
      reset := weapon.ammo.Exhausted();
    }
  }

  /** Directions of the ship's own volley: three spread shots, one straight shot, nothing else. */
  function BirdVolleyAngles(kind: WeaponType): (r: seq<real>)
    ensures kind == Spread ==> r == [-15.0, 0.0, 15.0]
    ensures kind == Default || kind == Laser ==> r == [0.0]
    ensures kind == Charge || kind == Nuke ==> r == []
  {
    match kind
    case Spread => [-15.0, 0.0, 15.0]
    case Default => [0.0]
    case Laser => [0.0]
    case Charge => []
    case Nuke => []
  }
}
