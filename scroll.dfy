/**
 * The scrolling passes of a frame over the pipe, enemy, gate and power-up
 * lists: every entity moves left, and one whose right edge has crossed the
 * left border of the screen leaves its list. A pipe the ship has overtaken
 * scores once.
 *
 * The game moves an entity and tests it for removal in the same loop turn;
 * the test looks only at the entity just moved, so the passes here move
 * every entity first and then filter the list, which leaves the same list.
 */
module Scroll {
  import opened Lists
  import opened Entities
  import opened PowerUps

  /** For each pipe, whether its right edge is still at or right of the left border. */
  function PipeMask(ps: seq<Pipe>): (m: seq<bool>)
    reads ps
    ensures |m| == |ps|
    ensures forall k :: 0 <= k < |ps| ==> m[k] == (ps[k].x + ps[k].width >= 0)
  {
    seq(|ps|, k requires 0 <= k < |ps| reads ps => ps[k].x + ps[k].width >= 0)
  }

  /** The pipes still on screen, in order. */
  function PipesOnScreen(ps: seq<Pipe>): seq<Pipe>
    reads ps
  {
    KeepIf(ps, PipeMask(ps))
  }

  /** Exactly the pipes whose right edge has not crossed the left border stay, none twice. */
  lemma PipesOnScreenMembers(ps: seq<Pipe>)
    requires Distinct(ps)
    ensures forall k :: 0 <= k < |ps| ==> (ps[k] in PipesOnScreen(ps) <==> ps[k].x + ps[k].width >= 0)
    ensures forall p :: p in PipesOnScreen(ps) ==> p in ps
    ensures Distinct(PipesOnScreen(ps))
  {
    KeepIfMembers(ps, PipeMask(ps));
    KeepIfDistinct(ps, PipeMask(ps));
    forall p | p in PipesOnScreen(ps) ensures p in ps {
      KeepIfSubset(ps, PipeMask(ps), p);
    }
  }

  /**
   * How many pipes of the list are not yet passed but will be left of the
   * ship's column `birdX` after one more scroll: the points the next pipe
   * pass scores.
   */
  function NewlyPassed(ps: seq<Pipe>, birdX: int): (n: nat)
    reads ps
    ensures n <= |ps|
    ensures n == 0 <==> forall k :: 0 <= k < |ps| ==> ps[k].passed || ps[k].x - PipeSpeed >= birdX
  {
    if ps == [] then 0
    else
      var last := ps[|ps| - 1];
      NewlyPassed(ps[..|ps| - 1], birdX) + (if !last.passed && last.x - PipeSpeed < birdX then 1 else 0)
  }

  /**
   * One pipe's turn in the pass: it moves and is marked passed, scoring, if
   * it is newly left of `birdX`.
   */
  method PassPipe(p: Pipe, birdX: int) returns (scores: bool)
    modifies p
    ensures p.x == old(p.x) - PipeSpeed
    ensures scores <==> !old(p.passed) && p.x < birdX
    ensures p.passed == (old(p.passed) || p.x < birdX)
  {
    p.Update();
    scores := !p.passed && p.x < birdX;
    if scores {
      p.passed := true;
    }
  }

  /**
   * The moving half of the pipe pass: each pipe moves left by the pipe
   * speed and is marked passed, scoring one point, the first time its left
   * edge is left of the ship's column `birdX`.
   */
  method MovePipes(ps: seq<Pipe>, birdX: int) returns (scored: int)
    requires Distinct(ps)
    modifies ps
    ensures forall k :: 0 <= k < |ps| ==> ps[k].x == old(ps[k].x) - PipeSpeed
    ensures forall k :: 0 <= k < |ps| ==> ps[k].passed == (old(ps[k].passed) || ps[k].x < birdX)
    ensures scored == old(NewlyPassed(ps, birdX))
  {
    scored := 0;
    for i := 0 to |ps|
      invariant forall k :: 0 <= k < i ==>
                  ps[k].x == old(ps[k].x) - PipeSpeed && ps[k].passed == (old(ps[k].passed) || ps[k].x < birdX)
      invariant forall k :: i <= k < |ps| ==> ps[k].x == old(ps[k].x) && ps[k].passed == old(ps[k].passed)
      invariant scored == old(NewlyPassed(ps[..i], birdX))
    {
      var scores := PassPipe(ps[i], birdX);
      if scores {
        scored := scored + 1;
      }
      assert ps[..i + 1][..i] == ps[..i];
    }
    assert ps[..|ps|] == ps;
  }

  /** For each enemy, whether its right edge is still at or right of the left border. */
  function EnemyMask(es: seq<Enemy>): (m: seq<bool>)
    reads es
    ensures |m| == |es|
    ensures forall k :: 0 <= k < |es| ==> m[k] == (es[k].x + es[k].size >= 0)
  {
    seq(|es|, k requires 0 <= k < |es| reads es => es[k].x + es[k].size >= 0)
  }

  /** The enemies still on screen, in order. */
  function EnemiesOnScreen(es: seq<Enemy>): seq<Enemy>
    reads es
  {
    KeepIf(es, EnemyMask(es))
  }

  /** Exactly the enemies whose right edge has not crossed the left border stay, none twice. */
  lemma EnemiesOnScreenMembers(es: seq<Enemy>)
    requires Distinct(es)
    ensures forall k :: 0 <= k < |es| ==> (es[k] in EnemiesOnScreen(es) <==> es[k].x + es[k].size >= 0)
    ensures forall e :: e in EnemiesOnScreen(es) ==> e in es
    ensures Distinct(EnemiesOnScreen(es))
  {
    KeepIfMembers(es, EnemyMask(es));
    KeepIfDistinct(es, EnemyMask(es));
    forall e | e in EnemiesOnScreen(es) ensures e in es {
      KeepIfSubset(es, EnemyMask(es), e);
    }
  }

  /** The moving half of the enemy pass: each enemy moves left at its own speed. */
  method MoveEnemies(es: seq<Enemy>)
    requires Distinct(es)
    modifies es
    ensures forall k :: 0 <= k < |es| ==> es[k].x == old(es[k].x) - es[k].speed
  {
    for i := 0 to |es|
      invariant forall k :: 0 <= k < i ==> es[k].x == old(es[k].x) - es[k].speed
      invariant forall k :: i <= k < |es| ==> es[k].x == old(es[k].x)
    {
      es[i].Update();
    }
  }

  /** For each gate, whether its right edge is still at or right of the left border. */
  function GateMask(gs: seq<Gate>): (m: seq<bool>)
    reads gs
    ensures |m| == |gs|
    ensures forall k :: 0 <= k < |gs| ==> m[k] == (gs[k].x + gs[k].width >= 0)
  {
    seq(|gs|, k requires 0 <= k < |gs| reads gs => gs[k].x + gs[k].width >= 0)
  }

  /** The gates still on screen, in order, destroyed ones included. */
  function GatesOnScreen(gs: seq<Gate>): seq<Gate>
    reads gs
  {
    KeepIf(gs, GateMask(gs))
  }

  /** Exactly the gates whose right edge has not crossed the left border stay, none twice. */
  lemma GatesOnScreenMembers(gs: seq<Gate>)
    requires Distinct(gs)
    ensures forall k :: 0 <= k < |gs| ==> (gs[k] in GatesOnScreen(gs) <==> gs[k].x + gs[k].width >= 0)
    ensures forall g :: g in GatesOnScreen(gs) ==> g in gs
    ensures Distinct(GatesOnScreen(gs))
  {
    KeepIfMembers(gs, GateMask(gs));
    KeepIfDistinct(gs, GateMask(gs));
    forall g | g in GatesOnScreen(gs) ensures g in gs {
      KeepIfSubset(gs, GateMask(gs), g);
    }
  }

  /** The moving half of the gate pass: each gate moves left by the gate speed; nothing else about it changes. */
  method MoveGates(gs: seq<Gate>)
    requires Distinct(gs)
    modifies gs
    ensures forall k :: 0 <= k < |gs| ==> gs[k].x == old(gs[k].x) - GateSpeed
    ensures forall k :: 0 <= k < |gs| ==>
              gs[k].health == old(gs[k].health) && gs[k].destroyed == old(gs[k].destroyed)
              && gs[k].flashStart == old(gs[k].flashStart)
  {
    for i := 0 to |gs|
      invariant forall k :: 0 <= k < i ==> gs[k].x == old(gs[k].x) - GateSpeed
      invariant forall k :: i <= k < |gs| ==> gs[k].x == old(gs[k].x)
      invariant forall k :: 0 <= k < |gs| ==>
                  gs[k].health == old(gs[k].health) && gs[k].destroyed == old(gs[k].destroyed)
                  && gs[k].flashStart == old(gs[k].flashStart)
    {
      gs[i].Update();
    }
  }

  /**
   * The moving half of the power-up pass: each pick-up not yet collected
   * moves left by its scroll speed.
   */
  method MovePowerUps(ps: seq<PowerUp>)
    requires Distinct(ps)
    modifies ps
    ensures forall k :: 0 <= k < |ps| ==>
              ps[k].x == old(ps[k].x) - (if old(ps[k].collected) then 0 else ps[k].scrollSpeed)
    ensures forall k :: 0 <= k < |ps| ==> ps[k].collected == old(ps[k].collected)
  {
    for i := 0 to |ps|
      invariant forall k :: 0 <= k < i ==>
                  ps[k].x == old(ps[k].x) - (if old(ps[k].collected) then 0 else ps[k].scrollSpeed)
      invariant forall k :: i <= k < |ps| ==> ps[k].x == old(ps[k].x)
      invariant forall k :: 0 <= k < |ps| ==> ps[k].collected == old(ps[k].collected)
    {
      var _ := ps[i].Update();
    }
  }
}
