/**
 * Difficulty: every hundred points is a level; each level narrows the pipe
 * gap by twenty pixels down to a floor of one hundred, and changes the
 * background colour. Also the spawn timers of the play loop.
 */
module Difficulty {
  import opened Lists
  import opened Entities

  const PointsPerLevel := 100
  const InitialGapSize := 220
  const MinGapSize := 100
  const GapDecreaseRate := 20

  const PipeInterval := 1500
  const EnemyInterval := 2000
  const GateInterval := 6000
  const PowerUpInterval := 8000

  /** Level for a score; a Python floor division, which Dafny's `/` equals for a positive divisor. */
  function LevelOf(score: int): (level: int)
    ensures score >= 0 ==> level >= 0
    ensures level * PointsPerLevel <= score < (level + 1) * PointsPerLevel
  {
    score / PointsPerLevel
  }

  /** Full height of the pipe gap at a score. */
  function GapSize(score: int): (gap: int)
    ensures gap >= MinGapSize
    ensures score >= 0 ==> gap <= InitialGapSize
    ensures gap == MinGapSize <==> score >= 600
    ensures score < 600 ==> gap == InitialGapSize - GapDecreaseRate * LevelOf(score)
  {
    Max(InitialGapSize - LevelOf(score) * GapDecreaseRate, MinGapSize)
  }

  /** The gap never widens as the score grows. */
  lemma GapSizeMonotone(a: int, b: int)
    requires a <= b
    ensures GapSize(b) <= GapSize(a)
  {
    LevelMonotone(a, b);
  }

  lemma LevelMonotone(a: int, b: int)
    requires a <= b
    ensures LevelOf(a) <= LevelOf(b)
  {
  }

  /** Background for a level: black, dark green, dark blue, yellow, purple, then red for good. */
  function Background(level: int): (c: Rgb)
    ensures level >= 5 || level < 0 ==> c == Rgb(255, 0, 0)
    ensures level == 0 ==> c == Rgb(0, 0, 0)
  {
    if level == 0 then Rgb(0, 0, 0)
    else if level == 1 then Rgb(0, 20, 0)
    else if level == 2 then Rgb(0, 0, 20)
    else if level == 3 then Rgb(255, 255, 0)
    else if level == 4 then Rgb(128, 0, 128)
    else Rgb(255, 0, 0)
  }

  /** The five first levels are told apart by their backgrounds. */
  lemma BackgroundsDistinct(a: int, b: int)
    requires 0 <= a < b <= 5
    ensures Background(a) != Background(b)
  {
  }

  /** The half-gap a new pipe gets: half the level's gap, rounded down. */
  function HalfGap(score: int): (half: int)
    ensures MinGapSize / 2 <= half
    ensures score >= 0 ==> half <= InitialGapSize / 2
  {
    GapSize(score) / 2
  }

  /** The centre of a new gap is drawn from this range; it is never empty. */
  predicate ValidGapY(half: int, gapY: int) {
    half + 50 <= gapY <= 600 - half - 50
  }

  lemma GapRangeNonEmpty(score: int)
    requires score >= 0
    ensures ValidGapY(HalfGap(score), 300)
    ensures forall y :: ValidGapY(HalfGap(score), y) ==> 100 <= y <= 500
  {
  }

  /** The pipe, enemy and gate spawners wait strictly longer than their interval. */
  predicate Due(last: int, now: int, interval: int) {
    now - last > interval
  }

  /** The power-up spawner fires once its interval has fully elapsed. */
  predicate PowerUpDue(last: int, now: int) {
    now - last >= PowerUpInterval
  }

  /** The two comparisons differ exactly at the boundary. */
  lemma DueBoundary(last: int, interval: int)
    ensures !Due(last, last + interval, interval)
    ensures Due(last, last + interval + 1, interval)
    ensures PowerUpDue(last, last + PowerUpInterval)
  {
  }
}
