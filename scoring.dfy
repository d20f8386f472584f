/** Score and speed ramp (`updateScore`, `endGame`): the raw score counts
    surviving ticks, the shown score is a tenth of it, and the game speed
    grows by 0.5 at every multiple of 1000. */
module Scoring {

  const InitialSpeed: real := 3.0
  const SpeedIncrement: real := 0.5
  const RampInterval: int := 1000

  /** The speed after `updateScore` has brought the raw score to `score`. */
  function NextSpeed(score: int, speed: real): real {
    if score % RampInterval == 0 then speed + SpeedIncrement else speed
  }

  /** The game speed after `n` calls of `updateScore` since `init`. */
  function RampedSpeed(n: nat): real {
    if n == 0 then InitialSpeed else NextSpeed(n, RampedSpeed(n - 1))
  }

  /** After n scored ticks the speed is 3 + 0.5 * (n / 1000), integer division. */
  lemma {:induction false} RampClosedForm(n: nat)
    ensures RampedSpeed(n) == InitialSpeed + SpeedIncrement * (n / RampInterval) as real
  {
    if n > 0 {
      RampClosedForm(n - 1);
      var q := (n - 1) / RampInterval;
      var r := (n - 1) % RampInterval;
      assert n - 1 == q * RampInterval + r && 0 <= r < RampInterval;
      if r == RampInterval - 1 {
        assert n == (q + 1) * RampInterval;
        assert n / RampInterval == q + 1 && n % RampInterval == 0;
      } else {
        assert n == q * RampInterval + (r + 1) && r + 1 < RampInterval;
        assert n / RampInterval == q && n % RampInterval != 0;
      }
    }
  }

  /** The speed never decreases from one scored tick to the next. */
  lemma {:induction false} RampMonotone(m: nat, n: nat)
    requires m <= n
    ensures RampedSpeed(m) <= RampedSpeed(n)
    decreases n - m
  {
    if m < n {
      RampMonotone(m, n - 1);
    }
  }

  /** The shown score `Math.floor(score / 10)`. */
  function DisplayedScore(score: nat): (d: nat)
    ensures d * 10 <= score < d * 10 + 10
  {
    score / 10
  }

  /** Ten more raw points show one more point. */
  lemma DisplayedScoreMonotone(a: nat, b: nat)
    requires a <= b
    ensures DisplayedScore(a) <= DisplayedScore(b)
    ensures DisplayedScore(a + 10) == DisplayedScore(a) + 1
  {
  }
}
