/** Motion Sequencer: the step logic of `shimmy` and `dance` as state machines,
    and the frame streams they send. Step k is the k-th call of the step closure
    (0-based) after a fresh `shimmy()` or `dance()`. */
module Sequencer {
  import opened Int8
  import opened Servo

  // ---- shimmy ----

  /** What one shimmy step sends for the current value of `standing`. */
  function ShimmyPosture(standing: bool): (f: Frame)
    ensures f == StandFrame <==> standing
    ensures f == SpreadFrame <==> !standing
  {
    Postures();
    if standing then StandFrame else SpreadFrame
  }

  /** `standing` after k steps: it starts true and each step negates it once. */
  function StandingAfter(k: nat): bool {
    if k == 0 then true else !StandingAfter(k - 1)
  }

  /** The frames of the first n shimmy steps, oldest first. */
  function ShimmyFrames(n: nat): seq<Frame> {
    if n == 0 then [] else ShimmyFrames(n - 1) + [ShimmyPosture(StandingAfter(n - 1))]
  }

  lemma {:induction false} StandingAfterParity(k: nat)
    ensures StandingAfter(k) == (k % 2 == 0)
  {
    if k > 0 {
      StandingAfterParity(k - 1);
    }
  }

  /** Step k of a shimmy sends stand when k is even and spread when k is odd. */
  lemma {:induction false} ShimmyAlternates(n: nat, k: nat)
    requires k < n
    ensures |ShimmyFrames(n)| == n
    ensures ShimmyFrames(n)[k] == if k % 2 == 0 then StandFrame else SpreadFrame
  {
    ShimmyFramesLength(n - 1);
    if k == n - 1 {
      StandingAfterParity(k);
    } else {
      ShimmyAlternates(n - 1, k);
    }
  }

  lemma {:induction false} ShimmyFramesLength(n: nat)
    ensures |ShimmyFrames(n)| == n
  {
    if n > 0 {
      ShimmyFramesLength(n - 1);
    }
  }

  // ---- dance ----

  /** The two variables `danceStep` keeps between calls. */
  datatype DanceState = DanceState(delta: int, direction: int)

  const DanceStart := DanceState(0, 1)

  /** One `danceStep`: advance by 5 in the current direction, then reverse when
      the new delta is beyond 25 either way. */
  function DanceNext(s: DanceState): (r: DanceState)
    ensures r.delta - s.delta == 5 * s.direction
    ensures r.direction == s.direction || r.direction == -s.direction
    ensures s.direction != 0 ==> (r.direction == -s.direction <==> (r.delta > 25 || r.delta < -25))
  {
    var d := s.delta + s.direction * 5;
    DanceState(d, if d > 25 || d < -25 then -s.direction else s.direction)
  }

  function DanceAfter(k: nat): DanceState {
    if k == 0 then DanceStart else DanceNext(DanceAfter(k - 1))
  }

  /** What a step sends once it has moved to state s: all four servos at 90 + delta. */
  function DanceFrame(s: DanceState): Frame {
    Uniform(90 + s.delta)
  }

  /** The frames of the first n dance steps; step k sends the state after k + 1 moves. */
  function DanceFrames(n: nat): seq<Frame> {
    if n == 0 then [] else DanceFrames(n - 1) + [DanceFrame(DanceAfter(n))]
  }

  /** An independent description of the dance: 24 steps make one period; over it
      delta goes 0,5,..,30 up, then 25,..,-30 down, then -25,..,-5 up again. */
  function Wave(m: int): int {
    if m <= 6 then m else if m <= 18 then 12 - m else m - 24
  }

  function WaveDirection(m: int): int {
    if m <= 5 then 1 else if m <= 17 then -1 else 1
  }

  function WaveState(m: int): DanceState {
    DanceState(5 * Wave(m), WaveDirection(m))
  }

  lemma WaveStep(m: int)
    requires 0 <= m < 24
    ensures DanceNext(WaveState(m)) == WaveState((m + 1) % 24)
  {
  }

  /** The dance state after k steps is the wave at phase k mod 24. */
  lemma {:induction false} DanceIsWave(k: nat)
    ensures DanceAfter(k) == WaveState(k % 24)
  {
    if k > 0 {
      DanceIsWave(k - 1);
      var m := (k - 1) % 24;
      WaveStep(m);
      NextPhase(k - 1);
      assert DanceAfter(k) == DanceNext(DanceAfter(k - 1));
    }
  }

  lemma NextPhase(j: nat)
    ensures (j + 1) % 24 == (j % 24 + 1) % 24
  {
    var q := j / 24;
    assert j == 24 * q + j % 24;
    if j % 24 == 23 {
      assert j + 1 == 24 * (q + 1);
    } else {
      assert j + 1 == 24 * q + (j % 24 + 1);
    }
  }

  /** delta stays a multiple of 5 in -30..30 and direction stays +1 or -1;
      delta reaches ±30 only at a reversal. */
  lemma {:induction false} DanceBounds(k: nat)
    ensures DanceAfter(k).delta % 5 == 0
    ensures -30 <= DanceAfter(k).delta <= 30
    ensures DanceAfter(k).direction == 1 || DanceAfter(k).direction == -1
    ensures DanceAfter(k).delta == 30 ==> DanceAfter(k).direction == -1
    ensures DanceAfter(k).delta == -30 ==> DanceAfter(k).direction == 1
  {
    DanceIsWave(k);
  }

  /** The first deltas: 5,10,15,20,25,30, then back down through 0 to -30 and up again. */
  lemma {:induction false} DanceOpening()
    ensures forall k :: 1 <= k <= 6 ==> DanceAfter(k).delta == 5 * k
    ensures forall k :: 6 <= k <= 18 ==> DanceAfter(k).delta == 60 - 5 * k
    ensures forall k :: 18 <= k <= 24 ==> DanceAfter(k).delta == 5 * k - 120
    ensures DanceAfter(24) == DanceStart
  {
    forall k | 1 <= k <= 6 ensures DanceAfter(k).delta == 5 * k {
      DanceInFirstPeriod(k);
    }
    forall k | 6 <= k <= 18 ensures DanceAfter(k).delta == 60 - 5 * k {
      DanceInFirstPeriod(k);
    }
    forall k | 18 <= k < 24 ensures DanceAfter(k).delta == 5 * k - 120 {
      DanceInFirstPeriod(k);
    }
    DanceIsWave(24);
  }

  lemma DanceInFirstPeriod(k: nat)
    requires k < 24
    ensures DanceAfter(k) == WaveState(k)
  {
    DanceIsWave(k);
  }

  /** Every dance frame holds 90 + delta four times, within 60..120, so no value wraps. */
  lemma {:induction false} DanceFramesNoWrap(n: nat, k: nat)
    requires k < n
    ensures |DanceFrames(n)| == n
    ensures 60 <= 90 + DanceAfter(k + 1).delta <= 120
    ensures var v := (90 + DanceAfter(k + 1).delta) as int8;
            DanceFrames(n)[k] == [v, v, v, v]
  {
    DanceFramesLength(n - 1);
    DanceBounds(k + 1);
    if k == n - 1 {
      var d := 90 + DanceAfter(k + 1).delta;
      PackInRange(d, d, d, d);
    } else {
      DanceFramesNoWrap(n - 1, k);
    }
  }

  lemma {:induction false} DanceFramesLength(n: nat)
    ensures |DanceFrames(n)| == n
  {
    if n > 0 {
      DanceFramesLength(n - 1);
    }
  }
}
