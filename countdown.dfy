/** The countdown timer: one firing of the one-second interval, repeated
    firings, and the derived time-out condition. */
module Countdown {
  import opened Puzzle

  /** One interval firing, taken as one atomic step. The effect only keeps an
      interval while `timeLeft > 0 && !isCleared`, and its callback is
      `prev => prev - 1`, so a firing lowers the clock by one exactly then and
      is a no-op otherwise. The level is not consulted: the clock also runs
      on the level-select screen. */
  function Tick(s: Session): (t: Session)
    ensures t.timeLeft == s.timeLeft - 1 <==> s.timeLeft > 0 && !s.isCleared
    ensures t.timeLeft != s.timeLeft - 1 ==> t == s
    ensures t == s.(timeLeft := t.timeLeft)
  {
    if s.timeLeft > 0 && !s.isCleared then s.(timeLeft := s.timeLeft - 1) else s
  }

  lemma TickKeepsInv(s: Session)
    requires Inv(s)
    ensures Inv(Tick(s))
  {}

  /** `n` firings in a row. */
  function Ticks(s: Session, n: nat): Session
    decreases n
  {
    if n == 0 then s else Ticks(Tick(s), n - 1)
  }

  /** The "Time's up" condition. It is derived from the clock and the
      cleared flag; no field stores it. Since the clock never goes negative,
      in a valid session it means the clock is at exactly zero and the level
      was not cleared. */
  predicate TimedOut(s: Session): (r: bool)
    ensures Inv(s) ==> (r <==> s.timeLeft == 0 && !s.isCleared)
  {
    s.timeLeft <= 0 && !s.isCleared
  }

  /** Without a clear, `n` firings take `n` seconds off the clock and stop at
      zero; the clock never goes negative and nothing else changes. */
  lemma {:induction false} CountdownStopsAtZero(s: Session, n: nat)
    requires !s.isCleared && s.timeLeft >= 0
    ensures Ticks(s, n) == s.(timeLeft := if n <= s.timeLeft then s.timeLeft - n else 0)
    decreases n
  {
    if n > 0 {
      CountdownStopsAtZero(Tick(s), n - 1);
    }
  }

  /** From a full clock, 300 firings without a clear reach zero and time the
      session out, no earlier firing count does, and later firings leave it at
      zero. */
  lemma FullCountdownTimesOut(s: Session, extra: nat)
    requires !s.isCleared && s.timeLeft == TimeLimit
    ensures Ticks(s, TimeLimit).timeLeft == 0 && TimedOut(Ticks(s, TimeLimit))
    ensures Ticks(s, TimeLimit + extra) == Ticks(s, TimeLimit)
    ensures forall n: nat :: n < TimeLimit ==> !TimedOut(Ticks(s, n))
  {
    CountdownStopsAtZero(s, TimeLimit);
    CountdownStopsAtZero(s, TimeLimit + extra);
    forall n: nat | n < TimeLimit
      ensures !TimedOut(Ticks(s, n))
    {
      CountdownStopsAtZero(s, n);
    }
  }

  /** Once cleared the clock is frozen: firings change nothing, so the score
      shown (the remaining time) stays as it was when the last target was
      matched. */
  lemma {:induction false} ClearedFreezesClock(s: Session, n: nat)
    requires s.isCleared
    ensures Ticks(s, n) == s
    decreases n
  {
    if n > 0 {
      ClearedFreezesClock(Tick(s), n - 1);
    }
  }
}
