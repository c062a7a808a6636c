/** The puzzle session of the `WavePuzzle` component as a value: its state
    fields, the object invariant the handlers keep, the match test, and the
    button handlers `startLevel`, `checkMatch`, `restart` and the slider
    `onChange` as transitions from one session to the next. */
module Puzzle {
  import opened Quantizer

  /** Seconds on the clock when a level starts or the game restarts. */
  const TimeLimit := 300
  /** Slider position of every wave before the first level and after restart. */
  const ResetAmplitude := 50
  /** A channel matches when it is strictly closer than this to the target. */
  const Tolerance := 5
  /** `startLevel` builds this many targets ... */
  const TargetCount := 3
  /** ... of this many amplitudes each, one per wave slider. */
  const Channels := 3

  /** The component's state: `wave1..wave3`, `level` (0 is level select,
      1 Normal, 2 Hard, anything else Impossible), `targets`,
      `currentTarget`, `isCleared` and `timeLeft`. */
  datatype Session = Session(
    wave1: int, wave2: int, wave3: int,
    level: int,
    targets: seq<seq<int>>,
    currentTarget: nat,
    isCleared: bool,
    timeLeft: int)

  /** The `useState` initial values: the level-select screen, no targets
      yet, sliders at 50 and a full clock. They satisfy the invariant. */
  function Initial(): (s: Session)
    ensures Inv(s)
  {
    Session(ResetAmplitude, ResetAmplitude, ResetAmplitude, 0, [], 0, false, TimeLimit)
  }

  /** `[wave1, wave2, wave3]`. */
  function Waves(s: Session): seq<int> {
    [s.wave1, s.wave2, s.wave3]
  }

  predicate IsAmplitude(v: int) {
    0 <= v <= MaxAmplitude
  }

  predicate IsTriple(t: seq<int>) {
    |t| == Channels && forall i :: 0 <= i < |t| ==> IsAmplitude(t[i])
  }

  /** What every handler keeps: the clock lies in [0, 300]; the waves are
      amplitudes; before the first level there are no targets (and then the
      level is 0, the index 0 and nothing is cleared), afterwards there are
      three amplitude triples and `currentTarget` indexes one of them; the
      session is cleared only on the last target. */
  predicate Inv(s: Session) {
    && 0 <= s.timeLeft <= TimeLimit
    && IsAmplitude(s.wave1) && IsAmplitude(s.wave2) && IsAmplitude(s.wave3)
    && (s.targets == [] ==> s.level == 0 && s.currentTarget == 0 && !s.isCleared)
    && (s.targets != [] ==>
          && |s.targets| == TargetCount
          && (forall k :: 0 <= k < |s.targets| ==> IsTriple(s.targets[k]))
          && s.currentTarget < |s.targets|)
    && (s.isCleared ==> s.currentTarget == |s.targets| - 1)
  }

  // ---------------------------------------------------------------------
  // startLevel

  /** `startLevel(level)` with the nine raw draws of its three
      `randomArray(3, level)` calls passed in, three per target. The waves
      are left as they are. */
  function StartLevel(s: Session, level: int, draws: seq<Amplitude>): (t: Session)
    requires |draws| == TargetCount * Channels
    ensures t.level == level && t.currentTarget == 0 && !t.isCleared && t.timeLeft == TimeLimit
    ensures Waves(t) == Waves(s)
    ensures |t.targets| == TargetCount
    ensures forall k :: 0 <= k < TargetCount ==> |t.targets[k]| == Channels
    ensures forall k, i :: 0 <= k < TargetCount && 0 <= i < Channels ==>
              var v, raw := t.targets[k][i], draws[Channels * k + i];
              OnGrid(v, level) && 0 <= v <= raw < v + Step(level)
  {
    s.(level := level,
       targets := [RandomArray(draws[0..3], level),
                   RandomArray(draws[3..6], level),
                   RandomArray(draws[6..9], level)],
       currentTarget := 0,
       isCleared := false,
       timeLeft := TimeLimit)
  }

  lemma StartLevelKeepsInv(s: Session, level: int, draws: seq<Amplitude>)
    requires Inv(s) && |draws| == TargetCount * Channels
    ensures Inv(StartLevel(s, level, draws))
  {}

  // ---------------------------------------------------------------------
  // checkMatch

  function Abs(x: int): int {
    if x < 0 then -x else x
  }

  /** The reference meaning of a match: every target amplitude has a wave
      amplitude at the same position that is strictly within the tolerance. */
  predicate WithinTolerance(target: seq<int>, waves: seq<int>) {
    |target| <= |waves| &&
    forall i :: 0 <= i < |target| ==> Abs(target[i] - waves[i]) < Tolerance
  }

  /** `target.every((t, i) => Math.abs(t - waves[i]) < 5)` from position `i`
      on. A position past the end of `waves` reads `undefined`, and a
      comparison with NaN is false. */
  function EveryFrom(target: seq<int>, waves: seq<int>, i: nat): (r: bool)
    requires i <= |target|
    ensures r <==>
              (|target| <= |waves| || i == |target|) &&
              forall j :: i <= j < |target| ==> Abs(target[j] - waves[j]) < Tolerance
    decreases |target| - i
  {
    i == |target| ||
    (i < |waves| && Abs(target[i] - waves[i]) < Tolerance && EveryFrom(target, waves, i + 1))
  }

  /** The whole `every` test. It is exactly the tolerance test, in both
      directions. */
  function Matches(target: seq<int>, waves: seq<int>): (r: bool)
    ensures r <==> WithinTolerance(target, waves)
  {
    EveryFrom(target, waves, 0)
  }

  /** A difference of 5 or more in any one channel is never a match; in
      particular a difference of exactly 5 is not. */
  lemma FarChannelFails(target: seq<int>, waves: seq<int>, i: nat)
    requires i < |target| && i < |waves| && Abs(target[i] - waves[i]) >= Tolerance
    ensures !Matches(target, waves)
  {}

  /** What one press of Check Match leads to. `Advanced` is the success
      toast, `Mismatch` the error toast, `Cleared` sets `isCleared` without a
      toast. `NoTarget` is the press when `targets[currentTarget]` is
      undefined: calling `every` on it throws before any state is set. */
  datatype Outcome = Advanced | Cleared | Mismatch | NoTarget

  /** The press has no target exactly when `currentTarget` is out of range.
      Otherwise it fails exactly when some channel is 5 or more away from the
      current target; a match advances exactly when a later target exists,
      and clears exactly on the last target. */
  function CheckOutcome(s: Session): (r: Outcome)
    ensures r == NoTarget <==> s.currentTarget >= |s.targets|
    ensures s.currentTarget < |s.targets| ==>
              var target := s.targets[s.currentTarget];
              && (r == Mismatch <==> !WithinTolerance(target, Waves(s)))
              && (r == Advanced <==>
                    WithinTolerance(target, Waves(s)) && s.currentTarget + 1 < |s.targets|)
              && (r == Cleared <==>
                    WithinTolerance(target, Waves(s)) && s.currentTarget + 1 == |s.targets|)
  {
    if s.currentTarget >= |s.targets| then NoTarget
    else if !Matches(s.targets[s.currentTarget], Waves(s)) then Mismatch
    else if s.currentTarget + 1 < |s.targets| then Advanced
    else Cleared
  }

  /** `checkMatch`. A match with a later target moves `currentTarget` on by
      exactly one; a match on the last target sets `isCleared` and keeps the
      index; a mismatch or a missing target changes nothing. */
  function CheckMatch(s: Session): (t: Session)
    ensures s.currentTarget >= |s.targets| ==> t == s
    ensures s.currentTarget < |s.targets| ==>
              var target := s.targets[s.currentTarget];
              && (!WithinTolerance(target, Waves(s)) ==> t == s)
              && (WithinTolerance(target, Waves(s)) && s.currentTarget + 1 < |s.targets| ==>
                    t == s.(currentTarget := s.currentTarget + 1))
              && (WithinTolerance(target, Waves(s)) && s.currentTarget + 1 == |s.targets| ==>
                    t == s.(isCleared := true))
  {
    match CheckOutcome(s)
    case Advanced => s.(currentTarget := s.currentTarget + 1)
    case Cleared => s.(isCleared := true)
    case _ => s
  }

  /** Pressing Check Match again with the same waves after a mismatch fails
      again and still changes nothing. */
  lemma MismatchIsIdempotent(s: Session)
    requires CheckOutcome(s) == Mismatch
    ensures CheckMatch(s) == s
    ensures CheckOutcome(CheckMatch(s)) == Mismatch
  {}

  /** The check has no time guard: the clock neither enables nor prevents a
      match, and the check does not touch the clock. */
  lemma CheckIgnoresClock(s: Session, time: int)
    ensures CheckOutcome(s.(timeLeft := time)) == CheckOutcome(s)
    ensures CheckMatch(s.(timeLeft := time)) == CheckMatch(s).(timeLeft := time)
  {}

  lemma CheckMatchKeepsInv(s: Session)
    requires Inv(s)
    ensures Inv(CheckMatch(s))
  {}

  // ---------------------------------------------------------------------
  // restart

  /** `restart`: waves back to 50, level select, first target, not cleared,
      full clock. The targets are not cleared. */
  function Restart(s: Session): (t: Session)
    ensures t == Initial().(targets := s.targets)
  {
    s.(wave1 := ResetAmplitude, wave2 := ResetAmplitude, wave3 := ResetAmplitude,
       level := 0, currentTarget := 0, isCleared := false, timeLeft := TimeLimit)
  }

  lemma RestartKeepsInv(s: Session)
    requires Inv(s)
    ensures Inv(Restart(s))
  {}

  // ---------------------------------------------------------------------
  // slider onChange

  /** `[setWave1, setWave2, setWave3][index](value)`: the slider at `index`
      overwrites its own wave and nothing else. */
  function SetWave(s: Session, index: int, value: Amplitude): (t: Session)
    requires 0 <= index < Channels
    ensures |Waves(t)| == Channels && Waves(t)[index] == value
    ensures forall j :: 0 <= j < Channels && j != index ==> Waves(t)[j] == Waves(s)[j]
    ensures t.(wave1 := s.wave1, wave2 := s.wave2, wave3 := s.wave3) == s
  {
    if index == 0 then s.(wave1 := value)
    else if index == 1 then s.(wave2 := value)
    else s.(wave3 := value)
  }

  lemma SetWaveKeepsInv(s: Session, index: int, value: Amplitude)
    requires Inv(s) && 0 <= index < Channels
    ensures Inv(SetWave(s, index, value))
  {}
}
