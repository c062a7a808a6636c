/** The `WavePuzzle` component as an object whose handlers update its state
    fields in place. Each handler is one atomic step, and its effect is the
    matching transition of module Puzzle or Countdown on the fields read as a
    Session value. */
module App {
  import opened Quantizer
  import opened Puzzle
  import opened Countdown

  class WavePuzzle {
    var wave1: int
    var wave2: int
    var wave3: int
    var level: int
    var targets: seq<seq<int>>
    var currentTarget: nat
    var isCleared: bool
    var timeLeft: int

    /** The fields as one session value. */
    function Snapshot(): Session
      reads this
    {
      Session(wave1, wave2, wave3, level, targets, currentTarget, isCleared, timeLeft)
    }

    ghost predicate Valid()
      reads this
    {
      Inv(Snapshot())
    }

    /** The `useState` initial values. */
    constructor ()
      ensures Valid() && Snapshot() == Initial()
    {
      wave1, wave2, wave3 := ResetAmplitude, ResetAmplitude, ResetAmplitude;
      level := 0;
      targets := [];
      currentTarget := 0;
      isCleared := false;
      timeLeft := TimeLimit;
    }

    /** `startLevel(level)`, with the nine raw draws of its three
        `randomArray(3, level)` calls passed in. */
    method StartLevel(level: int, draws: seq<Amplitude>)
      requires Valid() && |draws| == TargetCount * Channels
      modifies this
      ensures Valid()
      ensures Snapshot() == Puzzle.StartLevel(old(Snapshot()), level, draws)
    {
      StartLevelKeepsInv(Snapshot(), level, draws);
      this.level := level;
      targets := [RandomArray(draws[0..3], level),
                  RandomArray(draws[3..6], level),
                  RandomArray(draws[6..9], level)];
      currentTarget := 0;
      isCleared := false;
      timeLeft := TimeLimit;
    }

    /** `checkMatch`, returning which of its outcomes occurred. */
    method CheckMatch() returns (outcome: Outcome)
      requires Valid()
      modifies this
      ensures Valid()
      ensures outcome == CheckOutcome(old(Snapshot()))
      ensures Snapshot() == Puzzle.CheckMatch(old(Snapshot()))
    {
      CheckMatchKeepsInv(Snapshot());
      if currentTarget >= |targets| {
        // `targets[currentTarget]` is undefined and `every` throws
        return NoTarget;
      }
      var targetAmplitudes := targets[currentTarget];
      var isMatch := Matches(targetAmplitudes, [wave1, wave2, wave3]);
      if isMatch {
        if currentTarget + 1 < |targets| {
          outcome := Advanced;
          currentTarget := currentTarget + 1;
        } else {
          outcome := Cleared;
          isCleared := true;
        }
      } else {
        outcome := Mismatch;
      }
    }

    /** `restart`. */
    method Restart()
      requires Valid()
      modifies this
      ensures Valid()
      ensures Snapshot() == Puzzle.Restart(old(Snapshot()))
    {
      RestartKeepsInv(Snapshot());
      wave1 := ResetAmplitude;
      wave2 := ResetAmplitude;
      wave3 := ResetAmplitude;
      level := 0;
      currentTarget := 0;
      isCleared := false;
      timeLeft := TimeLimit;
    }

    /** One firing of the countdown interval. */
    method Tick()
      requires Valid()
      modifies this
      ensures Valid()
      ensures Snapshot() == Countdown.Tick(old(Snapshot()))
    {
      TickKeepsInv(Snapshot());
      if timeLeft > 0 && !isCleared {
        timeLeft := timeLeft - 1;
      }
    }

    /** The `onChange` of the slider at `index`, with the value it reports. */
    method SetWave(index: int, value: Amplitude)
      requires Valid() && 0 <= index < Channels
      modifies this
      ensures Valid()
      ensures Snapshot() == Puzzle.SetWave(old(Snapshot()), index, value)
    {
      SetWaveKeepsInv(Snapshot(), index, value);
      if index == 0 {
        wave1 := value;
      } else if index == 1 {
        wave2 := value;
      } else {
        wave3 := value;
      }
    }
  }
}
