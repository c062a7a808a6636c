# Wave Synthesis Puzzle — a Dafny model of its state machine

The puzzle is a single React component, `WavePuzzle`. The player picks a level
(Normal, Hard or Impossible). The game then draws three target amplitude
triples on the level's grid: multiples of 10, 5 or 1. The player moves three
sliders until the blue curve matches the red one and presses Check Match. A
channel matches when it is strictly within 5 of its target. A correct press
moves on to the next target; a correct press on the third target clears the
level. A 300-second clock counts down once per second, and the score is what
is left on the clock at the clear.

This project models the component's integer state machine:

- `quantizer.dfy` (module `Quantizer`): the level's grid step and
  `randomArray`. The raw draws `Math.floor(Math.random() * 101)` are passed in
  as values in [0, 100].
- `puzzle.dfy` (module `Puzzle`): the session state as a `Session` value, the
  invariant every handler keeps, and the `every` match test with its meaning.
  It also holds `startLevel`, `checkMatch`, `restart` and the slider
  `onChange` as transitions.
- `countdown.dfy` (module `Countdown`): one firing of the one-second interval,
  repeated firings, and the derived "Time's up" condition.
- `screen.dfy` (module `Screen`): which screen is rendered and which controls
  it offers. It proves an invariant that holds on every sequence of handler
  calls those controls allow, starting from the initial state.
- `wave_puzzle.dfy` (module `App`): the component as a class `WavePuzzle`.
  Its fields are `wave1..wave3`, `level`, `targets`, `currentTarget`,
  `isCleared` and `timeLeft`. Each handler is a method that updates those
  fields in place. Each method's postcondition says its effect is the
  matching transition of `Puzzle` or `Countdown`.

Levels are integers, as in the source: 0 is level select, 1 Normal, 2 Hard,
and any other value Impossible.

Four behaviours of the code are easy to miss, and the model keeps them:

- `startLevel` does not reset the sliders to 50.
- `restart` does not discard the targets.
- The clock also runs on the level-select screen, because the timer effect
  does not look at the level.
- After time runs out, the sliders and Check Match are still rendered, and a
  match still counts. Only `isCleared` hides the board, and `checkMatch` has
  no time guard.

`Screen.RunKeepsUiInv` shows that the sliders stay on the level's grid
anyway. When played through the interface's own controls, a level is only
picked from the level-select screen, where the sliders are always at 50.

## Model

| member | source | states |
|---|---|---|
| Quantizer.Step | src/App.tsx:7 | The grid step is 10 exactly for level 1, 5 exactly for level 2, and 1 exactly for every other level (the same mapping as the slider `step`, lines 217-223); every step is positive and divides 100 |
| Quantizer.Quantize | src/App.tsx:9-10 | A quantized draw is on the level's grid, lies in [0, 100], is at most the draw, and is less than one step below it |
| Quantizer.QuantizeIsFloor | src/App.tsx:10 | No grid point at or below the draw exceeds the quantized value, so it is the floor onto the grid |
| Quantizer.QuantizeFixesGridPoints | src/App.tsx:217-223 | A value on the slider's grid is a fixed point of the quantizer |
| Quantizer.RandomArray | src/App.tsx:6-12 | `randomArray` yields one value per draw, and each is on the grid, in [0, 100], and within one step below its draw |
| Puzzle.Initial | src/App.tsx:16-23 | The `useState` initial values satisfy the session invariant |
| Puzzle.StartLevel | src/App.tsx:99-108 | Sets the level, index 0, not cleared and 300 seconds; keeps the waves; builds 3 targets of 3 values, value i of target k quantized from draw 3k+i |
| Puzzle.StartLevelKeepsInv | src/App.tsx:99-108 | `startLevel` keeps the invariant (three amplitude triples, `currentTarget` < 3, clock in [0, 300]) |
| Puzzle.EveryFrom | src/App.tsx:74-76 | The `every` test from position i holds iff every later channel is strictly within 5 and the waves cover the target (a position past the waves fails) |
| Puzzle.Matches | src/App.tsx:74-76 | A match holds iff the waves cover the target and every channel differs by strictly less than 5, both directions |
| Puzzle.FarChannelFails | src/App.tsx:75 | A difference of 5 or more in any one channel (exactly 5 included) is not a match |
| Puzzle.CheckOutcome | src/App.tsx:73-87 | No target iff `currentTarget` is out of range (the `every` call would throw); otherwise mismatch iff not within tolerance, advance iff within tolerance and a later target exists, clear iff within tolerance on the last target |
| Puzzle.CheckMatch | src/App.tsx:73-87 | A match with a later target adds exactly 1 to `currentTarget` and changes nothing else; a match on the last target sets `isCleared` and changes nothing else; a mismatch or a missing target changes nothing |
| Puzzle.MismatchIsIdempotent | src/App.tsx:84-86 | After a mismatch the state is unchanged and pressing again fails again |
| Puzzle.CheckIgnoresClock | src/App.tsx:73-87 | The outcome of a check does not depend on the clock, and a check does not change the clock |
| Puzzle.CheckMatchKeepsInv | src/App.tsx:77-83 | `checkMatch` keeps the invariant, in particular `currentTarget` < 3 |
| Puzzle.Restart | src/App.tsx:89-97 | `restart` yields the initial state except that the targets are kept |
| Puzzle.RestartKeepsInv | src/App.tsx:89-97 | `restart` keeps the invariant |
| Puzzle.SetWave | src/App.tsx:225-229 | The slider overwrites its own wave with the reported value; the other waves and all other fields are unchanged |
| Puzzle.SetWaveKeepsInv | src/App.tsx:212-229 | A slider change with a value in [0, 100] keeps the invariant |
| Countdown.Tick | src/App.tsx:64-71 | A firing lowers the clock by 1 exactly when it is positive and the level is not cleared, otherwise it is a no-op; nothing else changes |
| Countdown.TickKeepsInv | src/App.tsx:64-71 | A firing keeps the invariant, so the clock never goes negative |
| Countdown.CountdownStopsAtZero | src/App.tsx:64-71 | Without a clear, n firings lower the clock to max(timeLeft - n, 0) and change nothing else |
| Countdown.FullCountdownTimesOut | src/App.tsx:64-71 | From 300 without a clear: 300 firings reach 0 and time out, fewer do not time out, and more stay where 300 left it |
| Countdown.TimedOut | src/App.tsx:150 | In a valid session, "Time's up" holds iff the clock is exactly 0 and the level is not cleared |
| Countdown.ClearedFreezesClock | src/App.tsx:64-71 | Once cleared, any number of firings changes nothing |
| Screen.Render | src/App.tsx:112-244 | Level select iff level 0; otherwise the board is shown iff no score is, and the time-up banner (clock at or below 0, not cleared) never hides the board |
| Screen.Enabled | src/App.tsx:112-242 | Check Match is offered iff a level is played and not cleared, whatever the clock; Restart iff a level is played and it is cleared or the clock has run out; a level button iff on level select with level 1, 2 or 3 |
| Screen.ScoreIsTimeLeft | src/App.tsx:161-174 | The final score is shown exactly when a level is played and cleared, and it equals the remaining time |
| Screen.TimeUpKeepsBoard | src/App.tsx:150-242 | When time is up on a level, the banner and the board with Check Match are both shown, and no score |
| Screen.ClearedScreenIsFrozen | src/App.tsx:161-174 | Once cleared, timer firings do not change the rendered screen or its score |
| Screen.InitialUiInv | src/App.tsx:16-23 | The initial state satisfies the interface invariant |
| Screen.StepKeepsUiInv | src/App.tsx:112-242 | Every handler the rendered screen offers keeps the invariant, the waves on the level's grid, and all waves at 50 on level select |
| Screen.RunKeepsUiInv | src/App.tsx:112-242 | Every sequence of offered handlers keeps the interface invariant |
| Screen.ReachableCheckHasTarget | src/App.tsx:73-76 | On any reachable screen that offers Check Match a current target exists, so the press never throws, and the waves compared are on the level's grid |
| App.WavePuzzle.constructor | src/App.tsx:16-23 | The fields start at the `useState` values and satisfy the invariant |
| App.WavePuzzle.StartLevel | src/App.tsx:99-108 | The new fields are `Puzzle.StartLevel` of the old ones, and the invariant is kept |
| App.WavePuzzle.CheckMatch | src/App.tsx:73-87 | Returns the outcome of the press; the new fields are `Puzzle.CheckMatch` of the old ones, and the invariant is kept |
| App.WavePuzzle.Restart | src/App.tsx:89-97 | The new fields are `Puzzle.Restart` of the old ones, and the invariant is kept |
| App.WavePuzzle.Tick | src/App.tsx:64-71 | The new fields are `Countdown.Tick` of the old ones, and the invariant is kept |
| App.WavePuzzle.SetWave | src/App.tsx:225-229 | The new fields are `Puzzle.SetWave` of the old ones, and the invariant is kept |

## Left out

- `drawWave` and the canvas effect (src/App.tsx:27-62): floating-point `Math.sin` sums drawn through the browser's 2D drawing context.
- `Math.random` (src/App.tsx:9): each raw draw is a parameter in [0, 100]. Those are exactly the values `Math.floor(Math.random() * 101)` can produce. The floating-point quotient `randomValue / multiplier` floors to the integer quotient for these small integers, so integer division models it exactly.
- The extra `console.log(randomArray(3, level))` (src/App.tsx:109): output plus a discarded draw.
- `toast.success` and `toast.error` (src/App.tsx:79, 85): a notification library. `Outcome` records which of them a press leads to.
- React's `useState`/`useEffect`/`setInterval` scheduling and clean-up. Each handler and each interval firing is one atomic step, so an interval that fires twice before its effect is torn down is not modelled.
- The page layout, the level label text (src/App.tsx:168-172), the share link URL (src/App.tsx:183) and the footer: presentation only. The share link's score is the same `timeLeft` as the displayed score.
- A slider's reported value is taken as an integer in [0, 100] on the level's grid. `Number(e.target.value)` of a range input with min 0, max 100 and that step gives such a value; the browser's rounding of the value is not modelled.
