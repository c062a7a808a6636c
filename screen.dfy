/** What the component renders for a session, which handlers its rendered
    controls make available, and the invariant that every sequence of those
    handlers keeps from the initial state. */
module Screen {
  import opened Quantizer
  import opened Puzzle
  import opened Countdown

  datatype Option<T> = None | Some(value: T)

  /** The rendered screen. `LevelSelect` is the early return for level 0.
      Otherwise `timeUp` is the "Time's up" banner with its Try Again button,
      `finalScore` the cleared panel with the score it shows, and `board` the
      canvas, the three sliders and the Check Match button. The banner and the
      board are independent, so both can be shown at once. */
  datatype View =
    | LevelSelect
    | Game(timeUp: bool, finalScore: Option<int>, board: bool)

  /** Level 0 shows the level select. Otherwise the board is shown exactly
      when the score is not; the banner means the clock has run out without a
      clear, and it never replaces the board. */
  function Render(s: Session): (v: View)
    ensures v == LevelSelect <==> s.level == 0
    ensures v.Game? ==> (v.board <==> v.finalScore.None?)
    ensures v.Game? ==> (v.timeUp <==> s.timeLeft <= 0 && !s.isCleared)
    ensures v.Game? && v.timeUp ==> v.board
  {
    if s.level == 0 then LevelSelect
    else Game(TimedOut(s), if s.isCleared then Some(s.timeLeft) else None, !s.isCleared)
  }

  /** The cleared panel is shown exactly when a level is being played and it
      is cleared, and its score is the remaining time. */
  lemma ScoreIsTimeLeft(s: Session)
    ensures Render(s).Game? && Render(s).finalScore.Some? <==> s.level != 0 && s.isCleared
    ensures Render(s).Game? && Render(s).finalScore.Some? ==> Render(s).finalScore.value == s.timeLeft
  {}

  /** After time runs out the board, and with it Check Match, stays on
      screen below the banner: only clearing hides it. */
  lemma TimeUpKeepsBoard(s: Session)
    requires s.level != 0 && TimedOut(s)
    ensures Render(s) == Game(true, None, true)
  {}

  /** Once cleared, no number of timer firings changes what is shown, so the
      final score is frozen. */
  lemma ClearedScreenIsFrozen(s: Session, n: nat)
    requires s.isCleared
    ensures Render(Ticks(s, n)) == Render(s)
  {
    ClearedFreezesClock(s, n);
  }

  /** The handlers a player (or the interval) can trigger. */
  datatype Event =
    | PressLevel(level: int, draws: seq<Amplitude>)
    | MoveSlider(index: int, value: Amplitude)
    | PressCheck
    | PressRestart
    | TimerFires

  /** Whether the rendered screen offers the event. The level buttons pass 1,
      2 or 3 and exist only on the level-select screen; sliders and Check
      Match exist while the board is shown, and a range input with min 0,
      max 100 and the level's step reports only grid points; Restart or Try
      Again exist with the cleared panel or the banner; the interval is
      never gated on the screen. */
  predicate Enabled(s: Session, e: Event): (r: bool)
    ensures e == PressCheck ==> (r <==> s.level != 0 && !s.isCleared)
    ensures e == PressRestart ==> (r <==> s.level != 0 && (s.isCleared || s.timeLeft <= 0))
    ensures e.PressLevel? ==>
              (r <==> s.level == 0 && e.level in {1, 2, 3} && |e.draws| == TargetCount * Channels)
  {
    match e
    case PressLevel(l, draws) =>
      Render(s) == LevelSelect && 1 <= l <= 3 && |draws| == TargetCount * Channels
    case MoveSlider(i, v) =>
      Render(s).Game? && Render(s).board && 0 <= i < Channels && OnGrid(v, s.level)
    case PressCheck => Render(s).Game? && Render(s).board
    case PressRestart =>
      Render(s).Game? && (Render(s).timeUp || Render(s).finalScore.Some?)
    case TimerFires => true
  }

  function Apply(s: Session, e: Event): Session
    requires Enabled(s, e)
  {
    match e
    case PressLevel(l, draws) => StartLevel(s, l, draws)
    case MoveSlider(i, v) => SetWave(s, i, v)
    case PressCheck => CheckMatch(s)
    case PressRestart => Restart(s)
    case TimerFires => Tick(s)
  }

  predicate EnabledRun(s: Session, events: seq<Event>)
    decreases |events|
  {
    events == [] || (Enabled(s, events[0]) && EnabledRun(Apply(s, events[0]), events[1..]))
  }

  function Run(s: Session, events: seq<Event>): Session
    requires EnabledRun(s, events)
    decreases |events|
  {
    if events == [] then s else Run(Apply(s, events[0]), events[1..])
  }

  /** What holds of every session the interface can reach: the object
      invariant, the waves on the grid of the current level, and all three
      waves at 50 on the level-select screen (so that whatever level is
      picked next, the waves start on its grid). */
  predicate UiInv(s: Session) {
    && Inv(s)
    && OnGrid(s.wave1, s.level) && OnGrid(s.wave2, s.level) && OnGrid(s.wave3, s.level)
    && (s.level == 0 ==> Waves(s) == [ResetAmplitude, ResetAmplitude, ResetAmplitude])
  }

  lemma InitialUiInv()
    ensures UiInv(Initial())
  {}

  /** Every handler the rendered screen offers keeps the interface invariant. */
  lemma StepKeepsUiInv(s: Session, e: Event)
    requires UiInv(s) && Enabled(s, e)
    ensures UiInv(Apply(s, e))
  {}

  /** Every run of enabled handlers keeps the interface invariant. */
  lemma {:induction false} RunKeepsUiInv(s: Session, events: seq<Event>)
    requires UiInv(s) && EnabledRun(s, events)
    ensures UiInv(Run(s, events))
    decreases |events|
  {
    if events != [] {
      StepKeepsUiInv(s, events[0]);
      RunKeepsUiInv(Apply(s, events[0]), events[1..]);
    }
  }

  /** On every reachable screen that shows Check Match there is a current
      target, so the press never throws, and the waves it compares lie on
      the level's grid. */
  lemma ReachableCheckHasTarget(events: seq<Event>)
    requires EnabledRun(Initial(), events)
    ensures var s := Run(Initial(), events);
            Enabled(s, PressCheck) ==>
              CheckOutcome(s) != NoTarget &&
              forall i :: 0 <= i < Channels ==> OnGrid(Waves(s)[i], s.level)
  {
    InitialUiInv();
    RunKeepsUiInv(Initial(), events);
  }
}
