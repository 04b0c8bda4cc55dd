/** The round engine (src/components/game/GameContainer.tsx): the state a
    round keeps, the start effect, the guess handler, the countdown tick,
    and the score records a finished round hands to the page. */
module GameContainer {
  import opened Text
  import opened NumberGuessGame
  import opened SettingsPanel

  datatype Feedback = InitialFeedback | TooHigh | TooLow | Correct | Invalid

  /** The values of the round's state variables at one render. */
  datatype RoundState = RoundState(
    target: int,
    guesses: seq<int>,
    remainingAttempts: int,
    minGuessable: int,
    maxGuessable: int,
    feedback: Feedback,
    timeRemaining: int)

  /** The wall-clock readings a finished round takes: the ISO date string
      and, without the timer, the whole seconds since the round started. */
  datatype Clock = Clock(date: string, elapsedSeconds: int)

  /** What one guess does: the next state and the record, when the round
      ends, that is passed to `onGameEnd`. */
  datatype Outcome = Outcome(state: RoundState, record: Option<GameScore>)

  /** The targets `Math.floor(Math.random() * (max - min + 1) + min)` can
      produce; when the custom settings put the minimum above the maximum
      the draw lands in `[max + 1, min]`. */
  predicate Drawable(s: GameSettings, target: int)
  {
    if s.minNumber <= s.maxNumber then s.minNumber <= target <= s.maxNumber
    else s.maxNumber + 1 <= target <= s.minNumber
  }

  predicate TargetInWindow(st: RoundState)
  {
    st.minGuessable <= st.target <= st.maxGuessable
  }

  /** The bookkeeping the round keeps: each recorded guess spent one attempt. */
  predicate AttemptsAccounted(s: GameSettings, st: RoundState)
  {
    st.remainingAttempts + |st.guesses| == s.maxAttempts
  }

  /** A guess `handleGuess` accepts: a number inside the configured range. */
  predicate Accepted(s: GameSettings, g: Option<int>)
  {
    g.Some? && s.minNumber <= g.value <= s.maxNumber
  }

  /** The state variables' `useState` initial values, which every mount of
      the component starts from: target 0, no guesses, the configured
      attempts, window and countdown. */
  function MountState(s: GameSettings): (st: RoundState)
    ensures st.target == 0 && st.guesses == [] && st.feedback == InitialFeedback
    ensures st.remainingAttempts == s.maxAttempts && st.timeRemaining == s.timerSeconds
    ensures st.minGuessable == s.minNumber && st.maxGuessable == s.maxNumber
    ensures AttemptsAccounted(s, st)
  {
    RoundState(0, [], s.maxAttempts, s.minNumber, s.maxNumber, InitialFeedback, s.timerSeconds)
  }

  /** The state the start effect leaves; without the timer the countdown
      value is not reset. */
  function Started(s: GameSettings, target: int, prev: RoundState): (st: RoundState)
    requires Drawable(s, target)
    ensures st.target == target && st.guesses == [] && st.feedback == InitialFeedback
    ensures st.remainingAttempts == s.maxAttempts
    ensures st.minGuessable == s.minNumber && st.maxGuessable == s.maxNumber
    ensures st.timeRemaining == if s.timerEnabled then s.timerSeconds else prev.timeRemaining
    ensures AttemptsAccounted(s, st)
    ensures s.minNumber <= s.maxNumber ==> TargetInWindow(st)
  {
    RoundState(target, [], s.maxAttempts, s.minNumber, s.maxNumber, InitialFeedback,
               if s.timerEnabled then s.timerSeconds else prev.timeRemaining)
  }

  /** `handleGameWon`'s record, read from the state of the render that
      handled the guess (before the decrement). */
  function WinRecord(s: GameSettings, d: Difficulty, clock: Clock, st: RoundState): (r: GameScore)
    ensures r.success && r.number == st.target && r.difficulty == d && r.date == clock.date
    ensures r.maxAttempts == s.maxAttempts
    // one more than the attempts spent before this guess: the guess itself counts
    ensures r.attemptsUsed == s.maxAttempts - st.remainingAttempts + 1
    // the countdown's spent seconds with the timer on, the wall-clock seconds otherwise
    ensures r.timeUsed.Some?
    ensures s.timerEnabled ==> r.timeUsed.value == s.timerSeconds - st.timeRemaining
    ensures !s.timerEnabled ==> r.timeUsed.value == clock.elapsedSeconds
  {
    GameScore(clock.date, d, s.maxAttempts - st.remainingAttempts + 1, s.maxAttempts, true,
              st.target,
              Some(if s.timerEnabled then s.timerSeconds - st.timeRemaining else clock.elapsedSeconds))
  }

  /** `handleGameLost`'s record, read from the state `st` of the render
      whose closure calls it. */
  function LossRecord(s: GameSettings, d: Difficulty, date: string, st: RoundState): (r: GameScore)
    ensures !r.success && r.number == st.target && r.difficulty == d && r.date == date
    ensures r.maxAttempts == s.maxAttempts
    ensures r.attemptsUsed == s.maxAttempts - st.remainingAttempts
    // a time only with the timer on: the countdown's spent seconds
    ensures r.timeUsed.Some? <==> s.timerEnabled
    ensures s.timerEnabled ==> r.timeUsed.value == s.timerSeconds - st.timeRemaining
  {
    GameScore(date, d, s.maxAttempts - st.remainingAttempts, s.maxAttempts, false, st.target,
              if s.timerEnabled then Some(s.timerSeconds - st.timeRemaining) else None)
  }

  /** `handleGuess(g)`, where `None` stands for NaN. */
  function GuessOutcome(s: GameSettings, d: Difficulty, clock: Clock, st: RoundState,
                        g: Option<int>): (o: Outcome)
    // a rejected guess only sets the feedback
    ensures !Accepted(s, g) ==> o == Outcome(st.(feedback := Invalid), None)
    // an accepted guess is recorded and spends exactly one attempt
    ensures Accepted(s, g) ==>
      o.state.guesses == st.guesses + [g.value] &&
      o.state.remainingAttempts == st.remainingAttempts - 1 &&
      o.state.target == st.target && o.state.timeRemaining == st.timeRemaining
    ensures Accepted(s, g) && g.value == st.target ==>
      o.state.feedback == Correct && o.record == Some(WinRecord(s, d, clock, st)) &&
      o.state.minGuessable == st.minGuessable && o.state.maxGuessable == st.maxGuessable
    ensures Accepted(s, g) && g.value > st.target ==>
      o.state.feedback == TooHigh && o.state.minGuessable == st.minGuessable &&
      o.state.maxGuessable == Min(st.maxGuessable, g.value - 1)
    ensures Accepted(s, g) && g.value < st.target ==>
      o.state.feedback == TooLow && o.state.maxGuessable == st.maxGuessable &&
      o.state.minGuessable == Max(st.minGuessable, g.value + 1)
    // a wrong guess ends the round exactly when no attempt is left
    ensures Accepted(s, g) && g.value != st.target ==>
      o.record == (if st.remainingAttempts - 1 <= 0 then Some(LossRecord(s, d, clock.date, st)) else None)
    // the window never widens and keeps the target inside
    ensures st.minGuessable <= o.state.minGuessable && o.state.maxGuessable <= st.maxGuessable
    ensures TargetInWindow(st) ==> TargetInWindow(o.state)
    ensures AttemptsAccounted(s, st) ==> AttemptsAccounted(s, o.state)
    ensures o.record.Some? ==> o.record.value.number == st.target
  {
    if !Accepted(s, g) then Outcome(st.(feedback := Invalid), None)
    else
      var guess := g.value;
      var next := st.(guesses := st.guesses + [guess], remainingAttempts := st.remainingAttempts - 1);
      if guess == st.target then Outcome(next.(feedback := Correct), Some(WinRecord(s, d, clock, st)))
      else
        var narrowed :=
          if guess > st.target then next.(feedback := TooHigh, maxGuessable := Min(st.maxGuessable, guess - 1))
          else next.(feedback := TooLow, minGuessable := Max(st.minGuessable, guess + 1));
        Outcome(narrowed,
                if next.remainingAttempts <= 0 then Some(LossRecord(s, d, clock.date, st)) else None)
  }

  /** What the records count: a win records the number of guesses made,
      including the winning one; a loss on the last attempt records one
      fewer, because `handleGameLost` reads `remainingAttempts` from before
      the decrement. */
  lemma RecordCountsGuesses(s: GameSettings, d: Difficulty, clock: Clock, st: RoundState, g: Option<int>)
    requires AttemptsAccounted(s, st)
    ensures var o := GuessOutcome(s, d, clock, st, g);
      o.record.Some? ==>
        o.record.value.attemptsUsed == |o.state.guesses| - (if o.record.value.success then 0 else 1)
  {
  }

  /** The index of the first guess of `gs` that ends the round. */
  function FirstEnd(s: GameSettings, d: Difficulty, clock: Clock, st: RoundState, gs: seq<int>): Option<nat>
    decreases |gs|
  {
    if gs == [] then None
    else
      var o := GuessOutcome(s, d, clock, st, Some(gs[0]));
      if o.record.Some? then Some(0)
      else match FirstEnd(s, d, clock, o.state, gs[1..])
        case None => None
        case Some(k) => Some(k + 1)
  }

  /** A round ends after at most `remainingAttempts` accepted guesses
      (one, if none is left). */
  lemma {:induction false} EndsWithinAttempts(s: GameSettings, d: Difficulty, clock: Clock,
                                              st: RoundState, gs: seq<int>)
    requires forall i :: 0 <= i < |gs| ==> s.minNumber <= gs[i] <= s.maxNumber
    requires |gs| >= Max(1, st.remainingAttempts)
    ensures FirstEnd(s, d, clock, st, gs).Some?
    ensures FirstEnd(s, d, clock, st, gs).value < Max(1, st.remainingAttempts)
    decreases |gs|
  {
    var o := GuessOutcome(s, d, clock, st, Some(gs[0]));
    if o.record.None? {
      assert o.state.remainingAttempts == st.remainingAttempts - 1 >= 1;
      EndsWithinAttempts(s, d, clock, o.state, gs[1..]);
    }
  }

  /** The time-limit field is shown whenever the timer is on and is not
      clamped either: with the timer switched on and any limit of 0 or
      below typed in, the round started from those settings ends as lost
      on the first tick. */
  lemma UnclampedTimeLimitEndsAtFirstTick(v: int, drawn: int, prev: RoundState)
    requires v <= 0 && 1 <= drawn <= 100
    ensures var s := NumberChanged(Toggled(InitialSettings(), TimerEnabledKey), TimerSecondsKey, IntToString(v));
      s.timerEnabled && s.timerSeconds == v && Drawable(s, drawn) &&
      TickOutcome(Started(s, drawn, prev).timeRemaining) == (0, true)
  {
    NumberChangedStoresTypedValue(Toggled(InitialSettings(), TimerEnabledKey), TimerSecondsKey, v);
  }

  /** The countdown updater: `prev <= 1` expires the timer at 0, anything
      else counts down by one. */
  function TickOutcome(prev: int): (r: (int, bool))
    ensures r.1 <==> prev <= 1
    ensures r.1 ==> r.0 == 0
    ensures !r.1 ==> r.0 == prev - 1 && r.0 >= 1
  {
    if prev <= 1 then (0, true) else (prev - 1, false)
  }

  /** How many ticks it takes from `time` until the timer expires. */
  function TicksToExpiry(time: int): (n: nat)
    ensures n == if time >= 1 then time else 1
    decreases if time >= 1 then time else 0
  {
    var (next, expired) := TickOutcome(time);
    if expired then 1 else 1 + TicksToExpiry(next)
  }

  /** A round of the number-guessing game; the fields are the component's
      state variables, the settings it was started with, and the state
      values held by the render whose start effect created the countdown
      interval, which its closure's `handleGameLost` reads. */
  class Round {
    var settings: GameSettings
    var captured: RoundState
    var target: int
    var guesses: seq<int>
    var remainingAttempts: int
    var minGuessable: int
    var maxGuessable: int
    var feedback: Feedback
    var timeRemaining: int

    function State(): RoundState
      reads this
    {
      RoundState(target, guesses, remainingAttempts, minGuessable, maxGuessable, feedback, timeRemaining)
    }

    /** The state variables' initial values, before any round starts. */
    constructor (s: GameSettings)
      ensures settings == s
      ensures State() == MountState(s) && captured == MountState(s)
    {
      settings := s;
      target := 0;
      guesses := [];
      remainingAttempts := s.maxAttempts;
      minGuessable := s.minNumber;
      maxGuessable := s.maxNumber;
      feedback := InitialFeedback;
      timeRemaining := s.timerSeconds;
      captured := MountState(s);
    }

    /** The start effect, with the drawn `target` as a parameter. With the
        timer on, it creates the interval in a render whose state values
        are those from before the effect's updates. */
    method Start(s: GameSettings, drawn: int)
      requires Drawable(s, drawn)
      modifies this
      ensures settings == s && State() == Started(s, drawn, old(State()))
      ensures captured == if s.timerEnabled then old(State()) else old(captured)
      ensures AttemptsAccounted(settings, State())
      ensures s.minNumber <= s.maxNumber ==> TargetInWindow(State())
    {
      if s.timerEnabled {
        captured := State();
      }
      settings := s;
      target := drawn;
      guesses := [];
      feedback := InitialFeedback;
      remainingAttempts := s.maxAttempts;
      minGuessable := s.minNumber;
      maxGuessable := s.maxNumber;
      if s.timerEnabled {
        timeRemaining := s.timerSeconds;
      }
    }

    /** `handleGuess`; returns the record passed to `onGameEnd`, if any. */
    method Guess(d: Difficulty, clock: Clock, g: Option<int>) returns (record: Option<GameScore>)
      modifies this
      ensures settings == old(settings) && captured == old(captured)
      ensures Outcome(State(), record) == GuessOutcome(settings, d, clock, old(State()), g)
      ensures old(TargetInWindow(State())) ==> TargetInWindow(State())
      ensures old(AttemptsAccounted(settings, State())) ==> AttemptsAccounted(settings, State())
    {
      record := None;
      if g.None? || g.value < settings.minNumber || g.value > settings.maxNumber {
        feedback := Invalid;
        return;
      }
      var guess := g.value;
      var before := State();
      guesses := guesses + [guess];
      var newRemainingAttempts := remainingAttempts - 1;
      remainingAttempts := newRemainingAttempts;
      if guess == target {
        feedback := Correct;
        record := Some(WinRecord(settings, d, clock, before));
      } else {
        if guess > target {
          feedback := TooHigh;
          maxGuessable := Min(maxGuessable, guess - 1);
        } else {
          feedback := TooLow;
          minGuessable := Max(minGuessable, guess + 1);
        }
        if newRemainingAttempts <= 0 {
          record := Some(LossRecord(settings, d, clock.date, before));
        }
      }
    }

    /** The interval body; `expired` says that `handleGameLost` was called. */
    method Tick() returns (expired: bool)
      modifies this
      ensures (timeRemaining, expired) == TickOutcome(old(timeRemaining))
      ensures settings == old(settings) && captured == old(captured)
      ensures target == old(target) && guesses == old(guesses)
      ensures remainingAttempts == old(remainingAttempts) && feedback == old(feedback)
      ensures minGuessable == old(minGuessable) && maxGuessable == old(maxGuessable)
    {
      if timeRemaining <= 1 {
        timeRemaining := 0;
        expired := true;
      } else {
        timeRemaining := timeRemaining - 1;
        expired := false;
      }
    }

    method ResetFeedback()
      modifies this
      ensures State() == old(State()).(feedback := InitialFeedback)
      ensures settings == old(settings) && captured == old(captured)
    {
      feedback := InitialFeedback;
    }
  }

  /** A guess submitted while the page shows the round: the round answers
      it and, when it ends, the page records the score and its phase. */
  method HandleGuess(round: Round, page: GamePage, clock: Clock, g: Option<int>)
    returns (record: Option<GameScore>)
    modifies round, page
    ensures round.settings == old(round.settings) && round.captured == old(round.captured)
    ensures Outcome(round.State(), record) ==
            GuessOutcome(round.settings, old(page.difficulty), clock, old(round.State()), g)
    ensures record.Some? ==> page.scores == Record(old(page.scores), record.value) &&
                             page.gameState == PhaseAfter(record.value)
    ensures record.None? ==> page.scores == old(page.scores) && page.gameState == old(page.gameState)
    ensures page.settings == old(page.settings) && page.difficulty == old(page.difficulty)
  {
    record := round.Guess(page.difficulty, clock, g);
    if record.Some? {
      page.HandleGameEnd(record.value);
    }
  }

  /** One timer tick. On expiry the interval's closure reports a loss read
      from the state values it captured when the round started. */
  method TimerTick(round: Round, page: GamePage, date: string)
    returns (expired: bool)
    modifies round, page
    ensures (round.timeRemaining, expired) == TickOutcome(old(round.timeRemaining))
    ensures round.State() == old(round.State()).(timeRemaining := round.timeRemaining)
    ensures round.settings == old(round.settings) && round.captured == old(round.captured)
    ensures expired ==> page.gameState == Lost &&
                        page.scores == Record(old(page.scores), LossRecord(round.settings, old(page.difficulty), date, round.captured))
    ensures !expired ==> page.scores == old(page.scores) && page.gameState == old(page.gameState)
    ensures page.settings == old(page.settings) && page.difficulty == old(page.difficulty)
  {
    expired := round.Tick();
    if expired {
      page.HandleGameEnd(LossRecord(round.settings, page.difficulty, date, round.captured));
    }
  }

  /** The component is mounted: when the page is first shown, and again
      on "Back to Game" after the score history replaced it. A fresh round
      holds the `useState` initial values; while the page is active the
      start effect then runs at once, so a round that was in progress when
      the history was opened is dropped without a record and a new one
      starts, with the mount-time values captured by its countdown. */
  method Mount(page: GamePage, drawn: int) returns (round: Round)
    requires page.gameState == Active ==> Drawable(page.settings, drawn)
    ensures fresh(round) && round.settings == page.settings
    ensures page.gameState != Active ==> round.State() == MountState(page.settings)
    ensures page.gameState == Active ==>
      round.State() == Started(page.settings, drawn, MountState(page.settings)) &&
      round.guesses == [] && round.remainingAttempts == page.settings.maxAttempts
    ensures round.captured == MountState(page.settings)
    ensures AttemptsAccounted(round.settings, round.State())
  {
    round := new Round(page.settings);
    if page.gameState == Active {
      round.Start(page.settings, drawn);
    }
  }

  /** "Play Again": the feedback is reset, the page goes active and the
      start effect runs with its settings and the drawn target; with the
      timer on, the interval's closure holds the state of that render. */
  method BeginRound(round: Round, page: GamePage, drawn: int)
    requires Drawable(page.settings, drawn)
    modifies round, page
    ensures page.gameState == Active && page.scores == old(page.scores)
    ensures page.difficulty == old(page.difficulty)
    ensures round.settings == page.settings == old(page.settings)
    ensures round.State() == Started(page.settings, drawn, old(round.State()))
    ensures round.captured ==
            if page.settings.timerEnabled then old(round.State()).(feedback := InitialFeedback) else old(round.captured)
  {
    round.ResetFeedback();
    page.StartNewGame();
    round.Start(page.settings, drawn);
  }

  /** The timer's loss record is built from the render that started the
      round, not from the round itself. Mounted on medium, switched to easy
      with a 30-second timer, and left to expire, the first round records
      the mount-time target 0, `10 - 7 = 3` attempts and `30 - 60 = -30`
      seconds. */
  lemma StaleTimeoutRecord(date: string)
    ensures var mounted := InitialSettings();
      var easy := WithPreset(mounted, Easy).(timerEnabled := true, timerSeconds := 30);
      LossRecord(easy, Easy, date, MountState(mounted)) == GameScore(date, Easy, 3, 10, false, 0, Some(-30))
  {
  }
}
