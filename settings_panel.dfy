/** The settings panel (src/components/game/SettingsPanel.tsx): the
    functional updaters its switches and number fields commit through the
    page's settings setter. */
module SettingsPanel {
  import opened Text
  import opened NumberGuessGame

  /** The fields the panel's switches flip. */
  datatype SwitchKey = TimerEnabledKey | SoundEnabledKey

  /** The fields the panel's number inputs write. */
  datatype NumberKey = MinNumberKey | MaxNumberKey | MaxAttemptsKey | TimerSecondsKey

  /** `prev => ({...prev, [key]: !prev[key]})`. */
  function Toggled(prev: GameSettings, key: SwitchKey): (s: GameSettings)
    ensures key == TimerEnabledKey ==> s == prev.(timerEnabled := !prev.timerEnabled)
    ensures key == SoundEnabledKey ==> s == prev.(soundEnabled := !prev.soundEnabled)
    ensures s != prev
  {
    match key
    case TimerEnabledKey => prev.(timerEnabled := !prev.timerEnabled)
    case SoundEnabledKey => prev.(soundEnabled := !prev.soundEnabled)
  }

  /** Flipping the same switch twice restores the settings. */
  lemma ToggleTwice(prev: GameSettings, key: SwitchKey)
    ensures Toggled(Toggled(prev, key), key) == prev
  {
  }

  function WithNumber(prev: GameSettings, key: NumberKey, v: int): (s: GameSettings)
  {
    match key
    case MinNumberKey => prev.(minNumber := v)
    case MaxNumberKey => prev.(maxNumber := v)
    case MaxAttemptsKey => prev.(maxAttempts := v)
    case TimerSecondsKey => prev.(timerSeconds := v)
  }

  /** The number handler's updater: `parseInt(text, 10)`, and when that is a
      number, `prev => ({...prev, [key]: value})`; NaN changes nothing. */
  function NumberChanged(prev: GameSettings, key: NumberKey, text: string): (s: GameSettings)
    ensures ParseInt(text).None? ==> s == prev
    ensures ParseInt(text).Some? ==> s == WithNumber(prev, key, ParseInt(text).value)
  {
    match ParseInt(text)
    case None => prev
    case Some(v) => WithNumber(prev, key, v)
  }

  /** Writing a number field sets that field and no other. */
  lemma WithNumberSetsOneField(prev: GameSettings, key: NumberKey, v: int)
    ensures var s := WithNumber(prev, key, v);
      s.timerEnabled == prev.timerEnabled && s.soundEnabled == prev.soundEnabled &&
      s.minNumber == (if key == MinNumberKey then v else prev.minNumber) &&
      s.maxNumber == (if key == MaxNumberKey then v else prev.maxNumber) &&
      s.maxAttempts == (if key == MaxAttemptsKey then v else prev.maxAttempts) &&
      s.timerSeconds == (if key == TimerSecondsKey then v else prev.timerSeconds)
  {
  }

  /** Typing the rendered value of an integer stores exactly that integer. */
  lemma NumberChangedStoresTypedValue(prev: GameSettings, key: NumberKey, v: int)
    ensures NumberChanged(prev, key, IntToString(v)) == WithNumber(prev, key, v)
  {
    ParseIntRoundTrip(v);
  }

  /** The handler does not clamp: from the medium preset, typing 500 into
      the minimum field leaves a minimum above the maximum. In the app the
      range and attempts fields are rendered only for the `Custom`
      difficulty, which none of the selector's buttons chooses, so this
      case is reached only through the handler itself. */
  lemma NoClamping()
    ensures var s := NumberChanged(InitialSettings(), MinNumberKey, "500");
      s.minNumber == 500 && s.minNumber > s.maxNumber
  {
    ParseIntRoundTrip(500);
    assert IntToString(500) == "500" by {
      assert NatToString(500) == NatToString(50) + ['0'];
      assert NatToString(50) == NatToString(5) + ['0'];
    }
  }

  /** `handleSwitchChange(key)()`: commits the flip to the page. */
  method HandleSwitchChange(page: GamePage, key: SwitchKey)
    modifies page
    ensures page.settings == Toggled(old(page.settings), key)
    ensures page.gameState == old(page.gameState) && page.scores == old(page.scores)
    ensures page.difficulty == old(page.difficulty)
  {
    page.SetSettings(prev => Toggled(prev, key));
  }

  /** `handleNumberChange(key)(event)`: commits the parsed number, or
      nothing when the text does not parse. */
  method HandleNumberChange(page: GamePage, key: NumberKey, text: string)
    modifies page
    ensures page.settings == NumberChanged(old(page.settings), key, text)
    ensures page.gameState == old(page.gameState) && page.scores == old(page.scores)
    ensures page.difficulty == old(page.difficulty)
  {
    var value := ParseInt(text);
    if value.Some? {
      page.SetSettings(prev => WithNumber(prev, key, value.value));
    }
  }
}
