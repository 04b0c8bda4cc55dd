/** The game page (src/pages/NumberGuessGame.tsx): the shared game types,
    the difficulty presets, the score ledger and the page state that the
    round reports to. */
module NumberGuessGame {
  import opened Text

  datatype Difficulty = Easy | Medium | Hard | Custom

  datatype GameState = Initial | Active | Won | Lost

  datatype GameSettings = GameSettings(
    minNumber: int,
    maxNumber: int,
    maxAttempts: int,
    timerEnabled: bool,
    timerSeconds: int,
    soundEnabled: bool)

  /** One finished round; `date` is the opaque timestamp string and
      `timeUsed` is `None` where the source leaves it undefined. */
  datatype GameScore = GameScore(
    date: string,
    difficulty: Difficulty,
    attemptsUsed: int,
    maxAttempts: int,
    success: bool,
    number: int,
    timeUsed: Option<int>)

  /** The part of the settings a difficulty fixes. */
  datatype Preset = Preset(minNumber: int, maxNumber: int, maxAttempts: int)

  /** The `difficultySettings` table. */
  function PresetOf(d: Difficulty): (p: Preset)
    ensures p.minNumber < p.maxNumber && p.maxAttempts >= 1
  {
    match d
    case Easy => Preset(1, 50, 10)
    case Medium => Preset(1, 100, 7)
    case Hard => Preset(1, 200, 7)
    case Custom => Preset(1, 100, 10)
  }

  /** `{...prev, ...difficultySettings[d]}`: the preset's three fields
      replace those of `prev`, the rest is kept. */
  function WithPreset(prev: GameSettings, d: Difficulty): (s: GameSettings)
    ensures s.minNumber == PresetOf(d).minNumber
    ensures s.maxNumber == PresetOf(d).maxNumber
    ensures s.maxAttempts == PresetOf(d).maxAttempts
    ensures s.timerEnabled == prev.timerEnabled
    ensures s.timerSeconds == prev.timerSeconds
    ensures s.soundEnabled == prev.soundEnabled
  {
    var p := PresetOf(d);
    prev.(minNumber := p.minNumber, maxNumber := p.maxNumber, maxAttempts := p.maxAttempts)
  }

  /** The settings the page starts with: the medium preset, the timer off
      at 60 seconds and the sound off. */
  function InitialSettings(): (s: GameSettings)
    ensures s == GameSettings(1, 100, 7, false, 60, false)
  {
    GameSettings(PresetOf(Medium).minNumber, PresetOf(Medium).maxNumber,
                 PresetOf(Medium).maxAttempts, false, 60, false)
  }

  /** The most entries the ledger keeps. */
  const LedgerCapacity: nat := 10

  /** `[score, ...prev].slice(0, 10)`. */
  function Record(prev: seq<GameScore>, score: GameScore): (r: seq<GameScore>)
    ensures |r| == Min(LedgerCapacity, |prev| + 1)
    ensures r[0] == score
    ensures r[1..] == prev[..Min(LedgerCapacity - 1, |prev|)]
  {
    var all := [score] + prev;
    var r := all[..Min(LedgerCapacity, |all|)];
    assert r[1..] == prev[..Min(LedgerCapacity - 1, |prev|)];
    r
  }

  /** The phase a finished round leaves the page in. */
  function PhaseAfter(score: GameScore): (g: GameState)
    ensures g == Won <==> score.success
    ensures g == Lost <==> !score.success
  {
    if score.success then Won else Lost
  }

  /** Recording a run of scores in order, oldest first. */
  function RecordAll(ledger: seq<GameScore>, entries: seq<GameScore>): seq<GameScore>
    decreases |entries|
  {
    if entries == [] then ledger
    else RecordAll(Record(ledger, entries[0]), entries[1..])
  }

  function Reversed(s: seq<GameScore>): (r: seq<GameScore>)
    ensures |r| == |s|
    ensures forall i :: 0 <= i < |s| ==> r[i] == s[|s| - 1 - i]
  {
    if s == [] then [] else Reversed(s[1..]) + [s[0]]
  }

  /** Recording any run of entries keeps the most recent ten of all
      entries and old ledger together, newest first. */
  lemma {:induction false} RecordAllKeepsNewest(ledger: seq<GameScore>, entries: seq<GameScore>)
    requires |ledger| <= LedgerCapacity
    ensures RecordAll(ledger, entries) ==
            (Reversed(entries) + ledger)[..Min(LedgerCapacity, |entries| + |ledger|)]
    decreases |entries|
  {
    if entries == [] {
      assert Reversed(entries) + ledger == ledger;
    } else {
      var next := Record(ledger, entries[0]);
      RecordAllKeepsNewest(next, entries[1..]);
      var rest := entries[1..];
      var n := Min(LedgerCapacity, |entries| + |ledger|);
      assert Reversed(entries) == Reversed(rest) + [entries[0]];
      calc {
        RecordAll(ledger, entries);
        RecordAll(next, rest);
        (Reversed(rest) + next)[..Min(LedgerCapacity, |rest| + |next|)];
        { var b := [entries[0]] + ledger;
          assert (Reversed(rest) + b[..Min(LedgerCapacity, |b|)])[..Min(LedgerCapacity, |rest| + Min(LedgerCapacity, |b|))] ==
                 (Reversed(rest) + b)[..n]; }
        (Reversed(rest) + ([entries[0]] + ledger))[..n];
        { assert Reversed(rest) + ([entries[0]] + ledger) == Reversed(entries) + ledger; }
        (Reversed(entries) + ledger)[..n];
      }
    }
  }

  /** The page's state: the phase, the settings, the stored ledger and the
      chosen difficulty. */
  class GamePage {
    var gameState: GameState
    var settings: GameSettings
    var scores: seq<GameScore>
    var difficulty: Difficulty

    /** The page as mounted; `stored` is the ledger the browser store holds
        (the empty list when there is none). */
    constructor (stored: seq<GameScore>)
      ensures gameState == Initial && difficulty == Medium
      ensures settings == InitialSettings() && scores == stored
    {
      gameState := Initial;
      settings := InitialSettings();
      scores := stored;
      difficulty := Medium;
    }

    method HandleDifficultyChange(d: Difficulty)
      modifies this
      ensures difficulty == d && settings == WithPreset(old(settings), d)
      ensures gameState == old(gameState) && scores == old(scores)
    {
      difficulty := d;
      settings := WithPreset(settings, d);
    }

    method HandleGameEnd(score: GameScore)
      modifies this
      ensures scores == Record(old(scores), score)
      ensures gameState == PhaseAfter(score)
      ensures settings == old(settings) && difficulty == old(difficulty)
    {
      scores := Record(scores, score);
      gameState := PhaseAfter(score);
    }

    method StartNewGame()
      modifies this
      ensures gameState == Active
      ensures settings == old(settings) && scores == old(scores) && difficulty == old(difficulty)
    {
      gameState := Active;
    }

    /** `setSettings(update)`: the functional form of the settings setter. */
    method SetSettings(update: GameSettings -> GameSettings)
      modifies this
      ensures settings == update(old(settings))
      ensures gameState == old(gameState) && scores == old(scores) && difficulty == old(difficulty)
    {
      settings := update(settings);
    }
  }
}
