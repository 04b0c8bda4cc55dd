/** The guess chips (src/components/game/GuessHistory.tsx): one coloured
    chip per guess, and the target chip once the round is over. */
module GuessHistory {
  import opened GameContainer
  import opened NumberGuessGame
  import opened Text

  datatype GuessClass = CorrectGuess | TooHighGuess | TooLowGuess

  datatype Chip = GuessChip(value: int, kind: GuessClass) | TargetChip(value: int)

  /** The chip's class: equal is correct, greater is too high, else too low. */
  function Classify(guess: int, target: int): (c: GuessClass)
    ensures c == CorrectGuess <==> guess == target
    ensures c == TooHighGuess <==> guess > target
    ensures c == TooLowGuess <==> guess < target
  {
    if guess == target then CorrectGuess else if guess > target then TooHighGuess else TooLowGuess
  }

  /** The rendered history; `None` (nothing rendered) for no guesses. */
  function History(guesses: seq<int>, target: int, showTarget: bool): (r: Option<seq<Chip>>)
    ensures r.None? <==> guesses == []
    ensures r.Some? ==> |r.value| == |guesses| + (if showTarget then 1 else 0)
    ensures r.Some? ==> forall i :: 0 <= i < |guesses| ==> r.value[i] == GuessChip(guesses[i], Classify(guesses[i], target))
    ensures r.Some? && showTarget ==> r.value[|guesses|] == TargetChip(target)
  {
    if guesses == [] then None
    else Some(Chips(guesses, target) + (if showTarget then [TargetChip(target)] else []))
  }

  function Chips(guesses: seq<int>, target: int): (r: seq<Chip>)
    ensures |r| == |guesses|
    ensures forall i :: 0 <= i < |guesses| ==> r[i] == GuessChip(guesses[i], Classify(guesses[i], target))
  {
    if guesses == [] then [] else [GuessChip(guesses[0], Classify(guesses[0], target))] + Chips(guesses[1..], target)
  }

  /** A chip shows the hint the round gave when that guess was made. */
  lemma ClassifyAgreesWithFeedback(s: GameSettings, d: Difficulty, clock: Clock, st: RoundState, g: int)
    requires s.minNumber <= g <= s.maxNumber
    ensures var f := GuessOutcome(s, d, clock, st, Some(g)).state.feedback;
      match Classify(g, st.target)
      case CorrectGuess => f == Correct
      case TooHighGuess => f == TooHigh
      case TooLowGuess => f == TooLow
  {
  }
}
