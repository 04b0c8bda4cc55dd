/** The round's counters (src/components/game/GameStats.tsx): the `m:ss`
    countdown text and the attempts label. */
module GameStats {
  import opened Text

  /** JavaScript's `%`: the remainder takes the sign of the dividend. */
  function JsRem(a: int, b: int): int
    requires b > 0
  {
    if a >= 0 then a % b else -((-a) % b)
  }

  /** `formatTime`: `None` for an undefined time, else
      `${Math.floor(s / 60)}:${(s % 60).toString().padStart(2, '0')}`. */
  function FormatTime(seconds: Option<int>): (r: Option<string>)
    ensures seconds.None? <==> r.None?
  {
    match seconds
    case None => None
    case Some(s) => Some(IntToString(s / 60) + ":" + PadStart(IntToString(JsRem(s, 60)), 2, '0'))
  }

  /** For a non-negative time the text is minutes, a colon and exactly two
      digits of seconds below 60, and reading the two numbers back gives
      the time. */
  lemma FormatTimeReadsBack(s: nat)
    ensures var t := FormatTime(Some(s)).value;
      |t| >= 4 && t[|t| - 3] == ':' &&
      IsDigits(t[..|t| - 3]) && IsDigits(t[|t| - 2..]) &&
      DecimalValue(t[|t| - 2..]) < 60 &&
      DecimalValue(t[..|t| - 3]) * 60 + DecimalValue(t[|t| - 2..]) == s
  {
    var mins := NatToString(s / 60);
    var padded := PadStart(NatToString(s % 60), 2, '0');
    TwoDigitSeconds(s % 60);
    NatToStringRoundTrip(s / 60);
    var t := mins + ":" + padded;
    assert FormatTime(Some(s)).value == t;
    assert t[..|t| - 3] == mins;
    assert t[|t| - 2..] == padded;
  }

  lemma TwoDigitSeconds(n: nat)
    requires n < 60
    ensures var p := PadStart(NatToString(n), 2, '0');
      |p| == 2 && IsDigits(p) && DecimalValue(p) == n
  {
    var digits := NatToString(n);
    if n >= 10 {
      assert digits == NatToString(n / 10) + [DigitChar(n % 10)];
    }
    var zeros := Repeat('0', 2 - |digits|);
    assert PadStart(digits, 2, '0') == zeros + digits;
    DecimalValueLeadingZeros(zeros, digits);
    NatToStringRoundTrip(n);
  }

  /** The attempts label: `${attemptsUsed} used` when the game is over,
      `${remainingAttempts} left` otherwise, then ` / ${maxAttempts}`. */
  function AttemptsLabel(isGameOver: bool, attemptsUsed: Option<int>, remainingAttempts: int,
                         maxAttempts: int): (r: string)
    ensures var ending := (if isGameOver then " used" else " left") + " / " + IntToString(maxAttempts);
      |r| > |ending| && r[|r| - |ending|..] == ending
    ensures isGameOver && attemptsUsed.None? ==> |r| >= 9 && r[..9] == "undefined"
  {
    var shown := if !isGameOver then IntToString(remainingAttempts)
                 else if attemptsUsed.Some? then IntToString(attemptsUsed.value)
                 else "undefined";
    var ending := (if isGameOver then " used" else " left") + " / " + IntToString(maxAttempts);
    assert (shown + ending)[|shown|..] == ending;
    shown + ending
  }

  /** The label's leading number is the used count when the game is over
      and the remaining count otherwise. */
  lemma AttemptsLabelShowsCount(isGameOver: bool, used: nat, remaining: nat, maxAttempts: int)
    ensures var r := AttemptsLabel(isGameOver, Some(used), remaining, maxAttempts);
      DecimalValue(LeadingDigits(r)) == if isGameOver then used else remaining
  {
    var n := if isGameOver then used else remaining;
    var rest := (if isGameOver then " used" else " left") + " / " + IntToString(maxAttempts);
    assert AttemptsLabel(isGameOver, Some(used), remaining, maxAttempts) == NatToString(n) + rest;
    LeadingDigitsOfDigits(NatToString(n), rest);
    NatToStringRoundTrip(n);
  }
}
