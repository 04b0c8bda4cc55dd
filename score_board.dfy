/** The score board (src/components/game/ScoreBoard.tsx): the best score
    among the won rounds, and the rows with their dates formatted. */
module ScoreBoard {
  import opened Text
  import opened NumberGuessGame

  /** The place of won round `scores[i]` among the won rounds: the number
      of won rounds before it. */
  function WinPlace(scores: seq<GameScore>, i: nat): nat
    requires i <= |scores|
  {
    |Successful(scores[..i])|
  }

  /** JavaScript truthiness of an optional number: defined and non-zero. */
  predicate Truthy(t: Option<int>) { t.Some? && t.value != 0 }

  /** `scores.filter(score => score.success)`. */
  function Successful(scores: seq<GameScore>): (r: seq<GameScore>)
    ensures |r| <= |scores|
    ensures forall x :: x in r <==> x in scores && x.success
  {
    if scores == [] then []
    else (if scores[0].success then [scores[0]] else []) + Successful(scores[1..])
  }

  /** The filter keeps every won round as often as the ledger holds it,
      duplicates included, and no other entry. */
  lemma {:induction false} SuccessfulCounts(scores: seq<GameScore>)
    ensures forall x :: multiset(Successful(scores))[x] == if x.success then multiset(scores)[x] else 0
    decreases |scores|
  {
    if scores != [] {
      SuccessfulCounts(scores[1..]);
      assert scores == [scores[0]] + scores[1..];
    }
  }

  /** Filtering a concatenation filters each part and keeps them in order. */
  lemma {:induction false} SuccessfulAppend(xs: seq<GameScore>, ys: seq<GameScore>)
    ensures Successful(xs + ys) == Successful(xs) + Successful(ys)
    decreases |xs|
  {
    if xs == [] {
      assert xs + ys == ys;
    } else {
      assert (xs + ys)[1..] == xs[1..] + ys;
      SuccessfulAppend(xs[1..], ys);
    }
  }

  /** A won entry splits the won rounds into those before it, itself and
      those after it. */
  lemma SuccessfulSplit(scores: seq<GameScore>, i: nat)
    requires i < |scores| && scores[i].success
    ensures Successful(scores) == Successful(scores[..i]) + ([scores[i]] + Successful(scores[i + 1..]))
  {
    var x, pre, post := scores[i], scores[..i], scores[i + 1..];
    SuccessfulOfCons(x, post);
    assert scores == pre + ([x] + post);
    SuccessfulAppend(pre, [x] + post);
  }

  lemma SuccessfulOfCons(x: GameScore, post: seq<GameScore>)
    requires x.success
    ensures Successful([x] + post) == [x] + Successful(post)
  {
    assert ([x] + post)[0] == x;
    assert ([x] + post)[1..] == post;
  }

  /** Every won round appears among the won rounds at its place. */
  lemma SuccessfulAtPlace(scores: seq<GameScore>, i: nat)
    requires i < |scores| && scores[i].success
    ensures WinPlace(scores, i) < |Successful(scores)| && Successful(scores)[WinPlace(scores, i)] == scores[i]
  {
    SuccessfulSplit(scores, i);
  }

  /** The filter keeps the input order: a won round comes before every
      won round that follows it in `scores`. */
  lemma SuccessfulKeepsOrder(scores: seq<GameScore>, i: nat, j: nat)
    requires i < j < |scores| && scores[i].success && scores[j].success
    ensures WinPlace(scores, i) < WinPlace(scores, j)
  {
    var pre, mid := scores[..i], scores[i..j];
    assert scores[..j] == pre + mid;
    SuccessfulAppend(pre, mid);
    assert mid == [scores[i]] + mid[1..];
    SuccessfulAppend([scores[i]], mid[1..]);
    assert Successful([scores[i]]) == [scores[i]] + Successful([]);
  }

  /** The reducer's step: the current entry replaces the best one when it
      used fewer attempts, or as many with a smaller time where both times
      are truthy. */
  function Pick(best: GameScore, current: GameScore): (r: GameScore)
    ensures r == best || r == current
    ensures r.attemptsUsed == Min(best.attemptsUsed, current.attemptsUsed)
    ensures current.attemptsUsed == best.attemptsUsed && current != best ==>
              (r == current <==> Truthy(current.timeUsed) && Truthy(best.timeUsed) &&
                                 current.timeUsed.value < best.timeUsed.value)
  {
    if current.attemptsUsed < best.attemptsUsed then current
    else if current.attemptsUsed == best.attemptsUsed && Truthy(current.timeUsed) &&
            Truthy(best.timeUsed) && current.timeUsed.value < best.timeUsed.value then current
    else best
  }

  /** `xs.reduce(Pick, best)`. */
  function Fold(best: GameScore, xs: seq<GameScore>): GameScore
    decreases |xs|
  {
    if xs == [] then best else Fold(Pick(best, xs[0]), xs[1..])
  }

  /** The `bestScore` memo: `None` when no round was won. */
  function BestScore(scores: seq<GameScore>): (r: Option<GameScore>)
    ensures r.None? <==> forall x :: x in scores ==> !x.success
    ensures r.Some? ==> r.value in scores && r.value.success
    ensures r.Some? ==> forall x :: x in scores && x.success ==> r.value.attemptsUsed <= x.attemptsUsed
  {
    var wins := Successful(scores);
    if |wins| == 0 then None
    else
      FoldResult(wins[0], wins);
      Some(Fold(wins[0], wins))
  }

  lemma {:induction false} FoldResult(best: GameScore, xs: seq<GameScore>)
    ensures Fold(best, xs) == best || Fold(best, xs) in xs
    ensures Fold(best, xs).attemptsUsed <= best.attemptsUsed
    ensures forall x :: x in xs ==> Fold(best, xs).attemptsUsed <= x.attemptsUsed
    decreases |xs|
  {
    if xs != [] {
      FoldResult(Pick(best, xs[0]), xs[1..]);
      assert forall x :: x in xs ==> x == xs[0] || x in xs[1..];
    }
  }

  lemma {:induction false} FoldAppend(best: GameScore, xs: seq<GameScore>, ys: seq<GameScore>)
    ensures Fold(best, xs + ys) == Fold(Fold(best, xs), ys)
    decreases |xs|
  {
    if xs == [] {
      assert xs + ys == ys;
    } else {
      assert (xs + ys)[1..] == xs[1..] + ys;
      FoldAppend(Pick(best, xs[0]), xs[1..], ys);
    }
  }

  /** Once the best entry has the fewest attempts and no truthy time, no
      later entry replaces it. */
  lemma {:induction false} UntimedBestStays(best: GameScore, xs: seq<GameScore>)
    requires !Truthy(best.timeUsed)
    requires forall x :: x in xs ==> best.attemptsUsed <= x.attemptsUsed
    ensures Fold(best, xs) == best
    decreases |xs|
  {
    if xs != [] {
      assert Pick(best, xs[0]) == best;
      UntimedBestStays(best, xs[1..]);
    }
  }

  /** Once the best entry has the fewest attempts and a truthy time, the
      result keeps those attempts and its time is no larger than that of
      any timed entry with as few attempts. */
  lemma {:induction false} TimedBestImproves(best: GameScore, xs: seq<GameScore>)
    requires Truthy(best.timeUsed)
    requires forall x :: x in xs ==> best.attemptsUsed <= x.attemptsUsed
    ensures var r := Fold(best, xs);
      r.attemptsUsed == best.attemptsUsed && Truthy(r.timeUsed) &&
      r.timeUsed.value <= best.timeUsed.value &&
      forall x :: x in xs && x.attemptsUsed == best.attemptsUsed && Truthy(x.timeUsed) ==>
        r.timeUsed.value <= x.timeUsed.value
    decreases |xs|
  {
    if xs != [] {
      var next := Pick(best, xs[0]);
      assert forall x :: x in xs[1..] ==> x in xs;
      TimedBestImproves(next, xs[1..]);
      assert forall x :: x in xs ==> x == xs[0] || x in xs[1..];
    }
  }

  /** The first won round with the fewest attempts becomes the running best
      when the reducer reaches it. */
  lemma FirstFewestBecomesBest(wins: seq<GameScore>, k: nat)
    requires k < |wins|
    requires forall j :: 0 <= j < |wins| ==> wins[k].attemptsUsed <= wins[j].attemptsUsed
    requires forall j :: 0 <= j < k ==> wins[k].attemptsUsed < wins[j].attemptsUsed
    ensures Fold(wins[0], wins) == Fold(wins[k], wins[k + 1..])
  {
    assert wins == wins[..k] + [wins[k]] + wins[k + 1..];
    FoldAppend(wins[0], wins[..k] + [wins[k]], wins[k + 1..]);
    FoldAppend(wins[0], wins[..k], [wins[k]]);
    FoldResult(wins[0], wins[..k]);
    var before := Fold(wins[0], wins[..k]);
    if k > 0 {
      assert before == wins[0] || before in wins[..k];
      assert wins[k].attemptsUsed < before.attemptsUsed;
    }
    assert Fold(before, [wins[k]]) == Pick(before, wins[k]);
  }

  /** `EarliestUntimedKept`, with the round given by its place among the
      won rounds. */
  lemma UntimedKeptAtWin(scores: seq<GameScore>, k: nat)
    requires var wins := Successful(scores);
      k < |wins| && !Truthy(wins[k].timeUsed) &&
      (forall j :: 0 <= j < |wins| ==> wins[k].attemptsUsed <= wins[j].attemptsUsed) &&
      (forall j :: 0 <= j < k ==> wins[k].attemptsUsed < wins[j].attemptsUsed)
    ensures BestScore(scores) == Some(Successful(scores)[k])
  {
    var wins := Successful(scores);
    FirstFewestBecomesBest(wins, k);
    assert forall x :: x in wins[k + 1..] ==> x in wins;
    UntimedBestStays(wins[k], wins[k + 1..]);
  }

  /** `EarliestTimedImproved`, with the round given by its place among the
      won rounds. */
  lemma TimedImprovedAtWin(scores: seq<GameScore>, k: nat)
    requires var wins := Successful(scores);
      k < |wins| && Truthy(wins[k].timeUsed) &&
      (forall j :: 0 <= j < |wins| ==> wins[k].attemptsUsed <= wins[j].attemptsUsed) &&
      (forall j :: 0 <= j < k ==> wins[k].attemptsUsed < wins[j].attemptsUsed)
    ensures var b := BestScore(scores);
      b.Some? && b.value.attemptsUsed == Successful(scores)[k].attemptsUsed && Truthy(b.value.timeUsed) &&
      forall x :: x in scores && x.success && x.attemptsUsed == b.value.attemptsUsed && Truthy(x.timeUsed) ==>
        b.value.timeUsed.value <= x.timeUsed.value
  {
    var wins := Successful(scores);
    FirstFewestBecomesBest(wins, k);
    assert forall x :: x in wins[k + 1..] ==> x in wins;
    TimedBestImproves(wins[k], wins[k + 1..]);
    forall x | x in wins && x.attemptsUsed == wins[k].attemptsUsed
      ensures x == wins[k] || x in wins[k + 1..]
    {
      var j :| 0 <= j < |wins| && wins[j] == x;
      if j < k { assert false; }
      if j > k { assert wins[j] == wins[k + 1..][j - k - 1]; }
    }
  }

  /** The earliest won round of `scores` with the fewest attempts sits at
      place `|Successful(scores[..i])|` among the won rounds, where it is
      the first with the fewest attempts. */
  lemma EarliestFewestAmongWins(scores: seq<GameScore>, i: nat)
    requires i < |scores| && scores[i].success
    requires forall x :: x in scores && x.success ==> scores[i].attemptsUsed <= x.attemptsUsed
    requires forall j :: 0 <= j < i && scores[j].success ==> scores[i].attemptsUsed < scores[j].attemptsUsed
    ensures var wins, k := Successful(scores), |Successful(scores[..i])|;
      k < |wins| && wins[k] == scores[i] &&
      (forall j :: 0 <= j < |wins| ==> wins[k].attemptsUsed <= wins[j].attemptsUsed) &&
      (forall j :: 0 <= j < k ==> wins[k].attemptsUsed < wins[j].attemptsUsed)
  {
    var wins, before := Successful(scores), Successful(scores[..i]);
    var k := |before|;
    SuccessfulSplit(scores, i);
    assert wins[k] == scores[i];
    forall j | 0 <= j < k
      ensures wins[k].attemptsUsed < wins[j].attemptsUsed
    {
      assert wins[j] == before[j] && wins[j] in before;
      var m :| 0 <= m < i && scores[..i][m] == wins[j];
      assert scores[m] == wins[j];
    }
  }

  /** Ties on the fewest attempts: if the earliest won round of `scores`
      with the fewest attempts has no truthy time, it is the best score,
      whatever the later times are. */
  lemma EarliestUntimedKept(scores: seq<GameScore>, i: nat)
    requires i < |scores| && scores[i].success && !Truthy(scores[i].timeUsed)
    requires forall x :: x in scores && x.success ==> scores[i].attemptsUsed <= x.attemptsUsed
    requires forall j :: 0 <= j < i && scores[j].success ==> scores[i].attemptsUsed < scores[j].attemptsUsed
    ensures BestScore(scores) == Some(scores[i])
  {
    EarliestFewestAmongWins(scores, i);
    UntimedKeptAtWin(scores, |Successful(scores[..i])|);
  }

  /** Ties on the fewest attempts: if the earliest won round of `scores`
      with the fewest attempts has a truthy time, the best score has those
      attempts and a truthy time no larger than that of any other timed won
      round with as few attempts. */
  lemma EarliestTimedImproved(scores: seq<GameScore>, i: nat)
    requires i < |scores| && scores[i].success && Truthy(scores[i].timeUsed)
    requires forall x :: x in scores && x.success ==> scores[i].attemptsUsed <= x.attemptsUsed
    requires forall j :: 0 <= j < i && scores[j].success ==> scores[i].attemptsUsed < scores[j].attemptsUsed
    ensures var b := BestScore(scores);
      b.Some? && b.value.attemptsUsed == scores[i].attemptsUsed && Truthy(b.value.timeUsed) &&
      b.value.timeUsed.value <= scores[i].timeUsed.value &&
      forall x :: x in scores && x.success && x.attemptsUsed == b.value.attemptsUsed && Truthy(x.timeUsed) ==>
        b.value.timeUsed.value <= x.timeUsed.value
  {
    EarliestFewestAmongWins(scores, i);
    TimedImprovedAtWin(scores, |Successful(scores[..i])|);
  }

  /** `scores.map(score => ({...score, date: format(score.date)}))`, with
      the locale date formatter as a parameter. */
  function FormattedScores(scores: seq<GameScore>, format: string -> string): (r: seq<GameScore>)
    ensures |r| == |scores|
    ensures forall i :: 0 <= i < |scores| ==> r[i] == scores[i].(date := format(scores[i].date))
  {
    if scores == [] then [] else [scores[0].(date := format(scores[0].date))] + FormattedScores(scores[1..], format)
  }
}
