# PokéPulse Explorer in Dafny

This project models the logic of the PokéPulse Explorer web app, a React and TypeScript app with two parts.

- **The number-guessing game.** A page holds:
  - the difficulty presets and settings;
  - a ledger of the last ten finished rounds;
  - the phase of play (initial, active, won, lost).

  A round draws a secret number and answers each guess with "too high", "too low" or "correct". Each answer narrows the guessable window and spends one attempt. A round ends on a hit, when the attempts run out, or when its countdown reaches zero, and it then reports a score record to the page. A round that is abandoned by opening the score history ends without a record. Around the round sit:
  - a settings panel (switches and number fields);
  - a digit-only guess input;
  - the attempt and time counters;
  - the guess chips;
  - a score board that picks the best won round.
- **The Pokémon catalog.** It covers:
  - the service helpers that pick a species' English flavour text and genus;
  - the id a list item's URL names;
  - the catalog page's search and type filters and the selected-types toggle;
  - the display helpers of the grid card and the detail view.

Each source file has its own module. Module `Text` holds the models of the JavaScript string and number built-ins the code relies on:
- `toString` on integers;
- `padStart`, `toLowerCase`, `includes`, `split`, and `replace` with a string or a global pattern;
- `parseInt`, and `Number` on digit strings.

State the source updates in place takes the form of a class:
- the page's state is `NumberGuessGame.GamePage`;
- a round's state variables are `GameContainer.Round`;
- the guess input's shake flag is `NumberInput.GuessInput`;
- the catalog's lists and filters are `Index.CatalogView`.

Every method is tied by its `ensures` to a pure function of the old state and its inputs, such as `GuessOutcome`, `Started`, `TickOutcome`, `Record` or `ApplyFilters`. The properties the source promises are proved about those functions.

Things the program takes from the outside world become parameters:
- the random draw is `drawn`;
- `Date.now()` and the ISO date are a `Clock`;
- the locale date formatter is `format`.

The state values a timer closure holds are kept in the round as `captured`.

Nullable URLs are strings, with `""` standing for null, and NaN is `None`.

Where this model and a plain reading of the app's behaviour differ, the model follows the code:
- **A loss records one attempt fewer than were made.** When the last attempt is spent on a wrong guess, `handleGameLost` reads `remainingAttempts` from before the decrement. The record therefore says `attemptsUsed = maxAttempts - remainingAttempts`, which is the number of guesses minus one: 0, not 1, for a one-attempt game (`GameContainer.RecordCountsGuesses`).
- **The timer's loss record is stale.** The countdown closure was created by the start effect. It holds the state values of the render in which that effect ran, which are the values from before the effect's updates. So the record sent on expiry takes `number`, `attemptsUsed` and `timeUsed` from the previous round's final state, or from the mount-time values in the first round (`GameContainer.Round.Start` keeps them as `captured`, and `GameContainer.TimerTick` reads them). In the first round after each mount of the game view the target is 0. The view is mounted when the page is first shown and again on each return from the score history. For example: mount on medium, pick easy, set a 30-second timer and let it expire. The record then says number 0, 3 attempts and -30 seconds (`GameContainer.StaleTimeoutRecord`).
- **Load More filters by the filters of its click.** The grid after "Load More" is filtered by the query and types in effect when the button was clicked, even if they were changed while the batch loaded. The grid can then show an entry the search box excludes (`Index.CatalogView.MoreLoaded`, `Index.StaleLoadShowsExcluded`).
- **The best score does not always prefer one with a time.** Entries with no truthy `timeUsed` can still win: the earliest won round with the fewest attempts stays best whenever it has no time, even when a later round with as few attempts has one (`ScoreBoard.EarliestUntimedKept`).
- **The settings handler does not clamp.** The number handler stores whatever integer it parses. Its `min`/`max` attributes are not enforced.
  - The range and attempts fields are rendered only for the `custom` difficulty (src/components/game/SettingsPanel.tsx:45). None of the selector's buttons chooses it: they offer easy, medium and hard, and the page starts on medium. So a minimum above the maximum is reachable only through the handler itself, not in the app as shipped (`SettingsPanel.NoClamping`). The model still says where a draw would land then, in `[max + 1, min]` (`GameContainer.Drawable`).
  - The time-limit field is rendered whenever the timer is on, so it is reachable. A limit of 0 or below ends the round as lost on its first tick (`GameContainer.UnclampedTimeLimitEndsAtFirstTick`).
- **The fallback genus is stored exactly as the source spells it.** The literal is the mis-encoded string `Pok√©mon`.

## Model

| member | source | states |
|---|---|---|
| NumberGuessGame.PresetOf | src/pages/NumberGuessGame.tsx:33-38 | every preset has minimum below maximum and at least one attempt |
| NumberGuessGame.WithPreset | src/pages/NumberGuessGame.tsx:52-58 | a difficulty change replaces exactly the three preset fields and keeps timer and sound settings |
| NumberGuessGame.InitialSettings | src/pages/NumberGuessGame.tsx:42-47 | the page starts on 1..100, 7 attempts, timer off at 60 s, sound off |
| NumberGuessGame.Record | src/pages/NumberGuessGame.tsx:61 | the new score is first, the ledger holds at most ten entries, and the older ones follow in order |
| NumberGuessGame.PhaseAfter | src/pages/NumberGuessGame.tsx:71 | the page is won exactly for a successful score and lost exactly for a failed one |
| NumberGuessGame.Reversed | src/pages/NumberGuessGame.tsx:61 | reference definition, not code at the line: the newest-first order that repeated prepends build; it keeps the length and mirrors the positions |
| NumberGuessGame.RecordAllKeepsNewest | src/pages/NumberGuessGame.tsx:61 | after any run of finished rounds the ledger is the newest ten of all entries, newest first |
| NumberGuessGame.GamePage.constructor | src/pages/NumberGuessGame.tsx:41-49 | phase initial, medium difficulty, initial settings, the stored ledger |
| NumberGuessGame.GamePage.HandleDifficultyChange | src/pages/NumberGuessGame.tsx:52-58 | sets the difficulty and applies its preset; phase and ledger unchanged |
| NumberGuessGame.GamePage.HandleGameEnd | src/pages/NumberGuessGame.tsx:60-72 | records the score in the ledger and moves to won or lost |
| NumberGuessGame.GamePage.StartNewGame | src/pages/NumberGuessGame.tsx:74-76 | moves to active and changes nothing else |
| NumberGuessGame.GamePage.SetSettings | src/components/game/GameContainer.tsx:23 | a functional settings update replaces only the settings |
| SettingsPanel.Toggled | src/components/game/SettingsPanel.tsx:20-27 | a switch negates its own field only, so the settings always change |
| SettingsPanel.ToggleTwice | src/components/game/SettingsPanel.tsx:22-25 | flipping the same switch twice restores the settings |
| SettingsPanel.NumberChanged | src/components/game/SettingsPanel.tsx:29-39 | text that parses to NaN leaves the settings unchanged; otherwise the parsed value is written to the field |
| SettingsPanel.WithNumberSetsOneField | src/components/game/SettingsPanel.tsx:33-36 | writing a number field changes that field and no other |
| SettingsPanel.NumberChangedStoresTypedValue | src/components/game/SettingsPanel.tsx:31-36 | typing the decimal text of any integer stores exactly that integer |
| SettingsPanel.NoClamping | src/components/game/SettingsPanel.tsx:29-39 | the handler stores 500 typed into the minimum of the initial settings, leaving the minimum above the maximum; that field is rendered only for the `custom` difficulty |
| SettingsPanel.HandleSwitchChange | src/components/game/SettingsPanel.tsx:20-27 | commits the flip to the page's settings and nothing else |
| SettingsPanel.HandleNumberChange | src/components/game/SettingsPanel.tsx:29-39 | commits the parsed number, or nothing, to the page's settings |
| GameContainer.MountState | src/components/game/GameContainer.tsx:35-43 | every mount starts with target 0, no guesses, the configured attempts, window and countdown, and the bookkeeping holds |
| GameContainer.Started | src/components/game/GameContainer.tsx:49-66 | a fresh round has the drawn target, no guesses, full attempts and the full window. The countdown is reset only with the timer on. The bookkeeping holds, and the target is in the window when min ≤ max |
| GameContainer.WinRecord | src/components/game/GameContainer.tsx:137-155 | a won record names the target, counts the attempts spent before the guess plus the guess itself, and takes the countdown's spent seconds with the timer on or the wall-clock seconds otherwise |
| GameContainer.LossRecord | src/components/game/GameContainer.tsx:157-171 | a lost record names the target, counts `maxAttempts - remainingAttempts` of the state it reads, and has a time exactly with the timer on, the countdown's spent seconds |
| GameContainer.GuessOutcome | src/components/game/GameContainer.tsx:98-171 | a rejected guess only sets "invalid"; an accepted one is recorded and spends one attempt; the right feedback and narrowing for each case; a wrong guess ends the round exactly when no attempt is left; the window never widens and keeps the target; the bookkeeping is preserved; any record names the target |
| GameContainer.RecordCountsGuesses | src/components/game/GameContainer.tsx:149-165 | a win records the number of guesses; a loss by guess records one fewer |
| GameContainer.EndsWithinAttempts | src/components/game/GameContainer.tsx:107-130 | any run of accepted guesses ends the round within `max(1, remainingAttempts)` guesses |
| GameContainer.UnclampedTimeLimitEndsAtFirstTick | src/components/game/SettingsPanel.tsx:29-39 | with the timer switched on and any limit of 0 or below typed in, the handler stores it, and the first tick of a round started from those settings ends it as lost |
| GameContainer.TickOutcome | src/components/game/GameContainer.tsx:85-93 | the tick expires exactly when the previous time is at most 1, leaving 0; otherwise it counts down by one and stays positive |
| GameContainer.TicksToExpiry | src/components/game/GameContainer.tsx:84-94 | a countdown from `t ≥ 1` expires after exactly `t` ticks (after one otherwise) |
| GameContainer.Round.constructor | src/components/game/GameContainer.tsx:35-43 | the state variables' initial values; the bookkeeping holds |
| GameContainer.Round.Start | src/components/game/GameContainer.tsx:49-66 | the new state is `Started` of the old one with the drawn target; with the timer on, `captured` becomes the state from before the start |
| GameContainer.Round.Guess | src/components/game/GameContainer.tsx:98-135 | new state and returned record are `GuessOutcome` of the old state; window and bookkeeping invariants preserved |
| GameContainer.Round.Tick | src/components/game/GameContainer.tsx:84-94 | the countdown follows `TickOutcome`; nothing else changes |
| GameContainer.Round.ResetFeedback | src/components/game/GameContainer.tsx:287 | resets only the feedback |
| GameContainer.HandleGuess | src/components/game/GameContainer.tsx:98-171 | the round steps by `GuessOutcome`; a record is entered in the page's ledger and sets won or lost; with no record the page is untouched |
| GameContainer.TimerTick | src/components/game/GameContainer.tsx:84-94 | the countdown follows `TickOutcome` and no other round field changes; on expiry the page records the loss built from the captured state and moves to lost, otherwise ledger and phase are kept; settings and difficulty are kept |
| GameContainer.StaleTimeoutRecord | src/components/game/GameContainer.tsx:35-43 | the timeout record of a first round started on easy with a 30 s timer after mounting on medium is number 0, 3 attempts and -30 seconds |
| GameContainer.Mount | src/pages/NumberGuessGame.tsx:89-119 | a mount builds a fresh round from the `useState` values; on an active page the start effect restarts it at once with no guesses and full attempts, so the earlier round is dropped without a record |
| GameContainer.BeginRound | src/components/game/GameContainer.tsx:286-289 | the page goes active with ledger, settings and difficulty kept; the round is `Started` from the page's settings with the drawn target; with the timer on, the captured state is the round before the start, with the feedback reset |
| ScoreBoard.Successful | src/components/game/ScoreBoard.tsx:26 | keeps the won rounds and no others |
| ScoreBoard.SuccessfulCounts | src/components/game/ScoreBoard.tsx:26 | each won round is kept as often as the ledger holds it, duplicates included, and no other entry is kept |
| ScoreBoard.SuccessfulAppend | src/components/game/ScoreBoard.tsx:26 | filtering a concatenation is the concatenation of the filtered parts |
| ScoreBoard.SuccessfulAtPlace | src/components/game/ScoreBoard.tsx:26 | each won round sits among the won rounds at the place given by the number of won rounds before it |
| ScoreBoard.SuccessfulKeepsOrder | src/components/game/ScoreBoard.tsx:26 | a won round is placed before every won round that follows it in the ledger |
| ScoreBoard.Pick | src/components/game/ScoreBoard.tsx:29-36 | the step keeps one of the two with the fewer attempts; on a tie the current one wins exactly when both times are truthy and it is faster |
| ScoreBoard.BestScore | src/components/game/ScoreBoard.tsx:25-38 | none exactly when no round was won; otherwise a won round with the fewest attempts |
| ScoreBoard.FoldResult | src/components/game/ScoreBoard.tsx:29-37 | the reduction returns the seed or an entry, with no more attempts than any of them |
| ScoreBoard.FoldAppend | src/components/game/ScoreBoard.tsx:29-37 | reducing a concatenation is reducing the second part from the first part's result |
| ScoreBoard.UntimedBestStays | src/components/game/ScoreBoard.tsx:33-36 | a fewest-attempts best with no truthy time is never replaced |
| ScoreBoard.TimedBestImproves | src/components/game/ScoreBoard.tsx:33-36 | a timed fewest-attempts best only gets faster, ending no slower than any timed tie |
| ScoreBoard.FirstFewestBecomesBest | src/components/game/ScoreBoard.tsx:29-37 | the first won round with the fewest attempts becomes the running best when reached |
| ScoreBoard.EarliestUntimedKept | src/components/game/ScoreBoard.tsx:25-38 | if that round has no truthy time it is the best score |
| ScoreBoard.EarliestTimedImproved | src/components/game/ScoreBoard.tsx:25-38 | if it has a truthy time, the best score has the fewest attempts and the smallest time among timed ties |
| ScoreBoard.FormattedScores | src/components/game/ScoreBoard.tsx:12-23 | the rows are the scores in order with only the date reformatted |
| NumberInput.Forwarded | src/components/game/NumberInput.tsx:47-54 | the text is forwarded exactly when it is all digits, and unchanged |
| NumberInput.Submitted | src/components/game/NumberInput.tsx:33-45 | a number is submitted exactly when `Number(value)` is a number within `[min, max]`, and it is that number |
| NumberInput.SubmitReadsDigits | src/components/game/NumberInput.tsx:36-44 | a forwarded non-empty digit string is submitted as its decimal value when in range |
| NumberInput.DisplayedBound | src/components/game/NumberInput.tsx:30-31 | the window bound is shown unless it is undefined or 0, when the configured bound is shown |
| NumberInput.SubmitDisabled | src/components/game/NumberInput.tsx:82 | the button is disabled exactly when the input is disabled or empty |
| NumberInput.GuessInput.constructor | src/components/game/NumberInput.tsx:29 | the input starts still |
| NumberInput.GuessInput.HandleSubmit | src/components/game/NumberInput.tsx:33-45 | returns `Submitted`; a rejected value starts the shake |
| GameStats.FormatTime | src/components/game/GameStats.tsx:25-30 | an undefined time gives `null` |
| GameStats.FormatTimeReadsBack | src/components/game/GameStats.tsx:27-29 | for any non-negative time: minutes, a colon, exactly two digits of seconds below 60, and `minutes * 60 + seconds` is the time |
| GameStats.AttemptsLabel | src/components/game/GameStats.tsx:40 | the label ends in ` used / max` when the game is over and ` left / max` otherwise; an undefined used count shows as `undefined` |
| GameStats.AttemptsLabelShowsCount | src/components/game/GameStats.tsx:40 | the label's leading number is the used count when over and the remaining count otherwise |
| GuessHistory.Classify | src/components/game/GuessHistory.tsx:29-44 | correct, too high and too low exactly for equal, greater and smaller |
| GuessHistory.History | src/components/game/GuessHistory.tsx:16-55 | nothing for no guesses; otherwise one classified chip per guess in order, and the target chip last when shown |
| GuessHistory.ClassifyAgreesWithFeedback | src/components/game/GuessHistory.tsx:29-44 | each chip shows the hint the round gave for that guess |
| PokemonService.FirstEnglish | src/services/pokemonService.ts:113-115 | none exactly when no entry is English; otherwise the first English index |
| PokemonService.EnglishDescription | src/services/pokemonService.ts:112-118 | the placeholder when no entry is English; otherwise the first English text with every form feed, and nothing else, turned into a space |
| PokemonService.EnglishGenus | src/services/pokemonService.ts:121-127 | the fallback when no entry is English; otherwise the first English genus |
| PokemonService.LastSegment | src/services/pokemonService.ts:133 | a segment found is non-empty and has no slash |
| PokemonService.TrimTrailingSlashes | src/services/pokemonService.ts:133 | reference definition, not code at the line: the URL without its trailing slashes |
| PokemonService.LastSegmentIsFinalRun | src/services/pokemonService.ts:133 | the segment is the run of non-slash characters before the trailing slashes, none for an all-slash URL |
| PokemonService.RequestedId | src/services/pokemonService.ts:133-134 | the URL's last segment, or the item's name when there is none |
| PokemonService.BatchRequests | src/services/pokemonService.ts:130-137 | one request per item, in order |
| Index.Filter | src/pages/Index.tsx:98-108 | keeps the entries satisfying the predicate and no others |
| Index.FilterCounts | src/pages/Index.tsx:98-108 | each kept entry appears as often as in the input, duplicates included, and no other entry appears |
| Index.FilterIsSubsequence | src/pages/Index.tsx:98-108 | a filter keeps the input order |
| Index.FilterTwice | src/pages/Index.tsx:93-108 | filtering twice equals filtering once by the conjunction |
| Index.ApplyFilters | src/pages/Index.tsx:92-112 | identity with no query and no types; an order-preserving subsequence; an entry is kept exactly when it passes every active filter |
| Index.ApplyFiltersIsOneFilter | src/pages/Index.tsx:93-108 | the two-step chain equals one filter by all active predicates |
| Index.Without | src/pages/Index.tsx:124 | removes exactly that type |
| Index.Toggled | src/pages/Index.tsx:122-126 | the toggled type's membership flips, every other type's is kept, and an absent type is appended at the end |
| Index.ToggleTwiceRestores | src/pages/Index.tsx:123-125 | toggling an absent type twice restores the list |
| Index.CatalogView.constructor | src/pages/Index.tsx:20-30 | empty lists and filters; the grid agrees with them |
| Index.CatalogView.InitialBatchLoaded | src/pages/Index.tsx:47-49 | both lists become the batch, which agrees with the filters when none is active |
| Index.CatalogView.MoreLoaded | src/pages/Index.tsx:62-82 | the batch is appended; the grid is the whole list under the query and types of the click; query and types are kept; the grid agrees with them when they did not change during the load |
| Index.StaleLoadShowsExcluded | src/pages/Index.tsx:62-82 | a batch entry kept by the click-time filters is shown although a query typed during the load excludes it |
| Index.CatalogView.HandleSearch | src/pages/Index.tsx:115-118 | stores the query and shows the filtered list |
| Index.CatalogView.HandleTypeToggle | src/pages/Index.tsx:121-130 | toggles the type and shows the list under the new selection |
| Index.CatalogView.HandleClearFilters | src/pages/Index.tsx:133-136 | empties the selection and re-filters by the query alone |
| Index.ClearedShowsQueryMatches | src/pages/Index.tsx:133-136 | after clearing, an entry is shown exactly when it matches the query |
| PokemonDetail.FormatPokemonId | src/components/PokemonDetail.tsx:44-46 | `#`, zeros, then the id's decimal text; length `max(4, digits + 1)` |
| PokemonDetail.FormatPokemonIdReadsBack | src/components/PokemonDetail.tsx:44-46 | for ids ≥ 0 the badge has 4 characters exactly below 1000, none of them padding from 1000 on, and the digits after `#` read back as the id |
| PokemonDetail.FormatStatName | src/components/PokemonDetail.tsx:56-66 | unknown stat names are shown as they are |
| PokemonDetail.GetStatColor | src/components/PokemonDetail.tsx:68-78 | unknown stat names get the grey default |
| PokemonDetail.KnownStatColorsDistinct | src/components/PokemonDetail.tsx:68-78 | the six known stats have pairwise different colours, none of them the grey default |
| PokemonDetail.KnownStatLabelsDistinct | src/components/PokemonDetail.tsx:56-66 | the six known stats have pairwise different labels, none of them a stat name |
| PokemonDetail.TypeColor | src/components/PokemonDetail.tsx:85-87 | the class is `bg-type-` followed by the type |
| PokemonDetail.TypeColorInjective | src/components/PokemonCard.tsx:14-16 | different types get different classes |
| PokemonDetail.AbilityLabel | src/components/PokemonDetail.tsx:169 | only the first hyphen becomes a space; every other character is kept |
| PokemonDetail.AbilityLabelKeepsLaterHyphens | src/components/PokemonDetail.tsx:169 | `a-b-c` becomes `a b-c` |
| PokemonDetail.ImageSource | src/components/PokemonDetail.tsx:110 | the artwork when its URL is truthy, the default sprite otherwise |
| PokemonDetail.StatRows | src/components/PokemonDetail.tsx:179-194 | one row per stat, in order, with its label, value and colour |
| PokemonDetail.AbilityLabels | src/components/PokemonDetail.tsx:164-170 | one label per ability, in order |
| PokemonCard.CardBadge | src/components/PokemonCard.tsx:10-12 | starts with `#`, length `max(4, digits + 1)`, ends with the id's text |
| PokemonCard.TypeBadges | src/components/PokemonCard.tsx:49-56 | one class per type, in order, ending in the type |
| PokemonCard.CardImage | src/components/PokemonCard.tsx:27-33 | no image exactly when sprites are absent; otherwise the artwork if truthy, else the default sprite |
| Text.NatToString | src/components/game/GameStats.tsx:29 | canonical decimal digits with no leading zero; one digit exactly below 10 |
| Text.NatToStringRoundTrip | src/components/game/GameStats.tsx:29 | the digits read back as the number |
| Text.DecimalValueLeadingZeros | src/components/PokemonDetail.tsx:45 | pad zeros do not change a digit string's value |
| Text.IntToString | src/pages/Index.tsx:100 | a minus sign before the digits of the absolute value for negatives |
| Text.PadStart | src/components/PokemonDetail.tsx:45 | the length is the larger of the width and the text, the text is a suffix, the rest is the pad character |
| Text.ToLower | src/pages/Index.tsx:97-99 | same length, letter by letter lower-cased |
| Text.ReplaceAll | src/services/pokemonService.ts:117 | same length, every occurrence replaced, none left |
| Text.ReplaceFirst | src/components/PokemonDetail.tsx:169 | only the first occurrence is replaced |
| Text.Split | src/services/pokemonService.ts:133 | at least one part, none holding the separator |
| Text.SplitJoin | src/services/pokemonService.ts:133 | joining the parts with the separator gives back the string |
| Text.TrailingPiece | src/services/pokemonService.ts:133 | reference definition, not code at the line: the longest separator-free suffix |
| Text.SplitLastIsTrailingPiece | src/services/pokemonService.ts:133 | the last part of a split is the longest separator-free suffix |
| Text.ParseInt | src/components/game/SettingsPanel.tsx:31 | `parseInt(s, 10)`: after leading white space and one sign, NaN exactly when no digit follows; otherwise the value of the digit run, negated after `-` |
| Text.LeadingDigits | src/components/game/SettingsPanel.tsx:31 | the longest digit prefix |
| Text.UnsignedOfNat | src/components/game/SettingsPanel.tsx:31 | the digit run of a natural number's text reads back as that number |
| Text.ParseIntRoundTrip | src/components/game/SettingsPanel.tsx:31 | `parseInt` of any integer's decimal text is that integer |
| Text.NumberOf | src/components/game/NumberInput.tsx:36 | a number exactly for digit strings, 0 for the empty string |
| Text.NumberOfRoundTrip | src/components/game/NumberInput.tsx:36 | `Number` of a natural number's text is that number |

## Left out

- Network I/O is not modelled. This covers `getPokemonList`, `getPokemonDetails`, `getPokemonSpecies` and `getAllPokemonTypes`, the async loaders of the catalog page, and its offset parsing with `URL`. Only the state the loaders commit is modelled (`Index.CatalogView.InitialBatchLoaded` and `MoreLoaded`).
- `Math.random`, `Date.now`, `new Date().toISOString()` and `toLocaleDateString` are parameters.
- The score-history toggle (`showScoreboard`, src/pages/NumberGuessGame.tsx:89-119) is not a field of the model. Opening the history unmounts the game view, and its effect cleanup clears the interval. The round in progress is then abandoned: it produces no score record, and the model simply drops that `Round` object. Returning to the game is `GameContainer.Mount`, which builds a fresh round and restarts it when the page is active.
- Scheduling is not modelled: the interval, `clearInterval`, and the 500 ms shake reset. `GameContainer.TimerTick` is one tick, and a cleared interval is simply no longer ticked.
- The guess field's text (`userGuess`, src/components/game/GameContainer.tsx:36) is not modelled. The source clears it after an accepted guess (:134) and keeps it after a rejected one.
- Rendering, toasts, sound, the browser store behind `useLocalStorage`, keyboard and scroll handling, and the detail view's open and close handlers are not modelled.
- Floating-point display maths is not modelled: `getStatPercentage`, `formatHeight`, `formatWeight`, and the progress and range percentages.
- `Text.ToLower`: lower-cases ASCII letters only, not the full Unicode mapping of `toLowerCase`.
- `Text.ParseInt`: skips only ASCII white space. It does not model `0x` or exponent forms, because radix 10 is passed.
- `Text.NumberOf`: models `Number` only on digit strings, which is all the digit filter lets through. Any other text is NaN here, although JavaScript reads some of it, such as `" 7"` or `"1e3"`, as a number.
- Integers are unbounded. The source's numbers are doubles, whose precision limits are not modelled.
- `GameStats.FormatTime`: its contract states only that an undefined time gives `null`, modelled as `None`. Its content is proved for non-negative times by `FormatTimeReadsBack`.
- `GameStats.AttemptsLabel`: its contract states the ending and the `undefined` case. The leading number is proved only by `AttemptsLabelShowsCount`, and only for natural counts.
- `PokemonDetail.FormatStatName` and `PokemonDetail.GetStatColor` state the default case in their contracts. The known cases' properties are in `KnownStatColorsDistinct` and `KnownStatLabelsDistinct`.
- `PokemonDetail.ImageSource`: the detail view reads `sprites` without a guard. Any clicked entry opens it, and the `Pokemon` type declares `sprites` as required (src/services/pokemonService.ts:6), so the model takes the sprites as always present. An entry without them, which would make the view fail, is not modelled.
