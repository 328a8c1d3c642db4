# Flip 7 score keeper: ledger and calculator

A Dafny model of the two non-UI classes of the Flip 7 score keeper (`app.js`):

- **`GameState`**, the score ledger: an ordered list of players (id, trimmed
  name, running score, creation time), an append-only list of score entries
  (id, player id, a snapshot of the player's name, points, timestamp and the
  entry number `round`), and the counter `currentRound` that numbers the
  entries. It adds and removes players, records scores, shows the scoreboard
  (stable sort by descending score) and the history (newest first), and
  starts new games.
- **`Calculator`**, a four-function calculator with one pending operation:
  the display buffer `current`, the pending operand `previous`, the pending
  `operator` and the flag `shouldResetDisplay` that makes the next digit
  start a fresh operand. Keying an operator while an operation is pending
  evaluates it first, so entry chains left to right; division by zero shows
  the text `Error`.

Files:

- `score_ledger.dfy` — module `ScoreLedger`: the `Player` and `RoundEntry`
  datatypes, the class `GameState` with the fields of the source, the
  list operations it uses (`find`, `filter`, the stable `sort`, `reverse`) as
  functions with their lemmas, and the ledger invariant `Consistent()`:
  distinct ids, every score equal to the sum of the points of that player's
  entries, entries numbered 1, 2, ... in storage order and the counter equal
  to the number of entries. The constructor with nothing stored and
  `NewGame` establish it; `AddPlayer` (with an id no player or entry has),
  `RemovePlayer` and `AddScore` keep it, so it holds after any sequence of
  operations from an empty start in which no player id is reused
  (`Replay`).
- `calculator_engine.dfy` — module `CalculatorEngine`: the class
  `Calculator` with its four fields and the pure function `Evaluate` for the
  `switch` of `calculate`, plus key sequences worked through from a cleared
  calculator.
- `numerals.dfy` — module `Numerals`: how the calculator reads its text
  buffers (`parseFloat`) and writes results back (`toString`), over exact
  rationals, with the round trip for integers.
- `js_text.dfy` — module `JsText`: `String.prototype.trim` and its
  properties.
- `wrappers.dfy` — module `Wrappers`: the `Option` type for "a player or
  `false`".

Ids and timestamps, which the source takes from `Date.now()` and
`new Date().toISOString()`, are parameters of `AddPlayer` and `AddScore`.
The constructor of `GameState` takes what storage held (an absent key as
the empty list).

Behaviour of the code a reader might not expect:

- the entry number of a round entry is kept in the field `round`;
- `removePlayer` removes every player with the id, however many there are;
- the constructor reloads players and entries but always sets the counter to
  0, so after a reload with stored entries new entries reuse numbers 1, 2, ...
  and the ledger invariant does not hold (`GameState.constructor` states
  both directions);
- the behaviour after the error marker is fixed by the code: a digit
  replaces the marker (the reset flag is set), while an operator makes the
  marker the pending operand, which then reads as `NaN`
  (`DivideByZero`, `OperatorAfterError`);
- keying an operator twice evaluates the pending operation with the
  displayed operand (`RepeatedOperator`: `a + +` shows `a + a`).

## Model

| member | source | states |
|---|---|---|
| `JsText.Trim` | app.js:28-32 | the trimmed name is no longer than the name and neither starts nor ends with white space |
| `JsText.TrimSpec` | app.js:32 | `trim` returns the part of the name between a blank prefix and a blank suffix, and that part neither starts nor ends with white space, so nothing more could be cut |
| `JsText.TrimEmptyIffBlank` | app.js:28 | the trimmed name is empty exactly when the name is empty or all white space |
| `JsText.TrimIdempotent` | app.js:32 | a stored name is already trimmed: trimming it again changes nothing |
| `ScoreLedger.FirstWithId` | app.js:48 | `find` yields the first player with the id, or nothing exactly when no player has it |
| `ScoreLedger.WithoutId` | app.js:43 | the kept players are exactly those whose id differs |
| `ScoreLedger.WithoutIdAppend` | app.js:43 | filtering distributes over concatenation, so the kept players stay in their relative order |
| `ScoreLedger.WithoutAbsentId` | app.js:43 | removing an id no player has leaves the players unchanged |
| `ScoreLedger.WithoutIdKeepsDistinct` | app.js:43 | removal keeps the ids distinct |
| `ScoreLedger.PointsForAppend` | app.js:51-62 | a new entry adds its points to its own player's sum and to no other |
| `ScoreLedger.PointsForAbsent` | app.js:29-35 | a player without entries has a sum of 0, matching the initial score |
| `ScoreLedger.InsertByScorePermutes` | app.js:70 | one insertion step adds exactly the inserted player |
| `ScoreLedger.InsertByScoreSorted` | app.js:70 | one insertion step keeps the descending order |
| `ScoreLedger.InsertByScoreStable` | app.js:70 | the inserted player goes before the players of equal score already placed |
| `ScoreLedger.SortByScore` | app.js:70 | the sort returns a permutation of the players with non-increasing scores |
| `ScoreLedger.SortByScoreStable` | app.js:70 | the sort is stable: for every score the players with it come out in input order |
| `ScoreLedger.Reversed` | app.js:74 | reversing keeps the length |
| `ScoreLedger.ReversedIndex` | app.js:74 | the k-th entry of the view is the k-th from the end of the store |
| `ScoreLedger.ReversedTwice` | app.js:74 | the newest-first view loses nothing: reversing it again gives the storage order |
| `ScoreLedger.GameState.constructor` | app.js:3-7 | players and entries come from storage and the counter is 0; the invariant holds when nothing was stored with zero scores and distinct ids, and fails whenever entries were stored |
| `ScoreLedger.GameState.AddPlayer` | app.js:27-39 | a blank name is rejected with nothing changed; otherwise exactly one player with the trimmed name and score 0 is appended and earlier players, entries and counter are unchanged; the invariant is kept for a fresh id |
| `ScoreLedger.GameState.RemovePlayer` | app.js:42-45 | the players become those whose id differs, in order; entries and counter are untouched; the invariant is kept |
| `ScoreLedger.GameState.AddScore` | app.js:47-66 | an unknown id is rejected with nothing changed; otherwise the first matching player's score grows by the points, the counter by 1, and one entry with the id, the name snapshot, the points and the new counter is appended; other players and earlier entries are unchanged; the invariant is kept |
| `ScoreLedger.GameState.GetScoreboard` | app.js:69-71 | a permutation of the players, by non-increasing score, ties in insertion order |
| `ScoreLedger.GameState.GetRounds` | app.js:73-75 | exactly the entries in reverse storage order |
| `ScoreLedger.GameState.NewGame` | app.js:77-83 | no players, no entries, counter 0, and the invariant holds |
| `ScoreLedger.Replay` | app.js:27-83 | from an empty ledger, after any sequence of `addPlayer`, `removePlayer`, `addScore` and `newGame` calls in which no player id is reused, every score equals the sum of that player's entries, entries are numbered 1..n in storage order and the counter equals n |
| `Numerals.ToText` | app.js:131-142 | the text of a result is never empty and is `NaN` or starts with a minus sign or a digit |
| `Numerals.Parse` | app.js:128-129 | an operand that starts with a digit reads as a non-negative number; one that is empty or starts with anything other than a digit, a sign or a point reads as `NaN` |
| `Numerals.ParseUnsigned` | app.js:128-129 | an unsigned operand reads as a non-negative number or `NaN`; a leading digit gives a number, an empty text or one starting with neither a digit nor a point gives `NaN` |
| `Numerals.ParseIntText` | app.js:128-129 | the text of an integer reads back as that integer |
| `Numerals.ToTextOfInt` | app.js:131-142 | an integral result is written as its integer text |
| `Numerals.IntRoundTrip` | app.js:119-129 | an integral result copied into the pending operand reads back unchanged |
| `CalculatorEngine.Evaluate` | app.js:131-143 | the new display is non-empty when the old one was |
| `CalculatorEngine.Combine` | app.js:133-142 | the arithmetic of the four operators yields `NaN` exactly when an operand is `NaN`, and a quotient times the divisor gives back the dividend |
| `CalculatorEngine.EvaluateErrorIffDivisionByZero` | app.js:141-142 | for the four operators the display becomes `Error` exactly when dividing by an operand that reads as zero |
| `CalculatorEngine.EvaluateIntegers` | app.js:131-139 | `+`, `-` and `*` on integer operands show the exact integer result |
| `CalculatorEngine.EvaluateExactDivision` | app.js:141-142 | an exact integer quotient is shown as that integer |
| `CalculatorEngine.Calculator.constructor` | app.js:88-93 | the initial state: `"0"`, no pending operand or operator, flag clear |
| `CalculatorEngine.Calculator.Clear` | app.js:95-100 | restores the initial state |
| `CalculatorEngine.Calculator.AppendNumber` | app.js:102-113 | the token replaces the display when the flag is set or the display is `"0"`, is appended otherwise; the flag is cleared and nothing else changes |
| `CalculatorEngine.Calculator.Pending` | app.js:126 | an operation is pending (the test `calculate` makes, and `setOperator` at app.js:116) exactly when an operator is set, for a well-formed calculator |
| `CalculatorEngine.Calculator.SetOperator` | app.js:115-123 | a pending operation is evaluated first; then the (new) display becomes the pending operand of the new operator and the flag is set |
| `CalculatorEngine.Calculator.Calculate` | app.js:125-149 | nothing changes unless an operation is pending; otherwise the display shows its result, operator and pending operand are cleared and the flag is set |
| `CalculatorEngine.Calculator.GetResult` | app.js:151-153 | the display is never empty for a well-formed calculator |
| `CalculatorEngine.AddFiveAndThree` | app.js:102-149 | `5 + 3 =` shows `8` |
| `CalculatorEngine.ChainedEntry` | app.js:115-123 | `a op1 b op2 c =` shows `(a op1 b) op2 c`: entry is evaluated left to right |
| `CalculatorEngine.ThreePlusFourPlusFive` | app.js:115-149 | `3 + 4 + 5 =` shows `12` |
| `CalculatorEngine.DivideByZero` | app.js:95-149 | `9 / 0 =` shows `Error`, a digit keyed next replaces it, and `clear` shows `0` again |
| `CalculatorEngine.OperatorAfterError` | app.js:115-149 | an operator keyed after `Error` carries it on: `9 / 0 = + 1 =` shows `NaN` |
| `CalculatorEngine.RepeatedOperator` | app.js:115-123 | an operator keyed twice evaluates with the displayed operand: `a + +` shows `a + a` |

## Left out

- Storage (`loadFromStorage`, `saveToStorage`, app.js:9-25): browser `localStorage` and JSON; the constructor takes the loaded lists as parameters, and writes, whose failures the source only logs, are not modelled.
- Clock calls (`Date.now()`, `new Date().toISOString()`): ids and timestamps are parameters. The source's clock ids are fresh in practice; the model states the ledger invariant for an `AddPlayer` id that no player and no entry carries.
- Non-string names: `!name` also rejects `null` and `undefined`; names here are strings.
- ScoreLedger.GameState.AddScore: points and scores are unbounded integers; in the source they are JavaScript numbers (`player.score += points`, app.js:51, after `parseInt` at app.js:253), whose sums are exact only below 2^53.
- ScoreLedger.GameState.AddPlayer: players are value records, so the player `AddPlayer` returns and the entries of `GetScoreboard`'s copy are snapshots; in the source they are the same objects that `addScore` later updates in place (app.js:39, 51, 70), so a holder of either sees later score changes.
- Numerals.ToText: writes exact rationals with at most 16 fraction digits, truncated, instead of the shortest text of an IEEE double; exponent notation, `Infinity` and double rounding are not modelled.
- Numerals.Parse: reads an optional sign, digits, a point and digits; the leading white space, exponents and `Infinity` that `parseFloat` also accepts are not modelled. `AppendNumber` accepts any token, so this matches `parseFloat` as long as the keys append only digits and the decimal point.
- CalculatorEngine.ChainedEntry: keys in each operand as one numeral token rather than digit by digit, and covers `+`, `-` and `*` only (division is covered by `EvaluateExactDivision` and `DivideByZero`).
- `UIManager` (app.js:157-399), including `useCalcResult`'s `Math.round(parseFloat(...))`, form validation, rendering and `confirm` dialogs: presentation layer.
- The install prompt, service-worker registration and the global `app` object (app.js:401-428): browser plumbing.
