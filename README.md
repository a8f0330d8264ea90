# Mastermind game engine, modelled in Dafny

This project models the `Mastermind` class of a small C# console game. A game holds
a secret solution of four numbers from 1 to 6 and allows ten guesses. Each guess
is typed as a four-character string. The class parses the string into four digits
and scores them against the solution. It returns whether the guess wins, plus a
hint of `+` (right digit, right place) and `-` (right digit, wrong place) symbols.
It then updates the number of guesses remaining and the completion flag.

Modules, one per concern of the class:

- `Outcomes`: the failure modes (`InvalidArgument` for `ArgumentException`,
  `InvalidOperation` for `InvalidOperationException`) and the `Option`/`Result`
  wrappers that carry them in place of exceptions.
- `Parsing`: `int.TryParse` over digit strings, `checkDigits` and
  `ConvertInputToGuessArray`, written as functions. C#'s truncating division is
  written out as `Quot`.
- `Scoring`: the per-position exact and partial match rules and their counts.
  The counting loop of `Guess` is the method `CountMatches`; it keeps the
  `checkedNumbers` list as a sequence. The two hint-building loops are the method
  `BuildHint`. `Evaluate` is the pure result of scoring one guess.
- `Lifecycle`: the turn state (`GuessesRemaining`, `IsComplete`) as a value. It
  has the one-turn update `Advance` and the multi-turn `Run`, with the lifecycle
  properties proved about them.
- `Game`: the class `Mastermind`, with a `const solution` and mutable
  `guessesRemaining` and `isComplete` fields. A Dafny constructor cannot fail, so
  the validating constructor is split in two. `Create` runs the validation loop
  `ValidateSolution` and returns `InvalidArgument` on a bad solution. Otherwise it
  calls the constructor, which assumes the solution is valid. `Guess` calls the
  two loop methods and updates the fields in place.
- `Scenarios`: the expectations of the project's unit tests, restated about the
  model, plus a client of the class that plays through a game.

Three behaviours of the code are worth spelling out, because the code's own
messages and tests suggest something else:

- **Partial matches are counted per digit value, not per solution position.** A
  non-exact position earns a partial match when its digit occurs anywhere in the
  solution, including at positions already matched exactly, and has not appeared
  earlier in the guess (Mastermind/Mastermind.cs:62-67). So `[2, 5, 1, 1]`
  scored against `1111` gives `++-` (`Scenarios.HintTwoExactAtRight`). The unit
  test at `Mastermind.Tests/MastermindTests.cs:178` expects `++` there, and the
  comment at line 15 of that file doubts the hint format.
  - What still holds: each digit value earns at most one partial, and only when
    it occurs in both guess and solution (`Scoring.PartialDigitsDistinct`,
    `Scoring.PartialCountBound`). Hence the partial count is at most the sum over
    digits d of min(count of d in the guess, count of d in the solution).
  - What fails, with the same example: the bound taken outside exact-match
    positions. The non-exact positions hold 1, 1 in the guess and 2, 5 in the
    solution, so that sum is 0, yet one partial is credited. The bound on
    exact plus partial also fails: 2 + 1 = 3, while the sum of min counts over
    the whole sequences is min(4, 2) = 2.
- **A win does not use up a guess.** At Mastermind/Mastermind.cs:77 the `||`
  short-circuits, so `GuessesRemaining` is decremented only when the guess does
  not win (`Lifecycle.AdvanceSteps`).
- **A digit of 0 is accepted.** The error message at Mastermind/Mastermind.cs:18
  asks for "four digits from 1 to 6", but `checkDigits` checks only the upper
  bound 6 (`Scenarios.ZeroDigitAccepted`).

## Model

| member | source | states |
|---|---|---|
| `Game.ValidateSolution` | Mastermind/Mastermind.cs:28-40 | returns true exactly when the solution has length 4 and every number is in 1..6 |
| `Game.Mastermind.Create` | Mastermind/Mastermind.cs:22-41 | fails with InvalidArgument, creating no game, exactly when the solution is invalid; otherwise returns a fresh game holding the solution with 10 guesses left and not complete |
| `Game.Mastermind.constructor` | Mastermind/Mastermind.cs:22-26 | for a valid solution: stores it, 10 guesses remaining, not complete, invariant established |
| `Game.Mastermind.Guess` | Mastermind/Mastermind.cs:48-81 | on a complete game fails with InvalidOperation whatever the input, and changes nothing; otherwise returns the parse error or the scoring of the parsed guess; the state changes only on success, by one `Advance` turn; the invariant is kept |
| `Parsing.CheckDigits` | Mastermind/Mastermind.cs:97-119 | on success returns four numbers, each at most 6, with d0*1000+d1*100+d2*10+d3 equal to the input value; every failure is InvalidArgument |
| `Parsing.CheckDigitsOfDigits` | Mastermind/Mastermind.cs:97-118 | on the value of four decimal digits, returns exactly those digits, and rejects exactly when one of them is 7 or more |
| `Parsing.ConvertInputToGuessArray` | Mastermind/Mastermind.cs:88-95 | rejects every input that is not four characters long or not all digits; on success gives four numbers in 0..6; every failure is InvalidArgument |
| `Parsing.DecimalValueOfFour` | Mastermind/Mastermind.cs:90 | the parsed value of a four-digit string is d0*1000+d1*100+d2*10+d3 |
| `Parsing.ConvertInputRoundTrip` | Mastermind/Mastermind.cs:88-119 | a four-digit string is accepted exactly when no digit is 7 or more, and is then turned into its own digits in order |
| `Scoring.CountMatches` | Mastermind/Mastermind.cs:55-68 | the one-pass loop, with `checkedNumbers`, returns the number of exact positions and the number of partial positions (not exact, digit in the solution, digit not at an earlier guess position) |
| `Scoring.HintOf` | Mastermind/Mastermind.cs:72-75 | the hint has correct+partialCorrect symbols, `+` at the first `correct` positions and `-` at the rest |
| `Scoring.BuildHint` | Mastermind/Mastermind.cs:72-75 | the two count-down loops build exactly `HintOf(correct, partialCorrect)` |
| `Scoring.HintDecodes` | Mastermind/Mastermind.cs:72-75 | the hint can be read back: it contains exactly `correct` plus signs and `partialCorrect` minus signs |
| `Scoring.ExactCountFull` | Mastermind/Mastermind.cs:60-70 | the exact count over n positions is at most n, and equals n exactly when guess and solution agree on those positions |
| `Scoring.CountsBounded` | Mastermind/Mastermind.cs:60-68 | each position earns at most one credit: exact plus partial count is at most the number of positions |
| `Scoring.PartialDigitsDistinct` | Mastermind/Mastermind.cs:64-67 | two positions that both earn a partial match hold different digits, so a repeated guess digit never earns a second partial |
| `Scoring.PartialCountBound` | Mastermind/Mastermind.cs:64-67 | the partial count is at most the number of distinct guessed digits that occur in the solution |
| `Scoring.WinIffEqual` | Mastermind/Mastermind.cs:60-75 | the result is true exactly when the guess equals the solution element-wise, and the winning hint is `++++` |
| `Scoring.EvaluateHint` | Mastermind/Mastermind.cs:60-75 | the hint has at most 4 symbols, and its `+` and `-` counts are the exact and partial counts |
| `Parsing.TryParse` | Mastermind/Mastermind.cs:90 | int.TryParse on digit strings: the empty string and any non-digit character fail; a success is a value in 0..Int32.MaxValue |
| `Parsing.Quot` | Mastermind/Mastermind.cs:104-114 | C#'s truncating `/` by a positive divisor: the remainder is smaller than the divisor in magnitude and has the sign of the dividend |
| `Scoring.IsExact` | Mastermind/Mastermind.cs:62-63 | definition, no contract: the guess has the solution's digit at that position |
| `Scoring.IsPartial` | Mastermind/Mastermind.cs:64-65 | definition, no contract: not exact, digit occurs in the solution, digit not at an earlier guess position |
| `Scoring.Evaluate` | Mastermind/Mastermind.cs:60-75 | definition, no contract: result is exact count == 4, hint is `HintOf(exact, partial)`; its properties are `Scoring.WinIffEqual` and `Scoring.EvaluateHint` |
| `Game.ScoreInput` | Mastermind/Mastermind.cs:53-80 | what `Guess` returns on a running game; every failure is InvalidArgument, and every input not of four digit characters fails |
| `Lifecycle.Run` | Mastermind/Mastermind.cs:50-78 | definition, no contract: repeated `Guess` calls, each scored one applying `Advance` and each one on a complete game changing nothing |
| `Scenarios.LifecycleClient` | Mastermind.Tests/MastermindTests.cs:83-138 | definition, no contract: a miss leaves 9 guesses, malformed input changes nothing, the winning guess completes the game, and a later guess fails with InvalidOperation |
| `Lifecycle.Advance` | Mastermind/Mastermind.cs:77-78 | the end-of-turn update keeps the invariant 0 <= GuessesRemaining <= 10 and not complete implies at least one guess left |
| `Lifecycle.AdvanceSteps` | Mastermind/Mastermind.cs:77-78 | unfolds the definition of `Advance`: a win completes the game with the count unchanged; a miss takes exactly one guess and completes the game exactly when none are left |
| `Lifecycle.RunKeepsComplete` | Mastermind/Mastermind.cs:50-51 | any sequence of guesses keeps the invariant, never raises the count, and leaves a complete game unchanged, so completion is permanent |
| `Lifecycle.EvaluatedBound` | Mastermind/Mastermind.cs:50-78 | a game scores no more guesses than it has left, so a new game scores at most ten |
| `Lifecycle.RunMisses` | Mastermind/Mastermind.cs:77-78 | from g guesses left, k <= g misses leave g-k, complete exactly when g-k is 0 |
| `Lifecycle.TenMisses` | Mastermind.Tests/MastermindTests.cs:108-127 | a new game is still running after nine misses, with one guess left, and is complete with none left after the tenth |
| `Lifecycle.WinEndsGame` | Mastermind/Mastermind.cs:77-78 | a winning guess completes a running game at once, and later guesses change nothing |
| `Scenarios.SolutionStringWins` | Mastermind.Tests/MastermindTests.cs:69-80 | for every valid solution, typing its digits wins with hint `++++` |
| `Scenarios.MalformedInputs` | Mastermind.Tests/MastermindTests.cs:28-63 | non-numeric, too long, too short and digit-8 inputs are all rejected with InvalidArgument |
| `Scenarios.ZeroDigitAccepted` | Mastermind/Mastermind.cs:97-118 | `0123` is accepted as the guess [0, 1, 2, 3] |
| `Scenarios.HintOneExact` | Mastermind.Tests/MastermindTests.cs:172 | [1,2,3,4] against 1556 gives `+` |
| `Scenarios.HintTwoExactAtLeft` | Mastermind.Tests/MastermindTests.cs:175 | [1,2,3,4] against 1256 gives `++` |
| `Scenarios.HintTwoExactAtRight` | Mastermind/Mastermind.cs:60-68 | [2,5,1,1] against 1111 gives `++-`, not the `++` that the test at Mastermind.Tests/MastermindTests.cs:178 expects |
| `Scenarios.HintThreeExact` | Mastermind.Tests/MastermindTests.cs:181 | [1,2,3,4] against 1236 gives `+++` |
| `Scenarios.HintAllExact` | Mastermind.Tests/MastermindTests.cs:184 | [1,2,3,4] against 1234 wins with `++++` |
| `Scenarios.HintOnePartial` | Mastermind.Tests/MastermindTests.cs:187 | [1,2,3,4] against 5516 gives `-` |
| `Scenarios.HintRepeatedPartial` | Mastermind.Tests/MastermindTests.cs:190 | [1,2,3,4] against 5111 gives `-` |
| `Scenarios.HintRepeatedWithOneExact` | Mastermind.Tests/MastermindTests.cs:193 | [1,3,2,6] against 1111 gives `+` |
| `Scenarios.HintTwoPartial` | Mastermind.Tests/MastermindTests.cs:196 | [1,2,3,4] against 5512 gives `--` |
| `Scenarios.HintThreePartial` | Mastermind.Tests/MastermindTests.cs:199 | [1,2,3,4] against 5312 gives `---` |
| `Scenarios.HintFourPartial` | Mastermind.Tests/MastermindTests.cs:202 | [1,2,3,4] against 4312 gives `----` |
| `Scenarios.HintRepeatedSolutionDigit` | Mastermind.Tests/MastermindTests.cs:205 | [1,1,2,3] against 4415 gives `-` |
| `Scenarios.HintExactDigitReused` | Mastermind/Mastermind.cs:62-65 | [1,2,3,4] against 2256 gives `+-`: a digit matched exactly elsewhere still earns a partial |

## Left out

- Mastermind/Program.cs is not part of this model. Its `Main` is a console read and print loop with a catch-all, which is pure I/O. Its `GenerateSolution` uses `System.Random`; only its output range 1..6 matters, and `Create` already enforces that range.
- `int.TryParse` is modelled only on strings of ASCII digits, bounded by `Int32.MaxValue`. Culture rules, surrounding whitespace and `+`/`-` signs are not modelled. Inputs such as `" 123"` or `"-123"` pass the length check in the real code; the model rejects them.
- Parsing.CheckDigits: uses unbounded integers. `value - 6000` would wrap in 32-bit arithmetic only for values near `Int32.MinValue`, which a four-character input cannot produce.
- The constructor keeps a reference to the caller's array, so a later change to that array would change the solution. The model holds the solution as an immutable sequence.
- The exact .NET exception types and messages are replaced by the `Error` variants.
- Concurrent calls on one game are not modelled; the class is single-threaded.
