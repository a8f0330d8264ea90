/** The expectations of Mastermind.Tests/MastermindTests.cs, stated about
    the model. */
module Scenarios {
  import opened Outcomes
  import opened Parsing
  import opened Scoring
  import opened Game

  /** The solution's digits written as the string a player types. */
  function DigitString(solution: seq<int>): (s: string)
    requires ValidSolution(solution)
    ensures |s| == 4 && AllDigits(s) && DigitsOf(s) == solution
  {
    seq(4, k requires 0 <= k < 4 => ('0' as int + solution[k]) as char)
  }

  /** Typing the solution itself always wins, for every valid solution. */
  lemma SolutionStringWins(solution: seq<int>)
    requires ValidSolution(solution)
    ensures ScoreInput(solution, DigitString(solution)) == Success(Evaluation(true, "++++"))
  {
    var s := DigitString(solution);
    ConvertInputRoundTrip(s);
    WinIffEqual(solution, solution);
  }

  /** Malformed inputs are rejected before any scoring. */
  lemma MalformedInputs()
    ensures ConvertInputToGuessArray("some string") == Failure(InvalidArgument)
    ensures ConvertInputToGuessArray("124d") == Failure(InvalidArgument)
    ensures ConvertInputToGuessArray(" a22") == Failure(InvalidArgument)
    ensures ConvertInputToGuessArray("1238") == Failure(InvalidArgument)
    ensures ConvertInputToGuessArray("12345") == Failure(InvalidArgument)
    ensures ConvertInputToGuessArray("123") == Failure(InvalidArgument)
  {
    assert !IsDigitChar("124d"[3]);
    assert !IsDigitChar(" a22"[0]);
    ConvertInputRoundTrip("1238");
    assert DigitsOf("1238")[3] == 8;
  }

  /** A zero digit is not rejected: "0123" is the guess [0, 1, 2, 3]. */
  lemma ZeroDigitAccepted()
    ensures ConvertInputToGuessArray("0123") == Success([0, 1, 2, 3])
  {
    ConvertInputRoundTrip("0123");
    assert DigitsOf("0123") == [0, 1, 2, 3];
  }

  /** 1556: one digit in place. */
  lemma HintOneExact()
    ensures Evaluate([1, 2, 3, 4], [1, 5, 5, 6]) == Evaluation(false, "+")
  {
  }

  /** 1256: two digits in place. */
  lemma HintTwoExactAtLeft()
    ensures Evaluate([1, 2, 3, 4], [1, 2, 5, 6]) == Evaluation(false, "++")
  {
  }

  /** 1111 against [2, 5, 1, 1]: the two 1s in place count as exact, and the
      first 1, not in place but present in the solution, earns a partial
      match, so the hint is "++-" rather than the "++" the test file expects. */
  lemma HintTwoExactAtRight()
    ensures Evaluate([2, 5, 1, 1], [1, 1, 1, 1]) == Evaluation(false, "++-")
  {
  }

  /** 1236: three digits in place. */
  lemma HintThreeExact()
    ensures Evaluate([1, 2, 3, 4], [1, 2, 3, 6]) == Evaluation(false, "+++")
  {
  }

  /** 1234: the solution itself wins. */
  lemma HintAllExact()
    ensures Evaluate([1, 2, 3, 4], [1, 2, 3, 4]) == Evaluation(true, "++++")
  {
  }

  /** 5516: one digit out of place. */
  lemma HintOnePartial()
    ensures Evaluate([1, 2, 3, 4], [5, 5, 1, 6]) == Evaluation(false, "-")
  {
  }

  /** 5111: a repeated digit out of place earns one partial match only. */
  lemma HintRepeatedPartial()
    ensures Evaluate([1, 2, 3, 4], [5, 1, 1, 1]) == Evaluation(false, "-")
  {
  }

  /** 1111 against [1, 3, 2, 6]: the later 1s are repeats and earn nothing. */
  lemma HintRepeatedWithOneExact()
    ensures Evaluate([1, 3, 2, 6], [1, 1, 1, 1]) == Evaluation(false, "+")
  {
  }

  /** 5512: two digits out of place. */
  lemma HintTwoPartial()
    ensures Evaluate([1, 2, 3, 4], [5, 5, 1, 2]) == Evaluation(false, "--")
  {
  }

  /** 5312: three digits out of place. */
  lemma HintThreePartial()
    ensures Evaluate([1, 2, 3, 4], [5, 3, 1, 2]) == Evaluation(false, "---")
  {
  }

  /** 4312: all four digits out of place. */
  lemma HintFourPartial()
    ensures Evaluate([1, 2, 3, 4], [4, 3, 1, 2]) == Evaluation(false, "----")
  {
  }

  /** 4415 against [1, 1, 2, 3]: one partial match for the repeated 1. */
  lemma HintRepeatedSolutionDigit()
    ensures Evaluate([1, 1, 2, 3], [4, 4, 1, 5]) == Evaluation(false, "-")
  {
  }

  /** 2256: the 2 at position 0 earns a partial match even though the solution's
      only 2 is matched exactly at position 1. */
  lemma HintExactDigitReused()
    ensures Evaluate([1, 2, 3, 4], [2, 2, 5, 6]) == Evaluation(false, "+-")
  {
  }

  /** A client of the class, following the lifecycle tests: a miss costs one
      guess, a win ends the game, and a finished game refuses further guesses
      even when they are malformed. */
  method LifecycleClient()
  {
    var created := Mastermind.Create([1, 2, 3, 4]);
    assert ValidSolution([1, 2, 3, 4]);
    var game := created.value;

    ConvertInputRoundTrip("1231");
    assert DigitsOf("1231") == [1, 2, 3, 1];
    WinIffEqual([1, 2, 3, 4], [1, 2, 3, 1]);
    var r := game.Guess("1231");
    assert r.Success? && !r.value.result;
    assert game.guessesRemaining == 9 && !game.isComplete;

    r := game.Guess("12345");
    assert r == Failure(InvalidArgument);
    assert game.guessesRemaining == 9 && !game.isComplete;

    ConvertInputRoundTrip("1234");
    assert DigitsOf("1234") == [1, 2, 3, 4];
    WinIffEqual([1, 2, 3, 4], [1, 2, 3, 4]);
    r := game.Guess("1234");
    assert r == Success(Evaluation(true, "++++"));
    assert game.guessesRemaining == 9 && game.isComplete;

    r := game.Guess("some string");
    assert r == Failure(InvalidOperation);
  }
}
