/** A single game of Mastermind (Mastermind/Mastermind.cs, class Mastermind):
    a fixed solution of four digits from 1 to 6, a budget of ten guesses and a
    completion flag. */
module Game {
  import opened Outcomes
  import opened Parsing
  import opened Scoring
  import opened Lifecycle

  /** A solution the constructor accepts: exactly four numbers, each from 1
      to 6. */
  predicate ValidSolution(solution: seq<int>) {
    |solution| == 4 && forall k :: 0 <= k < |solution| ==> 1 <= solution[k] <= 6
  }

  /** validateSolution: the length check, then a scan that stops at the first
      number outside 1..6. */
  method ValidateSolution(solution: seq<int>) returns (ok: bool)
    ensures ok <==> ValidSolution(solution)
  {
    if |solution| != 4 {
      return false;
    }
    for i := 0 to |solution|
      invariant forall k :: 0 <= k < i ==> 1 <= solution[k] <= 6
    {
      if solution[i] < 1 || solution[i] > 6 {
        return false;
      }
    }
    return true;
  }

  /** What Guess returns for an input when the game is still running: the
      parse error, or the scoring of the parsed guess against the solution. */
  function ScoreInput(solution: seq<int>, input: string): (r: Result<Evaluation>)
    requires |solution| == 4
    ensures r.Failure? ==> r.error == InvalidArgument
    ensures |input| != 4 || !AllDigits(input) ==> r.Failure?
  {
    match ConvertInputToGuessArray(input)
    case Failure(e) => Failure(e)
    case Success(guess) => Success(Evaluate(solution, guess))
  }

  class Mastermind {
    const solution: seq<int>
    var guessesRemaining: int
    var isComplete: bool

    /** The turn state, as a value. */
    function State(): Status
      reads this
    {
      Status(guessesRemaining, isComplete)
    }

    ghost predicate Valid()
      reads this
    {
      ValidSolution(solution) && State().Valid()
    }

    /** The constructor once validation has passed: ten guesses, not complete. */
    constructor (solution: seq<int>)
      requires ValidSolution(solution)
      ensures Valid()
      ensures this.solution == solution && State() == Initial
    {
      this.solution := solution;
      guessesRemaining := MaxGuesses;
      isComplete := false;
    }

    /** new Mastermind(solution): validates first, and fails with
        InvalidArgument (no game is created) unless the solution is four
        numbers from 1 to 6. */
    static method Create(solution: seq<int>) returns (r: Result<Mastermind>)
      ensures r.Failure? <==> !ValidSolution(solution)
      ensures r.Failure? ==> r.error == InvalidArgument
      ensures r.Success? ==> fresh(r.value) && r.value.Valid()
      ensures r.Success? ==> r.value.solution == solution && r.value.State() == Initial
    {
      var ok := ValidateSolution(solution);
      if !ok {
        return Failure(InvalidArgument);
      }
      var game := new Mastermind(solution);
      return Success(game);
    }

    /** Scores one guess. A finished game refuses with InvalidOperation before
        looking at the input; malformed input fails with InvalidArgument; in
        both cases the state is unchanged. Otherwise the result is the
        scoring of the parsed guess and the state advances by one turn. */
    method Guess(input: string) returns (r: Result<Evaluation>)
      requires Valid()
      modifies this
      ensures Valid()
      ensures old(isComplete) ==> r == Failure(InvalidOperation)
      ensures !old(isComplete) ==> r == ScoreInput(solution, input)
      ensures State() == if r.Success? then Advance(old(State()), r.value.result) else old(State())
    {
      if isComplete {
        return Failure(InvalidOperation);
      }
      var parsed := ConvertInputToGuessArray(input);
      if parsed.Failure? {
        return Failure(parsed.error);
      }
      var guess := parsed.value;
      var correct, partialCorrect := CountMatches(solution, guess);
      var result := correct == 4;
      var hint := BuildHint(correct, partialCorrect);
      if result {
        isComplete := true;
      } else {
        guessesRemaining := guessesRemaining - 1;
        if guessesRemaining == 0 {
          isComplete := true;
        }
      }
      return Success(Evaluation(result, hint));
    }
  }
}
