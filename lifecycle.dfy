/** The turn state of a game (Mastermind/Mastermind.cs, the properties
    GuessesRemaining and IsComplete and the update at the end of Guess). */
module Lifecycle {

  /** Number of guesses a new game allows. */
  const MaxGuesses: int := 10

  datatype Status = Status(guessesRemaining: int, isComplete: bool) {
    /** The invariant every reachable state keeps. */
    predicate Valid() {
      0 <= guessesRemaining <= MaxGuesses && (!isComplete ==> guessesRemaining >= 1)
    }
  }

  /** The state of a freshly constructed game. */
  const Initial: Status := Status(MaxGuesses, false)

  /** The update after a guess has been scored: a win completes the game
      without using up a guess (the || short-circuits); any other guess uses
      one up and completes the game when none are left. */
  function Advance(st: Status, won: bool): (r: Status)
    requires st.Valid() && !st.isComplete
    ensures r.Valid()
  {
    if won then Status(st.guessesRemaining, true)
    else
      var remaining := st.guessesRemaining - 1;
      Status(remaining, remaining == 0)
  }

  /** A sequence of scored guesses (true for a win), each offered to the game
      in turn; once the game is complete Guess is refused and nothing changes. */
  function Run(st: Status, wins: seq<bool>): Status
    requires st.Valid()
    decreases |wins|
  {
    if wins == [] then st
    else if st.isComplete then Run(st, wins[1..])
    else Run(Advance(st, wins[0]), wins[1..])
  }

  /** How many of those guesses the game actually scores. */
  function Evaluated(st: Status, wins: seq<bool>): nat
    requires st.Valid()
    decreases |wins|
  {
    if wins == [] || st.isComplete then 0
    else 1 + Evaluated(Advance(st, wins[0]), wins[1..])
  }

  /** k guesses that do not win. */
  function Misses(k: nat): (ws: seq<bool>)
  {
    if k == 0 then [] else [false] + Misses(k - 1)
  }

  // ---------------------------------------------------------------------
  // Properties of the lifecycle
  // ---------------------------------------------------------------------

  /** The turn rule, read off the definition of Advance: a win completes the
      game and leaves the count alone, and a miss takes exactly one guess and
      completes the game exactly when none are left. */
  lemma AdvanceSteps(st: Status, won: bool)
    requires st.Valid() && !st.isComplete
    ensures won ==> Advance(st, won) == Status(st.guessesRemaining, true)
    ensures !won ==> Advance(st, won).guessesRemaining == st.guessesRemaining - 1
    ensures !won ==> (Advance(st, won).isComplete <==> Advance(st, won).guessesRemaining == 0)
  {
  }

  /** Completion is permanent: any further guesses leave a complete game as
      it is. Runs keep the invariant and never un-complete a game. */
  lemma {:induction false} RunKeepsComplete(st: Status, wins: seq<bool>)
    requires st.Valid()
    ensures Run(st, wins).Valid()
    ensures st.isComplete ==> Run(st, wins) == st
    ensures Run(st, wins).guessesRemaining <= st.guessesRemaining
    decreases |wins|
  {
    if wins != [] {
      if st.isComplete {
        RunKeepsComplete(st, wins[1..]);
      } else {
        RunKeepsComplete(Advance(st, wins[0]), wins[1..]);
      }
    }
  }

  /** A game scores no more guesses than it has remaining; a new game scores
      at most ten. */
  lemma {:induction false} EvaluatedBound(st: Status, wins: seq<bool>)
    requires st.Valid()
    ensures Evaluated(st, wins) <= if st.isComplete then 0 else st.guessesRemaining
    decreases |wins|
  {
    if wins != [] && !st.isComplete {
      EvaluatedBound(Advance(st, wins[0]), wins[1..]);
    }
  }

  /** From an incomplete state with g guesses left, k misses (k <= g) leave
      g - k guesses, and the game is complete exactly when none are left. */
  lemma {:induction false} RunMisses(st: Status, k: nat)
    requires st.Valid() && !st.isComplete && k <= st.guessesRemaining
    ensures Run(st, Misses(k)) == Status(st.guessesRemaining - k, st.guessesRemaining - k == 0)
    decreases k
  {
    if k > 0 {
      var next := Advance(st, false);
      if k > 1 {
        RunMisses(next, k - 1);
      }
    }
  }

  /** A new game survives nine misses and is over after the tenth. */
  lemma TenMisses()
    ensures Run(Initial, Misses(9)) == Status(1, false)
    ensures Run(Initial, Misses(10)) == Status(0, true)
  {
  }

  /** A winning guess ends an incomplete game at once, whatever follows. */
  lemma WinEndsGame(st: Status, rest: seq<bool>)
    requires st.Valid() && !st.isComplete
    ensures Run(st, [true] + rest) == Status(st.guessesRemaining, true)
  {
    assert ([true] + rest)[1..] == rest;
    RunKeepsComplete(Status(st.guessesRemaining, true), rest);
  }
}
