/** Scoring of one guess against the solution (Mastermind/Mastermind.cs,
    the body of Guess before the state update): exact and partial matches are
    counted in one pass, then the hint is built from the two counts. */
module Scoring {

  /** Position i is an exact match: the guess has the solution's digit there. */
  predicate IsExact(solution: seq<int>, guess: seq<int>, i: nat)
    requires i < |guess| <= |solution|
  {
    guess[i] == solution[i]
  }

  /** Position i earns a partial match: it is not exact, its digit occurs
      somewhere in the solution (exact positions included), and the digit did
      not already appear at an earlier position of the guess. */
  predicate IsPartial(solution: seq<int>, guess: seq<int>, i: nat)
    requires i < |guess| <= |solution|
  {
    guess[i] != solution[i] && guess[i] in solution && guess[i] !in guess[..i]
  }

  /** Number of exact matches among the first n positions. */
  function ExactCount(solution: seq<int>, guess: seq<int>, n: nat): nat
    requires n <= |guess| <= |solution|
  {
    if n == 0 then 0
    else ExactCount(solution, guess, n - 1) + if IsExact(solution, guess, n - 1) then 1 else 0
  }

  /** Number of partial matches among the first n positions. */
  function PartialCount(solution: seq<int>, guess: seq<int>, n: nat): nat
    requires n <= |guess| <= |solution|
  {
    if n == 0 then 0
    else PartialCount(solution, guess, n - 1) + if IsPartial(solution, guess, n - 1) then 1 else 0
  }

  /** The counting loop of Guess: one pass over the guess, crediting a
      position as correct or, failing that, as partially correct, and
      recording every guessed digit in checkedNumbers. */
  method CountMatches(solution: seq<int>, guess: seq<int>) returns (correct: nat, partialCorrect: nat)
    requires |guess| <= |solution|
    ensures correct == ExactCount(solution, guess, |guess|)
    ensures partialCorrect == PartialCount(solution, guess, |guess|)
  {
    correct, partialCorrect := 0, 0;
    var checkedNumbers: seq<int> := [];
    for i := 0 to |guess|
      invariant checkedNumbers == guess[..i]
      invariant correct == ExactCount(solution, guess, i)
      invariant partialCorrect == PartialCount(solution, guess, i)
    {
      if guess[i] == solution[i] {
        correct := correct + 1;
      } else if guess[i] in solution && guess[i] !in checkedNumbers {
        partialCorrect := partialCorrect + 1;
      }
      checkedNumbers := checkedNumbers + [guess[i]];
    }
    assert guess[..|guess|] == guess;
  }

  /** A string of n copies of ch. */
  function Repeat(ch: char, n: nat): (r: string)
    ensures |r| == n
    ensures forall k :: 0 <= k < n ==> r[k] == ch
  {
    if n == 0 then [] else Repeat(ch, n - 1) + [ch]
  }

  /** The hint: one '+' per exact match, then one '-' per partial match. */
  function HintOf(correct: nat, partialCorrect: nat): (hint: string)
    ensures |hint| == correct + partialCorrect
    ensures forall k :: 0 <= k < |hint| ==> hint[k] == if k < correct then '+' else '-'
  {
    Repeat('+', correct) + Repeat('-', partialCorrect)
  }

  /** The two while loops of Guess that append '+' and then '-' to the hint,
      counting each counter down to zero. */
  method BuildHint(correct: nat, partialCorrect: nat) returns (hint: string)
    ensures hint == HintOf(correct, partialCorrect)
  {
    hint := "";
    var c := correct;
    while c > 0
      invariant 0 <= c <= correct
      invariant hint == Repeat('+', correct - c)
    {
      hint := hint + "+";
      c := c - 1;
    }
    var p := partialCorrect;
    while p > 0
      invariant 0 <= p <= partialCorrect
      invariant hint == Repeat('+', correct) + Repeat('-', partialCorrect - p)
    {
      hint := hint + "-";
      p := p - 1;
    }
  }

  /** The number of times ch occurs in s: how a reader recovers the counts
      from a hint. */
  function Occurrences(ch: char, s: string): nat
  {
    if s == [] then 0 else Occurrences(ch, s[..|s| - 1]) + if s[|s| - 1] == ch then 1 else 0
  }

  /** What Guess returns on success: whether the guess wins, and the hint. */
  datatype Evaluation = Evaluation(result: bool, hint: string)

  /** The outcome of scoring a four-digit guess against a four-digit solution. */
  function Evaluate(solution: seq<int>, guess: seq<int>): Evaluation
    requires |guess| == 4 && |solution| == 4
  {
    var correct := ExactCount(solution, guess, 4);
    Evaluation(correct == 4, HintOf(correct, PartialCount(solution, guess, 4)))
  }

  // ---------------------------------------------------------------------
  // Properties of the scoring rule
  // ---------------------------------------------------------------------

  /** All of the first n positions match exactly iff the guess agrees with the
      solution on that prefix; the count never exceeds n. */
  lemma {:induction false} ExactCountFull(solution: seq<int>, guess: seq<int>, n: nat)
    requires n <= |guess| <= |solution|
    ensures ExactCount(solution, guess, n) <= n
    ensures ExactCount(solution, guess, n) == n <==> guess[..n] == solution[..n]
  {
    if n > 0 {
      ExactCountFull(solution, guess, n - 1);
      if guess[..n] == solution[..n] {
        assert guess[..n - 1] == guess[..n][..n - 1] && solution[..n - 1] == solution[..n][..n - 1];
        assert guess[n - 1] == guess[..n][n - 1];
      }
      if ExactCount(solution, guess, n) == n {
        assert guess[..n] == guess[..n - 1] + [guess[n - 1]];
        assert solution[..n] == solution[..n - 1] + [solution[n - 1]];
      }
    }
  }

  /** A position earns at most one credit, so the exact and partial counts
      together never exceed the number of positions scanned. */
  lemma {:induction false} CountsBounded(solution: seq<int>, guess: seq<int>, n: nat)
    requires n <= |guess| <= |solution|
    ensures ExactCount(solution, guess, n) + PartialCount(solution, guess, n) <= n
  {
    if n > 0 {
      CountsBounded(solution, guess, n - 1);
    }
  }

  /** Two different positions that both earn a partial match hold different
      digits: a repeated guess digit never earns a second partial match. */
  lemma PartialDigitsDistinct(solution: seq<int>, guess: seq<int>, i: nat, j: nat)
    requires i < j < |guess| <= |solution|
    requires IsPartial(solution, guess, i) && IsPartial(solution, guess, j)
    ensures guess[i] != guess[j]
  {
  }

  /** The distinct digits among the first n guess positions that also occur in
      the solution. */
  function SharedDigits(solution: seq<int>, guess: seq<int>, n: nat): set<int>
    requires n <= |guess|
  {
    set x | x in solution && x in guess[..n]
  }

  /** Partial matches never outnumber the distinct guessed digits that occur in
      the solution. */
  lemma {:induction false} PartialCountBound(solution: seq<int>, guess: seq<int>, n: nat)
    requires n <= |guess| <= |solution|
    ensures PartialCount(solution, guess, n) <= |SharedDigits(solution, guess, n)|
  {
    if n > 0 {
      PartialCountBound(solution, guess, n - 1);
      var before := SharedDigits(solution, guess, n - 1);
      var after := SharedDigits(solution, guess, n);
      assert guess[..n] == guess[..n - 1] + [guess[n - 1]];
      assert before <= after;
      assert |before| <= |after| by {
        assert after == before + (after - before);
      }
      if IsPartial(solution, guess, n - 1) {
        assert guess[n - 1] !in before;
        assert after == before + {guess[n - 1]};
      }
    }
  }

  /** The hint can be read back: it holds exactly `correct` plus signs and
      `partialCorrect` minus signs. */
  lemma {:induction false} HintDecodes(correct: nat, partialCorrect: nat)
    ensures Occurrences('+', HintOf(correct, partialCorrect)) == correct
    ensures Occurrences('-', HintOf(correct, partialCorrect)) == partialCorrect
  {
    RepeatOccurrences(correct, partialCorrect);
  }

  lemma {:induction false} RepeatOccurrences(c: nat, p: nat)
    ensures Occurrences('+', Repeat('+', c) + Repeat('-', p)) == c
    ensures Occurrences('-', Repeat('+', c) + Repeat('-', p)) == p
  {
    if p > 0 {
      RepeatOccurrences(c, p - 1);
      assert (Repeat('+', c) + Repeat('-', p))[..c + p - 1] == Repeat('+', c) + Repeat('-', p - 1);
    } else {
      assert Repeat('+', c) + Repeat('-', p) == Repeat('+', c);
      if c > 0 {
        RepeatOccurrences(c - 1, 0);
        assert Repeat('+', c)[..c - 1] == Repeat('+', c - 1) + Repeat('-', 0);
      }
    }
  }

  /** The guess wins exactly when it equals the solution, and the winning hint
      is "++++". */
  lemma WinIffEqual(solution: seq<int>, guess: seq<int>)
    requires |guess| == 4 && |solution| == 4
    ensures Evaluate(solution, guess).result <==> guess == solution
    ensures guess == solution ==> Evaluate(solution, guess).hint == "++++"
  {
    ExactCountFull(solution, guess, 4);
    CountsBounded(solution, guess, 4);
    assert guess[..4] == guess && solution[..4] == solution;
    if guess == solution {
      assert HintOf(4, 0) == "++++";
    }
  }

  /** The hint has at most four symbols, and it records the exact and partial
      counts, plus signs first. */
  lemma EvaluateHint(solution: seq<int>, guess: seq<int>)
    requires |guess| == 4 && |solution| == 4
    ensures |Evaluate(solution, guess).hint| <= 4
    ensures Occurrences('+', Evaluate(solution, guess).hint) == ExactCount(solution, guess, 4)
    ensures Occurrences('-', Evaluate(solution, guess).hint) == PartialCount(solution, guess, 4)
  {
    CountsBounded(solution, guess, 4);
    HintDecodes(ExactCount(solution, guess, 4), PartialCount(solution, guess, 4));
  }
}
