/** Conversion of the player's input string into a guess of four digits
    (Mastermind/Mastermind.cs, ConvertInputToGuessArray and its local
    function checkDigits). */
module Parsing {
  import opened Outcomes

  const Int32Max: int := 0x7FFF_FFFF

  predicate IsDigitChar(c: char) {
    '0' <= c <= '9'
  }

  predicate AllDigits(s: string) {
    forall k :: 0 <= k < |s| ==> IsDigitChar(s[k])
  }

  function DigitValue(c: char): (d: nat)
    requires IsDigitChar(c)
    ensures d <= 9
  {
    c as int - '0' as int
  }

  /** The number a string of decimal digits denotes, most significant first. */
  function DecimalValue(s: string): nat
    requires AllDigits(s)
  {
    if s == [] then 0 else DecimalValue(s[..|s| - 1]) * 10 + DigitValue(s[|s| - 1])
  }

  /** int.TryParse, restricted to strings of ASCII decimal digits: it fails on
      the empty string, on any other character and on a value that does not
      fit a 32-bit int. */
  function TryParse(s: string): (r: Option<int>)
    ensures s == [] || !AllDigits(s) ==> r.None?
    ensures r.Some? ==> 0 <= r.value <= Int32Max
  {
    if s != [] && AllDigits(s) && DecimalValue(s) <= Int32Max then Some(DecimalValue(s)) else None
  }

  /** C#'s integer division, which truncates toward zero (Dafny's `/` on int
      is Euclidean). */
  function Quot(a: int, b: int): (q: int)
    requires b > 0
    ensures -b < a - q * b < b
    ensures a >= 0 ==> a - q * b >= 0
    ensures a < 0 ==> a - q * b <= 0
  {
    if a >= 0 then a / b else -((-a) / b)
  }

  /** checkDigits: splits a value into thousands, hundreds, tens and ones by
      repeated subtract-and-divide, rejecting as soon as one of them is above 6.
      No lower bound is checked. */
  function CheckDigits(value: int): (r: Result<seq<int>>)
    ensures r.Failure? ==> r.error == InvalidArgument
    ensures r.Success? ==> |r.value| == 4
    ensures r.Success? ==> forall k :: 0 <= k < 4 ==> r.value[k] <= 6
    ensures r.Success? ==> r.value[0] * 1000 + r.value[1] * 100 + r.value[2] * 10 + r.value[3] == value
  {
    if value - 6000 >= 1000 then Failure(InvalidArgument)
    else
      var thx := Quot(value, 1000);
      var hundreds := value - 1000 * thx;
      if hundreds - 600 >= 100 then Failure(InvalidArgument)
      else
        var hx := Quot(hundreds, 100);
        var tens := hundreds - 100 * hx;
        if tens - 60 >= 10 then Failure(InvalidArgument)
        else
          var tex := Quot(tens, 10);
          var ones := tens - 10 * tex;
          if ones - 6 >= 1 then Failure(InvalidArgument)
          else Success([thx, hx, tex, ones])
  }

  /** ConvertInputToGuessArray: the input must parse as an int and be exactly
      four characters long; its value is then split by CheckDigits. */
  function ConvertInputToGuessArray(input: string): (r: Result<seq<int>>)
    ensures r.Failure? ==> r.error == InvalidArgument
    ensures |input| != 4 || !AllDigits(input) ==> r.Failure?
    ensures r.Success? ==> |r.value| == 4 && forall k :: 0 <= k < 4 ==> 0 <= r.value[k] <= 6
  {
    var parsed := TryParse(input);
    if parsed.None? || |input| != 4 then Failure(InvalidArgument)
    else CheckDigits(parsed.value)
  }

  /** The digit values of the characters of a string. */
  function DigitsOf(s: string): (ds: seq<int>)
    requires AllDigits(s)
    ensures |ds| == |s|
  {
    seq(|s|, k requires 0 <= k < |s| => DigitValue(s[k]))
  }

  predicate AllAtMostSix(ds: seq<int>) {
    forall k :: 0 <= k < |ds| ==> ds[k] <= 6
  }

  /** On the value of four decimal digits, checkDigits gives back exactly those
      digits, and rejects exactly when one of them is 7 or more. */
  lemma {:induction false} CheckDigitsOfDigits(a: int, b: int, c: int, d: int)
    requires 0 <= a <= 9 && 0 <= b <= 9 && 0 <= c <= 9 && 0 <= d <= 9
    ensures CheckDigits(a * 1000 + b * 100 + c * 10 + d)
      == if AllAtMostSix([a, b, c, d]) then Success([a, b, c, d]) else Failure(InvalidArgument)
  {
    var v := a * 1000 + b * 100 + c * 10 + d;
    var ds := [a, b, c, d];
    if a <= 6 && b <= 6 && c <= 6 && d <= 6 {
      assert AllAtMostSix(ds);
    } else {
      assert ds[0] > 6 || ds[1] > 6 || ds[2] > 6 || ds[3] > 6;
      assert !AllAtMostSix(ds);
    }
    if a <= 6 {
      assert Quot(v, 1000) == a;
      var hundreds := v - 1000 * Quot(v, 1000);
      assert hundreds == b * 100 + c * 10 + d;
      if b <= 6 {
        assert Quot(hundreds, 100) == b;
        var tens := hundreds - 100 * Quot(hundreds, 100);
        assert tens == c * 10 + d;
        if c <= 6 {
          assert Quot(tens, 10) == c;
          assert tens - 10 * Quot(tens, 10) == d;
        }
      }
    }
  }

  /** A four-digit string denotes d0*1000 + d1*100 + d2*10 + d3. */
  lemma {:induction false} DecimalValueOfFour(s: string)
    requires |s| == 4 && AllDigits(s)
    ensures var ds := DigitsOf(s);
      DecimalValue(s) == ds[0] * 1000 + ds[1] * 100 + ds[2] * 10 + ds[3]
  {
    assert DecimalValue(s[..1]) == DigitValue(s[0]) by {
      assert s[..1][..0] == [];
    }
    assert DecimalValue(s[..2]) == DigitValue(s[0]) * 10 + DigitValue(s[1]) by {
      assert s[..2][..1] == s[..1];
    }
    assert DecimalValue(s[..3]) == DigitValue(s[0]) * 100 + DigitValue(s[1]) * 10 + DigitValue(s[2]) by {
      assert s[..3][..2] == s[..2];
    }
    assert s[..4] == s;
  }

  /** Parse round trip: a four-character string of digits is accepted exactly
      when none of its digits is 7 or more, and is then turned into its own
      digits, in order ("0123" gives [0, 1, 2, 3]). */
  lemma {:induction false} ConvertInputRoundTrip(input: string)
    requires |input| == 4 && AllDigits(input)
    ensures ConvertInputToGuessArray(input)
      == if AllAtMostSix(DigitsOf(input)) then Success(DigitsOf(input)) else Failure(InvalidArgument)
  {
    var ds := DigitsOf(input);
    DecimalValueOfFour(input);
    assert DecimalValue(input) <= Int32Max;
    assert TryParse(input) == Some(DecimalValue(input));
    CheckDigitsOfDigits(ds[0], ds[1], ds[2], ds[3]);
    assert ds == [ds[0], ds[1], ds[2], ds[3]];
  }
}
