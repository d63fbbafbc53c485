/**
 * The number sub-machine's state and its completion rule (NumberState::to_token):
 * an integer token when there is no fraction, the exponent is not negative and the
 * value lies strictly inside the signed 64-bit range, a float token otherwise.
 */
module Numbers {
  import opened Chars
  import opened Decimals
  import opened Tokens

  datatype NumberSubState = INIT | SIGNED | ZEROED | INT_DIGIT | DOTTED | DOT_DIGIT | EXP | EXP_SIGNED | EXP_DIGIT

  /**
   * The digits are kept as text and converted when the number completes.
   * A leading zero is never stored: `0` moves to ZEROED without pushing a digit.
   */
  datatype NumberState = NumberState(
    state: NumberSubState,
    numSign: int,
    intDigits: seq<CodePoint>,
    dotDigits: seq<CodePoint>,
    expSign: int,
    expDigits: seq<CodePoint>)

  const DefaultNumber := NumberState(NumberSubState.INIT, 1, [], [], 1, [])

  const Int64Min: int := -0x8000_0000_0000_0000
  const Int64Max: int := 0x7FFF_FFFF_FFFF_FFFF

  predicate AllDigits(d: seq<CodePoint>)
  {
    forall i :: 0 <= i < |d| ==> IsDigit(d[i])
  }

  /** What every number state reachable by the scanner satisfies, phase by phase. */
  predicate ValidNumber(ns: NumberState)
  {
    (ns.numSign == 1 || ns.numSign == -1) && (ns.expSign == 1 || ns.expSign == -1) &&
    AllDigits(ns.intDigits) && AllDigits(ns.dotDigits) && AllDigits(ns.expDigits) &&
    (ns.intDigits != [] ==> ns.intDigits[0] != '0' as nat) &&
    match ns.state
    case INIT => ns == DefaultNumber
    case SIGNED | ZEROED => ns.intDigits == [] && ns.dotDigits == [] && ns.expSign == 1 && ns.expDigits == []
    case INT_DIGIT => ns.intDigits != [] && ns.dotDigits == [] && ns.expSign == 1 && ns.expDigits == []
    case DOTTED => ns.dotDigits == [] && ns.expSign == 1 && ns.expDigits == []
    case EXP => ns.expSign == 1 && ns.expDigits == []
    case DOT_DIGIT => ns.dotDigits != [] && ns.expSign == 1 && ns.expDigits == []
    case EXP_SIGNED => ns.expDigits == []
    case EXP_DIGIT => ns.expDigits != []
  }

  /** The value of a decimal digit string, most significant digit first; the empty string is 0. */
  function DigitsValue(d: seq<CodePoint>): (v: nat)
    requires AllDigits(d)
    ensures v < Pow10(|d|)
  {
    if d == [] then 0 else DigitsValue(d[..|d| - 1]) * 10 + (d[|d| - 1] - '0' as nat)
  }

  lemma {:induction false} Pow10Add(m: nat, n: nat)
    ensures Pow10(m + n) == Pow10(m) * Pow10(n)
  {
    if n > 0 {
      Pow10Add(m, n - 1);
    }
  }

  lemma ShiftDigit(x: int, y: int, p: int, d: int)
    ensures (x * p + y) * 10 + d == x * (p * 10) + (y * 10 + d)
  {
  }

  /** Appending digits shifts the value left by their count. */
  lemma {:induction false} DigitsValueAppend(a: seq<CodePoint>, b: seq<CodePoint>)
    requires AllDigits(a) && AllDigits(b)
    ensures AllDigits(a + b)
    ensures DigitsValue(a + b) == DigitsValue(a) * Pow10(|b|) + DigitsValue(b)
  {
    assert AllDigits(a + b) by {
      forall i | 0 <= i < |a + b| ensures IsDigit((a + b)[i]) {
        if i >= |a| { assert (a + b)[i] == b[i - |a|]; }
      }
    }
    if b == [] {
      assert a + b == a;
    } else {
      var b' := b[..|b| - 1];
      var d := b[|b| - 1] - '0' as nat;
      assert (a + b)[..|a + b| - 1] == a + b';
      assert (a + b)[|a + b| - 1] == b[|b| - 1];
      DigitsValueAppend(a, b');
      var x, y, p := DigitsValue(a), DigitsValue(b'), Pow10(|b'|);
      assert DigitsValue(a + b) == DigitsValue(a + b') * 10 + d;
      assert DigitsValue(b) == y * 10 + d;
      assert Pow10(|b|) == p * 10;
      ShiftDigit(x, y, p, d);
    }
  }

  /** string_to_number: the digits accumulated left to right, `val = val * 10 + digit`. */
  method StringToNumber(digits: seq<CodePoint>) returns (val: nat)
    requires AllDigits(digits)
    ensures val == DigitsValue(digits)
  {
    val := 0;
    var i := 0;
    while i < |digits|
      invariant 0 <= i <= |digits|
      invariant val == DigitsValue(digits[..i])
    {
      assert digits[..i + 1][..i] == digits[..i];
      val := val * 10 + (digits[i] - '0' as nat);
      i := i + 1;
    }
    assert digits[..i] == digits;
  }

  /**
   * The exact value of the literal: all its digits read as one mantissa, the exponent
   * lowered by the number of fraction digits.
   */
  function DecimalOf(ns: NumberState): (d: Decimal)
    requires AllDigits(ns.intDigits) && AllDigits(ns.dotDigits) && AllDigits(ns.expDigits)
    ensures d.mantissa == ns.numSign * (DigitsValue(ns.intDigits) * Pow10(|ns.dotDigits|) + DigitsValue(ns.dotDigits))
    ensures ns.dotDigits == [] && ns.expSign > 0 ==> d.exponent >= 0
    ensures ns.dotDigits == [] && ns.expDigits == [] ==> d == Decimal(ns.numSign * DigitsValue(ns.intDigits), 0)
  {
    DigitsValueAppend(ns.intDigits, ns.dotDigits);
    var e: int := DigitsValue(ns.expDigits);
    Decimal(ns.numSign * DigitsValue(ns.intDigits + ns.dotDigits),
            (if ns.expSign > 0 then e else -e) - |ns.dotDigits|)
  }

  predicate InInt64Open(v: int)
  {
    Int64Min < v < Int64Max
  }

  /**
   * NumberState::to_token as a value. The source accumulates the integer part and the
   * fraction separately; the contract says what comes out: INT exactly when there are
   * no fraction digits, the exponent sign is positive and the value lies strictly inside
   * the int64 range, carrying that value; FLOAT otherwise, carrying the literal's exact
   * value in lowest terms.
   */
  function NumberToken(ns: NumberState): (k: TokenKind)
    requires AllDigits(ns.intDigits) && AllDigits(ns.dotDigits) && AllDigits(ns.expDigits)
    ensures k.Int? || k.Float?
    ensures k.Int? <==> ns.dotDigits == [] && ns.expSign > 0 && InInt64Open(IntegralValue(DecimalOf(ns)))
    ensures k.Int? ==> k.i == IntegralValue(DecimalOf(ns))
    ensures k.Float? ==> k.f == Normalize(DecimalOf(ns))
  {
    var iv := DigitsValue(ns.intDigits);
    var dv := DigitsValue(ns.dotDigits);
    var e: int := DigitsValue(ns.expDigits);
    DigitsValueAppend(ns.intDigits, ns.dotDigits);
    if ns.dotDigits == [] && ns.expSign > 0 && InInt64Open(ns.numSign * iv * Pow10(e)) then
      assert ns.intDigits + ns.dotDigits == ns.intDigits;
      Int(ns.numSign * iv * Pow10(e))
    else
      Float(Normalize(Decimal(ns.numSign * (iv * Pow10(|ns.dotDigits|) + dv), (if ns.expSign > 0 then e else -e) - |ns.dotDigits|)))
  }

  /** to_token as the source runs it, with string_to_number's loop for each digit buffer. */
  method ToToken(ns: NumberState) returns (k: TokenKind)
    requires AllDigits(ns.intDigits) && AllDigits(ns.dotDigits) && AllDigits(ns.expDigits)
    ensures k == NumberToken(ns)
  {
    var iv := StringToNumber(ns.intDigits);
    var dv := StringToNumber(ns.dotDigits);
    var e: int := 0;
    if ns.expDigits != [] {
      e := StringToNumber(ns.expDigits);
    }
    if ns.dotDigits == [] && ns.expSign > 0 && InInt64Open(ns.numSign * iv * Pow10(e)) {
      k := Int(ns.numSign * iv * Pow10(e));
    } else {
      k := Float(Normalize(Decimal(ns.numSign * (iv * Pow10(|ns.dotDigits|) + dv), (if ns.expSign > 0 then e else -e) - |ns.dotDigits|)));
    }
  }

  /** `0` and `-0` are INT 0. */
  lemma ZeroExamples()
    ensures NumberToken(NumberState(ZEROED, 1, [], [], 1, [])) == Int(0)
    ensures NumberToken(NumberState(ZEROED, -1, [], [], 1, [])) == Int(0)
  {
  }

  /** `5` is INT 5 and `1e2` is INT 100. */
  lemma IntegerExamples()
    ensures NumberToken(NumberState(INT_DIGIT, 1, Text("5"), [], 1, [])) == Int(5)
    ensures NumberToken(NumberState(EXP_DIGIT, 1, Text("1"), [], 1, Text("2"))) == Int(100)
  {
    assert Text("5") == [53] && Text("1") == [49] && Text("2") == [50];
    assert DigitsValue([53]) == 5 && DigitsValue([49]) == 1 && DigitsValue([50]) == 2;
  }

  /** `5.0` is FLOAT 5: a fraction part makes a float even when it is zero. */
  lemma FivePointZeroExample()
    ensures NumberToken(NumberState(DOT_DIGIT, 1, Text("5"), Text("0"), 1, [])) == Float(Decimal(5, 0))
  {
    assert Text("5") == [53] && Text("0") == [48];
    assert DigitsValue([53]) == 5 && DigitsValue([48]) == 0;
    assert Normalize(Decimal(50, -1)) == Normalize(Decimal(5, 0)) == Decimal(5, 0);
  }

  /** `0.5` is FLOAT 5e-1. */
  lemma HalfExample()
    ensures NumberToken(NumberState(DOT_DIGIT, 1, [], Text("5"), 1, [])) == Float(Decimal(5, -1))
  {
    assert Text("5") == [53];
    assert DigitsValue([53]) == 5;
  }

  /** `5e-1` is FLOAT 5e-1; a negative exponent always gives FLOAT. */
  lemma NegativeExponentExample()
    ensures NumberToken(NumberState(EXP_DIGIT, 1, Text("5"), [], -1, Text("1"))) == Float(Decimal(5, -1))
  {
    assert Text("5") == [53] && Text("1") == [49];
    assert DigitsValue([53]) == 5 && DigitsValue([49]) == 1;
  }

  /** `100e-2` is FLOAT 1, although its value is integral. */
  lemma IntegralNegativeExponentExample()
    ensures NumberToken(NumberState(EXP_DIGIT, 1, Text("100"), [], -1, Text("2"))) == Float(Decimal(1, 0))
  {
    assert Text("2") == [50];
    assert DigitsValue([50]) == 2;
    assert DigitsValue(Text("100")) == 100 by {
      assert Text("100") == [49, 48, 48];
      assert [49, 48, 48][..2] == [49, 48] && [49, 48][..1] == [49];
      assert DigitsValue([49, 48]) == 10;
    }
    assert Normalize(Decimal(100, -2)) == Normalize(Decimal(10, -1)) == Normalize(Decimal(1, 0)) == Decimal(1, 0);
    var ns := NumberState(EXP_DIGIT, 1, Text("100"), [], -1, Text("2"));
    assert DecimalOf(ns) == Decimal(100, -2);
    assert NumberToken(ns).Float?;
  }
}
