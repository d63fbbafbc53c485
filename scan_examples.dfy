/** A worked input: "01" lexes as the two numbers 0 and 1, since a leading zero takes no further digit. */
module ScanExamples {
  import opened Wrappers
  import opened Chars
  import opened Tokens
  import opened Numbers
  import opened ScanSpec

  const AfterZero := Initial.(state := NUMBER, num := DefaultNumber.(state := ZEROED), startPos := 1, curPos := 1)

  const AfterOne := Initial.(state := NUMBER, num := DefaultNumber.(state := INT_DIGIT, intDigits := [49]),
                             startPos := 2, prevPos := 1, curPos := 2, buffer := [Token(Int(0), 1, 1)])

  const AfterNul := Initial.(state := ENDED, startPos := 3, prevPos := 2, curPos := 3,
                             buffer := [Token(Int(0), 1, 1), Token(Int(1), 2, 2), Token(End, 3, 3)])

  lemma FeedZero()
    ensures Feed(Initial, '0' as nat) == Ok(AfterZero)
  {
    var t := Advance(Initial).(startPos := 1, state := NUMBER);
    assert Step(Advance(Initial), '0' as nat) == Redo(t);
    assert Step(t, '0' as nat) == Done(AfterZero);
    assert Run(t, '0' as nat) == Ok(AfterZero);
  }

  /** After `0`, the state in which `1` is dispatched again from INIT. */
  const ZeroEmitted := Advance(AfterZero).(state := ScannerState.INIT, num := DefaultNumber,
                                           buffer := [Token(Int(0), 1, 1)])

  lemma ZeroFinishedByOne()
    ensures Step(Advance(AfterZero), '1' as nat) == Redo(ZeroEmitted)
  {
    assert NumberToken(AfterZero.num) == Int(0);
  }

  lemma OneStartsNumber()
    ensures Run(ZeroEmitted, '1' as nat) == Ok(AfterOne)
  {
    var c := ZeroEmitted.(startPos := 2, state := NUMBER);
    assert Step(ZeroEmitted, '1' as nat) == Redo(c);
    assert Step(c, '1' as nat) == Done(AfterOne);
  }

  lemma FeedOneAfterZero()
    ensures Feed(AfterZero, '1' as nat) == Ok(AfterOne)
  {
    ZeroFinishedByOne();
    OneStartsNumber();
  }

  lemma FeedNulAfterOne()
    ensures Feed(AfterOne, NUL) == Ok(AfterNul)
  {
    var a := Advance(AfterOne);
    assert DigitsValue([49]) == 1;
    assert NumberToken(AfterOne.num) == Int(1);
    var b := a.(state := ScannerState.INIT, num := DefaultNumber, buffer := [Token(Int(0), 1, 1), Token(Int(1), 2, 2)]);
    assert Step(a, NUL) == Redo(b);
    assert Step(b, NUL) == Done(AfterNul);
  }

  lemma LeadingZeroExample()
    ensures Tokenize(Text("01")) == Ok([Token(Int(0), 1, 1), Token(Int(1), 2, 2), Token(End, 3, 3)])
  {
    var input := ['0' as nat, '1' as nat];
    assert Text("01") == input;
    assert input[1..] == ['1' as nat] && input[1..][1..] == [];
    FeedZero();
    FeedOneAfterZero();
    FeedNulAfterOne();
    assert FeedAll(AfterOne, []) == Ok(AfterOne);
    assert FeedAll(AfterZero, input[1..]) == Ok(AfterOne);
    assert FeedAll(Initial, input) == Ok(AfterOne);
  }
}
