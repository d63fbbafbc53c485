/**
 * Properties of the scanner's transition functions: the positions of emitted tokens are
 * ordered, an identifier is never finished empty, and the per-lexeme rules of the grammar.
 */
module ScanProps {
  import opened Wrappers
  import opened Chars
  import opened Tokens
  import opened Numbers
  import opened ScanSpec

  // ----- Token positions -----

  /** Tokens do not overlap and come in source order (a zero-width END may share its position). */
  predicate Ordered(b: seq<Token>)
  {
    forall i, j :: 0 <= i < j < |b| ==> b[i].end <= b[j].start
  }

  /** Every token spans a non-empty range that ends no later than `p`. */
  predicate Bounded(b: seq<Token>, p: Pos)
  {
    forall i :: 0 <= i < |b| ==> b[i].start <= b[i].end <= p
  }

  predicate EndsBy(b: seq<Token>, p: Pos)
  {
    forall i :: 0 <= i < |b| ==> b[i].end <= p
  }

  /** A lexeme is being read. */
  predicate Pending(s: ScanData)
  {
    s.state == ID || s.state == NUMBER || s.state == ScannerState.STRING || s.state == ScannerState.COMMENT
  }

  /** What holds between two calls of feed. */
  predicate AtRest(s: ScanData)
  {
    Ordered(s.buffer) && Bounded(s.buffer, s.curPos) && s.startPos <= s.curPos &&
    (Pending(s) ==> EndsBy(s.buffer, s.startPos)) &&
    (s.state == ID ==> s.idValue != [])
  }

  /**
   * What holds while the character `ch` at position curPos is being dispatched: a lexeme
   * entered at this very character has not consumed anything yet.
   */
  predicate MidChar(s: ScanData, ch: CodePoint)
  {
    s.curPos == s.prevPos + 1 &&
    Ordered(s.buffer) && Bounded(s.buffer, s.curPos) && s.startPos <= s.curPos &&
    (Pending(s) ==> EndsBy(s.buffer, s.startPos)) &&
    (s.state == ID && s.idValue == [] ==> IsAlpha(ch)) &&
    (s.state == ID && s.startPos == s.curPos ==> s.idValue == []) &&
    (s.state == NUMBER && s.startPos == s.curPos ==> s.num.state == NumberSubState.INIT)
  }

  lemma InitialAtRest()
    ensures AtRest(Initial) && Valid(Initial)
  {
  }

  lemma AdvanceMidChar(s: ScanData, ch: CodePoint)
    requires AtRest(s)
    ensures MidChar(Advance(s), ch)
  {
  }

  /** Appending a token that starts after every earlier end keeps the buffer ordered. */
  lemma {:induction false} EmitOrdered(b: seq<Token>, t: Token, p: Pos)
    requires Ordered(b) && Bounded(b, p) && EndsBy(b, t.start) && t.start <= t.end <= p
    ensures Ordered(b + [t]) && Bounded(b + [t], p)
  {
    var b' := b + [t];
    forall i, j | 0 <= i < j < |b'|
      ensures b'[i].end <= b'[j].start
    {
      if j == |b| {
        assert b'[i] == b[i];
      } else {
        assert b'[i] == b[i] && b'[j] == b[j];
      }
    }
    forall i | 0 <= i < |b'|
      ensures b'[i].start <= b'[i].end <= p
    {
      if i < |b| {
        assert b'[i] == b[i];
      }
    }
  }

  lemma {:induction false} StepOrderInit(s: ScanData, ch: CodePoint)
    requires Valid(s) && MidChar(s, ch) && s.state == ScannerState.INIT
    ensures Step(s, ch).Done? ==> AtRest(Step(s, ch).next)
    ensures Step(s, ch).Redo? ==> MidChar(Step(s, ch).next, ch)
  {
    var p := s.curPos;
    if ch == NUL || (ch !in Whitespace && ch in SingleChars) {
      EmitOrdered(s.buffer, Token(if ch == NUL then End else Single(ch), p, p), p);
    }
  }

  lemma {:induction false} StepOrderId(s: ScanData, ch: CodePoint)
    requires Valid(s) && MidChar(s, ch) && s.state == ID
    ensures Step(s, ch).Done? ==> AtRest(Step(s, ch).next)
    ensures Step(s, ch).Redo? ==> MidChar(Step(s, ch).next, ch)
  {
    if !IsAlpha(ch) && IdentifierKind(s.idValue).Some? {
      EmitOrdered(s.buffer, Token(IdentifierKind(s.idValue).value, s.startPos, s.prevPos), s.curPos);
    }
  }

  /** The number handler either consumes the character in place, fails, or completes the number. */
  lemma NumberOutcome(s: ScanData, ch: CodePoint)
    requires Valid(s) && s.state == NUMBER
    ensures StNumber(s, ch).Done? ==>
      StNumber(s, ch).next == s.(num := StNumber(s, ch).next.num)
    ensures StNumber(s, ch).Redo? ==> s.num.state != NumberSubState.INIT && StNumber(s, ch) == FinishNum(s)
    ensures StNumber(s, ch).Fail? ==> StNumber(s, ch).error.message.UnknownChar?
    ensures StNumber(s, ch).Fail? ==> StNumber(s, ch).error.start == s.startPos && StNumber(s, ch).error.end == s.curPos
    ensures StNumber(s, ch).Done? ==> IsDigit(ch) || ch == Dot || ch == Plus || ch == Minus || ch == LowerE || ch == UpperE
  {
    if s.num.state == NumberSubState.INIT && ch != Minus {
      assert StNumber(s, ch) == StNumber(s.(num := s.num.(state := SIGNED)), ch);
    }
  }

  lemma {:induction false} StepOrderNumber(s: ScanData, ch: CodePoint)
    requires Valid(s) && MidChar(s, ch) && s.state == NUMBER
    ensures Step(s, ch).Done? ==> AtRest(Step(s, ch).next)
    ensures Step(s, ch).Redo? ==> MidChar(Step(s, ch).next, ch)
    ensures Step(s, ch).Fail? ==> Step(s, ch).error.message.UnknownChar?
  {
    NumberOutcome(s, ch);
    if Step(s, ch).Redo? {
      EmitOrdered(s.buffer, Token(NumberToken(s.num), s.startPos, s.prevPos), s.curPos);
    }
  }

  lemma {:induction false} StepOrderString(s: ScanData, ch: CodePoint)
    requires Valid(s) && MidChar(s, ch) && s.state == ScannerState.STRING
    ensures Step(s, ch).Done? ==> AtRest(Step(s, ch).next)
    ensures Step(s, ch).Redo? ==> MidChar(Step(s, ch).next, ch)
  {
    if s.str.state == NORMAL && ch == Quote {
      EmitOrdered(s.buffer, Token(Str(s.str.value), s.startPos, s.curPos), s.curPos);
    }
  }

  lemma {:induction false} StepOrderComment(s: ScanData, ch: CodePoint)
    requires Valid(s) && MidChar(s, ch) && s.state == ScannerState.COMMENT
    ensures Step(s, ch).Done? ==> AtRest(Step(s, ch).next)
    ensures Step(s, ch).Redo? ==> MidChar(Step(s, ch).next, ch)
  {
    EmitOrdered(s.buffer, Token(Comment(s.comment.value), s.startPos, s.curPos), s.curPos);
  }

  /** One dispatch keeps the position invariant and never reports an empty identifier. */
  lemma {:induction false} StepOrder(s: ScanData, ch: CodePoint)
    requires Valid(s) && MidChar(s, ch)
    ensures Step(s, ch).Done? ==> AtRest(Step(s, ch).next)
    ensures Step(s, ch).Redo? ==> MidChar(Step(s, ch).next, ch)
    ensures Step(s, ch).Fail? ==> Step(s, ch).error.message != BadIdentifier([])
  {
    match s.state
    case INIT => StepOrderInit(s, ch);
    case ID => StepOrderId(s, ch);
    case NUMBER => StepOrderNumber(s, ch);
    case STRING => StepOrderString(s, ch);
    case COMMENT => StepOrderComment(s, ch);
    case ENDED =>
  }

  lemma {:induction false} RunOrder(s: ScanData, ch: CodePoint)
    requires Valid(s) && MidChar(s, ch)
    ensures Run(s, ch).Ok? ==> AtRest(Run(s, ch).value)
    ensures Run(s, ch).Err? ==> Run(s, ch).error.message != BadIdentifier([])
    decreases Measure(s, ch)
  {
    StepOrder(s, ch);
    match Step(s, ch)
    case Done(_) =>
    case Redo(n) => RunOrder(n, ch);
    case Fail(_) =>
  }

  /**
   * Feeding a character keeps the buffered tokens ordered and in range, and the identifier
   * being reported as bad is never empty (the assertion in Scanner::st_id).
   */
  lemma {:induction false} FeedOrder(s: ScanData, ch: CodePoint)
    requires Valid(s) && AtRest(s)
    ensures Feed(s, ch).Ok? ==> AtRest(Feed(s, ch).value)
    ensures Feed(s, ch).Err? ==> Feed(s, ch).error.message != BadIdentifier([])
  {
    AdvanceMidChar(s, ch);
    RunOrder(Advance(s), ch);
  }

  lemma {:induction false} FeedAllOrder(s: ScanData, input: seq<CodePoint>)
    requires Valid(s) && AtRest(s)
    ensures FeedAll(s, input).Ok? ==> AtRest(FeedAll(s, input).value)
    ensures FeedAll(s, input).Err? ==> FeedAll(s, input).error.message != BadIdentifier([])
    decreases |input|
  {
    if input != [] {
      FeedOrder(s, input[0]);
      if Feed(s, input[0]).Ok? {
        FeedAllOrder(Feed(s, input[0]).value, input[1..]);
      }
    }
  }

  /** The tokens of a whole input are in source order, each spanning a proper range. */
  lemma TokenizeOrdered(input: seq<CodePoint>)
    ensures Tokenize(input).Ok? ==> Ordered(Tokenize(input).value) && Bounded(Tokenize(input).value, |input| + 1)
    ensures Tokenize(input).Err? ==> Tokenize(input).error.message != BadIdentifier([])
  {
    InitialAtRest();
    FeedAllOrder(Initial, input);
    FeedAllPositions(Initial, input);
    if FeedAll(Initial, input).Ok? {
      var t := FeedAll(Initial, input).value;
      FeedOrder(t, NUL);
      RunKeepsCursor(Advance(t), NUL);
    }
  }

  /** Each fed character moves the cursor one place. */
  lemma {:induction false} FeedAllPositions(s: ScanData, input: seq<CodePoint>)
    requires Valid(s)
    ensures FeedAll(s, input).Ok? ==> FeedAll(s, input).value.curPos == s.curPos + |input|
    decreases |input|
  {
    if input != [] {
      RunKeepsCursor(Advance(s), input[0]);
      if Feed(s, input[0]).Ok? {
        FeedAllPositions(Feed(s, input[0]).value, input[1..]);
      }
    }
  }

  lemma StepKeepsCursor(s: ScanData, ch: CodePoint)
    requires Valid(s)
    ensures Step(s, ch).Done? || Step(s, ch).Redo? ==>
      Step(s, ch).next.curPos == s.curPos && Step(s, ch).next.prevPos == s.prevPos
  {
    match s.state
    case NUMBER => NumberOutcome(s, ch);
    case INIT =>
    case ID =>
    case STRING =>
    case COMMENT =>
    case ENDED =>
  }

  lemma {:induction false} RunKeepsCursor(s: ScanData, ch: CodePoint)
    requires Valid(s)
    ensures Run(s, ch).Ok? ==> Run(s, ch).value.curPos == s.curPos && Run(s, ch).value.prevPos == s.prevPos
    decreases Measure(s, ch)
  {
    StepKeepsCursor(s, ch);
    match Step(s, ch)
    case Done(_) =>
    case Redo(n) => RunKeepsCursor(n, ch);
    case Fail(_) =>
  }

  // ----- Error ranges -----

  /** A failing dispatch reports a range that is not reversed and ends by the current character. */
  lemma StepErrorRange(s: ScanData, ch: CodePoint)
    requires Valid(s) && MidChar(s, ch)
    ensures Step(s, ch).Fail? ==> Step(s, ch).error.start <= Step(s, ch).error.end <= s.curPos
  {
    match s.state
    case NUMBER => NumberOutcome(s, ch);
    case STRING => StringErrorRange(s, ch);
    case INIT =>
    case ID =>
    case COMMENT =>
    case ENDED =>
  }

  /** Every error of the string handler spans the lexeme up to the current character. */
  lemma StringErrorRange(s: ScanData, ch: CodePoint)
    requires Valid(s) && s.state == ScannerState.STRING
    ensures StString(s, ch).Fail? ==> StString(s, ch).error.start == s.startPos && StString(s, ch).error.end == s.curPos
  {
  }

  lemma {:induction false} RunErrorRange(s: ScanData, ch: CodePoint)
    requires Valid(s) && MidChar(s, ch)
    ensures Run(s, ch).Err? ==> Run(s, ch).error.start <= Run(s, ch).error.end <= s.curPos
    decreases Measure(s, ch)
  {
    match Step(s, ch)
    case Done(_) =>
    case Redo(n) =>
      StepOrder(s, ch);
      StepKeepsCursor(s, ch);
      RunErrorRange(n, ch);
    case Fail(_) => StepErrorRange(s, ch);
  }

  /**
   * The range of a lexical error (Scanner::exception, Scanner::unknown_char) starts no later
   * than it ends, and ends no later than the character being fed.
   */
  lemma {:induction false} FeedErrorRange(s: ScanData, ch: CodePoint)
    requires Valid(s) && AtRest(s)
    ensures Feed(s, ch).Err? ==> Feed(s, ch).error.start <= Feed(s, ch).error.end <= s.curPos + 1
  {
    AdvanceMidChar(s, ch);
    RunErrorRange(Advance(s), ch);
  }

  lemma {:induction false} FeedAllErrorRange(s: ScanData, input: seq<CodePoint>)
    requires Valid(s) && AtRest(s)
    ensures FeedAll(s, input).Err? ==> FeedAll(s, input).error.start <= FeedAll(s, input).error.end <= s.curPos + |input|
    decreases |input|
  {
    if input != [] {
      FeedErrorRange(s, input[0]);
      if Feed(s, input[0]).Ok? {
        FeedOrder(s, input[0]);
        RunKeepsCursor(Advance(s), input[0]);
        FeedAllErrorRange(Feed(s, input[0]).value, input[1..]);
      }
    }
  }

  /** An error while scanning a whole input lies within the input and the NUL after it. */
  lemma TokenizeErrorRange(input: seq<CodePoint>)
    ensures Tokenize(input).Err? ==> Tokenize(input).error.start <= Tokenize(input).error.end <= |input| + 1
  {
    InitialAtRest();
    FeedAllErrorRange(Initial, input);
    if FeedAll(Initial, input).Ok? {
      var t := FeedAll(Initial, input).value;
      FeedAllOrder(Initial, input);
      FeedAllPositions(Initial, input);
      FeedErrorRange(t, NUL);
    }
  }

  // ----- The end of the input -----

  /** The NUL sentinel is consumed only in INIT, where it emits END and moves to ENDED. */
  lemma StepAtNul(s: ScanData)
    requires Valid(s)
    ensures Step(s, NUL).Done? ==>
      s.state == ScannerState.INIT &&
      Step(s, NUL).next == Emit(s.(startPos := s.curPos), End, s.curPos, s.curPos).(state := ENDED)
  {
    if s.state == NUMBER {
      NumberOutcome(s, NUL);
    }
  }

  /** The scanner has ended, and its last token is END at `p`. */
  predicate EndedAt(u: ScanData, p: Pos)
  {
    u.state == ENDED && |u.buffer| > 0 && u.buffer[|u.buffer| - 1] == Token(End, p, p)
  }

  lemma {:induction false} RunAtNul(s: ScanData)
    requires Valid(s)
    ensures Run(s, NUL).Ok? ==> EndedAt(Run(s, NUL).value, s.curPos)
    decreases Measure(s, NUL)
  {
    match Step(s, NUL)
    case Done(n) =>
      StepAtNul(s);
      assert n.buffer[|n.buffer| - 1] == Token(End, s.curPos, s.curPos);
    case Redo(n) =>
      StepKeepsCursor(s, NUL);
      RunAtNul(n);
    case Fail(_) =>
  }

  /** A successful scan ends in ENDED, and its last token is END at the position of the NUL. */
  lemma TokenizeEnds(input: seq<CodePoint>)
    ensures Tokenize(input).Ok? ==>
      var b := Tokenize(input).value;
      |b| > 0 && b[|b| - 1] == Token(End, |input| + 1, |input| + 1)
  {
    FeedAllPositions(Initial, input);
    match FeedAll(Initial, input)
    case Ok(t) => FeedAtNul(t);
    case Err(_) =>
  }

  lemma FeedAtNul(t: ScanData)
    requires Valid(t)
    ensures Feed(t, NUL).Ok? ==>
      var b := Feed(t, NUL).value.buffer;
      |b| > 0 && b[|b| - 1] == Token(End, t.curPos + 1, t.curPos + 1)
  {
    RunAtNul(Advance(t));
  }
}
