/**
 * The lexical rules of the scanner, one lemma per rule, each about what feeding one
 * character does from a given state. `p` is the position the character is fed at.
 */
module ScanRules {
  import opened Wrappers
  import opened Chars
  import opened Decimals
  import opened Tokens
  import opened Numbers
  import opened ScanSpec

  // ----- Between lexemes -----

  /** The NUL sentinel emits END and moves to ENDED. */
  lemma EndOfInput(s: ScanData)
    requires Valid(s) && s.state == ScannerState.INIT
    ensures var p := s.curPos + 1;
      Feed(s, NUL) == Ok(Advance(s).(startPos := p, state := ENDED, buffer := s.buffer + [Token(End, p, p)]))
  {
  }

  /** Space, tab, newline and carriage return are skipped. */
  lemma WhitespaceSkipped(s: ScanData, ch: CodePoint)
    requires Valid(s) && s.state == ScannerState.INIT && ch in Whitespace
    ensures Feed(s, ch) == Ok(Advance(s).(startPos := s.curPos + 1))
  {
  }

  /** Each structural character is a token of its own, one character wide. */
  lemma PunctuationIsToken(s: ScanData, ch: CodePoint)
    requires Valid(s) && s.state == ScannerState.INIT && ch in SingleChars
    ensures var p := s.curPos + 1;
      Feed(s, ch) == Ok(Advance(s).(startPos := p, buffer := s.buffer + [Token(Single(ch), p, p)]))
  {
  }

  /** A character that cannot start any lexeme is rejected with no additional message. */
  lemma StrayCharRejected(s: ScanData, ch: CodePoint)
    requires Valid(s) && s.state == ScannerState.INIT
    requires ch != NUL && ch !in Whitespace && ch !in SingleChars && ch != Quote && ch != Slash
    requires !IsDigit(ch) && ch != Dot && ch != Plus && ch != Minus && !IsAlpha(ch)
    ensures var p := s.curPos + 1; Feed(s, ch) == Err(ScanError(UnknownChar(ch, ""), p, p))
  {
  }

  /** Once END has been emitted every further character is an error. */
  lemma EndedRejects(s: ScanData, ch: CodePoint)
    requires Valid(s) && s.state == ENDED
    ensures Feed(s, ch) == Err(ScanError(ReceivedInEnded, s.startPos, s.curPos + 1))
  {
  }

  // ----- Identifiers -----

  /** The only identifiers are the three literal names. */
  lemma IdentifierKinds(id: seq<CodePoint>)
    ensures IdentifierKind(id) == Some(Nil) <==> id == Text("null")
    ensures IdentifierKind(id) == Some(Bool(true)) <==> id == Text("true")
    ensures IdentifierKind(id) == Some(Bool(false)) <==> id == Text("false")
    ensures IdentifierKind(id).None? <==> id != Text("null") && id != Text("true") && id != Text("false")
  {
    assert Text("null") != Text("true") && Text("null") != Text("false") && Text("true") != Text("false") by {
      assert Text("null")[0] == 'n' as nat && Text("true")[0] == 't' as nat && Text("false")[0] == 'f' as nat;
    }
  }

  /** A letter extends the identifier. */
  lemma IdentifierGrows(s: ScanData, ch: CodePoint)
    requires Valid(s) && s.state == ID && IsAlpha(ch)
    ensures Feed(s, ch) == Ok(Advance(s).(idValue := s.idValue + [ch]))
  {
  }

  /**
   * Any other character ends the identifier: a literal name becomes a token ending at the
   * previous character, and the character is dispatched again from INIT.
   */
  lemma IdentifierFinished(s: ScanData, ch: CodePoint)
    requires Valid(s) && s.state == ID && !IsAlpha(ch) && IdentifierKind(s.idValue).Some?
    ensures Feed(s, ch) == Run(Advance(s).(idValue := [], state := ScannerState.INIT,
                                            buffer := s.buffer + [Token(IdentifierKind(s.idValue).value, s.startPos, s.curPos)]), ch)
  {
  }

  /** Any other name is a bad identifier, reported over its own span. */
  lemma BadIdentifierRejected(s: ScanData, ch: CodePoint)
    requires Valid(s) && s.state == ID && !IsAlpha(ch) && IdentifierKind(s.idValue).None?
    ensures Feed(s, ch) == Err(ScanError(BadIdentifier(s.idValue), s.startPos, s.curPos))
  {
  }

  // ----- Numbers -----

  /** A digit, '.', '+' or '-' in INIT opens a number at the current character, which is dispatched again. */
  lemma NumberEntered(s: ScanData, ch: CodePoint)
    requires Valid(s) && s.state == ScannerState.INIT && (IsDigit(ch) || ch == Dot || ch == Plus || ch == Minus)
    ensures Feed(s, ch) == Run(Advance(s).(startPos := s.curPos + 1, state := NUMBER), ch)
  {
    assert Step(Advance(s), ch) == Redo(Advance(s).(startPos := s.curPos + 1, state := NUMBER));
  }

  /** Phase INIT of a number hands any character but '-' to phase SIGNED. */
  lemma UnsignedStart(t: ScanData, ch: CodePoint)
    requires Valid(t) && t.state == NUMBER && t.num.state == NumberSubState.INIT && ch != Minus
    ensures StNumber(t, ch) == StNumber(t.(num := t.num.(state := SIGNED)), ch)
  {
  }

  /** A leading '+' is not a number: the sign must be followed by a digit, and only '-' is a sign. */
  lemma LeadingPlusRejected(s: ScanData)
    requires Valid(s) && s.state == ScannerState.INIT
    ensures var p := s.curPos + 1; Feed(s, Plus) == Err(ScanError(UnknownChar(Plus, "expect digit"), p, p))
  {
    NumberEntered(s, Plus);
    UnsignedStart(Advance(s).(startPos := s.curPos + 1, state := NUMBER), Plus);
  }

  /** A leading '.' is not a number either. */
  lemma LeadingDotRejected(s: ScanData)
    requires Valid(s) && s.state == ScannerState.INIT
    ensures var p := s.curPos + 1; Feed(s, Dot) == Err(ScanError(UnknownChar(Dot, "expect digit"), p, p))
  {
    NumberEntered(s, Dot);
    UnsignedStart(Advance(s).(startPos := s.curPos + 1, state := NUMBER), Dot);
  }

  /** '-' starts a negative number. */
  lemma MinusStartsNumber(s: ScanData)
    requires Valid(s) && s.state == ScannerState.INIT
    ensures Feed(s, Minus) ==
      Ok(Advance(s).(startPos := s.curPos + 1, state := NUMBER, num := DefaultNumber.(state := SIGNED, numSign := -1)))
  {
    NumberEntered(s, Minus);
  }

  /** After the optional '-', a digit is required. */
  lemma SignedNeedsDigit(s: ScanData, ch: CodePoint)
    requires Valid(s) && s.state == NUMBER && s.num.state == SIGNED && !IsDigit(ch)
    ensures Feed(s, ch) == Err(ScanError(UnknownChar(ch, "expect digit"), s.startPos, s.curPos + 1))
  {
  }

  /** The first digit: a '0' is not stored and moves to ZEROED; any other digit starts the integer part. */
  lemma FirstDigitRead(s: ScanData, ch: CodePoint)
    requires Valid(s) && s.state == NUMBER && s.num.state == SIGNED && IsDigit(ch)
    ensures Feed(s, ch) == Ok(Advance(s).(num := if ch == Zero then s.num.(state := ZEROED)
                                                 else s.num.(intDigits := [ch], state := INT_DIGIT)))
  {
    assert s.num.intDigits == [];
    var n := Advance(s).(num := if ch == Zero then s.num.(state := ZEROED) else s.num.(intDigits := [ch], state := INT_DIGIT));
    assert StNumber(Advance(s), ch) == Done(n);
    assert Step(Advance(s), ch) == Done(n);
  }

  /** A further digit of the integer part is appended to it. */
  lemma IntDigitAppended(s: ScanData, ch: CodePoint)
    requires Valid(s) && s.state == NUMBER && s.num.state == INT_DIGIT && IsDigit(ch)
    ensures Feed(s, ch) == Ok(Advance(s).(num := s.num.(intDigits := s.num.intDigits + [ch])))
  {
  }

  /** A '.' after the integer part opens the fraction. */
  lemma DotRead(s: ScanData)
    requires Valid(s) && s.state == NUMBER && s.num.state in {ZEROED, INT_DIGIT}
    ensures Feed(s, Dot) == Ok(Advance(s).(num := s.num.(state := DOTTED)))
  {
  }

  /** A digit of the fraction is appended to it. */
  lemma FractionDigitAppended(s: ScanData, ch: CodePoint)
    requires Valid(s) && s.state == NUMBER && s.num.state in {DOTTED, DOT_DIGIT} && IsDigit(ch)
    ensures Feed(s, ch) == Ok(Advance(s).(num := s.num.(dotDigits := s.num.dotDigits + [ch], state := DOT_DIGIT)))
  {
  }

  /** 'e' or 'E' after an integer or a fraction digit opens the exponent. */
  lemma ExponentMarkerRead(s: ScanData, ch: CodePoint)
    requires Valid(s) && s.state == NUMBER && s.num.state in {ZEROED, INT_DIGIT, DOT_DIGIT}
    requires ch == LowerE || ch == UpperE
    ensures Feed(s, ch) == Ok(Advance(s).(num := s.num.(state := EXP)))
  {
  }

  /** A sign right after the exponent marker sets the exponent's sign. */
  lemma ExponentSignRead(s: ScanData, ch: CodePoint)
    requires Valid(s) && s.state == NUMBER && s.num.state == EXP && (ch == Plus || ch == Minus)
    ensures Feed(s, ch) == Ok(Advance(s).(num := s.num.(state := EXP_SIGNED, expSign := if ch == Minus then -1 else 1)))
  {
  }

  /** A digit of the exponent is appended to it. */
  lemma ExponentDigitAppended(s: ScanData, ch: CodePoint)
    requires Valid(s) && s.state == NUMBER && s.num.state in {EXP, EXP_SIGNED, EXP_DIGIT} && IsDigit(ch)
    ensures Feed(s, ch) == Ok(Advance(s).(num := s.num.(expDigits := s.num.expDigits + [ch], state := EXP_DIGIT)))
  {
  }

  /** A first digit '0' takes no further digit: another digit ends the number `0` and starts a new one. */
  lemma LeadingZeroEndsNumber(s: ScanData, ch: CodePoint)
    requires Valid(s) && s.state == NUMBER && s.num.state == ZEROED && IsDigit(ch)
    ensures Feed(s, ch) == Run(Advance(s).(num := DefaultNumber, state := ScannerState.INIT,
                                            buffer := s.buffer + [Token(Int(0), s.startPos, s.curPos)]), ch)
  {
    NumberFinished(s, ch);
    ZeroIsIntZero(s.num);
  }

  /** The number `0` or `-0`, whatever its sign, is INT 0. */
  lemma ZeroIsIntZero(ns: NumberState)
    requires ValidNumber(ns) && ns.state == ZEROED
    ensures NumberToken(ns) == Int(0)
  {
    assert ns.intDigits == [] && ns.dotDigits == [] && ns.expDigits == [];
  }

  /** A '.' must be followed by a digit. */
  lemma DotNeedsDigit(s: ScanData, ch: CodePoint)
    requires Valid(s) && s.state == NUMBER && s.num.state == DOTTED && !IsDigit(ch)
    ensures Feed(s, ch) == Err(ScanError(UnknownChar(ch, "expect digit"), s.startPos, s.curPos + 1))
  {
  }

  /** An exponent marker must be followed by a sign or a digit. */
  lemma ExponentNeedsDigitOrSign(s: ScanData, ch: CodePoint)
    requires Valid(s) && s.state == NUMBER && s.num.state == EXP && !IsDigit(ch) && ch != Plus && ch != Minus
    ensures Feed(s, ch) == Err(ScanError(UnknownChar(ch, "expect digit or sign"), s.startPos, s.curPos + 1))
  {
  }

  /** An exponent sign must be followed by a digit. */
  lemma ExponentSignNeedsDigit(s: ScanData, ch: CodePoint)
    requires Valid(s) && s.state == NUMBER && s.num.state == EXP_SIGNED && !IsDigit(ch)
    ensures Feed(s, ch) == Err(ScanError(UnknownChar(ch, "expect digit"), s.startPos, s.curPos + 1))
  {
  }

  /** Whether `ch` continues a number that is in a phase where it may end. */
  predicate Continues(phase: NumberSubState, ch: CodePoint)
  {
    match phase
    case ZEROED => ch == Dot || ch == LowerE || ch == UpperE
    case INT_DIGIT => IsDigit(ch) || ch == Dot || ch == LowerE || ch == UpperE
    case DOT_DIGIT => IsDigit(ch) || ch == LowerE || ch == UpperE
    case EXP_DIGIT => IsDigit(ch)
    case _ => true
  }

  /**
   * A complete number ends at the first character that does not continue it: its token spans
   * up to the previous character and that character is dispatched again from INIT.
   */
  lemma NumberFinished(s: ScanData, ch: CodePoint)
    requires Valid(s) && s.state == NUMBER && s.num.state in {ZEROED, INT_DIGIT, DOT_DIGIT, EXP_DIGIT}
    requires !Continues(s.num.state, ch)
    ensures Feed(s, ch) == Run(Advance(s).(num := DefaultNumber, state := ScannerState.INIT,
                                            buffer := s.buffer + [Token(NumberToken(s.num), s.startPos, s.curPos)]), ch)
  {
  }

  // ----- Strings -----

  /** The closing quote emits the string, spanning both quotes. */
  lemma StringClosed(s: ScanData)
    requires Valid(s) && s.state == ScannerState.STRING && s.str.state == NORMAL
    ensures Feed(s, Quote) == Ok(Advance(s).(state := ScannerState.INIT, str := DefaultString,
                                               buffer := s.buffer + [Token(Str(s.str.value), s.startPos, s.curPos + 1)]))
  {
  }

  /** A character other than a quote, a backslash or a control character stands for itself. */
  lemma PlainCharKept(s: ScanData, ch: CodePoint)
    requires Valid(s) && s.state == ScannerState.STRING && s.str.state == NORMAL
    requires ch != Quote && ch != Backslash && ch >= 0x20
    ensures Feed(s, ch) == Ok(Advance(s).(str := s.str.(value := s.str.value + [ch])))
  {
  }

  /** Control characters must be escaped. */
  lemma ControlCharRejected(s: ScanData, ch: CodePoint)
    requires Valid(s) && s.state == ScannerState.STRING && s.str.state == NORMAL && ch < 0x20
    ensures Feed(s, ch) == Err(ScanError(UnknownChar(ch, "unescaped control char"), s.startPos, s.curPos + 1))
  {
  }

  /** A single-character escape appends the character it stands for. */
  lemma EscapeDecoded(s: ScanData, ch: CodePoint)
    requires Valid(s) && s.state == ScannerState.STRING && s.str.state == ESCAPE && ch in EscapeMap
    ensures Feed(s, ch) == Ok(Advance(s).(str := s.str.(value := s.str.value + [EscapeMap[ch]], state := NORMAL)))
  {
  }

  /** The escape table is the one of RFC 8259, section 7. */
  lemma EscapeTable()
    ensures EscapeMap.Keys == {'b' as nat, 'f' as nat, 'n' as nat, 'r' as nat, 't' as nat, Quote, Backslash, Slash}
    ensures EscapeMap['b' as nat] == 0x08 && EscapeMap['f' as nat] == 0x0C && EscapeMap['n' as nat] == LineFeed
    ensures EscapeMap['r' as nat] == 0x0D && EscapeMap['t' as nat] == 0x09
    ensures EscapeMap[Quote] == Quote && EscapeMap[Backslash] == Backslash && EscapeMap[Slash] == Slash
  {
  }

  /** Any other escape than the table's and `\u` is rejected. */
  lemma UnknownEscapeRejected(s: ScanData, ch: CodePoint)
    requires Valid(s) && s.state == ScannerState.STRING && s.str.state == ESCAPE && ch !in EscapeMap && ch != LetterU
    ensures Feed(s, ch) == Err(ScanError(UnknownChar(ch, "unknown escapes"), s.startPos, s.curPos + 1))
  {
  }

  /** Up to four hex digits are buffered, lower-cased. */
  lemma HexDigitBuffered(s: ScanData, ch: CodePoint)
    requires Valid(s) && s.state == ScannerState.STRING && s.str.state == HEX && |s.str.hex| < 4 && IsXDigit(ch)
    ensures Feed(s, ch) == Ok(Advance(s).(str := s.str.(hex := s.str.hex + [ToLower(ch)])))
  {
  }

  /** Fewer than four hex digits after `\u` is an error. */
  lemma ShortHexRejected(s: ScanData, ch: CodePoint)
    requires Valid(s) && s.state == ScannerState.STRING && s.str.state == HEX && |s.str.hex| < 4 && !IsXDigit(ch)
    ensures Feed(s, ch) == Err(ScanError(UnknownChar(ch, "expect hex digit"), s.startPos, s.curPos + 1))
  {
  }

  /**
   * The character after the fourth hex digit decodes the escape; a code point outside the
   * surrogate ranges is appended and that character is read as ordinary string content.
   */
  lemma BmpEscapeDecoded(s: ScanData, ch: CodePoint)
    requires Valid(s) && s.state == ScannerState.STRING && s.str.state == HEX && |s.str.hex| == 4
    requires !s.str.lastSurrogate
    requires !IsSurrogateHigh(HexValue(s.str.hex)) && !IsSurrogateLow(HexValue(s.str.hex))
    ensures Feed(s, ch) ==
      Run(Advance(s).(str := StringState(NORMAL, s.str.value + [HexValue(s.str.hex)], [], false)), ch)
  {
  }

  /** A high surrogate is kept provisionally and must be followed by a `\u` escape at once. */
  lemma HighSurrogateAwaitsLow(s: ScanData, ch: CodePoint)
    requires Valid(s) && s.state == ScannerState.STRING && s.str.state == HEX && |s.str.hex| == 4
    requires !s.str.lastSurrogate && IsSurrogateHigh(HexValue(s.str.hex))
    ensures Feed(s, ch) ==
      Run(Advance(s).(str := StringState(SURROGATED, s.str.value + [HexValue(s.str.hex)], [], true)), ch)
    ensures ch != Backslash ==>
      Feed(s, ch) == Err(ScanError(UnknownChar(ch, "expect lower surrogate escape"), s.startPos, s.curPos + 1))
  {
  }

  /** After a high surrogate, `\` must be followed by `u`. */
  lemma SurrogateEscapeNeedsU(s: ScanData, ch: CodePoint)
    requires Valid(s) && s.state == ScannerState.STRING && s.str.state == SURROGATED_ESCAPE && ch != LetterU
    ensures Feed(s, ch) == Err(ScanError(UnknownChar(ch, "expect lower surrogate escape"), s.startPos, s.curPos + 1))
  {
  }

  /** A low surrogate with no high surrogate before it is rejected. */
  lemma LoneLowSurrogateRejected(s: ScanData, ch: CodePoint)
    requires Valid(s) && s.state == ScannerState.STRING && s.str.state == HEX && |s.str.hex| == 4
    requires !s.str.lastSurrogate && IsSurrogateLow(HexValue(s.str.hex))
    ensures Feed(s, ch) ==
      Err(ScanError(UnknownChar(HexValue(s.str.hex), "unexpected lower surrogate"), s.startPos, s.curPos + 1))
  {
  }

  /** A high surrogate followed by a `\u` escape of anything but a low surrogate is rejected. */
  lemma HighWithoutLowRejected(s: ScanData, ch: CodePoint)
    requires Valid(s) && s.state == ScannerState.STRING && s.str.state == HEX && |s.str.hex| == 4
    requires s.str.lastSurrogate && !IsSurrogateLow(HexValue(s.str.hex))
    ensures Feed(s, ch) ==
      Err(ScanError(UnknownChar(HexValue(s.str.hex), "expect lower surrogate"), s.startPos, s.curPos + 1))
  {
  }

  /**
   * A low surrogate after a high one replaces the high surrogate by the supplementary code
   * point the pair encodes: the pair adds exactly one code point to the string.
   */
  lemma SurrogatePairJoined(s: ScanData, ch: CodePoint)
    requires Valid(s) && s.state == ScannerState.STRING && s.str.state == HEX && |s.str.hex| == 4
    requires s.str.lastSurrogate && IsSurrogateLow(HexValue(s.str.hex))
    ensures var v := s.str.value;
      var joined := v[..|v| - 1] + [AssembleSurrogate(v[|v| - 1], HexValue(s.str.hex))];
      |joined| == |v| && 0x10000 <= joined[|v| - 1] <= 0x10FFFF &&
      Feed(s, ch) == Run(Advance(s).(str := StringState(NORMAL, joined, [], false)), ch)
  {
  }

  // ----- Comments -----

  /** '/' must be followed by '/' or '*'. */
  lemma CommentNeedsSecondChar(s: ScanData, ch: CodePoint)
    requires Valid(s) && s.state == ScannerState.COMMENT && s.comment.state == SLASH && ch != Slash && ch != Star
    ensures Feed(s, ch) == Err(ScanError(UnknownChar(ch, "expect '/' or '*'"), s.startPos, s.curPos + 1))
  {
  }

  /** The second character of a comment opener chooses a line comment or a block comment. */
  lemma CommentOpened(s: ScanData, ch: CodePoint)
    requires Valid(s) && s.state == ScannerState.COMMENT && s.comment.state == SLASH && (ch == Slash || ch == Star)
    ensures Feed(s, ch) == Ok(Advance(s).(comment := s.comment.(state := if ch == Slash then SLASH_DOUBLE else STAR_BEGIN)))
  {
  }

  /** Inside a comment, any character that does not end or close it is appended to its text. */
  lemma CommentTextKept(s: ScanData, ch: CodePoint)
    requires Valid(s) && s.state == ScannerState.COMMENT && ch != NUL
    requires (s.comment.state == SLASH_DOUBLE && ch != LineFeed) || (s.comment.state == STAR_BEGIN && ch != Star)
    ensures Feed(s, ch) == Ok(Advance(s).(comment := s.comment.(value := s.comment.value + [ch])))
  {
  }

  /** In a block comment, `*` may start the closing pair. */
  lemma BlockCommentStar(s: ScanData)
    requires Valid(s) && s.state == ScannerState.COMMENT && s.comment.state == STAR_BEGIN
    ensures Feed(s, Star) == Ok(Advance(s).(comment := s.comment.(state := STAR_MAY_END)))
  {
  }

  /** A line comment ends at the newline, which belongs to it. */
  lemma LineCommentEndsAtNewline(s: ScanData)
    requires Valid(s) && s.state == ScannerState.COMMENT && s.comment.state == SLASH_DOUBLE
    ensures Feed(s, LineFeed) == Ok(Advance(s).(state := ScannerState.INIT, comment := DefaultComment,
                                                  buffer := s.buffer + [Token(Comment(s.comment.value), s.startPos, s.curPos + 1)]))
  {
  }

  /** A line comment may also end the input: the comment is emitted, then END at the same position. */
  lemma LineCommentAtEnd(s: ScanData)
    requires Valid(s) && s.state == ScannerState.COMMENT && s.comment.state == SLASH_DOUBLE
    ensures var p := s.curPos + 1;
      Feed(s, NUL) == Ok(Advance(s).(state := ENDED, comment := DefaultComment, startPos := p,
                                     buffer := s.buffer + [Token(Comment(s.comment.value), s.startPos, p), Token(End, p, p)]))
  {
    var t := FinishComment(Advance(s));
    assert Step(Advance(s), NUL) == Redo(t);
    var p := s.curPos + 1;
    assert Run(t, NUL) == Ok(t.(startPos := p, state := ENDED, buffer := t.buffer + [Token(End, p, p)]));
    assert t.buffer + [Token(End, p, p)] == s.buffer + [Token(Comment(s.comment.value), s.startPos, p), Token(End, p, p)];
  }

  /** A block comment must be closed before the input ends. */
  lemma BlockCommentUnterminated(s: ScanData)
    requires Valid(s) && s.state == ScannerState.COMMENT && s.comment.state == STAR_BEGIN
    ensures Feed(s, NUL) == Err(ScanError(UnknownChar(NUL, "expect '*/'"), s.startPos, s.curPos + 1))
  {
  }

  /** `*` then `/` closes a block comment; the closing pair is not part of its text. */
  lemma BlockCommentEnds(s: ScanData)
    requires Valid(s) && s.state == ScannerState.COMMENT && s.comment.state == STAR_MAY_END
    ensures Feed(s, Slash) == Ok(Advance(s).(state := ScannerState.INIT, comment := DefaultComment,
                                               buffer := s.buffer + [Token(Comment(s.comment.value), s.startPos, s.curPos + 1)]))
  {
  }

  /** A `*` not followed by `/` is comment text, and the next character is read as text again. */
  lemma StarKeptInComment(s: ScanData, ch: CodePoint)
    requires Valid(s) && s.state == ScannerState.COMMENT && s.comment.state == STAR_MAY_END && ch != Slash
    ensures Feed(s, ch) == Run(Advance(s).(comment := CommentState(STAR_BEGIN, s.comment.value + [Star])), ch)
  {
  }
}
