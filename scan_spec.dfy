/**
 * The character-level scanner as a state-transition function.
 *
 * A snapshot `ScanData` holds everything the scanner object holds. One call of a
 * state handler is `Step`: it finishes the character (`Done`), asks for the same
 * character to be dispatched again under the state it has just entered (`Redo`), or
 * raises a lexical error (`Fail`). `Run` follows re-feeds until the character is
 * consumed; `Measure` strictly decreases on every re-feed, so this always ends.
 * `Feed` first advances the position cursor, as Scanner::feed does.
 */
module ScanSpec {
  import opened Wrappers
  import opened Chars
  import opened Decimals
  import opened Tokens
  import opened Numbers

  datatype ScannerState = INIT | ID | NUMBER | STRING | COMMENT | ENDED

  datatype StringSubState = INIT | NORMAL | ESCAPE | HEX | SURROGATED | SURROGATED_ESCAPE

  /** The string being read: decoded code points so far, pending hex digits of a `\u` escape. */
  datatype StringState = StringState(
    state: StringSubState,
    value: seq<CodePoint>,
    hex: seq<CodePoint>,
    lastSurrogate: bool)

  const DefaultString := StringState(StringSubState.INIT, [], [], false)

  datatype CommentSubState = SLASH | SLASH_DOUBLE | STAR_BEGIN | STAR_MAY_END

  datatype CommentState = CommentState(state: CommentSubState, value: seq<CodePoint>)

  const DefaultComment := CommentState(SLASH, [])

  /** The message of a TokenizerError, by the case that raised it. */
  datatype Message =
    | ReceivedInEnded                                 // "received char in ENDED state"
    | BadIdentifier(id: seq<CodePoint>)               // "bad identifier: '<id>', expect null|true|false"
    | UnknownChar(ch: CodePoint, additional: string)  // "Unknown char: <ch>[, <additional>]"

  datatype ScanError = ScanError(message: Message, start: Pos, end: Pos)

  /** Every field of a Scanner object. */
  datatype ScanData = ScanData(
    state: ScannerState,
    idValue: seq<CodePoint>,
    num: NumberState,
    str: StringState,
    comment: CommentState,
    startPos: Pos,
    prevPos: Pos,
    curPos: Pos,
    buffer: seq<Token>)

  const Initial := ScanData(ScannerState.INIT, [], DefaultNumber, DefaultString, DefaultComment, 0, 0, 0, [])

  datatype Outcome = Done(next: ScanData) | Redo(next: ScanData) | Fail(error: ScanError)

  const Quote: CodePoint := '"' as nat
  const Backslash: CodePoint := '\\' as nat
  const Slash: CodePoint := '/' as nat
  const Star: CodePoint := '*' as nat
  const Minus: CodePoint := '-' as nat
  const Plus: CodePoint := '+' as nat
  const Dot: CodePoint := '.' as nat
  const Zero: CodePoint := '0' as nat
  const LowerE: CodePoint := 'e' as nat
  const UpperE: CodePoint := 'E' as nat
  const LetterU: CodePoint := 'u' as nat
  const LineFeed: CodePoint := '\n' as nat

  const Whitespace: set<CodePoint> := {' ' as nat, '\t' as nat, '\n' as nat, '\r' as nat}

  const SingleChars: set<CodePoint> := {'[' as nat, ']' as nat, '{' as nat, '}' as nat, ',' as nat, ':' as nat}

  /** Scanner::escape_map: the single-character escapes of section 7 of RFC 8259. */
  const EscapeMap: map<CodePoint, CodePoint> := map[
    'b' as nat := 0x08, 'f' as nat := 0x0C, 'n' as nat := 0x0A, 'r' as nat := 0x0D, 't' as nat := 0x09,
    '"' as nat := '"' as nat, '\\' as nat := '\\' as nat, '/' as nat := '/' as nat]

  predicate ValidString(ss: StringState)
  {
    |ss.hex| <= 4 && (forall i :: 0 <= i < |ss.hex| ==> IsLowerXDigit(ss.hex[i])) &&
    (ss.state != HEX ==> ss.hex == []) &&
    (ss.state == StringSubState.INIT ==> ss == DefaultString) &&
    (ss.state == SURROGATED || ss.state == SURROGATED_ESCAPE ==> ss.lastSurrogate) &&
    (ss.lastSurrogate ==>
       (ss.state == SURROGATED || ss.state == SURROGATED_ESCAPE || ss.state == HEX) &&
       |ss.value| > 0 && IsSurrogateHigh(ss.value[|ss.value| - 1]))
  }

  /**
   * The scanner's invariant: the buffers of the lexemes not being read are in their
   * default state, and each buffer holds only what its sub-machine can have put there.
   */
  predicate Valid(s: ScanData)
  {
    (s.state != ID ==> s.idValue == []) &&
    (forall i :: 0 <= i < |s.idValue| ==> IsAlpha(s.idValue[i])) &&
    (s.state != NUMBER ==> s.num == DefaultNumber) && ValidNumber(s.num) &&
    (s.state != ScannerState.STRING ==> s.str == DefaultString) && ValidString(s.str) &&
    (s.state != ScannerState.COMMENT ==> s.comment == DefaultComment) &&
    (s.comment.state == SLASH ==> s.comment.value == [])
  }

  /** An upper bound on the number of handler calls the character `ch` still causes. */
  function Measure(s: ScanData, ch: CodePoint): nat
  {
    match s.state
    case INIT => 3
    case ID => if IsAlpha(ch) then 1 else 4
    case NUMBER =>
      if s.num.state in {ZEROED, INT_DIGIT, DOT_DIGIT, EXP_DIGIT} then 4 else 1
    case STRING => if s.str.state == HEX && |s.str.hex| == 4 then 2 else 1
    case COMMENT =>
      if s.comment.state == SLASH_DOUBLE && ch == NUL then 4
      else if s.comment.state == STAR_MAY_END && ch != Slash then 2
      else 1
    case ENDED => 1
  }

  /** Scanner::exception: a position left unset defaults to the lexeme start or to the current position. */
  function Exception(s: ScanData, msg: Message, start: Option<Pos>, end: Option<Pos>): (e: ScanError)
    ensures e.message == msg
    ensures e.start == (if start.Some? then start.value else s.startPos)
    ensures e.end == (if end.Some? then end.value else s.curPos)
    ensures start.None? && end.None? && s.startPos <= s.curPos ==> e.start <= e.end
  {
    ScanError(msg, if start.Some? then start.value else s.startPos, if end.Some? then end.value else s.curPos)
  }

  /** Scanner::unknown_char: an error spanning the current lexeme up to the current position. */
  function UnknownCharError(s: ScanData, ch: CodePoint, additional: string): (r: Outcome)
    ensures r == Fail(ScanError(UnknownChar(ch, additional), s.startPos, s.curPos))
    ensures s.startPos <= s.curPos ==> r.error.start <= r.error.end <= s.curPos
  {
    Fail(Exception(s, UnknownChar(ch, additional), None, None))
  }

  function Emit(s: ScanData, kind: TokenKind, start: Pos, end: Pos): ScanData
  {
    s.(buffer := s.buffer + [Token(kind, start, end)])
  }

  /** Scanner::st_init. */
  function StInit(s: ScanData, ch: CodePoint): (r: Outcome)
    requires Valid(s) && s.state == ScannerState.INIT
    ensures r.Done? || r.Redo? ==> Valid(r.next)
    ensures r.Redo? ==> Measure(r.next, ch) < Measure(s, ch)
  {
    var s' := s.(startPos := s.curPos);
    if ch == NUL then Done(Emit(s', End, s.curPos, s.curPos).(state := ENDED))
    else if ch in Whitespace then Done(s')
    else if ch in SingleChars then Done(Emit(s', Single(ch), s.curPos, s.curPos))
    else if ch == Quote then Redo(s'.(state := ScannerState.STRING))
    else if IsDigit(ch) || ch == Dot || ch == Plus || ch == Minus then Redo(s'.(state := NUMBER))
    else if IsAlpha(ch) then Redo(s'.(state := ID))
    else if ch == Slash then Done(s'.(state := ScannerState.COMMENT))
    else UnknownCharError(s', ch, "")
  }

  /** The literal an identifier spells, if any. */
  function IdentifierKind(id: seq<CodePoint>): (r: Option<TokenKind>)
    ensures r.Some? ==> r.value == Nil || r.value.Bool?
    ensures r.Some? ==> 4 <= |id| <= 5 && forall i :: 0 <= i < |id| ==> 'a' as nat <= id[i] <= 'z' as nat
  {
    if id == Text("null") then Some(Nil)
    else if id == Text("true") then Some(Bool(true))
    else if id == Text("false") then Some(Bool(false))
    else None
  }

  /** Scanner::st_id. */
  function StId(s: ScanData, ch: CodePoint): (r: Outcome)
    requires Valid(s) && s.state == ID
    ensures r.Done? || r.Redo? ==> Valid(r.next)
    ensures r.Redo? ==> Measure(r.next, ch) < Measure(s, ch)
  {
    if IsAlpha(ch) then Done(s.(idValue := s.idValue + [ch]))
    else match IdentifierKind(s.idValue)
      case Some(k) => Redo(Emit(s, k, s.startPos, s.prevPos).(idValue := [], state := ScannerState.INIT))
      case None => Fail(Exception(s, BadIdentifier(s.idValue), Some(s.startPos), Some(s.prevPos)))
  }

  /** Scanner::finish_num: emit the number ending at the previous character and re-feed this one in INIT. */
  function FinishNum(s: ScanData): (r: Outcome)
    requires Valid(s) && s.state == NUMBER
    ensures r.Redo? && Valid(r.next) && r.next.state == ScannerState.INIT
  {
    Redo(Emit(s, NumberToken(s.num), s.startPos, s.prevPos).(num := DefaultNumber, state := ScannerState.INIT))
  }

  /** Scanner::st_number. Its INIT phase calls itself directly, as the source does. */
  function StNumber(s: ScanData, ch: CodePoint): (r: Outcome)
    requires Valid(s) && s.state == NUMBER
    ensures r.Done? || r.Redo? ==> Valid(r.next)
    ensures r.Redo? ==> Measure(r.next, ch) < Measure(s, ch)
    decreases if s.num.state == NumberSubState.INIT then 1 else 0
  {
    var ns := s.num;
    match ns.state
    case INIT =>
      var s' := s.(num := ns.(state := SIGNED));
      if ch == Minus then Done(s'.(num := s'.num.(numSign := -1))) else StNumber(s', ch)
    case SIGNED =>
      if ch == Zero then Done(s.(num := ns.(state := ZEROED)))
      else if IsDigit(ch) then Done(s.(num := ns.(intDigits := ns.intDigits + [ch], state := INT_DIGIT)))
      else UnknownCharError(s, ch, "expect digit")
    case ZEROED | INT_DIGIT => NumberInteger(s, ch)
    case DOTTED | DOT_DIGIT => NumberFraction(s, ch)
    case EXP | EXP_SIGNED | EXP_DIGIT => NumberExponent(s, ch)
  }

  /** The ZEROED and INT_DIGIT phases of st_number: after the integer part's first digit. */
  function NumberInteger(s: ScanData, ch: CodePoint): (r: Outcome)
    requires Valid(s) && s.state == NUMBER && s.num.state in {ZEROED, INT_DIGIT}
    ensures r.Done? ==> Valid(r.next)
    ensures r.Redo? ==> r == FinishNum(s)
    ensures !r.Fail?
    ensures r.Done? <==> ch == Dot || ch == LowerE || ch == UpperE || (s.num.state == INT_DIGIT && IsDigit(ch))
    ensures r.Done? ==> r.next == s.(num := r.next.num)
    ensures r.Done? && IsDigit(ch) ==> r.next.num == s.num.(intDigits := s.num.intDigits + [ch])
    ensures ch == Dot ==> r.Done? && r.next.num == s.num.(state := DOTTED)
    ensures ch == LowerE || ch == UpperE ==> r.Done? && r.next.num == s.num.(state := EXP)
  {
    var ns := s.num;
    if ns.state == ZEROED then
      if ch == Dot then Done(s.(num := ns.(state := DOTTED)))
      else if ch == LowerE || ch == UpperE then Done(s.(num := ns.(state := EXP)))
      else FinishNum(s)
    else
      if IsDigit(ch) then Done(s.(num := ns.(intDigits := ns.intDigits + [ch])))
      else if ch == Dot then Done(s.(num := ns.(state := DOTTED)))
      else if ch == LowerE || ch == UpperE then Done(s.(num := ns.(state := EXP)))
      else FinishNum(s)
  }

  /** The DOTTED and DOT_DIGIT phases of st_number: the fraction part. */
  function NumberFraction(s: ScanData, ch: CodePoint): (r: Outcome)
    requires Valid(s) && s.state == NUMBER && s.num.state in {DOTTED, DOT_DIGIT}
    ensures r.Done? ==> Valid(r.next)
    ensures r.Redo? ==> s.num.state == DOT_DIGIT && r == FinishNum(s)
    ensures r.Fail? <==> s.num.state == DOTTED && !IsDigit(ch)
    ensures r.Fail? ==> r.error == ScanError(UnknownChar(ch, "expect digit"), s.startPos, s.curPos)
    ensures r.Done? ==> r.next == s.(num := r.next.num)
    ensures r.Done? ==> IsDigit(ch) || (s.num.state == DOT_DIGIT && (ch == LowerE || ch == UpperE))
    ensures IsDigit(ch) ==> r.Done? && r.next.num == s.num.(dotDigits := s.num.dotDigits + [ch], state := DOT_DIGIT)
    ensures s.num.state == DOT_DIGIT && (ch == LowerE || ch == UpperE) ==> r.Done? && r.next.num == s.num.(state := EXP)
  {
    var ns := s.num;
    if ns.state == DOTTED then
      if IsDigit(ch) then Done(s.(num := ns.(dotDigits := ns.dotDigits + [ch], state := DOT_DIGIT)))
      else UnknownCharError(s, ch, "expect digit")
    else
      if IsDigit(ch) then Done(s.(num := ns.(dotDigits := ns.dotDigits + [ch])))
      else if ch == LowerE || ch == UpperE then Done(s.(num := ns.(state := EXP)))
      else FinishNum(s)
  }

  /** The EXP, EXP_SIGNED and EXP_DIGIT phases of st_number: the exponent. */
  function NumberExponent(s: ScanData, ch: CodePoint): (r: Outcome)
    requires Valid(s) && s.state == NUMBER && s.num.state in {EXP, EXP_SIGNED, EXP_DIGIT}
    ensures r.Done? ==> Valid(r.next)
    ensures r.Redo? ==> s.num.state == EXP_DIGIT && r == FinishNum(s)
    ensures r.Fail? <==> !IsDigit(ch) && (s.num.state == EXP_SIGNED || (s.num.state == EXP && ch != Plus && ch != Minus))
    ensures r.Fail? ==>
      r.error == ScanError(UnknownChar(ch, if s.num.state == EXP then "expect digit or sign" else "expect digit"),
                           s.startPos, s.curPos)
    ensures r.Done? ==> r.next == s.(num := r.next.num)
    ensures IsDigit(ch) ==> r.Done? && r.next.num == s.num.(expDigits := s.num.expDigits + [ch], state := EXP_DIGIT)
    ensures s.num.state == EXP && (ch == Plus || ch == Minus) ==>
      r.Done? && r.next.num == s.num.(state := EXP_SIGNED, expSign := if ch == Minus then -1 else 1)
    ensures r.Done? ==> IsDigit(ch) || (s.num.state == EXP && (ch == Plus || ch == Minus))
  {
    var ns := s.num;
    if ns.state == EXP then
      if ch == Plus || ch == Minus then
        Done(s.(num := ns.(state := EXP_SIGNED, expSign := if ch == Minus then -1 else ns.expSign)))
      else if IsDigit(ch) then Done(s.(num := ns.(expDigits := ns.expDigits + [ch], state := EXP_DIGIT)))
      else UnknownCharError(s, ch, "expect digit or sign")
    else if ns.state == EXP_SIGNED then
      if IsDigit(ch) then Done(s.(num := ns.(expDigits := ns.expDigits + [ch], state := EXP_DIGIT)))
      else UnknownCharError(s, ch, "expect digit")
    else
      if IsDigit(ch) then Done(s.(num := ns.(expDigits := ns.expDigits + [ch])))
      else FinishNum(s)
  }

  /** The HEX phase once four digits are buffered: decode them and re-feed the current character. */
  function DecodeHex(s: ScanData): (r: Outcome)
    requires Valid(s) && s.state == ScannerState.STRING && s.str.state == HEX && |s.str.hex| == 4
    ensures r.Redo? || r.Fail?
    ensures r.Redo? ==> Valid(r.next) && r.next.state == ScannerState.STRING
    ensures r.Redo? ==> r.next.str.state == (if r.next.str.lastSurrogate then SURROGATED else NORMAL)
    ensures r.Redo? ==> r.next == s.(str := r.next.str)
  {
    var ss := s.str;
    var uch := HexValue(ss.hex);
    if ss.lastSurrogate then
      if IsSurrogateLow(uch) then
        var hi := ss.value[|ss.value| - 1];
        Redo(s.(str := ss.(value := ss.value[..|ss.value| - 1] + [AssembleSurrogate(hi, uch)],
                            hex := [], lastSurrogate := false, state := NORMAL)))
      else
        UnknownCharError(s, uch, "expect lower surrogate")
    else if IsSurrogateHigh(uch) then
      Redo(s.(str := ss.(value := ss.value + [uch], hex := [], lastSurrogate := true, state := SURROGATED)))
    else if IsSurrogateLow(uch) then
      UnknownCharError(s, uch, "unexpected lower surrogate")
    else
      Redo(s.(str := ss.(value := ss.value + [uch], hex := [], state := NORMAL)))
  }

  /** Scanner::st_string. */
  function StString(s: ScanData, ch: CodePoint): (r: Outcome)
    requires Valid(s) && s.state == ScannerState.STRING
    ensures r.Done? || r.Redo? ==> Valid(r.next)
    ensures r.Redo? ==> Measure(r.next, ch) < Measure(s, ch)
    ensures r.Done? || r.Redo? ==>
      if s.str.state == NORMAL && ch == Quote
      then r.next == Emit(s, Str(s.str.value), s.startPos, s.curPos).(str := DefaultString, state := ScannerState.INIT)
      else r.next == s.(str := r.next.str)
  {
    var ss := s.str;
    match ss.state
    case INIT =>
      if ch != Quote then UnknownCharError(s, ch, "expect double quote")
      else Done(s.(str := ss.(state := NORMAL)))
    case NORMAL => StringNormal(s, ch)
    case ESCAPE => StringEscape(s, ch)
    case HEX => StringHex(s, ch)
    case SURROGATED =>
      if ch == Backslash then Done(s.(str := ss.(state := SURROGATED_ESCAPE)))
      else UnknownCharError(s, ch, "expect lower surrogate escape")
    case SURROGATED_ESCAPE =>
      if ch == LetterU then Done(s.(str := ss.(state := HEX)))
      else UnknownCharError(s, ch, "expect lower surrogate escape")
  }

  /** The NORMAL phase of st_string: a character of the string's body. */
  function StringNormal(s: ScanData, ch: CodePoint): (r: Outcome)
    requires Valid(s) && s.state == ScannerState.STRING && s.str.state == NORMAL
    ensures r.Done? || r.Fail?
    ensures r.Done? ==> Valid(r.next)
    ensures r.Done? && ch != Quote ==> r.next == s.(str := r.next.str)
  {
    var ss := s.str;
    if ch == Quote then
      Done(Emit(s, Str(ss.value), s.startPos, s.curPos).(str := DefaultString, state := ScannerState.INIT))
    else if ch == Backslash then Done(s.(str := ss.(state := ESCAPE)))
    else if ch < 0x20 then UnknownCharError(s, ch, "unescaped control char")
    else Done(s.(str := ss.(value := ss.value + [ch])))
  }

  /** The ESCAPE phase of st_string: the letter after a backslash. */
  function StringEscape(s: ScanData, ch: CodePoint): (r: Outcome)
    requires Valid(s) && s.state == ScannerState.STRING && s.str.state == ESCAPE
    ensures r.Done? || r.Fail?
    ensures r.Done? ==> Valid(r.next) && r.next == s.(str := r.next.str)
  {
    var ss := s.str;
    if ch in EscapeMap then Done(s.(str := ss.(value := ss.value + [EscapeMap[ch]], state := NORMAL)))
    else if ch == LetterU then Done(s.(str := ss.(state := HEX)))
    else UnknownCharError(s, ch, "unknown escapes")
  }

  /** The HEX phase of st_string: buffer up to four hex digits, then decode them. */
  function StringHex(s: ScanData, ch: CodePoint): (r: Outcome)
    requires Valid(s) && s.state == ScannerState.STRING && s.str.state == HEX
    ensures r.Done? || r.Redo? ==> Valid(r.next)
    ensures r.Redo? ==> |s.str.hex| == 4 && Measure(r.next, ch) < Measure(s, ch)
    ensures r.Done? || r.Redo? ==> r.next == s.(str := r.next.str)
  {
    var ss := s.str;
    if |ss.hex| == 4 then DecodeHex(s)
    else if IsXDigit(ch) then Done(s.(str := ss.(hex := ss.hex + [ToLower(ch)])))
    else UnknownCharError(s, ch, "expect hex digit")
  }

  /** Scanner::finish_comment: emit the comment ending at the current character, back to INIT. */
  function FinishComment(s: ScanData): (r: ScanData)
    requires Valid(s) && s.state == ScannerState.COMMENT
    ensures Valid(r) && r.state == ScannerState.INIT && r.comment == DefaultComment
    ensures r.buffer == s.buffer + [Token(Comment(s.comment.value), s.startPos, s.curPos)]
  {
    Emit(s, Comment(s.comment.value), s.startPos, s.curPos).(comment := DefaultComment, state := ScannerState.INIT)
  }

  /** Scanner::st_comment. */
  function StComment(s: ScanData, ch: CodePoint): (r: Outcome)
    requires Valid(s) && s.state == ScannerState.COMMENT
    ensures r.Done? || r.Redo? ==> Valid(r.next)
    ensures r.Redo? ==> Measure(r.next, ch) < Measure(s, ch)
  {
    var cs := s.comment;
    match cs.state
    case SLASH =>
      if ch == Slash then Done(s.(comment := cs.(state := SLASH_DOUBLE)))
      else if ch == Star then Done(s.(comment := cs.(state := STAR_BEGIN)))
      else UnknownCharError(s, ch, "expect '/' or '*'")
    case SLASH_DOUBLE =>
      if ch == LineFeed then Done(FinishComment(s))
      else if ch == NUL then Redo(FinishComment(s))
      else Done(s.(comment := cs.(value := cs.value + [ch])))
    case STAR_BEGIN =>
      if ch == Star then Done(s.(comment := cs.(state := STAR_MAY_END)))
      else if ch == NUL then UnknownCharError(s, ch, "expect '*/'")
      else Done(s.(comment := cs.(value := cs.value + [ch])))
    case STAR_MAY_END =>
      if ch == Slash then Done(FinishComment(s))
      else Redo(s.(comment := cs.(value := cs.value + [Star], state := STAR_BEGIN)))
  }

  /** One dispatch of Scanner::refeed on the top-level state. */
  function Step(s: ScanData, ch: CodePoint): (r: Outcome)
    requires Valid(s)
    ensures r.Done? || r.Redo? ==> Valid(r.next)
    ensures r.Redo? ==> Measure(r.next, ch) < Measure(s, ch)
  {
    match s.state
    case INIT => StInit(s, ch)
    case ID => StId(s, ch)
    case NUMBER => StNumber(s, ch)
    case STRING => StString(s, ch)
    case COMMENT => StComment(s, ch)
    case ENDED => Fail(Exception(s, ReceivedInEnded, None, None))
  }

  /** Scanner::refeed with its re-dispatches followed to the end. */
  function Run(s: ScanData, ch: CodePoint): (r: Result<ScanData, ScanError>)
    requires Valid(s)
    ensures r.Ok? ==> Valid(r.value)
    decreases Measure(s, ch)
  {
    match Step(s, ch)
    case Done(n) => Ok(n)
    case Redo(n) => Run(n, ch)
    case Fail(e) => Err(e)
  }

  /** SourcePos::add_char, with positions as character indices. */
  function Advance(s: ScanData): ScanData
  {
    s.(prevPos := s.curPos, curPos := s.curPos + 1)
  }

  /** Scanner::feed. */
  function Feed(s: ScanData, ch: CodePoint): (r: Result<ScanData, ScanError>)
    requires Valid(s)
    ensures r.Ok? ==> Valid(r.value)
  {
    Run(Advance(s), ch)
  }

  /** Feeding characters one after the other, stopping at the first error. */
  function FeedAll(s: ScanData, input: seq<CodePoint>): (r: Result<ScanData, ScanError>)
    requires Valid(s)
    ensures r.Ok? ==> Valid(r.value)
    decreases |input|
  {
    if input == [] then Ok(s)
    else match Feed(s, input[0])
      case Ok(t) => FeedAll(t, input[1..])
      case Err(e) => Err(e)
  }

  /** The scanning half of get_tokens: feed every character, then the NUL sentinel, and take the buffer. */
  function Tokenize(input: seq<CodePoint>): Result<seq<Token>, ScanError>
  {
    match FeedAll(Initial, input)
    case Err(e) => Err(e)
    case Ok(t) =>
      match Feed(t, NUL)
      case Ok(u) => Ok(u.buffer)
      case Err(e) => Err(e)
  }
}
