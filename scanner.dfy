/**
 * The Scanner object. Its fields are the fields of ScanData, and each method updates them
 * in place exactly as the corresponding handler of the source does. Every method is proved
 * against the pure transition functions of ScanSpec: what it reports (an error, or the new
 * field values) is what `Run` / `Feed` compute from the fields it started with. Raising a
 * TokenizerError is modelled as returning `Some(error)`; the caller then stops.
 */
module ScannerImpl {
  import opened Wrappers
  import opened Chars
  import opened Tokens
  import opened Numbers
  import opened ScanSpec

  /** `err` and the new state `now` are what the spec result `r` says. */
  predicate Reports(r: Result<ScanData, ScanError>, err: Option<ScanError>, now: ScanData)
  {
    match r
    case Ok(t) => err.None? && now == t
    case Err(e) => err == Some(e)
  }

  class Scanner {
    var state: ScannerState
    var idValue: seq<CodePoint>
    var num: NumberState
    var str: StringState
    var comment: CommentState
    var startPos: Pos
    var prevPos: Pos
    var curPos: Pos
    var buffer: seq<Token>

    function Data(): ScanData
      reads this
    {
      ScanData(state, idValue, num, str, comment, startPos, prevPos, curPos, buffer)
    }

    ghost predicate Valid()
      reads this
    {
      ScanSpec.Valid(Data())
    }

    constructor ()
      ensures Data() == Initial && Valid()
    {
      state := ScannerState.INIT;
      idValue := [];
      num := DefaultNumber;
      str := DefaultString;
      comment := DefaultComment;
      startPos, prevPos, curPos := 0, 0, 0;
      buffer := [];
    }

    /** Scanner::reset: back to a freshly constructed scanner. */
    method Reset()
      modifies this
      ensures Data() == Initial && Valid()
    {
      state := ScannerState.INIT;
      idValue := [];
      num := DefaultNumber;
      str := DefaultString;
      comment := DefaultComment;
      startPos, prevPos, curPos := 0, 0, 0;
      buffer := [];
    }

    /** Scanner::pop: take the oldest buffered token, or nothing when the buffer is empty. */
    method Pop() returns (tok: Option<Token>)
      modifies this
      ensures old(buffer) == [] ==> tok.None? && buffer == []
      ensures old(buffer) != [] ==> tok == Some(old(buffer)[0]) && buffer == old(buffer)[1..]
      ensures Data() == old(Data()).(buffer := buffer)
    {
      if buffer == [] {
        tok := None;
      } else {
        tok := Some(buffer[0]);
        buffer := buffer[1..];
      }
    }

    /** Scanner::feed. */
    method Feed(ch: CodePoint) returns (err: Option<ScanError>)
      requires Valid()
      modifies this
      ensures Reports(ScanSpec.Feed(old(Data()), ch), err, Data())
    {
      prevPos := curPos;
      curPos := curPos + 1;
      err := Refeed(ch);
    }

    /** Scanner::refeed: dispatch on the top-level state. */
    method Refeed(ch: CodePoint) returns (err: Option<ScanError>)
      requires Valid()
      modifies this
      ensures Reports(Run(old(Data()), ch), err, Data())
      decreases Measure(Data(), ch), 1, 0
    {
      match state
      case INIT => err := StInit(ch);
      case ID => err := StId(ch);
      case NUMBER => err := StNumber(ch);
      case STRING => err := StString(ch);
      case COMMENT => err := StComment(ch);
      case ENDED => err := Some(Exception(Data(), ReceivedInEnded, None, None));
    }

    /** Scanner::st_init. */
    method StInit(ch: CodePoint) returns (err: Option<ScanError>)
      requires Valid() && state == ScannerState.INIT
      modifies this
      ensures Reports(Run(old(Data()), ch), err, Data())
      decreases Measure(Data(), ch), 0, 1
    {
      startPos := curPos;
      if ch == NUL {
        buffer := buffer + [Token(End, curPos, curPos)];
        state := ENDED;
        err := None;
      } else if ch in Whitespace {
        err := None;
      } else if ch in SingleChars {
        buffer := buffer + [Token(Single(ch), curPos, curPos)];
        err := None;
      } else if ch == Quote {
        state := ScannerState.STRING;
        err := Refeed(ch);
      } else if IsDigit(ch) || ch == Dot || ch == Plus || ch == Minus {
        state := NUMBER;
        err := Refeed(ch);
      } else if IsAlpha(ch) {
        state := ID;
        err := Refeed(ch);
      } else if ch == Slash {
        state := ScannerState.COMMENT;
        err := None;
      } else {
        err := Some(UnknownCharError(Data(), ch, "").error);
      }
    }

    /** Scanner::st_id. */
    method StId(ch: CodePoint) returns (err: Option<ScanError>)
      requires Valid() && state == ID
      modifies this
      ensures Reports(Run(old(Data()), ch), err, Data())
      decreases Measure(Data(), ch), 0, 1
    {
      if IsAlpha(ch) {
        idValue := idValue + [ch];
        err := None;
      } else {
        var kind := IdentifierKind(idValue);
        if kind.Some? {
          buffer := buffer + [Token(kind.value, startPos, prevPos)];
          idValue := [];
          state := ScannerState.INIT;
          err := Refeed(ch);
        } else {
          err := Some(Exception(Data(), BadIdentifier(idValue), Some(startPos), Some(prevPos)));
        }
      }
    }

    /** Scanner::st_number. */
    method StNumber(ch: CodePoint) returns (err: Option<ScanError>)
      requires Valid() && state == NUMBER
      modifies this
      ensures Reports(Run(old(Data()), ch), err, Data())
      decreases Measure(Data(), ch), 0, if num.state == NumberSubState.INIT then 3 else 2
    {
      err := None;
      match num.state
      case INIT =>
        num := num.(state := SIGNED);
        if ch == Minus {
          num := num.(numSign := -1);
        } else {
          err := StNumber(ch);
        }
      case SIGNED =>
        if ch == Zero {
          num := num.(state := ZEROED);
        } else if IsDigit(ch) {
          num := num.(intDigits := num.intDigits + [ch], state := INT_DIGIT);
        } else {
          err := Some(UnknownCharError(Data(), ch, "expect digit").error);
        }
      case ZEROED | INT_DIGIT =>
        err := NumberInteger(ch);
      case DOTTED | DOT_DIGIT =>
        err := NumberFraction(ch);
      case EXP | EXP_SIGNED | EXP_DIGIT =>
        err := NumberExponent(ch);
    }

    /** The ZEROED and INT_DIGIT phases of st_number. */
    method NumberInteger(ch: CodePoint) returns (err: Option<ScanError>)
      requires Valid() && state == NUMBER && num.state in {ZEROED, INT_DIGIT}
      modifies this
      ensures Reports(Run(old(Data()), ch), err, Data())
      decreases Measure(Data(), ch), 0, 1
    {
      err := None;
      if num.state == ZEROED {
        if ch == Dot {
          num := num.(state := DOTTED);
        } else if ch == LowerE || ch == UpperE {
          num := num.(state := EXP);
        } else {
          err := FinishNum(ch);
        }
      } else {
        if IsDigit(ch) {
          num := num.(intDigits := num.intDigits + [ch]);
        } else if ch == Dot {
          num := num.(state := DOTTED);
        } else if ch == LowerE || ch == UpperE {
          num := num.(state := EXP);
        } else {
          err := FinishNum(ch);
        }
      }
    }

    /** The DOTTED and DOT_DIGIT phases of st_number. */
    method NumberFraction(ch: CodePoint) returns (err: Option<ScanError>)
      requires Valid() && state == NUMBER && num.state in {DOTTED, DOT_DIGIT}
      modifies this
      ensures Reports(Run(old(Data()), ch), err, Data())
      decreases Measure(Data(), ch), 0, 1
    {
      err := None;
      if num.state == DOTTED {
        if IsDigit(ch) {
          num := num.(dotDigits := num.dotDigits + [ch], state := DOT_DIGIT);
        } else {
          err := Some(UnknownCharError(Data(), ch, "expect digit").error);
        }
      } else {
        if IsDigit(ch) {
          num := num.(dotDigits := num.dotDigits + [ch]);
        } else if ch == LowerE || ch == UpperE {
          num := num.(state := EXP);
        } else {
          err := FinishNum(ch);
        }
      }
    }

    /** The EXP, EXP_SIGNED and EXP_DIGIT phases of st_number. */
    method NumberExponent(ch: CodePoint) returns (err: Option<ScanError>)
      requires Valid() && state == NUMBER && num.state in {EXP, EXP_SIGNED, EXP_DIGIT}
      modifies this
      ensures Reports(Run(old(Data()), ch), err, Data())
      decreases Measure(Data(), ch), 0, 1
    {
      err := None;
      if num.state == EXP {
        if ch == Plus || ch == Minus {
          num := num.(state := EXP_SIGNED);
          if ch == Minus {
            num := num.(expSign := -1);
          }
        } else if IsDigit(ch) {
          num := num.(expDigits := num.expDigits + [ch], state := EXP_DIGIT);
        } else {
          err := Some(UnknownCharError(Data(), ch, "expect digit or sign").error);
        }
      } else if num.state == EXP_SIGNED {
        if IsDigit(ch) {
          num := num.(expDigits := num.expDigits + [ch], state := EXP_DIGIT);
        } else {
          err := Some(UnknownCharError(Data(), ch, "expect digit").error);
        }
      } else {
        if IsDigit(ch) {
          num := num.(expDigits := num.expDigits + [ch]);
        } else {
          err := FinishNum(ch);
        }
      }
    }

    /** Scanner::finish_num: emit the number, which ended at the previous character, and re-feed. */
    method FinishNum(ch: CodePoint) returns (err: Option<ScanError>)
      requires Valid() && state == NUMBER && num.state in {ZEROED, INT_DIGIT, DOT_DIGIT, EXP_DIGIT}
      modifies this
      ensures Reports(Run(ScanSpec.FinishNum(old(Data())).next, ch), err, Data())
      decreases Measure(Data(), ch), 0, 0
    {
      ghost var next := ScanSpec.FinishNum(Data()).next;
      var kind := ToToken(num);
      buffer := buffer + [Token(kind, startPos, prevPos)];
      num := DefaultNumber;
      state := ScannerState.INIT;
      assert Data() == next;
      err := Refeed(ch);
    }

    /** Scanner::st_string. */
    method StString(ch: CodePoint) returns (err: Option<ScanError>)
      requires Valid() && state == ScannerState.STRING
      modifies this
      ensures Reports(Run(old(Data()), ch), err, Data())
      decreases Measure(Data(), ch), 0, 1
    {
      err := None;
      match str.state
      case INIT =>
        if ch != Quote {
          err := Some(UnknownCharError(Data(), ch, "expect double quote").error);
        } else {
          str := str.(state := NORMAL);
        }
      case NORMAL =>
        if ch == Quote {
          buffer := buffer + [Token(Str(str.value), startPos, curPos)];
          str := DefaultString;
          state := ScannerState.INIT;
        } else if ch == Backslash {
          str := str.(state := ESCAPE);
        } else if ch < 0x20 {
          err := Some(UnknownCharError(Data(), ch, "unescaped control char").error);
        } else {
          str := str.(value := str.value + [ch]);
        }
      case ESCAPE =>
        if ch in EscapeMap {
          str := str.(value := str.value + [EscapeMap[ch]], state := NORMAL);
        } else if ch == LetterU {
          str := str.(state := HEX);
        } else {
          err := Some(UnknownCharError(Data(), ch, "unknown escapes").error);
        }
      case HEX =>
        if |str.hex| == 4 {
          err := DecodeHex(ch);
        } else if IsXDigit(ch) {
          str := str.(hex := str.hex + [ToLower(ch)]);
        } else {
          err := Some(UnknownCharError(Data(), ch, "expect hex digit").error);
        }
      case SURROGATED =>
        if ch == Backslash {
          str := str.(state := SURROGATED_ESCAPE);
        } else {
          err := Some(UnknownCharError(Data(), ch, "expect lower surrogate escape").error);
        }
      case SURROGATED_ESCAPE =>
        if ch == LetterU {
          str := str.(state := HEX);
        } else {
          err := Some(UnknownCharError(Data(), ch, "expect lower surrogate escape").error);
        }
    }

    /** The HEX phase of Scanner::st_string once four hex digits are buffered. */
    method DecodeHex(ch: CodePoint) returns (err: Option<ScanError>)
      requires Valid() && state == ScannerState.STRING && str.state == HEX && |str.hex| == 4
      modifies this
      ensures var r := ScanSpec.DecodeHex(old(Data()));
        match r
        case Redo(n) => Reports(Run(n, ch), err, Data())
        case Fail(e) => err == Some(e)
        case Done(_) => false
      decreases Measure(Data(), ch), 0, 0
    {
      var nextState := NORMAL;
      var uch := HexValue(str.hex);
      if str.lastSurrogate {
        if IsSurrogateLow(uch) {
          var hi := str.value[|str.value| - 1];
          str := str.(value := str.value[..|str.value| - 1]);
          uch := AssembleSurrogate(hi, uch);
        } else {
          return Some(UnknownCharError(Data(), uch, "expect lower surrogate").error);
        }
        str := str.(lastSurrogate := false);
      } else {
        if IsSurrogateHigh(uch) {
          str := str.(lastSurrogate := true);
          nextState := SURROGATED;
        } else if IsSurrogateLow(uch) {
          return Some(UnknownCharError(Data(), uch, "unexpected lower surrogate").error);
        }
      }
      str := str.(value := str.value + [uch], hex := [], state := nextState);
      err := Refeed(ch);
    }

    /** Scanner::finish_comment. */
    method FinishComment()
      requires Valid() && state == ScannerState.COMMENT
      modifies this
      ensures Data() == ScanSpec.FinishComment(old(Data()))
    {
      buffer := buffer + [Token(Comment(comment.value), startPos, curPos)];
      comment := DefaultComment;
      state := ScannerState.INIT;
    }

    /** Scanner::st_comment. */
    method StComment(ch: CodePoint) returns (err: Option<ScanError>)
      requires Valid() && state == ScannerState.COMMENT
      modifies this
      ensures Reports(Run(old(Data()), ch), err, Data())
      decreases Measure(Data(), ch), 0, 1
    {
      err := None;
      match comment.state
      case SLASH =>
        if ch == Slash {
          comment := comment.(state := SLASH_DOUBLE);
        } else if ch == Star {
          comment := comment.(state := STAR_BEGIN);
        } else {
          err := Some(UnknownCharError(Data(), ch, "expect '/' or '*'").error);
        }
      case SLASH_DOUBLE =>
        if ch == LineFeed {
          FinishComment();
        } else if ch == NUL {
          FinishComment();
          err := Refeed(ch);
        } else {
          comment := comment.(value := comment.value + [ch]);
        }
      case STAR_BEGIN =>
        if ch == Star {
          comment := comment.(state := STAR_MAY_END);
        } else if ch == NUL {
          err := Some(UnknownCharError(Data(), ch, "expect '*/'").error);
        } else {
          comment := comment.(value := comment.value + [ch]);
        }
      case STAR_MAY_END =>
        if ch == Slash {
          FinishComment();
        } else {
          comment := comment.(value := comment.value + [Star], state := STAR_BEGIN);
          err := Refeed(ch);
        }
    }
  }
}
