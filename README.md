# json_cxx scanner and document tree, in Dafny

This project models two parts of json_cxx, a small C++ JSON library:

- the character-level **scanner** (`src/scanner.cpp`);
- the **document tree** and the header-only part of the **parser** (`src/parser.h`).

## The scanner

The scanner is fed one code point at a time and ends with a NUL sentinel. It is a state machine. Its top-level states are INIT, ID, NUMBER, STRING, COMMENT and ENDED. Each lexeme has its own sub-state:

- number phases SIGNED, ZEROED, INT_DIGIT, DOTTED, DOT_DIGIT, EXP, EXP_SIGNED and EXP_DIGIT;
- the string phases escape, `\u` hex and UTF-16 surrogate;
- the line and block comment phases.

Finished tokens are appended to a FIFO buffer, which `pop` drains. Each token carries its start and end positions. A lexical error is a TokenizerError carrying a message and a range.

Numbers follow section 6 of RFC 8259, string escapes follow section 7, and a surrogate pair is joined as in section 2.2 of RFC 2781. `//` and `/* */` comments are an extension.

The scanner is modelled twice, and each level is proved against the one below:

- **`ScanSpec`** (`scan_spec.dfy`) gives the transition functions. `ScanData` is a snapshot of every field of the scanner. One state-handler call is `Step`. It either consumes the character (`Done`), asks for the same character to be dispatched again (`Redo`), or fails.
  - `Run` follows the re-dispatches. A measure that strictly decreases on each re-dispatch bounds them. `Feed` advances the cursor first.
  - `StNumber` and `StString` hand the later phases to one function per group of phases (`NumberInteger`, `NumberFraction`, `NumberExponent`, `StringNormal`, `StringEscape`, `StringHex`). Each holds exactly the branches of the corresponding arms of the source's `if`/`else if` chain. The class splits its methods the same way.
  - `Valid` is the invariant every handler keeps: the buffers of inactive lexemes are empty, and each buffer holds only what its phase can have put there.
- **`ScannerImpl.Scanner`** (`scanner.dfy`) is the object itself. It is a class with the source's fields, and its methods update them in place.
  - The handlers call `Refeed` recursively, as the source does, under a lexicographic `decreases`.
  - Each method's result and new fields are given exactly by a `ScanSpec` function of its old fields: the handlers and `Feed` by `Run` or `Feed`, `Pop` as the front of a FIFO buffer, `Reset` by `Initial`, and `FinishComment` and `DecodeHex` by their namesakes in `ScanSpec`.
- **`ScanProps`** proves that tokens come out in source order, that an identifier is never reported empty, that every error range lies within the input, and that a successful scan ends with END at the NUL. **`ScanRules`** proves each grammar rule as a lemma about one fed character. **`ScanExamples`** works through the input `01`.
- **`Helper.GetTokens`** is the `get_tokens` driver: feed each character, then NUL, then pop every token. It is proved to return what `Tokenize` specifies.

## Number payloads and the document tree

`Numbers.NumberToken` is the int/float classification of `NumberState::to_token` over exact integers. A FLOAT carries the exact value of the literal, as a `Decimals.Decimal` in lowest terms.

The document tree is the datatype `Nodes.Node`. Its eight variants match `NodeType`. A pair's key is held as the string payload of its key node, and an object holds its pairs. The shape constraints of the C++ member types therefore hold by construction, and `Children` exposes them as nodes. `ParserImpl.Parser` has the parser's two stacks and `handle_simple_token`.

Positions are modelled as character indices. The first character is at position 1, and the fresh scanner's position is 0.

## Model

| member | source | states |
|---|---|---|
| Chars.HexValue | src/scanner.cpp:357 | the hex digits buffered for `\u` denote a value below 16^n (four digits give one UTF-16 unit) |
| Chars.ToLower | src/scanner.cpp:380-381 | an upper-case letter is lowered, anything else is unchanged; a hex digit becomes a lower-case hex digit |
| Chars.AssembleSurrogate | src/scanner.cpp:359-362 | a high/low surrogate pair denotes a supplementary code point, 0x10000..0x10FFFF |
| Chars.SplitSurrogate | src/scanner.cpp:359-362 | every supplementary code point has a surrogate pair (the inverse of assembly) |
| Chars.SplitThenAssemble | src/scanner.cpp:359-362 | assembling the pair of a code point gives the code point back |
| Chars.AssembleThenSplit | src/scanner.cpp:359-362 | distinct surrogate pairs assemble to distinct code points |
| Decimals.Normalize | src/scanner.cpp:525-548 | the float payload is in lowest terms and denotes the same number as the literal |
| Tokens.Equals | src/scanner.cpp:56-58 | tokens compare equal exactly when their type tags agree: equal kinds are equal, any two tokens of the same payload-carrying kind are equal whatever their payloads, payload-free kinds are equal only to themselves, and equal tokens have the same variant |
| Tokens.NotEquals | src/scanner.cpp:61-63 | `!=` is the negation of `==`: it holds only between different kinds, never between two tokens of the same payload-carrying kind, and for a payload-free kind exactly when the kinds differ |
| Tokens.EqualsIsEquivalence | src/scanner.cpp:56-58 | token equality is reflexive, symmetric and transitive |
| Tokens.EqualsIgnoresPayload | src/scanner.cpp:56-58 | two INT tokens with different values and positions are equal under the base operator |
| Numbers.DigitsValue | src/scanner.cpp:514-522 | a digit string of length n denotes a value below 10^n |
| Numbers.DigitsValueAppend | src/scanner.cpp:514-522 | the value of a concatenation is the first part shifted by the second's length plus the second part's value |
| Numbers.StringToNumber | src/scanner.cpp:514-522 | the accumulating loop computes the digit string's value |
| Numbers.NumberToken | src/scanner.cpp:525-548 | INT exactly when there are no fraction digits, the exponent sign is positive and the value is strictly inside the int64 range, carrying sign * digits * 10^exp; FLOAT otherwise, carrying the literal's exact value |
| Numbers.DecimalOf | src/scanner.cpp:526-531 | the literal's mantissa is the integer part shifted past the fraction digits plus the fraction's value, signed; without a fraction or an exponent it is the integer part itself |
| Numbers.ToToken | src/scanner.cpp:525-548 | the source's computation (three digit loops, the exponent only when present) yields the classified token |
| Numbers.ZeroExamples | src/scanner.cpp:525-548 | `0` and `-0` give INT 0 |
| Numbers.IntegerExamples | src/scanner.cpp:525-548 | `5` and `1e2` give INT 5 and 100 |
| Numbers.FivePointZeroExample | src/scanner.cpp:525-548 | `5.0` gives FLOAT 5: fraction digits make a float even when zero |
| Numbers.HalfExample | src/scanner.cpp:525-548 | `0.5` gives FLOAT 5e-1 |
| Numbers.NegativeExponentExample | src/scanner.cpp:525-548 | `5e-1` gives FLOAT 5e-1 |
| Numbers.IntegralNegativeExponentExample | src/scanner.cpp:525-548 | `100e-2` gives FLOAT 1, although its value is integral |
| ScanSpec.Exception | src/scanner.cpp:482-490 | the error carries the message; an unset start becomes the lexeme start `start_pos` and an unset end the current position `cur_pos`, so with both defaults the range is not reversed while the lexeme start is not past the cursor (the partner `ScanProps.FeedErrorRange` shows this always holds for a feed) |
| ScanSpec.UnknownCharError | src/scanner.cpp:493-499 | the outcome fails with "unknown char" naming the character and the extra text, over the defaulted range from `start_pos` to `cur_pos`, which is not reversed and ends at the cursor while the lexeme start is not past it (partner: `ScanProps.FeedErrorRange`) |
| ScanProps.FeedErrorRange | src/scanner.cpp:482-499 | the range of any error a feed raises (a missing end defaulting to the lexeme start and the current position) is never reversed and ends no later than the character being fed |
| ScanProps.TokenizeErrorRange | src/tests/helper.cpp:9-22 | an error while scanning a whole input spans a range that is not reversed and lies within the input and the NUL after it |
| ScanSpec.StInit | src/scanner.cpp:169-198 | the INIT handler keeps the scanner invariant, and each re-dispatch it asks for lowers the measure |
| ScanSpec.StId | src/scanner.cpp:201-233 | the identifier handler keeps the invariant and lowers the measure when it re-dispatches |
| ScanSpec.IdentifierKind | src/scanner.cpp:206-212 | a recognised name yields NIL or a BOOL, and is four or five lower-case letters |
| ScanSpec.FinishNum | src/scanner.cpp:502-511 | completing a number always re-dispatches the character, from INIT, with the invariant kept |
| ScanSpec.StNumber | src/scanner.cpp:236-316 | the number handler, including its direct self-call from the INIT phase, keeps the invariant and lowers the measure when it re-dispatches |
| ScanSpec.NumberInteger | src/scanner.cpp:255-272 | after the first integer digit the phase never fails; it consumes exactly `.` (to DOTTED), `e`/`E` (to EXP) and, after a nonzero first digit, a further digit appended to the integer part; anything else finishes the number; only the number state changes |
| ScanSpec.NumberFraction | src/scanner.cpp:273-287 | a digit is always appended to the fraction (moving to DOT_DIGIT); it fails, with "expect digit" over the lexeme, exactly when DOTTED sees a non-digit; after a fraction digit `e`/`E` opens the exponent and anything else finishes the number |
| ScanSpec.NumberExponent | src/scanner.cpp:288-312 | a digit is always appended to the exponent (moving to EXP_DIGIT); right after `e`/`E` a sign sets the exponent sign; it fails exactly on a non-digit after the sign, or on a non-digit non-sign after `e`/`E`, with the source's message; only after an exponent digit does the number finish |
| ScanSpec.DecodeHex | src/scanner.cpp:355-379 | decoding four hex digits either fails or re-dispatches the character, into SURROGATED after a high surrogate and into NORMAL otherwise, changing only the string buffer |
| ScanSpec.StString | src/scanner.cpp:319-400 | the string handler keeps the invariant (hex buffer of at most four lower-case digits, a pending high surrogate always last in the value); the closing quote emits the STRING token and returns to INIT, and otherwise only the string buffer changes |
| ScanSpec.StringNormal | src/scanner.cpp:328-343 | a character of the string body is consumed or rejected, never re-fed; only the string buffer changes, except at the closing quote |
| ScanSpec.StringEscape | src/scanner.cpp:344-353 | the letter after a backslash is consumed or rejected, and only the string buffer changes |
| ScanSpec.StringHex | src/scanner.cpp:354-384 | a hex digit is buffered; with four buffered the character is re-fed after decoding; only the string buffer changes |
| ScanSpec.FinishComment | src/scanner.cpp:459-467 | completing a comment appends one COMMENT token ending at the current position, resets the comment state and returns to INIT |
| ScanSpec.StComment | src/scanner.cpp:403-456 | the comment handler keeps the invariant and lowers the measure when it re-dispatches |
| ScanSpec.Step | src/scanner.cpp:134-150 | one dispatch on the top-level state keeps the invariant, and a re-dispatch lowers the measure |
| ScanSpec.Run | src/scanner.cpp:134-150 | following the re-dispatches terminates and keeps the invariant |
| ScanSpec.Feed | src/scanner.cpp:126-131 | feeding a character keeps the invariant |
| ScanSpec.FeedAll | src/tests/helper.cpp:10-13 | feeding a sequence of characters keeps the invariant |
| ScannerImpl.Scanner.constructor | src/scanner.cpp:164-166 | a new scanner is in the initial state |
| ScannerImpl.Scanner.Reset | src/scanner.cpp:164-166 | reset restores every field to the freshly constructed state |
| ScannerImpl.Scanner.Pop | src/scanner.cpp:153-161 | on a non-empty buffer it returns the oldest token and removes only it; on an empty buffer it returns nothing; no other field changes |
| ScannerImpl.Scanner.Feed | src/scanner.cpp:126-131 | the reported error or the new fields are exactly `ScanSpec.Feed` of the old fields |
| ScannerImpl.Scanner.Refeed | src/scanner.cpp:134-150 | the reported error or the new fields are exactly `ScanSpec.Run` of the old fields |
| ScannerImpl.Scanner.StInit | src/scanner.cpp:169-198 | the in-place INIT handler is exactly `Run` of its old fields |
| ScannerImpl.Scanner.StId | src/scanner.cpp:201-233 | the in-place identifier handler is exactly `Run` of its old fields |
| ScannerImpl.Scanner.StNumber | src/scanner.cpp:236-316 | the in-place number handler is exactly `Run` of its old fields |
| ScannerImpl.Scanner.NumberInteger | src/scanner.cpp:255-272 | the in-place ZEROED and INT_DIGIT phases are exactly `Run` of the old fields |
| ScannerImpl.Scanner.NumberFraction | src/scanner.cpp:273-287 | the in-place DOTTED and DOT_DIGIT phases are exactly `Run` of the old fields |
| ScannerImpl.Scanner.NumberExponent | src/scanner.cpp:288-312 | the in-place EXP, EXP_SIGNED and EXP_DIGIT phases are exactly `Run` of the old fields |
| ScannerImpl.Scanner.FinishNum | src/scanner.cpp:502-511 | emitting the number and re-feeding is exactly `Run` after `ScanSpec.FinishNum` |
| ScannerImpl.Scanner.StString | src/scanner.cpp:319-400 | the in-place string handler is exactly `Run` of its old fields |
| ScannerImpl.Scanner.DecodeHex | src/scanner.cpp:355-379 | the in-place hex decoding fails with the error `ScanSpec.DecodeHex` names, or re-feeds from the state it names |
| ScannerImpl.Scanner.FinishComment | src/scanner.cpp:459-467 | the new fields are exactly `ScanSpec.FinishComment` of the old ones |
| ScannerImpl.Scanner.StComment | src/scanner.cpp:403-456 | the in-place comment handler is exactly `Run` of its old fields |
| ScanProps.InitialAtRest | src/scanner.cpp:164-166 | the initial state satisfies the scanner invariant and the position invariant |
| ScanProps.AdvanceMidChar | src/scanner.cpp:126-131 | advancing the cursor turns the between-feeds position invariant into the during-dispatch one |
| ScanProps.StepOrder | src/scanner.cpp:134-150 | one dispatch keeps the tokens ordered and within range, and never reports an empty identifier |
| ScanProps.RunOrder | src/scanner.cpp:134-150 | the same holds for a whole chain of re-dispatches |
| ScanProps.FeedOrder | src/scanner.cpp:126-131 | after any feed the buffer is ordered and in range, and a bad identifier is never empty |
| ScanProps.FeedAllOrder | src/tests/helper.cpp:10-13 | the position invariant holds after any sequence of feeds |
| ScanProps.TokenizeOrdered | src/tests/helper.cpp:9-22 | for a whole input, the tokens are non-overlapping, in source order, each with start <= end <= the NUL's position |
| ScanProps.TokenizeEnds | src/tests/helper.cpp:9-22 | a successful scan of a whole input ends with END at the position of the NUL sentinel |
| ScanProps.StepAtNul | src/scanner.cpp:171-176 | of all handlers, only INIT consumes the NUL sentinel: it emits END at the current position and moves to ENDED |
| ScanProps.StepKeepsCursor | src/scanner.cpp:134-150 | handlers never move the cursor |
| ScanProps.RunKeepsCursor | src/scanner.cpp:134-150 | re-dispatching never moves the cursor |
| ScanProps.FeedAllPositions | src/scanner.cpp:126-131 | each fed character moves the cursor by exactly one |
| ScanRules.EndOfInput | src/scanner.cpp:171-176 | NUL in INIT emits END with start == end == the current position and moves to ENDED |
| ScanRules.WhitespaceSkipped | src/scanner.cpp:177-178 | space, tab, newline and carriage return change nothing but the positions |
| ScanRules.PunctuationIsToken | src/scanner.cpp:179-183 | each of `[]{},:` emits one token of that kind with start == end == the current position; the state stays INIT |
| ScanRules.StrayCharRejected | src/scanner.cpp:195-196 | any other character in INIT is an unknown-character error with no additional text |
| ScanRules.EndedRejects | src/scanner.cpp:146-147 | every character fed after END is an error |
| ScanRules.IdentifierKinds | src/scanner.cpp:206-212 | exactly `null`, `true` and `false` are literal names, mapped to NIL, BOOL true and BOOL false |
| ScanRules.IdentifierGrows | src/scanner.cpp:203-204 | a letter is appended to the identifier |
| ScanRules.IdentifierFinished | src/scanner.cpp:217-224 | a non-letter after a literal name emits its token from start_pos to prev_pos, clears the identifier and re-feeds the character from INIT |
| ScanRules.BadIdentifierRejected | src/scanner.cpp:225-231 | any other name is a bad-identifier error spanning start_pos to prev_pos |
| ScanRules.NumberEntered | src/scanner.cpp:186-188 | a digit, `.`, `+` or `-` in INIT enters NUMBER with the lexeme starting at this character, which is dispatched again |
| ScanRules.LeadingPlusRejected | src/scanner.cpp:239-254 | a leading `+` is an "expect digit" error |
| ScanRules.LeadingDotRejected | src/scanner.cpp:239-254 | a leading `.` is an "expect digit" error |
| ScanRules.MinusStartsNumber | src/scanner.cpp:239-242 | `-` starts a negative number in phase SIGNED |
| ScanRules.SignedNeedsDigit | src/scanner.cpp:246-254 | after the optional `-` anything but a digit is an "expect digit" error over the lexeme |
| ScanRules.FirstDigitRead | src/scanner.cpp:246-252 | a first `0` moves to ZEROED without storing it; another first digit starts the integer part |
| ScanRules.IntDigitAppended | src/scanner.cpp:263-265 | a further digit of the integer part is appended to it |
| ScanRules.DotRead | src/scanner.cpp:255-268 | `.` after the integer part opens the fraction |
| ScanRules.FractionDigitAppended | src/scanner.cpp:273-283 | a digit after `.` or after a fraction digit is appended to the fraction |
| ScanRules.ExponentMarkerRead | src/scanner.cpp:255-285 | `e` or `E` after an integer or a fraction digit opens the exponent |
| ScanRules.ExponentSignRead | src/scanner.cpp:288-294 | a sign right after the marker sets the exponent sign, negative exactly for `-` |
| ScanRules.ExponentDigitAppended | src/scanner.cpp:288-310 | a digit after the marker, the sign or another exponent digit is appended to the exponent |
| ScanRules.LeadingZeroEndsNumber | src/scanner.cpp:255-262 | a digit after a leading `0` ends the number INT 0 and is re-fed, so `01` is two numbers |
| ScanRules.DotNeedsDigit | src/scanner.cpp:273-279 | `.` must be followed by a digit |
| ScanRules.ExponentNeedsDigitOrSign | src/scanner.cpp:288-299 | `e`/`E` must be followed by a sign or a digit |
| ScanRules.ExponentSignNeedsDigit | src/scanner.cpp:300-306 | an exponent sign must be followed by a digit |
| ScanRules.NumberFinished | src/scanner.cpp:502-511 | a number ends at the first character that cannot continue it: its token spans start_pos to prev_pos, the state resets and the character is re-fed from INIT |
| ScanRules.StringClosed | src/scanner.cpp:329-336 | the closing quote emits STRING with end == cur_pos and returns to INIT |
| ScanRules.PlainCharKept | src/scanner.cpp:341-342 | any other non-control character is appended to the string |
| ScanRules.ControlCharRejected | src/scanner.cpp:339-340 | a raw character below 0x20 is an "unescaped control char" error |
| ScanRules.EscapeDecoded | src/scanner.cpp:344-348 | a table escape appends the mapped character |
| ScanRules.EscapeTable | src/scanner.cpp:470-479 | the escape table has exactly the keys `b f n r t " \ /` and maps them to backspace, form feed, line feed, carriage return, tab, `"`, `\` and `/`, as section 7 of RFC 8259 does |
| ScanRules.UnknownEscapeRejected | src/scanner.cpp:349-353 | an escape letter outside the table other than `u` is an error |
| ScanRules.HexDigitBuffered | src/scanner.cpp:380-381 | a hex digit of either case is buffered lower-cased while fewer than four are held |
| ScanRules.ShortHexRejected | src/scanner.cpp:382-383 | a non-hex character before the fourth digit is an error |
| ScanRules.BmpEscapeDecoded | src/scanner.cpp:355-379 | the character after the fourth digit decodes a non-surrogate unit into the string and is re-fed as string content |
| ScanRules.HighSurrogateAwaitsLow | src/scanner.cpp:368-370 | a high surrogate is kept provisionally and the next character must be `\` |
| ScanRules.SurrogateEscapeNeedsU | src/scanner.cpp:391-396 | after a high surrogate, `\` must be followed by `u` |
| ScanRules.LoneLowSurrogateRejected | src/scanner.cpp:371-372 | a low surrogate with no high one before it is an error |
| ScanRules.HighWithoutLowRejected | src/scanner.cpp:363-364 | a high surrogate followed by a non-low unit is an error |
| ScanRules.SurrogatePairJoined | src/scanner.cpp:359-362 | a low surrogate replaces the buffered high one by one supplementary code point, so the pair adds exactly one character |
| ScanRules.CommentNeedsSecondChar | src/scanner.cpp:406-416 | after `/` only `/` or `*` are accepted |
| ScanRules.CommentOpened | src/scanner.cpp:406-413 | `/` after `/` opens a line comment, `*` after `/` a block comment |
| ScanRules.CommentTextKept | src/scanner.cpp:418-440 | any character that neither ends a line comment nor starts the closing pair of a block comment is appended to the comment text |
| ScanRules.BlockCommentStar | src/scanner.cpp:433-434 | `*` in a block comment may start the closing pair |
| ScanRules.LineCommentEndsAtNewline | src/scanner.cpp:420-422 | a line comment ends at `\n` with a COMMENT token and the scanner returns to INIT |
| ScanRules.LineCommentAtEnd | src/scanner.cpp:423-426 | NUL ends a line comment, then END follows at the same position |
| ScanRules.BlockCommentUnterminated | src/scanner.cpp:436-437 | NUL inside a block comment is an error |
| ScanRules.BlockCommentEnds | src/scanner.cpp:444-445 | `*/` closes a block comment, and the pair is not part of its text |
| ScanRules.StarKeptInComment | src/scanner.cpp:447-450 | a `*` not followed by `/` is kept as content and the character is re-fed |
| ScanExamples.LeadingZeroExample | src/scanner.cpp:246-262 | the input `01` scans to INT 0 at 1, INT 1 at 2 and END at 3 |
| Helper.FeedAllAppend | src/tests/helper.cpp:10-13 | feeding `a + b` is feeding `a` then `b`, and after an error later characters are never looked at |
| Helper.FeedEach | src/tests/helper.cpp:10-12 | the feeding loop reports exactly `FeedAll` |
| Helper.Drain | src/tests/helper.cpp:17-20 | popping until empty returns the whole buffer in order and leaves it empty; no other field of the scanner changes |
| Helper.GetTokens | src/tests/helper.cpp:9-22 | get_tokens returns exactly `Tokenize` of the input |
| Nodes.Type | src/parser.h:20-43 | each variant carries its own tag, and the tag determines the variant |
| Nodes.Children | src/parser.h:94-118 | a list's children are its items; a pair's are a STRING key node and its value; an object's are PAIR nodes in insertion order |
| Decimals.SameValueSameDecimal | src/scanner.cpp:525-548 | a number has only one decimal in lowest terms: two such decimals that denote the same value are identical, so comparing FLOAT payloads compares the numbers |
| Nodes.FloatEqualByValue | src/parser.h:58-61 | two float nodes whose payloads denote the same number are equal, whichever way the number was written |
| Nodes.Equal | src/parser.h:58-61 | simple nodes are equal only to nodes of their own variant with an equal value; equal nodes always have the same tag |
| Nodes.NotEqual | src/parser.h:39 | `!=` is the negation of `==`, so two nodes differ exactly when the trees are not identical |
| Nodes.EqualIsIdentity | src/parser.h:58-61 | node equality holds exactly when the trees are identical |
| Nodes.EqualSameType | src/parser.h:58-61 | nodes of different variants are never equal |
| Nodes.Clone | src/parser.h:67-69 | a clone is the same tree |
| Nodes.CloneAll | src/parser.h:98 | cloning a list's items gives the same items |
| Nodes.CloneMembers | src/parser.h:117 | cloning an object's pairs gives the same pairs |
| Nodes.CloneEqual | src/parser.h:67-69 | a clone compares equal to its original and keeps its tag |
| Nodes.CloneNode | src/parser.h:124-128 | clone_node yields the node exactly when the target class matches its tag, and nothing otherwise |
| Nodes.SimpleRepr | src/parser.h:63-65 | the repr is exactly 4*indent spaces followed by the value's representation |
| ParserImpl.LeafRoundTrip | src/parser.h:164-165 | the leaf handle_simple_token builds from a BOOL, INT, FLOAT or STRING token gives back the token's kind, and its tag matches the token's type |
| ParserImpl.LeafOfInverse | src/parser.h:75-78 | every leaf is the node built from the token it gives back, so no two token kinds build the same leaf |
| ParserImpl.Parser.HandleSimpleToken | src/parser.h:164-168 | pushes exactly the token's leaf on `nodes` and pops exactly the top of `states`; nothing else changes |

## Left out

- Floating point: the `double` accumulation, `pow` and overflow to infinity in `to_token` are not modelled. A FLOAT token carries the literal's exact decimal value, as the `Decimal` in lowest terms that the double approximates.
- Numbers.NumberToken: the int64 range is checked on the exact value, not on the rounded double, so values within rounding distance of the int64 bounds may be classified differently than the source does.
- Numbers.NumberToken: two further effects of the `double` arithmetic are not modelled. A zero mantissa with an exponent beyond the double range, such as `0e309`, gives `0 * inf`, a NaN that fails both range comparisons, so the source emits FLOAT; the model gives INT 0. And the INT payload of a literal with an exponent is computed as `iv *= pow(10, exp)` in `double`, so a large value such as `12345678901234567e1` is rounded in the source while the model carries it exactly.
- Numbers.NumberToken: the overflow of the `int64_t` accumulator in `string_to_number` is not modelled. A very long integer that still fails the range check becomes FLOAT either way.
- Positions: `SourcePos` and `add_char` are not part of this model. A position is a character index, and line and column numbers are not tracked.
- After a lexical error, the scanner's fields are left unconstrained: the source throws part-way through a handler, and the model stops at the error.
- Error messages are kept as a structured `Message`: the kind, the offending character and the additional text. The rendered text is not modelled, since it comes from `NodeString::repr` and `u8_encode`, which are not part of this model.
- `Token::name`, `repr_value`, `repr_short` and `repr_full` produce diagnostic text, outside the scanning logic. `Token::clone` is not modelled: it copies the type, start and end into a base-class `Token`, so a payload-carrying token's clone has no payload, and a model `TokenKind` cannot carry a payload-type tag without its payload. Under the base `==` the clone still equals the original.
- `is_alpha`, `is_digit`, `is_xdigit` and `to_lower` are not part of this model. They are taken as the ASCII classes.
- `u16_assemble_surrogate` is not part of this model. It is defined by section 2.2 of RFC 2781.
- Nodes.Equal: the composite equality of `NodeList`, `NodePair` and `NodeObject`, and `Node::operator!=`, are declared in `src/parser.h` but defined in `node.cpp`, which is not part of this model. They are modelled as order-sensitive structural equality: the same variant, with equal children in order.
- Nodes.Clone: the composite clones are defined in `node.cpp`, which is not part of this model. `Clone` is modelled as a deep copy.
- Node `repr` for composite nodes is not modelled, because it is defined in `node.cpp`, which is not part of this model. A simple node's repr takes the value's representation as a parameter.
- `unique_ptr` ownership, `new`/`delete`, `dynamic_cast` and `reinterpret_cast` become value semantics. `CloneNode` takes the target class as its `NodeType` tag.
- `Parser()`, `Parser::feed`, `pop_result`, `is_finished`, `unexpected_token` and the `enter_*` transitions are declared in `src/parser.h` but defined elsewhere, so they are not modelled. A `Parser` object has only its two stacks.
- Parsing with the scanner's output (`parse_string`) and `format_node` in `src/tests/helper.cpp` depend on the parser and formatter bodies, so they are left out.
- `src/tests/validator_option.cpp` and `.h` are a generated command-line option parser for a test tool, unrelated to scanning.
- `Token::operator==` compares only the type tags, so INT 1 equals INT 2. The model follows the source's base-class operator. `src/scanner.h`, which might override it for payload-carrying tokens, is not part of this model.
- `refeed` recursion: the source recurses without a bound. The model keeps the recursion but proves that each character causes only finitely many re-dispatches.
