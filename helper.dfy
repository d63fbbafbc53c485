/** The test helper get_tokens: scan a whole input and drain the token buffer. */
module Helper {
  import opened Wrappers
  import opened Chars
  import opened Tokens
  import opened ScanSpec
  import opened ScannerImpl

  /**
   * Feeding `a + b` is feeding `a` and then `b`; once a character is rejected,
   * nothing that follows it is looked at.
   */
  lemma {:induction false} FeedAllAppend(s: ScanData, a: seq<CodePoint>, b: seq<CodePoint>)
    requires Valid(s)
    ensures FeedAll(s, a + b) == match FeedAll(s, a) case Ok(t) => FeedAll(t, b) case Err(e) => Err(e)
    decreases |a|
  {
    if a == [] {
      assert a + b == b;
    } else {
      assert (a + b)[0] == a[0] && (a + b)[1..] == a[1..] + b;
      if Feed(s, a[0]).Ok? {
        FeedAllAppend(Feed(s, a[0]).value, a[1..], b);
      }
    }
  }

  /** The feeding loop of get_tokens: feed the characters in order, stopping at the first error. */
  method FeedEach(scanner: Scanner, input: seq<CodePoint>) returns (err: Option<ScanError>)
    requires scanner.Valid()
    modifies scanner
    ensures Reports(FeedAll(old(scanner.Data()), input), err, scanner.Data())
  {
    ghost var s0 := scanner.Data();
    var i := 0;
    while i < |input|
      invariant 0 <= i <= |input|
      invariant scanner.Valid() && FeedAll(s0, input) == FeedAll(scanner.Data(), input[i..])
    {
      assert input[i..][0] == input[i] && input[i..][1..] == input[i + 1..];
      err := scanner.Feed(input[i]);
      if err.Some? {
        return;
      }
      i := i + 1;
    }
    err := None;
  }

  /** The draining loop of get_tokens: pop until the buffer is empty. */
  method Drain(scanner: Scanner) returns (tokens: seq<Token>)
    modifies scanner
    ensures tokens == old(scanner.buffer) && scanner.buffer == []
    ensures scanner.Data() == old(scanner.Data()).(buffer := [])
  {
    tokens := [];
    while true
      invariant tokens + scanner.buffer == old(scanner.buffer)
      invariant scanner.Data() == old(scanner.Data()).(buffer := scanner.buffer)
      decreases |scanner.buffer|
    {
      var tok := scanner.Pop();
      if tok.None? {
        break;
      }
      tokens := tokens + [tok.value];
    }
  }

  /** get_tokens: feed every character, then NUL, then pop every token in order. */
  method GetTokens(input: seq<CodePoint>) returns (r: Result<seq<Token>, ScanError>)
    ensures r == Tokenize(input)
  {
    var scanner := new Scanner();
    var err := FeedEach(scanner, input);
    if err.Some? {
      return Err(err.value);
    }
    err := scanner.Feed(NUL);
    if err.Some? {
      return Err(err.value);
    }
    var tokens := Drain(scanner);
    return Ok(tokens);
  }
}
