/** The lexer: source text to a token sequence that ends in `EOF`.

    The specification functions (`MaximalRun`, `SkipWhiteSpace`, `Scan*`, `Lex`) work on the
    input that is still unread, a suffix of the source. The methods (`ReadChars`, `ReadInteger`,
    `ReadText`, `ReadString`, `ReadToken`, `NextToken`, `Tokenize`) keep the reader's position as
    an index into the source, as the `StringReader` does, and are proved against the functions. */
module Lexer {
  import opened Tokens
  import opened Errors
  import opened Decimal

  /** `char.IsWhiteSpace`: the control whitespace characters and the Unicode separators. */
  predicate IsWhiteSpace(c: char) {
    ('\t' <= c <= '\r') || c == ' ' || c == '\U{0085}' || c == '\U{00A0}' || c == '\U{1680}'
    || ('\U{2000}' <= c <= '\U{200A}') || c == '\U{2028}' || c == '\U{2029}' || c == '\U{202F}'
    || c == '\U{205F}' || c == '\U{3000}'
  }

  predicate IsAsciiLetter(c: char) {
    'a' <= c <= 'z' || 'A' <= c <= 'Z'
  }

  predicate IsAsciiLetterOrDigit(c: char) {
    IsAsciiLetter(c) || IsDigit(c)
  }

  predicate IsQuote(c: char) {
    c == '\'' || c == '"'
  }

  /** The three character tests `ReadChars` is called with. */
  datatype CharClass = Digits | LettersOrDigits | NotQuote(quote: char)

  predicate Accepts(cls: CharClass, c: char) {
    match cls
    case Digits => IsDigit(c)
    case LettersOrDigits => IsAsciiLetterOrDigit(c)
    case NotQuote(q) => c != q
  }

  /** The number of leading characters of `s` that `cls` accepts. */
  function RunLength(s: string, cls: CharClass): (n: nat)
    ensures n <= |s|
    ensures forall i :: 0 <= i < n ==> Accepts(cls, s[i])
    ensures n == |s| || !Accepts(cls, s[n])
  {
    if s == [] || !Accepts(cls, s[0]) then 0 else 1 + RunLength(s[1..], cls)
  }

  /** The longest prefix of `s` whose characters `cls` accepts, and what follows it. */
  function MaximalRun(s: string, cls: CharClass): (r: (string, string))
    ensures r.0 + r.1 == s
    ensures forall i :: 0 <= i < |r.0| ==> Accepts(cls, r.0[i])
    ensures r.1 == [] || !Accepts(cls, r.1[0])
  {
    var n := RunLength(s, cls);
    (s[..n], s[n..])
  }

  /** What is left of `s` once its leading whitespace is skipped. */
  function SkipWhiteSpace(s: string): (r: string)
    ensures |r| <= |s|
  {
    if s != [] && IsWhiteSpace(s[0]) then SkipWhiteSpace(s[1..]) else s
  }

  /** A scanned word becomes a keyword, else a boolean, else a logical operator, else an identifier. */
  function ClassifyWord(w: string): (t: Token)
    ensures t.Identifier? <==> !IsReservedWord(w)
    ensures t.Identifier? ==> t.name == w
  {
    if w in KeywordMap then KeywordMap[w]
    else if w in BooleanMap then Boolean(BooleanMap[w])
    else if w in LogicalOperatorMap then Logical(LogicalOperatorMap[w])
    else Identifier(w)
  }

  /** `ReadInteger`: a digit run, rejected when it exceeds the 32-bit range. */
  function ScanInteger(s: string): (r: Result<(Token, string)>)
    requires s != [] && IsDigit(s[0])
    ensures r.Ok? ==> |r.value.1| < |s|
  {
    var (digits, rest) := MaximalRun(s, Digits);
    var v := DecimalValue(digits);
    if v <= IntMax then Ok((Integer(v), rest)) else Err(LexErr(IntegerOutOfRange(digits)))
  }

  /** `ReadText`: a maximal run of ASCII letters and digits, classified. */
  function ScanWord(s: string): (r: Result<(Token, string)>)
    requires s != [] && IsAsciiLetter(s[0])
    ensures r.Ok? ==> |r.value.1| < |s|
  {
    var (word, rest) := MaximalRun(s, LettersOrDigits);
    Ok((ClassifyWord(word), rest))
  }

  /** `ReadString`: everything up to the next copy of the opening quote, taken verbatim. */
  function ScanString(s: string): (r: Result<(Token, string)>)
    requires s != [] && IsQuote(s[0])
    ensures r.Ok? ==> |r.value.1| < |s|
  {
    var quote := s[0];
    var (text, rest) := MaximalRun(s[1..], NotQuote(quote));
    if rest != [] && rest[0] == quote then Ok((String(text), rest[1..]))
    else Err(LexErr(StringNotClosed(text)))
  }

  /** `ReadToken`: a one-character operator or punctuation mark. */
  function ScanSymbol(s: string): (r: Result<(Token, string)>)
    requires s != []
    ensures r.Ok? ==> r.value.1 == s[1..]
  {
    var ch := s[0];
    if ch in BinaryOperatorMap then Ok((Binary(BinaryOperatorMap[ch]), s[1..]))
    else if ch in PunctuationMap then Ok((PunctuationMap[ch], s[1..]))
    else Err(LexErr(InvalidCharacter(ch)))
  }

  /** The token at the start of `t`, once the whitespace before it is gone. */
  function ScanFrom(t: string): (r: Result<(Token, string)>)
    ensures r.Ok? ==> |r.value.1| <= |t|
    ensures r.Ok? ==> (r.value.0 == EOF <==> t == [])
    ensures t == [] ==> r == Ok((EOF, []))
    ensures r.Ok? && r.value.0 != EOF ==> |r.value.1| < |t|
  {
    if t == [] then Ok((EOF, t))
    else if IsDigit(t[0]) then ScanInteger(t)
    else if IsAsciiLetter(t[0]) then ScanWord(t)
    else if IsQuote(t[0]) then ScanString(t)
    else ScanSymbol(t)
  }

  /** `NextToken`: skip whitespace, then dispatch on the first character. */
  function ScanToken(s: string): (r: Result<(Token, string)>)
    ensures r.Ok? ==> |r.value.1| <= |s|
    ensures r.Ok? && r.value.0 != EOF ==> |r.value.1| < |s|
  {
    ScanFrom(SkipWhiteSpace(s))
  }

  /** `Tokenize`: tokens up to and including the first `EOF`; the first lex error aborts. */
  function Lex(s: string): Result<seq<Token>>
    decreases |s|
  {
    match ScanToken(s)
    case Err(e) => Err(e)
    case Ok((token, rest)) =>
      if token == EOF then Ok([EOF])
      else
        match Lex(rest)
        case Err(e) => Err(e)
        case Ok(tokens) => Ok([token] + tokens)
  }

  /** `done` followed by what lexing the rest gives. */
  function Prepend(done: seq<Token>, r: Result<seq<Token>>): Result<seq<Token>> {
    match r
    case Err(e) => Err(e)
    case Ok(tokens) => Ok(done + tokens)
  }

  /** A method's (token, next position) result agrees with a specification's (token, rest). */
  predicate Scanned(r: Result<(Token, nat)>, spec: Result<(Token, string)>, src: string) {
    match spec
    case Err(e) => r == Err(e)
    case Ok((token, rest)) => r.Ok? && r.value.0 == token && r.value.1 <= |src| && src[r.value.1..] == rest
  }

  /** A run that is all accepted and is followed by a refused character (or the end) is the maximal one. */
  lemma MaximalRunAt(s: string, cls: CharClass, n: nat)
    requires n <= |s|
    requires forall i :: 0 <= i < n ==> Accepts(cls, s[i])
    requires n == |s| || !Accepts(cls, s[n])
    ensures MaximalRun(s, cls) == (s[..n], s[n..])
  {
    assert RunLength(s, cls) == n;
  }

  /** Input that does not start with whitespace is scanned from where it is. */
  lemma ScanStart(s: string)
    requires s == [] || !IsWhiteSpace(s[0])
    ensures ScanToken(s) == ScanFrom(s)
  {
  }

  /** The `while` loop of `ReadChars`: append accepted characters to a builder until one is refused. */
  method ReadChars(src: string, pos: nat, cls: CharClass) returns (text: string, next: nat)
    requires pos <= |src|
    ensures next <= |src| && (text, src[next..]) == MaximalRun(src[pos..], cls)
  {
    var sb := "";
    next := pos;
    while next < |src| && Accepts(cls, src[next])
      invariant pos <= next <= |src|
      invariant sb == src[pos..next]
      invariant forall i :: pos <= i < next ==> Accepts(cls, src[i])
    {
      assert src[pos..next + 1] == src[pos..next] + [src[next]];
      sb := sb + [src[next]];
      next := next + 1;
    }
    text := sb;
    MaximalRunAt(src[pos..], cls, next - pos);
    assert src[pos..][next - pos..] == src[next..];
    assert src[pos..][..next - pos] == src[pos..next];
  }

  method ReadInteger(src: string, pos: nat) returns (r: Result<(Token, nat)>)
    requires pos < |src| && IsDigit(src[pos])
    ensures Scanned(r, ScanInteger(src[pos..]), src)
  {
    var digits, next := ReadChars(src, pos, Digits);
    var v := DecimalValue(digits);
    if v <= IntMax {
      r := Ok((Integer(v), next));
    } else {
      r := Err(LexErr(IntegerOutOfRange(digits)));
    }
  }

  method ReadText(src: string, pos: nat) returns (r: Result<(Token, nat)>)
    requires pos < |src| && IsAsciiLetter(src[pos])
    ensures Scanned(r, ScanWord(src[pos..]), src)
  {
    var word, next := ReadChars(src, pos, LettersOrDigits);
    r := Ok((ClassifyWord(word), next));
  }

  method ReadString(src: string, pos: nat) returns (r: Result<(Token, nat)>)
    requires pos < |src| && IsQuote(src[pos])
    ensures Scanned(r, ScanString(src[pos..]), src)
  {
    var quote := src[pos];
    assert src[pos..][1..] == src[pos + 1..];
    var text, next := ReadChars(src, pos + 1, NotQuote(quote));
    if next < |src| && src[next] == quote {
      assert src[next..][1..] == src[next + 1..];
      r := Ok((String(text), next + 1));
    } else {
      r := Err(LexErr(StringNotClosed(text)));
    }
  }

  method ReadToken(src: string, pos: nat) returns (r: Result<(Token, nat)>)
    requires pos < |src|
    ensures Scanned(r, ScanSymbol(src[pos..]), src)
  {
    var ch := src[pos];
    assert src[pos..][1..] == src[pos + 1..];
    if ch in BinaryOperatorMap {
      r := Ok((Binary(BinaryOperatorMap[ch]), pos + 1));
    } else if ch in PunctuationMap {
      r := Ok((PunctuationMap[ch], pos + 1));
    } else {
      r := Err(LexErr(InvalidCharacter(ch)));
    }
  }

  /** `NextToken`, whose `goto` loop skips whitespace one character at a time. */
  method NextToken(src: string, pos: nat) returns (r: Result<(Token, nat)>)
    requires pos <= |src|
    ensures Scanned(r, ScanToken(src[pos..]), src)
  {
    var p := pos;
    while p < |src| && IsWhiteSpace(src[p])
      invariant pos <= p <= |src|
      invariant SkipWhiteSpace(src[p..]) == SkipWhiteSpace(src[pos..])
    {
      assert src[p..][0] == src[p] && src[p..][1..] == src[p + 1..];
      p := p + 1;
    }
    ghost var t := src[p..];
    assert p < |src| ==> t[0] == src[p];
    ScanStart(t);
    assert ScanToken(src[pos..]) == ScanFrom(t);
    if p == |src| {
      return Ok((EOF, p));
    }
    var ch := src[p];
    if IsDigit(ch) {
      r := ReadInteger(src, p);
    } else if IsAsciiLetter(ch) {
      r := ReadText(src, p);
    } else if IsQuote(ch) {
      r := ReadString(src, p);
    } else {
      r := ReadToken(src, p);
    }
  }

  /** One step of `Lex`: a token that is not `EOF` is followed by the tokens of the rest. */
  lemma LexStep(s: string, token: Token, rest: string)
    requires ScanToken(s) == Ok((token, rest))
    ensures token == EOF ==> Lex(s) == Ok([EOF])
    ensures token != EOF ==> Lex(s) == Prepend([token], Lex(rest))
  {
  }

  lemma PrependTwice(a: seq<Token>, b: seq<Token>, r: Result<seq<Token>>)
    ensures Prepend(a, Prepend(b, r)) == Prepend(a + b, r)
  {
    if r.Ok? {
      assert a + (b + r.value) == (a + b) + r.value;
    }
  }

  /** `Tokenize`: read tokens until `EOF` has been produced. */
  method Tokenize(src: string) returns (r: Result<seq<Token>>)
    ensures r == Lex(src)
  {
    var tokens: seq<Token> := [];
    var pos: nat := 0;
    assert src[pos..] == src;
    if Lex(src).Ok? {
      assert tokens + Lex(src).value == Lex(src).value;
    }
    while true
      invariant pos <= |src|
      invariant Lex(src) == Prepend(tokens, Lex(src[pos..]))
      decreases |src| - pos
    {
      var next := NextToken(src, pos);
      if next.Err? {
        return Err(next.error);
      }
      var token := next.value.0;
      LexStep(src[pos..], token, src[next.value.1..]);
      if token == EOF {
        return Ok(tokens + [token]);
      }
      PrependTwice(tokens, [token], Lex(src[next.value.1..]));
      tokens := tokens + [token];
      pos := next.value.1;
    }
  }
}
