/** What the lexer promises: one `EOF` at the end, whitespace ignored, the classification of
    words, the payload of string literals, the lex errors, and a round trip from tokens back
    to source text. */
module LexerProperties {
  import opened Tokens
  import opened Errors
  import opened Decimal
  import opened Lexer
  import opened Suffix

  /** The token sequence ends with `EOF`, and no other token is `EOF`. */
  lemma {:induction false} LexEndsWithSingleEof(s: string)
    requires Lex(s).Ok?
    ensures |Lex(s).value| > 0 && Lex(s).value[|Lex(s).value| - 1] == EOF
    ensures forall i :: 0 <= i < |Lex(s).value| - 1 ==> Lex(s).value[i] != EOF
    decreases |s|
  {
    var (token, rest) := ScanToken(s).value;
    if token != EOF {
      LexEndsWithSingleEof(rest);
      var tail := Lex(rest).value;
      assert Lex(s).value == [token] + tail;
    }
  }

  /** Skipping whitespace drops a prefix and stops at the first character that is not
      whitespace. */
  lemma {:induction false} SkipWhiteSpaceSpec(s: string)
    ensures IsSuffix(SkipWhiteSpace(s), s)
    ensures SkipWhiteSpace(s) == [] || !IsWhiteSpace(SkipWhiteSpace(s)[0])
  {
    if s != [] && IsWhiteSpace(s[0]) {
      var r := SkipWhiteSpace(s[1..]);
      SkipWhiteSpaceSpec(s[1..]);
      assert SkipWhiteSpace(s) == r;
      assert s[1..][|s| - 1 - |r|..] == s[|s| - |r|..];
    }
  }

  /** The prefix that skipping whitespace drops is all whitespace. */
  lemma {:induction false} SkippedAreWhiteSpace(s: string)
    ensures forall i :: 0 <= i < |s| - |SkipWhiteSpace(s)| ==> IsWhiteSpace(s[i])
  {
    if s != [] && IsWhiteSpace(s[0]) {
      var r := SkipWhiteSpace(s[1..]);
      SkippedAreWhiteSpace(s[1..]);
      assert SkipWhiteSpace(s) == r;
      forall i | 0 < i < |s| - |r|
        ensures IsWhiteSpace(s[i])
      {
        assert s[i] == s[1..][i - 1];
      }
    }
  }

  /** `EOF` comes exactly when nothing but whitespace remains, and it consumes all of that
      whitespace. */
  lemma EofOnlyAtEnd(s: string)
    ensures ScanToken(s).Ok? && ScanToken(s).value.0 == EOF <==> forall i :: 0 <= i < |s| ==> IsWhiteSpace(s[i])
    ensures ScanToken(s).Ok? && ScanToken(s).value.0 == EOF ==> ScanToken(s).value.1 == []
  {
    var t := SkipWhiteSpace(s);
    SkipWhiteSpaceSpec(s);
    SkippedAreWhiteSpace(s);
    if t != [] {
      assert t[0] == s[|s| - |t|];
      assert !IsWhiteSpace(s[|s| - |t|]);
    }
  }

  /** The reader only moves forward: what is left after a token is a suffix of the input. */
  lemma ScanTokenSuffix(s: string)
    ensures ScanToken(s).Ok? ==> IsSuffix(ScanToken(s).value.1, s)
  {
    var t := SkipWhiteSpace(s);
    SkipWhiteSpaceSpec(s);
    ScanFromSuffix(t);
    if ScanToken(s).Ok? {
      SuffixTransitive(ScanToken(s).value.1, t, s);
    }
  }

  lemma ScanFromSuffix(t: string)
    ensures ScanFrom(t).Ok? ==> IsSuffix(ScanFrom(t).value.1, t)
  {
    if t == [] {
    } else if IsDigit(t[0]) {
      var (w, r) := MaximalRun(t, Digits);
      ConcatSuffix(w, r);
    } else if IsAsciiLetter(t[0]) {
      var (w, r) := MaximalRun(t, LettersOrDigits);
      ConcatSuffix(w, r);
    } else if IsQuote(t[0]) {
      ScanStringSuffix(t);
    } else {
      ConcatSuffix(t[..1], t[1..]);
      assert t[..1] + t[1..] == t;
    }
  }

  lemma ScanStringSuffix(t: string)
    requires t != [] && IsQuote(t[0])
    ensures ScanString(t).Ok? ==> IsSuffix(ScanString(t).value.1, t)
  {
    var (w, r) := MaximalRun(t[1..], NotQuote(t[0]));
    if ScanString(t).Ok? {
      ConcatSuffix(w, r);
      ConcatSuffix(r[..1], r[1..]);
      assert r[..1] + r[1..] == r;
      ConcatSuffix(t[..1], t[1..]);
      assert t[..1] + t[1..] == t;
      SuffixTransitive(r[1..], r, t[1..]);
      SuffixTransitive(r[1..], t[1..], t);
    }
  }

  lemma {:induction false} SkipLeadingWhiteSpace(w: string, s: string)
    requires forall i :: 0 <= i < |w| ==> IsWhiteSpace(w[i])
    ensures SkipWhiteSpace(w + s) == SkipWhiteSpace(s)
  {
    if w != [] {
      assert (w + s)[0] == w[0];
      assert (w + s)[1..] == w[1..] + s;
      assert SkipWhiteSpace(w + s) == SkipWhiteSpace(w[1..] + s);
      SkipLeadingWhiteSpace(w[1..], s);
    } else {
      assert w + s == s;
    }
  }

  /** Whitespace before the input changes nothing. */
  lemma LexIgnoresLeadingWhiteSpace(w: string, s: string)
    requires forall i :: 0 <= i < |w| ==> IsWhiteSpace(w[i])
    ensures ScanToken(w + s) == ScanToken(s)
    ensures Lex(w + s) == Lex(s)
  {
    SkipLeadingWhiteSpace(w, s);
  }

  /** Input that is empty or all whitespace lexes to the end marker alone. */
  lemma LexBlank(w: string)
    requires forall i :: 0 <= i < |w| ==> IsWhiteSpace(w[i])
    ensures Lex(w) == Ok([EOF])
  {
    LexIgnoresLeadingWhiteSpace(w, "");
    assert w + "" == w;
  }

  /** A word is the maximal run of ASCII letters and digits that starts with a letter, and
      becomes the token its classification gives. */
  lemma ScanWordToken(s: string, n: nat)
    requires 0 < n <= |s| && IsAsciiLetter(s[0])
    requires forall i :: 0 <= i < n ==> IsAsciiLetterOrDigit(s[i])
    requires n == |s| || !IsAsciiLetterOrDigit(s[n])
    ensures ScanToken(s) == Ok((ClassifyWord(s[..n]), s[n..]))
  {
    ScanStart(s);
    MaximalRunAt(s, LettersOrDigits, n);
  }

  /** Each table gives its own token: the three word tables do not overlap, so the priority
      keyword, boolean, logical operator never hides an entry. */
  lemma ClassifyWordTables(w: string)
    ensures w in KeywordMap ==> ClassifyWord(w) == KeywordMap[w]
    ensures w in BooleanMap ==> ClassifyWord(w) == Boolean(BooleanMap[w])
    ensures w in LogicalOperatorMap ==> ClassifyWord(w) == Logical(LogicalOperatorMap[w])
    ensures !IsReservedWord(w) ==> ClassifyWord(w) == Identifier(w)
  {
    if w in BooleanMap {
      assert w == "true" || w == "false";
    }
    if w in LogicalOperatorMap {
      assert w == "or" || w == "and";
    }
  }

  /** A string literal holds exactly the characters up to the next copy of its opening quote. */
  lemma ScanStringToken(s: string, k: nat)
    requires 0 < k < |s| && IsQuote(s[0]) && s[k] == s[0]
    requires forall i :: 0 < i < k ==> s[i] != s[0]
    ensures ScanToken(s) == Ok((String(s[1..k]), s[k + 1..]))
  {
    ScanStart(s);
    MaximalRunAt(s[1..], NotQuote(s[0]), k - 1);
    assert s[1..][..k - 1] == s[1..k];
    assert s[1..][k - 1..] == s[k..];
  }

  /** A quote that is never closed before the end of input is a lex error. */
  lemma LexUnclosedString(s: string)
    requires s != [] && IsQuote(s[0])
    requires forall i :: 0 < i < |s| ==> s[i] != s[0]
    ensures ScanToken(s) == Err(LexErr(StringNotClosed(s[1..])))
    ensures Lex(s) == Err(LexErr(StringNotClosed(s[1..])))
  {
    var body := s[1..];
    forall i | 0 <= i < |body|
      ensures Accepts(NotQuote(s[0]), body[i])
    {
      assert body[i] == s[i + 1];
    }
    MaximalRunAt(body, NotQuote(s[0]), |body|);
    assert body[..|body|] == body && body[|body|..] == [];
    assert ScanString(s) == Err(LexErr(StringNotClosed(body)));
    ScanStart(s);
    assert ScanToken(s) == Err(LexErr(StringNotClosed(body)));
  }

  /** A character that starts no token is a lex error. */
  lemma LexInvalidCharacter(s: string)
    requires s != [] && !IsWhiteSpace(s[0]) && !IsDigit(s[0]) && !IsAsciiLetter(s[0]) && !IsQuote(s[0])
    requires s[0] !in BinaryOperatorMap && s[0] !in PunctuationMap
    ensures Lex(s) == Err(LexErr(InvalidCharacter(s[0])))
  {
  }

  /** A maximal digit run, leading zeros included, lexes to the integer it denotes when that
      fits in a 32-bit `int`, and is the out-of-range error otherwise. */
  lemma ScanDigitRun(d: string, rest: string)
    requires d != [] && AllDigits(d)
    requires rest == [] || !IsDigit(rest[0])
    ensures DecimalValue(d) <= IntMax ==> ScanToken(d + rest) == Ok((Integer(DecimalValue(d)), rest))
    ensures DecimalValue(d) > IntMax ==> ScanToken(d + rest) == Err(LexErr(IntegerOutOfRange(d)))
  {
    var s := d + rest;
    assert s[0] == d[0];
    assert s[..|d|] == d && s[|d|..] == rest;
    assert forall i :: 0 <= i < |d| ==> s[i] == d[i];
    ScanStart(s);
    MaximalRunAt(s, Digits, |d|);
  }

  /** The decimal text of `v` reads back as `v` exactly when `v` fits in a 32-bit `int`. */
  lemma ScanDecimal(v: nat, rest: string)
    requires rest == [] || !IsDigit(rest[0])
    ensures v <= IntMax ==> ScanToken(NatToDecimal(v) + rest) == Ok((Integer(v), rest))
    ensures v > IntMax ==> ScanToken(NatToDecimal(v) + rest) == Err(LexErr(IntegerOutOfRange(NatToDecimal(v))))
  {
    ScanDigitRun(NatToDecimal(v), rest);
    DecimalRoundTrip(v);
  }

  // ---- Rendering tokens back to text ----

  predicate IsWord(w: string) {
    w != [] && IsAsciiLetter(w[0]) && forall i :: 0 <= i < |w| ==> IsAsciiLetterOrDigit(w[i])
  }

  /** Tokens the lexer can produce (other than `EOF`): literals in range, identifiers that are
      words no table claims, strings that avoid at least one of the two quote characters. */
  predicate Lexable(t: Token) {
    match t
    case EOF => false
    case Integer(n) => 0 <= n <= IntMax
    case Identifier(x) => IsWord(x) && !IsReservedWord(x)
    case String(text) => '"' !in text || '\'' !in text
    case _ => true
  }

  predicate AllLexable(ts: seq<Token>) {
    forall i :: 0 <= i < |ts| ==> Lexable(ts[i])
  }

  function QuoteFor(text: string): char {
    if '"' !in text then '"' else '\''
  }

  /** The source text of one token. */
  function TokenText(t: Token): string
    requires Lexable(t)
  {
    match t
    case Integer(n) => NatToDecimal(n)
    case Identifier(x) => x
    case String(text) => [QuoteFor(text)] + text + [QuoteFor(text)]
    case Boolean(b) => if b then "true" else "false"
    case Return => "return"
    case Let => "let"
    case Print => "print"
    case Logical(op) => (match op case And => "and" case Or => "or")
    case Binary(op) => (match op case Plus => "+" case Minus => "-" case Asterisk => "*" case Slash => "/")
    case LParen => "("
    case RParen => ")"
    case Equal => "="
    case SemiColon => ";"
  }

  /** Source text for a token sequence: each token followed by one space. */
  function Render(ts: seq<Token>): string
    requires AllLexable(ts)
  {
    if ts == [] then "" else TokenText(ts[0]) + " " + Render(ts[1..])
  }

  lemma ScanWordText(w: string, t: Token, rest: string)
    requires IsWord(w) && ClassifyWord(w) == t
    requires rest != [] && IsWhiteSpace(rest[0])
    ensures ScanToken(w + rest) == Ok((t, rest))
  {
    var s := w + rest;
    assert s[..|w|] == w && s[|w|..] == rest;
    ScanWordToken(s, |w|);
  }

  lemma ScanStringText(text: string, rest: string)
    requires '"' !in text || '\'' !in text
    ensures ScanToken([QuoteFor(text)] + text + [QuoteFor(text)] + rest) == Ok((String(text), rest))
  {
    var q := QuoteFor(text);
    var s := [q] + text + [q] + rest;
    var k := |text| + 1;
    assert s[k] == q;
    assert forall i :: 0 < i < k ==> s[i] == text[i - 1];
    ScanStringToken(s, k);
    assert s[1..k] == text;
    assert s[k + 1..] == rest;
  }

  lemma ScanSymbolChar(c: char, t: Token, rest: string)
    requires (c in BinaryOperatorMap && t == Binary(BinaryOperatorMap[c]))
          || (c !in BinaryOperatorMap && c in PunctuationMap && t == PunctuationMap[c])
    ensures ScanToken([c] + rest) == Ok((t, rest))
  {
    var s := [c] + rest;
    assert s[0] == c && s[1..] == rest;
    assert !IsWhiteSpace(c) && !IsDigit(c) && !IsAsciiLetter(c) && !IsQuote(c);
    ScanStart(s);
  }

  lemma ScanSymbolText(t: Token, rest: string)
    requires t.Binary? || t.LParen? || t.RParen? || t.Equal? || t.SemiColon?
    ensures ScanToken(TokenText(t) + rest) == Ok((t, rest))
  {
    match t
    case Binary(Plus) =>
      assert TokenText(t) == "+";
      ScanSymbolChar('+', t, rest);
    case Binary(Minus) =>
      assert TokenText(t) == "-";
      ScanSymbolChar('-', t, rest);
    case Binary(Asterisk) =>
      assert TokenText(t) == "*";
      ScanSymbolChar('*', t, rest);
    case Binary(Slash) =>
      assert TokenText(t) == "/";
      ScanSymbolChar('/', t, rest);
    case LParen =>
      assert TokenText(t) == "(";
      ScanSymbolChar('(', t, rest);
    case RParen =>
      assert TokenText(t) == ")";
      ScanSymbolChar(')', t, rest);
    case Equal =>
      assert TokenText(t) == "=";
      ScanSymbolChar('=', t, rest);
    case SemiColon =>
      assert TokenText(t) == ";";
      ScanSymbolChar(';', t, rest);
  }

  lemma ScanKeywordText(t: Token, rest: string)
    requires t.Return? || t.Let? || t.Print?
    requires rest != [] && IsWhiteSpace(rest[0])
    ensures ScanToken(TokenText(t) + rest) == Ok((t, rest))
  {
    var w := TokenText(t);
    match t
    case Return => assert w == "return"; ScanWordText(w, t, rest);
    case Let => assert w == "let"; ScanWordText(w, t, rest);
    case Print => assert w == "print"; ScanWordText(w, t, rest);
  }

  lemma ScanLiteralWordText(t: Token, rest: string)
    requires t.Boolean? || t.Logical?
    requires rest != [] && IsWhiteSpace(rest[0])
    ensures ScanToken(TokenText(t) + rest) == Ok((t, rest))
  {
    var w := TokenText(t);
    match t
    case Boolean(b) =>
      if b { assert w == "true"; } else { assert w == "false"; }
      ScanWordText(w, t, rest);
    case Logical(op) =>
      if op == And { assert w == "and"; } else { assert w == "or"; }
      ScanWordText(w, t, rest);
  }

  /** Lexing the text of a token, followed by whitespace, gives that token back. */
  lemma ScanTokenText(t: Token, rest: string)
    requires Lexable(t)
    requires rest != [] && IsWhiteSpace(rest[0])
    ensures ScanToken(TokenText(t) + rest) == Ok((t, rest))
  {
    match t
    case Integer(n) => ScanDecimal(n, rest);
    case Identifier(x) => ScanWordText(x, t, rest);
    case String(text) => ScanStringText(text, rest);
    case Return => ScanKeywordText(t, rest);
    case Let => ScanKeywordText(t, rest);
    case Print => ScanKeywordText(t, rest);
    case Boolean(b) => ScanLiteralWordText(t, rest);
    case Logical(op) => ScanLiteralWordText(t, rest);
    case _ => ScanSymbolText(t, rest);
  }

  /** A token's text and a space, in front of any input, lexes to that token in front. */
  lemma LexTokenText(t: Token, rest: string)
    requires Lexable(t)
    ensures Lex(TokenText(t) + " " + rest) == Prepend([t], Lex(rest))
  {
    var r := TokenText(t) + " " + rest;
    assert r == TokenText(t) + (" " + rest);
    ScanTokenText(t, " " + rest);
    LexStep(r, t, " " + rest);
    LexIgnoresLeadingWhiteSpace(" ", rest);
  }

  /** Round trip: the rendered text of any lexable token sequence lexes back to it, plus `EOF`. */
  lemma {:induction false} LexRender(ts: seq<Token>)
    requires AllLexable(ts)
    ensures Lex(Render(ts)) == Ok(ts + [EOF])
  {
    if ts == [] {
      LexBlank("");
      assert ts + [EOF] == [EOF];
    } else {
      assert AllLexable(ts[1..]);
      LexRender(ts[1..]);
      LexTokenText(ts[0], Render(ts[1..]));
      assert [ts[0]] + (ts[1..] + [EOF]) == ts + [EOF];
    }
  }
}
