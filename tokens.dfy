/**
 * The lexer's token type (src/token.rs): `New` classifies one lexeme, `Display`
 * prints a token back as text.
 */
module Tokens {
  import opened Outcomes
  import opened Numerals

  /** `Number` carries the literal's exact value in canonical form in place of the f32. */
  datatype Token =
    | Number(value: Decimal)
    | Identifier(text: string)
    | If | Then | Else | End
    | Eq | NEq | IsEq | Gt | Lt | GtEq | LtEq
    | Add | Sub | Mul | Div | Pow | Mod | Differentiate
    | Comma | Belongs | Colon | LParen | RParen | LCurly | RCurly | VLine

  /** The tokens spelled by a fixed keyword or symbol. */
  predicate IsFixed(t: Token) {
    !t.Number? && !t.Identifier?
  }

  /** Unicode White_Space, the characters `str::trim` removes. */
  predicate IsWhitespace(c: char) {
    ('\U{9}' <= c <= '\U{D}') || c == ' ' || c == '\U{85}' || c == '\U{A0}' || c == '\U{1680}'
    || ('\U{2000}' <= c <= '\U{200A}') || c == '\U{2028}' || c == '\U{2029}' || c == '\U{202F}'
    || c == '\U{205F}' || c == '\U{3000}'
  }

  predicate AllWhitespace(s: string) {
    forall i | 0 <= i < |s| :: IsWhitespace(s[i])
  }

  /** Drops leading whitespace: the result is the suffix of `s` after its whitespace prefix. */
  function TrimStart(s: string): (r: string)
    ensures |r| <= |s| && r == s[|s| - |r|..]
    ensures AllWhitespace(s[..|s| - |r|])
    ensures r == [] || !IsWhitespace(r[0])
  {
    if s != [] && IsWhitespace(s[0]) then
      var r := TrimStart(s[1..]);
      assert s[1..][|s| - 1 - |r|..] == s[|s| - |r|..];
      r
    else s
  }

  /** Drops trailing whitespace: the result is the prefix of `s` before its whitespace suffix. */
  function TrimEnd(s: string): (r: string)
    ensures |r| <= |s| && r == s[..|r|]
    ensures AllWhitespace(s[|r|..])
    ensures r == [] || !IsWhitespace(r[|r| - 1])
  {
    if s != [] && IsWhitespace(s[|s| - 1]) then
      var p := s[..|s| - 1];
      var r := TrimEnd(p);
      assert p[..|r|] == s[..|r|];
      assert s[|r|..] == p[|r|..] + [s[|s| - 1]];
      r
    else s
  }

  /** `str::trim`. */
  function Trim(s: string): string {
    TrimEnd(TrimStart(s))
  }

  /** The keyword and symbol arms of `Token::new`'s match: 26 lexemes, each naming one token. */
  function Keyword(key: string): Option<Token> {
    match key
    case "if" => Some(If)
    case "then" => Some(Then)
    case "else" => Some(Else)
    case "end" => Some(End)

    case "=" => Some(Eq)
    case "!=" => Some(NEq)
    case "==" => Some(IsEq)
    case ">" => Some(Gt)
    case "<" => Some(Lt)
    case ">=" => Some(GtEq)
    case "<=" => Some(LtEq)

    case "+" => Some(Add)
    case "-" => Some(Sub)
    case "*" => Some(Mul)
    case "/" => Some(Div)
    case "^" => Some(Pow)
    case "%" => Some(Mod)
    case "`" => Some(Differentiate)

    case "," => Some(Comma)
    case "E" => Some(Belongs)
    case ":" => Some(Colon)
    case "(" => Some(LParen)
    case ")" => Some(RParen)
    case "{" => Some(LCurly)
    case "}" => Some(RCurly)
    case "|" => Some(VLine)
    case _ => None
  }

  /**
   * `Token::new`: the trimmed lexeme is looked up in the fixed table; otherwise the
   * untrimmed lexeme is a number when it is made only of digits and periods (and the
   * float parse panics when those do not form a literal), else an identifier.
   */
  function New(lexeme: string): (r: Result<Token>)
    ensures r.Panic? ==> r.fault == InvalidFloat && IsNumeralText(lexeme)
    ensures r.Ok? && r.value.Identifier? ==> r.value.text == lexeme
  {
    var key := Trim(lexeme);
    if Keyword(key).Some? then Ok(Keyword(key).value)
    else if IsNumeralText(lexeme) then
      match ParseNumeral(lexeme)
      case Some(d) => Ok(Number(d))
      case None => Panic(InvalidFloat)
    else Ok(Identifier(lexeme))
  }

  /** `impl Display for Token`. */
  function Display(t: Token): string {
    match t
    case Number(d) => Show(d)
    case Identifier(text) => text
    case If => "if"
    case Then => "then"
    case Else => "else"
    case End => "end"
    case Eq => "="
    case NEq => "!="
    case IsEq => "=="
    case Gt => ">"
    case Lt => "<"
    case GtEq => ">="
    case LtEq => "<="
    case Add => "+"
    case Sub => "-"
    case Mul => "*"
    case Div => "/"
    case Pow => "^"
    case Mod => "%"
    case Differentiate => "`"
    case Comma => ","
    case Belongs => "E"
    case Colon => ":"
    case LParen => "("
    case RParen => ")"
    case LCurly => "{"
    case RCurly => "}"
    case VLine => "|"
  }

  lemma TrimOfTrimmed(s: string)
    requires s == [] || (!IsWhitespace(s[0]) && !IsWhitespace(s[|s| - 1]))
    ensures Trim(s) == s
  {
  }

  lemma {:induction false} TrimStartSkips(pre: string, x: string)
    requires AllWhitespace(pre)
    ensures TrimStart(pre + x) == TrimStart(x)
  {
    if pre != [] {
      assert (pre + x)[0] == pre[0];
      assert (pre + x)[1..] == pre[1..] + x;
      TrimStartSkips(pre[1..], x);
    } else {
      assert pre + x == x;
    }
  }

  lemma {:induction false} TrimEndSkips(x: string, suf: string)
    requires AllWhitespace(suf)
    ensures TrimEnd(x + suf) == TrimEnd(x)
  {
    if suf != [] {
      var n := |x + suf|;
      assert (x + suf)[n - 1] == suf[|suf| - 1];
      assert (x + suf)[..n - 1] == x + suf[..|suf| - 1];
      TrimEndSkips(x, suf[..|suf| - 1]);
    } else {
      assert x + suf == x;
    }
  }

  /** Whitespace around a word that neither starts nor ends with whitespace is trimmed away. */
  lemma TrimSurrounded(pre: string, word: string, suf: string)
    requires AllWhitespace(pre) && AllWhitespace(suf)
    requires word != [] && !IsWhitespace(word[0]) && !IsWhitespace(word[|word| - 1])
    ensures Trim(pre + word + suf) == word
  {
    assert pre + word + suf == pre + (word + suf);
    TrimStartSkips(pre, word + suf);
    assert (word + suf)[0] == word[0];
    TrimEndSkips(word, suf);
  }

  /** Each fixed token is printed as the lexeme that names it. */
  lemma FixedLexemeOf(t: Token)
    requires IsFixed(t)
    ensures Keyword(Display(t)) == Some(t)
  {
  }

  /**
   * Each lexeme of the table names a fixed token that is printed as that lexeme; with
   * `FixedLexemeOf`, the 26 lexemes and the 26 fixed tokens are in one-to-one correspondence.
   */
  lemma FixedTokenOf(k: string)
    requires Keyword(k).Some?
    ensures IsFixed(Keyword(k).value) && Display(Keyword(k).value) == k
  {
  }

  /** No fixed lexeme has whitespace at an end or is made only of digits and periods. */
  lemma FixedLexemesShape(k: string)
    requires Keyword(k).Some?
    ensures k != [] && !IsWhitespace(k[0]) && !IsWhitespace(k[|k| - 1])
    ensures !IsNumeralText(k)
  {
  }

  /** A keyword or symbol with whitespace around it still yields that keyword or symbol. */
  lemma FixedLexemePadded(pre: string, k: string, suf: string)
    requires AllWhitespace(pre) && AllWhitespace(suf) && Keyword(k).Some?
    ensures New(pre + k + suf) == Ok(Keyword(k).value)
  {
    FixedLexemesShape(k);
    TrimSurrounded(pre, k, suf);
  }

  /** Printing a keyword or symbol token and classifying the text gives the token back. */
  lemma FixedRoundTrip(t: Token)
    requires IsFixed(t)
    ensures New(Display(t)) == Ok(t)
  {
    FixedLexemeOf(t);
    FixedLexemesShape(Display(t));
    TrimOfTrimmed(Display(t));
  }

  /**
   * A lexeme becomes an identifier exactly when its trimmed form is not in the table
   * and it has a character other than a digit or a period; the identifier keeps the
   * untrimmed text, which `Display` returns unchanged.
   */
  lemma IdentifierFallback(s: string)
    ensures New(s).Ok? && New(s).value.Identifier? <==> Keyword(Trim(s)).None? && !IsNumeralText(s)
    ensures Keyword(Trim(s)).None? && !IsNumeralText(s) ==>
      New(s) == Ok(Identifier(s)) && Display(New(s).value) == s
  {
    if Keyword(Trim(s)).Some? {
      FixedTokenOf(Trim(s));
    }
  }

  /**
   * A lexeme made only of digits and periods is never looked up as a keyword; it is a
   * number when it parses as a literal and panics in the float parse otherwise.
   */
  lemma NumeralLexeme(s: string)
    requires IsNumeralText(s)
    ensures Trim(s) == s && Keyword(s).None?
    ensures New(s) == match ParseNumeral(s)
                      case Some(d) => Ok(Number(d))
                      case None => Panic(InvalidFloat)
  {
    if s != [] {
      assert IsNumeralChar(s[0]) && IsNumeralChar(s[|s| - 1]);
      TrimOfTrimmed(s);
    }
    if Keyword(s).Some? {
      FixedLexemesShape(s);
    }
  }

  /**
   * The digit test looks at the untrimmed text: digits with whitespace in front (" 12")
   * make an identifier, not a number.
   */
  lemma SpacedDigitsAreIdentifier(pre: string, digits: string)
    requires pre != [] && AllWhitespace(pre)
    requires digits != [] && IsNumeralText(digits)
    ensures New(pre + digits) == Ok(Identifier(pre + digits))
  {
    NumeralLexeme(digits);
    assert IsNumeralChar(digits[0]) && IsNumeralChar(digits[|digits| - 1]);
    TrimSurrounded(pre, digits, []);
    assert pre + digits + [] == pre + digits;
    assert (pre + digits)[0] == pre[0];
    assert !IsNumeralText(pre + digits) by { assert !IsNumeralChar((pre + digits)[0]); }
    IdentifierFallback(pre + digits);
  }

  /**
   * A lexeme made only of digits and periods panics exactly when it has no digit or
   * more than one period.
   */
  lemma NumeralPanics(s: string)
    requires IsNumeralText(s)
    ensures New(s).Panic? <==> !HasDigit(s) || multiset(s)['.'] > 1
    ensures New(s).Panic? ==> New(s).fault == InvalidFloat
  {
    NumeralLexeme(s);
    ParseNumeralDefined(s);
  }

  /** The empty lexeme, a lone period and two periods pass the digit test but panic. */
  lemma EmptyNumeral()
    ensures New("") == Panic(InvalidFloat)
  {
    NumeralLexeme("");
  }

  lemma LonePeriod()
    ensures New(".") == Panic(InvalidFloat)
  {
    assert IsNumeralText(".");
    NumeralPanics(".");
  }

  lemma TwoPeriods()
    ensures New("1.2.3") == Panic(InvalidFloat)
  {
    var s := "1.2.3";
    assert IsNumeralText(s);
    NumeralLexeme(s);
    assert IndexOf(s, '.') == 1;
    assert s[2..] == "2.3" && '.' in s[2..];
  }

  /** Two numerals that parse to the same decimal are the same token. */
  lemma SameNumeralSameToken(x: string, y: string)
    requires IsNumeralText(x) && IsNumeralText(y) && ParseNumeral(x) == ParseNumeral(y)
    ensures New(x) == New(y)
  {
    NumeralLexeme(x);
    NumeralLexeme(y);
  }

  /** A zero at the end of the fraction does not change the number: "1.50" and "1.5" are one token. */
  lemma TrailingZeroInFraction(a: string, b: string)
    requires AllDigits(a) && AllDigits(b) && |a| + |b| > 0
    ensures New(a + "." + (b + "0")) == New(a + "." + b)
  {
    ParseTrailingZero(a, b);
    SameNumeralSameToken(a + "." + (b + "0"), a + "." + b);
  }

  /** A leading zero does not change the number: "007" and "07" are one token. */
  lemma LeadingZero(s: string)
    requires s != [] && AllDigits(s)
    ensures New("0" + s) == New(s)
  {
    ParseLeadingZero(s);
    SameNumeralSameToken("0" + s, s);
  }

  /** A number token is printed as its canonical numeral, which parses back to it. */
  lemma NumberRoundTrip(d: Decimal)
    requires Canonical(d)
    ensures New(Display(Number(d))) == Ok(Number(d))
  {
    ShowParseRoundTrip(d);
    NumeralLexeme(Show(d));
  }

  /** Every token that `New` produces is printed as text that `New` classifies back to it. */
  lemma TokenRoundTrip(s: string, t: Token)
    requires New(s) == Ok(t)
    ensures New(Display(t)) == Ok(t)
  {
    if t.Number? {
      NumeralLexeme(s);
      NumberRoundTrip(t.value);
    } else if t.Identifier? {
      IdentifierFallback(s);
    } else {
      FixedRoundTrip(t);
    }
  }
}
