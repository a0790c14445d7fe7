/** The lexer of src/lexer.rs: a character-at-a-time scanner over the source
    text that never fails. The pure functions (`ScanToken`, `TokensFrom`)
    say what each call produces; the `Lexer` class is the scanner itself,
    a cursor over the input whose methods are proved to follow them. */
module Lexer {
  import opened Wrappers
  import opened Numerics

  datatype Token =
    // Identifiers and literals
    | Identifier(name: string)
    | StringLiteral(text: string)
    | IntegerLiteral(number: I64)
    // Types
    | TypeString
    | TypeInteger
    | TypeUnknown
    | TypeTrue
    | TypeFalse
    // Symbols
    | LeftBracket
    | RightBracket
    | LeftBrace
    | RightBrace
    | LeftParen
    | RightParen
    | Equals      // is
    | NotEquals   // is not
    | Colon
    | Comma
    // Keywords
    | If
    | Func
    | Comment(text: string)
    | EOF

  // Character classes, restricted to ASCII (see README).

  /** `char::is_whitespace`: space, tab, line feed, vertical tab, form feed, carriage return. */
  predicate IsWhitespace(c: char) {
    c == ' ' || '\t' <= c <= '\r'
  }

  /** `char::is_alphabetic`. */
  predicate IsAlphabetic(c: char) {
    'a' <= c <= 'z' || 'A' <= c <= 'Z'
  }

  /** `c.is_alphanumeric() || c == '_'`: the characters of a word. */
  predicate IsWordChar(c: char) {
    IsAlphabetic(c) || IsDigit(c) || c == '_'
  }

  predicate IsLineBreak(c: char) {
    c == '\n' || c == '\r'
  }

  predicate NotLineBreak(c: char) {
    !IsLineBreak(c)
  }

  predicate NotCloseParen(c: char) {
    c != ')'
  }

  /** End of the maximal run of characters satisfying `p` that starts at `i`. */
  function RunEnd(s: string, i: nat, p: char -> bool): (j: nat)
    requires i <= |s|
    ensures i <= j <= |s|
    ensures forall k | i <= k < j :: p(s[k])
    ensures j == |s| || !p(s[j])
    decreases |s| - i
  {
    if i == |s| || !p(s[i]) then i else RunEnd(s, i + 1, p)
  }

  /** Start of the maximal run of characters satisfying `p` that ends at `j`,
      looking no further back than `lo`. */
  function RunStart(s: string, lo: nat, j: nat, p: char -> bool): (i: nat)
    requires lo <= j <= |s|
    ensures lo <= i <= j
    ensures forall k | i <= k < j :: p(s[k])
    ensures i == lo || !p(s[i - 1])
    decreases j
  {
    if j == lo || !p(s[j - 1]) then j else RunStart(s, lo, j - 1, p)
  }

  /** `str::trim`: drop leading and trailing whitespace. */
  function Trim(s: string): (r: string)
    ensures |r| <= |s|
    ensures r == [] || (!IsWhitespace(r[0]) && !IsWhitespace(r[|r| - 1]))
  {
    var a := RunEnd(s, 0, IsWhitespace);
    var b := RunStart(s, a, |s|, IsWhitespace);
    s[a..b]
  }

  /** What the lexer recognises at one call of `next_token`: the token and
      the position just after it. */
  datatype Scanned = Scanned(token: Token, next: nat)

  /** The keyword table of `read_type_value`: only these exact spellings are
      not identifiers. */
  const Keywords: map<string, Token> :=
    map["String" := TypeString, "Integer" := TypeInteger, "True" := TypeTrue,
        "False" := TypeFalse, "Unknown" := TypeUnknown, "if" := If, "func" := Func]

  function KeywordOrIdentifier(word: string): (t: Token)
    ensures t.Identifier? <==> word !in Keywords
    ensures t.Identifier? ==> t.name == word
  {
    if word in Keywords then Keywords[word] else Identifier(word)
  }

  /** `read_type_value` at `j`: a word, except that `String(` and `Integer(`
      capture the raw text up to the next `)` as a literal. */
  function ScanWord(s: string, j: nat): (r: Scanned)
    requires j < |s| && IsWordChar(s[j])
    ensures j < r.next <= |s|
    ensures !r.token.EOF?
  {
    var e := RunEnd(s, j, IsWordChar);
    var word := s[j..e];
    if e < |s| && s[e] == '(' && (word == "String" || word == "Integer") then
      var b := RunEnd(s, e + 1, NotCloseParen);
      var body := s[e + 1..b];
      var after := if b < |s| then b + 1 else b;
      if word == "String" then Scanned(StringLiteral(body), after)
      else Scanned(IntegerLiteral(ParseI64(body).GetOr(0)), after)
    else Scanned(KeywordOrIdentifier(word), e)
  }

  /** After `is`, at `q`: a space, `n` and `o` are each consumed if present,
      and a final `t` makes the token `is not`; any shorter match is `is`,
      with the matched characters consumed all the same. */
  function ScanIsSuffix(s: string, q: nat): (r: Scanned)
    requires 0 < q <= |s|
    ensures q <= r.next <= |s|
    ensures r.token.Equals? || r.token.NotEquals?
  {
    if q < |s| && s[q] == ' ' then
      if q + 1 < |s| && s[q + 1] == 'n' then
        if q + 2 < |s| && s[q + 2] == 'o' then
          if q + 3 < |s| && s[q + 3] == 't' then Scanned(NotEquals, q + 4)
          else Scanned(Equals, q + 3)
        else Scanned(Equals, q + 2)
      else Scanned(Equals, q + 1)
    else Scanned(Equals, q)
  }

  /** The `'i'` branch of `next_token`, entered at `p`, just after the `i`:
      an `s` commits to `is` or `is not`, whatever follows; otherwise the
      word starting with `i` is read by hand and only `if` is a keyword. */
  function ScanAfterI(s: string, p: nat): (r: Scanned)
    requires 0 < p <= |s|
    ensures p <= r.next <= |s|
    ensures !r.token.EOF?
  {
    if p < |s| && s[p] == 's' then ScanIsSuffix(s, p + 1)
    else
      var e := RunEnd(s, p, IsWordChar);
      var word := "i" + s[p..e];
      Scanned(if word == "if" then If else Identifier(word), e)
  }

  /** One call of `next_token` with the cursor at `i`: skip whitespace, then
      a `//` comment, the end of the input, or the character's own token. */
  function ScanToken(s: string, i: nat): (r: Scanned)
    requires i <= |s|
    ensures i <= r.next <= |s|
    ensures r.token.EOF? ==> r.next == |s|
    ensures !r.token.EOF? ==> i < r.next
    decreases |s| - i, 1
  {
    var j := RunEnd(s, i, IsWhitespace);
    if j + 1 < |s| && s[j] == '/' && s[j + 1] == '/' then
      var e := RunEnd(s, j + 2, NotLineBreak);
      Scanned(Comment(Trim(s[j + 2..e])), e)
    else if j == |s| then Scanned(EOF, j)
    else ScanAtChar(s, j)
  }

  /** The `match self.current_char` of `next_token` on a character at `j`.
      A character that starts no token is skipped and scanning resumes after
      it, with no token and no error. */
  function ScanAtChar(s: string, j: nat): (r: Scanned)
    requires j < |s|
    ensures j < r.next <= |s|
    ensures r.token.EOF? ==> r.next == |s|
    decreases |s| - j, 0
  {
    var c := s[j];
    if c == '[' then Scanned(LeftBracket, j + 1)
    else if c == ']' then Scanned(RightBracket, j + 1)
    else if c == '{' then Scanned(LeftBrace, j + 1)
    else if c == '}' then Scanned(RightBrace, j + 1)
    else if c == '(' then Scanned(LeftParen, j + 1)
    else if c == ')' then Scanned(RightParen, j + 1)
    else if c == 'i' then ScanAfterI(s, j + 1)
    else if c == ':' then Scanned(Colon, j + 1)
    else if c == ',' then Scanned(Comma, j + 1)
    else if IsAlphabetic(c) then ScanWord(s, j)
    else if IsDigit(c) then
      var e := RunEnd(s, j, IsDigit);
      Scanned(IntegerLiteral(ParseI64(s[j..e]).GetOr(0)), e)
    else ScanToken(s, j + 1)
  }

  // How one `ScanToken` step unfolds, once the whitespace is skipped.

  lemma ScanTokenComment(s: string, i: nat, j: nat)
    requires i <= |s| && j == RunEnd(s, i, IsWhitespace) && j + 1 < |s| && s[j] == '/' && s[j + 1] == '/'
    ensures var e := RunEnd(s, j + 2, NotLineBreak);
            ScanToken(s, i) == Scanned(Comment(Trim(s[j + 2..e])), e)
  {
  }

  lemma ScanTokenEnd(s: string, i: nat)
    requires i <= |s| && RunEnd(s, i, IsWhitespace) == |s|
    ensures ScanToken(s, i) == Scanned(EOF, |s|)
  {
  }

  lemma ScanTokenAtChar(s: string, i: nat, j: nat)
    requires i <= |s| && j == RunEnd(s, i, IsWhitespace) && j < |s|
    requires !(j + 1 < |s| && s[j] == '/' && s[j + 1] == '/')
    ensures ScanToken(s, i) == ScanAtChar(s, j)
  {
  }

  /** `tokenize` from position `i`: the tokens up to and including the first
      `EOF`. The result always ends with `EOF`, and `EOF` occurs nowhere else. */
  function TokensFrom(s: string, i: nat): (ts: seq<Token>)
    requires i <= |s|
    ensures |ts| > 0 && ts[|ts| - 1].EOF?
    ensures forall k | 0 <= k < |ts| - 1 :: !ts[k].EOF?
    decreases |s| - i
  {
    var r := ScanToken(s, i);
    if r.token.EOF? then [EOF] else [r.token] + TokensFrom(s, r.next)
  }

  /** One step of `TokensFrom`, for a scan whose outcome is already known. */
  lemma TokensFromStep(s: string, i: nat, t: Token, next: nat)
    requires i <= |s| && Scanned(t, next) == ScanToken(s, i)
    ensures t.EOF? ==> TokensFrom(s, i) == [EOF]
    ensures !t.EOF? ==> TokensFrom(s, i) == [t] + TokensFrom(s, next)
  {
  }

  /** `Lexer::new(source).tokenize()`. */
  function Tokenize(source: string): seq<Token> {
    TokensFrom(source, 0)
  }

  /** The scanner. `input` and `pos` stand for the peekable character
      iterator: `current_char` is the character at `pos`, `peek` the one after. */
  class Lexer {
    const input: string
    var pos: nat

    ghost predicate Valid()
      reads this
    {
      pos <= |input|
    }

    constructor (source: string)
      ensures input == source && pos == 0 && Valid()
    {
      input := source;
      pos := 0;
    }

    function CurrentChar(): (c: Option<char>)
      reads this
      requires Valid()
      ensures c.Some? <==> pos < |input|
      ensures c.Some? ==> c.value == input[pos]
    {
      if pos < |input| then Some(input[pos]) else None
    }

    function Peek(): (c: Option<char>)
      reads this
      ensures c.Some? <==> pos + 1 < |input|
      ensures c.Some? ==> c.value == input[pos + 1]
    {
      if pos + 1 < |input| then Some(input[pos + 1]) else None
    }

    /** Move to the next character; at the end of the input there is none. */
    method Advance()
      requires Valid()
      modifies this`pos
      ensures Valid()
      ensures pos == if old(pos) < |input| then old(pos) + 1 else old(pos)
    {
      if pos < |input| {
        pos := pos + 1;
      }
    }

    method SkipWhitespace()
      requires Valid()
      modifies this`pos
      ensures Valid() && pos == RunEnd(input, old(pos), IsWhitespace)
    {
      while CurrentChar().Some?
        invariant Valid() && old(pos) <= pos
        invariant RunEnd(input, pos, IsWhitespace) == RunEnd(input, old(pos), IsWhitespace)
        decreases |input| - pos
      {
        var c := CurrentChar().value;
        if !IsWhitespace(c) {
          break;
        }
        Advance();
      }
    }

    method ReadComment() returns (comment: string)
      requires Valid() && pos + 1 < |input| && input[pos] == '/' && input[pos + 1] == '/'
      modifies this`pos
      ensures Valid() && pos == RunEnd(input, old(pos) + 2, NotLineBreak)
      ensures comment == Trim(input[old(pos) + 2..pos])
    {
      var text := "";
      Advance();
      Advance();
      ghost var start := pos;
      assert start == old(pos) + 2;
      while CurrentChar().Some?
        invariant Valid() && start <= pos && text == input[start..pos]
        invariant RunEnd(input, pos, NotLineBreak) == RunEnd(input, start, NotLineBreak)
        decreases |input| - pos
      {
        var c := CurrentChar().value;
        if c == '\n' || c == '\r' {
          break;
        }
        assert input[start..pos + 1] == text + [c];
        text := text + [c];
        Advance();
      }
      assert text == input[old(pos) + 2..pos];
      comment := Trim(text);
    }

    method ReadIdentifier() returns (identifier: string)
      requires Valid()
      modifies this`pos
      ensures Valid() && pos == RunEnd(input, old(pos), IsWordChar)
      ensures identifier == input[old(pos)..pos]
    {
      identifier := "";
      while CurrentChar().Some?
        invariant Valid() && old(pos) <= pos && identifier == input[old(pos)..pos]
        invariant RunEnd(input, pos, IsWordChar) == RunEnd(input, old(pos), IsWordChar)
        decreases |input| - pos
      {
        var c := CurrentChar().value;
        if IsWordChar(c) {
          identifier := identifier + [c];
          Advance();
        } else {
          break;
        }
      }
    }

    method ReadNumber() returns (number: I64)
      requires Valid()
      modifies this`pos
      ensures Valid() && pos == RunEnd(input, old(pos), IsDigit)
      ensures number == ParseI64(input[old(pos)..pos]).GetOr(0)
    {
      var digits := "";
      while CurrentChar().Some?
        invariant Valid() && old(pos) <= pos && digits == input[old(pos)..pos]
        invariant RunEnd(input, pos, IsDigit) == RunEnd(input, old(pos), IsDigit)
        decreases |input| - pos
      {
        var c := CurrentChar().value;
        if IsDigit(c) {
          digits := digits + [c];
          Advance();
        } else {
          break;
        }
      }
      number := ParseI64(digits).GetOr(0);
    }

    /** Called on the `(` of `String(` or `Integer(`: skip it, then take raw
        characters up to the next `)`, which is consumed too. */
    method ReadStringLiteral() returns (text: string)
      requires Valid() && pos < |input|
      modifies this`pos
      ensures Valid()
      ensures var b := RunEnd(input, old(pos) + 1, NotCloseParen);
              text == input[old(pos) + 1..b] && pos == if b < |input| then b + 1 else b
    {
      text := "";
      Advance();
      ghost var start := pos;
      while CurrentChar().Some?
        invariant Valid() && start <= pos && text == input[start..pos]
        invariant RunEnd(input, pos, NotCloseParen) == RunEnd(input, start, NotCloseParen)
        decreases |input| - pos
      {
        var c := CurrentChar().value;
        if c == ')' {
          Advance();
          break;
        } else {
          text := text + [c];
          Advance();
        }
      }
    }

    method ReadTypeValue() returns (token: Token)
      requires Valid() && pos < |input| && IsWordChar(input[pos])
      modifies this`pos
      ensures Valid() && Scanned(token, pos) == ScanWord(input, old(pos))
    {
      var identifier := ReadIdentifier();
      if CurrentChar() == Some('(') {
        if identifier == "String" {
          var text := ReadStringLiteral();
          return StringLiteral(text);
        } else if identifier == "Integer" {
          var text := ReadStringLiteral();
          var parsed := ParseI64(text);
          if parsed.Some? {
            return IntegerLiteral(parsed.value);
          } else {
            return IntegerLiteral(0);
          }
        }
      }
      token := KeywordOrIdentifier(identifier);
    }

    method NextToken() returns (token: Token)
      requires Valid()
      modifies this`pos
      ensures Valid() && Scanned(token, pos) == ScanToken(input, old(pos))
      decreases |input| - pos, 1
    {
      SkipWhitespace();
      if CurrentChar() == Some('/') && Peek() == Some('/') {
        ghost var j := pos;
        var comment := ReadComment();
        ScanTokenComment(input, old(pos), j);
        return Comment(comment);
      }
      if CurrentChar().None? {
        ScanTokenEnd(input, old(pos));
        return EOF;
      }
      ScanTokenAtChar(input, old(pos), pos);
      token := ReadAtChar();
    }

    /** The arms of `match self.current_char` in `next_token` for a character. */
    method ReadAtChar() returns (token: Token)
      requires Valid() && pos < |input|
      modifies this`pos
      ensures Valid() && Scanned(token, pos) == ScanAtChar(input, old(pos))
      decreases |input| - pos, 0
    {
      var c := CurrentChar().value;
      if c == '[' {
        Advance();
        token := LeftBracket;
      } else if c == ']' {
        Advance();
        token := RightBracket;
      } else if c == '{' {
        Advance();
        token := LeftBrace;
      } else if c == '}' {
        Advance();
        token := RightBrace;
      } else if c == '(' {
        Advance();
        token := LeftParen;
      } else if c == ')' {
        Advance();
        token := RightParen;
      } else if c == 'i' {
        token := ReadAfterI();
      } else if c == ':' {
        Advance();
        token := Colon;
      } else if c == ',' {
        Advance();
        token := Comma;
      } else if IsAlphabetic(c) {
        token := ReadTypeValue();
      } else if IsDigit(c) {
        var number := ReadNumber();
        token := IntegerLiteral(number);
      } else {
        Advance();
        token := NextToken();
      }
    }

    /** The `Some('i')` arm of `next_token`. */
    method ReadAfterI() returns (token: Token)
      requires Valid() && pos < |input| && input[pos] == 'i'
      modifies this`pos
      ensures Valid() && Scanned(token, pos) == ScanAfterI(input, old(pos) + 1)
    {
      Advance();
      if CurrentChar() == Some('s') {
        Advance();
        token := ReadIsSuffix();
        return;
      }
      ghost var start := pos;
      var identifier := "i";
      while CurrentChar().Some?
        invariant Valid() && start <= pos && identifier == "i" + input[start..pos]
        invariant RunEnd(input, pos, IsWordChar) == RunEnd(input, start, IsWordChar)
        decreases |input| - pos
      {
        var c := CurrentChar().value;
        if IsWordChar(c) {
          assert "i" + input[start..pos + 1] == identifier + [c];
          identifier := identifier + [c];
          Advance();
        } else {
          break;
        }
      }
      token := if identifier == "if" then If else Identifier(identifier);
    }

    /** The tail of the `is` / `is not` matcher, just after `is`. */
    method ReadIsSuffix() returns (token: Token)
      requires Valid() && 0 < pos
      modifies this`pos
      ensures Valid() && Scanned(token, pos) == ScanIsSuffix(input, old(pos))
    {
      if CurrentChar() == Some(' ') {
        Advance();
        if CurrentChar() == Some('n') {
          Advance();
          if CurrentChar() == Some('o') {
            Advance();
            if CurrentChar() == Some('t') {
              Advance();
              return NotEquals;
            }
          }
        }
      }
      return Equals;
    }

    method Tokenize() returns (tokens: seq<Token>)
      requires Valid()
      modifies this`pos
      ensures Valid() && tokens == TokensFrom(input, old(pos))
    {
      tokens := [];
      while true
        invariant Valid() && tokens + TokensFrom(input, pos) == TokensFrom(input, old(pos))
        decreases |input| - pos
      {
        ghost var before := pos;
        var token := NextToken();
        TokensFromStep(input, before, token, pos);
        if token.EOF? {
          tokens := tokens + [token];
          break;
        }
        assert tokens + [token] + TokensFrom(input, pos) == tokens + ([token] + TokensFrom(input, pos));
        tokens := tokens + [token];
      }
    }
  }
}
