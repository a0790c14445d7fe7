/** What the lexer promises, stated over `ScanToken` and `Tokenize`. */
module LexerProperties {
  import opened Wrappers
  import opened Numerics
  import opened Lexer

  /** A maximal run is determined by its characterisation. */
  lemma {:induction false} RunEndIs(s: string, i: nat, e: nat, p: char -> bool)
    requires i <= e <= |s|
    requires forall k | i <= k < e :: p(s[k])
    requires e == |s| || !p(s[e])
    ensures RunEnd(s, i, p) == e
    decreases e - i
  {
    if i < e {
      RunEndIs(s, i + 1, e, p);
    }
  }

  /** The same for the start of a maximal run ending at `j`. */
  lemma {:induction false} RunStartIs(s: string, lo: nat, b: nat, j: nat, p: char -> bool)
    requires lo <= b <= j <= |s|
    requires forall k | b <= k < j :: p(s[k])
    requires b == lo || !p(s[b - 1])
    ensures RunStart(s, lo, j, p) == b
    decreases j - b
  {
    if b < j {
      RunStartIs(s, lo, b, j - 1, p);
    }
  }

  /** Trimming only cuts whitespace off the two ends: the result is a slice
      of the text with nothing but whitespace before and after it. */
  lemma TrimIsSlice(s: string)
    ensures exists a, b | 0 <= a <= b <= |s| ::
              Trim(s) == s[a..b] &&
              (forall k | 0 <= k < a :: IsWhitespace(s[k])) &&
              (forall k | b <= k < |s| :: IsWhitespace(s[k]))
  {
    var a := RunEnd(s, 0, IsWhitespace);
    var b := RunStart(s, a, |s|, IsWhitespace);
    assert Trim(s) == s[a..b];
  }

  /** The slice is unique: whenever the text is whitespace, then a part that
      neither starts nor ends with whitespace, then whitespace, trimming
      gives exactly that part. */
  lemma TrimIsOuterCut(s: string, a: nat, b: nat)
    requires a <= b <= |s|
    requires forall k | 0 <= k < a :: IsWhitespace(s[k])
    requires forall k | b <= k < |s| :: IsWhitespace(s[k])
    requires a == b || (!IsWhitespace(s[a]) && !IsWhitespace(s[b - 1]))
    ensures Trim(s) == s[a..b]
  {
    if a == b {
      RunEndIs(s, 0, |s|, IsWhitespace);
      RunStartIs(s, |s|, |s|, |s|, IsWhitespace);
    } else {
      RunEndIs(s, 0, a, IsWhitespace);
      RunStartIs(s, a, b, |s|, IsWhitespace);
    }
  }

  /** A character that begins a token of its own. */
  predicate StartsToken(c: char) {
    c == '[' || c == ']' || c == '{' || c == '}' || c == '(' || c == ')' ||
    c == ':' || c == ',' || IsAlphabetic(c) || IsDigit(c)
  }

  predicate CommentAt(s: string, k: nat) {
    k + 1 < |s| && s[k] == '/' && s[k + 1] == '/'
  }

  /** The character at `k` produces nothing: whitespace, or a character that
      starts no token and no comment. */
  predicate Insignificant(s: string, k: nat)
    requires k < |s|
  {
    IsWhitespace(s[k]) || (!StartsToken(s[k]) && !CommentAt(s, k))
  }

  /** A character that starts no token and no comment is dropped: scanning
      goes on after it as if it were not there, with no error. */
  lemma DroppedCharacter(s: string, i: nat)
    requires i < |s| && !IsWhitespace(s[i]) && !StartsToken(s[i]) && !CommentAt(s, i)
    ensures ScanToken(s, i) == ScanToken(s, i + 1)
  {
    RunEndIs(s, i, i, IsWhitespace);
    ScanTokenAtChar(s, i, i);
  }

  /** `next_token` answers `EOF` exactly when nothing from the cursor on
      produces a token. */
  lemma {:induction false} EofIffNothingLeft(s: string, i: nat)
    requires i <= |s|
    ensures ScanToken(s, i).token.EOF? <==> forall k | i <= k < |s| :: Insignificant(s, k)
    decreases |s| - i
  {
    var j := RunEnd(s, i, IsWhitespace);
    assert forall k | i <= k < j :: Insignificant(s, k);
    if CommentAt(s, j) {
      ScanTokenComment(s, i, j);
      assert !Insignificant(s, j);
    } else if j < |s| {
      ScanTokenAtChar(s, i, j);
      if StartsToken(s[j]) {
        assert !Insignificant(s, j);
        assert !ScanAtChar(s, j).token.EOF?;
      } else {
        EofIffNothingLeft(s, j + 1);
        assert ScanAtChar(s, j) == ScanToken(s, j + 1);
      }
    } else {
      ScanTokenEnd(s, i);
    }
  }

  /** `//` starts a comment: its text is the rest of the line, up to but not
      including `\n` or `\r`, with surrounding whitespace trimmed; the line
      break itself is left for the next token. */
  lemma CommentToken(s: string, i: nat, e: nat)
    requires CommentAt(s, i) && i + 2 <= e <= |s|
    requires forall k | i + 2 <= k < e :: !IsLineBreak(s[k])
    requires e == |s| || IsLineBreak(s[e])
    ensures ScanToken(s, i) == Scanned(Comment(Trim(s[i + 2..e])), e)
  {
    RunEndIs(s, i, i, IsWhitespace);
    ScanTokenComment(s, i, i);
    RunEndIs(s, i + 2, e, NotLineBreak);
  }

  /** The word `w` stands at `i` and is followed by `(`. */
  predicate WordThenParen(s: string, i: nat, w: string) {
    i + |w| < |s| && s[i..i + |w|] == w && s[i + |w|] == '('
  }

  lemma WordEnd(s: string, i: nat, w: string)
    requires WordThenParen(s, i, w) && |w| > 0
    requires forall k | 0 <= k < |w| :: IsWordChar(w[k])
    ensures RunEnd(s, i, IsWordChar) == i + |w|
  {
    forall k | i <= k < i + |w| ensures IsWordChar(s[k]) {
      assert s[k] == s[i..i + |w|][k - i];
    }
    RunEndIs(s, i, i + |w|, IsWordChar);
  }

  /** `String(` body `)` is one string literal whose text is the raw body up
      to the first `)` (or to the end of the input); it is never the type
      token `String`. */
  lemma StringParenLiteral(s: string, i: nat, b: nat)
    requires WordThenParen(s, i, "String") && i + 7 <= b <= |s|
    requires forall k | i + 7 <= k < b :: s[k] != ')'
    requires b == |s| || s[b] == ')'
    ensures ScanToken(s, i) == Scanned(StringLiteral(s[i + 7..b]), if b < |s| then b + 1 else b)
  {
    RunEndIs(s, i, i, IsWhitespace);
    ScanTokenAtChar(s, i, i);
    WordEnd(s, i, "String");
    RunEndIs(s, i + 7, b, NotCloseParen);
    assert s[i] == s[i..i + 6][0];
  }

  /** `Integer(` body `)` is one integer literal: the body parsed as an `i64`,
      or `0` when that parse fails. */
  lemma IntegerParenLiteral(s: string, i: nat, b: nat)
    requires WordThenParen(s, i, "Integer") && i + 8 <= b <= |s|
    requires forall k | i + 8 <= k < b :: s[k] != ')'
    requires b == |s| || s[b] == ')'
    ensures ScanToken(s, i) ==
            Scanned(IntegerLiteral(ParseI64(s[i + 8..b]).GetOr(0)), if b < |s| then b + 1 else b)
  {
    RunEndIs(s, i, i, IsWhitespace);
    ScanTokenAtChar(s, i, i);
    WordEnd(s, i, "Integer");
    RunEndIs(s, i + 8, b, NotCloseParen);
    assert s[i] == s[i..i + 7][0];
  }

  /** A maximal run of digits is one integer literal: its decimal value, or
      `0` when that value does not fit in an `i64`. */
  lemma NumberLiteral(s: string, i: nat, e: nat)
    requires i < e <= |s|
    requires forall k | i <= k < e :: IsDigit(s[k])
    requires e == |s| || !IsDigit(s[e])
    ensures AllDigits(s[i..e])
    ensures ScanToken(s, i) ==
            Scanned(IntegerLiteral(if DigitsValue(s[i..e]) <= I64_MAX then DigitsValue(s[i..e]) else 0), e)
  {
    RunEndIs(s, i, i, IsWhitespace);
    ScanTokenAtChar(s, i, i);
    RunEndIs(s, i, e, IsDigit);
    assert AllDigits(s[i..e]);
  }

  /** A maximal word that does not start with `i` (and is not a literal
      `String(` / `Integer(`) is a keyword token exactly for the spellings in
      the keyword table, and otherwise an identifier with that text. */
  lemma WordToken(s: string, i: nat, e: nat)
    requires i < e <= |s| && IsAlphabetic(s[i]) && s[i] != 'i'
    requires forall k | i <= k < e :: IsWordChar(s[k])
    requires e == |s| || !IsWordChar(s[e])
    requires !(e < |s| && s[e] == '(' && (s[i..e] == "String" || s[i..e] == "Integer"))
    ensures ScanToken(s, i) == Scanned(KeywordOrIdentifier(s[i..e]), e)
    ensures !ScanToken(s, i).token.If?
  {
    RunEndIs(s, i, i, IsWhitespace);
    ScanTokenAtChar(s, i, i);
    RunEndIs(s, i, e, IsWordChar);
    assert s[i..e][0] == s[i];
  }

  /** A word that starts with `i` but not `is` is read whole; it is the
      keyword `if` only when it is exactly `if`. */
  lemma IWordToken(s: string, i: nat, e: nat)
    requires i < e <= |s| && s[i] == 'i' && !(i + 1 < |s| && s[i + 1] == 's')
    requires forall k | i <= k < e :: IsWordChar(s[k])
    requires e == |s| || !IsWordChar(s[e])
    ensures ScanToken(s, i) == Scanned(if s[i..e] == "if" then If else Identifier(s[i..e]), e)
  {
    RunEndIs(s, i, i, IsWhitespace);
    ScanTokenAtChar(s, i, i);
    RunEndIs(s, i + 1, e, IsWordChar);
    assert "i" + s[i + 1..e] == s[i..e];
  }

  /** Length of the longest common prefix of two strings. */
  function CommonPrefix(a: string, b: string): (m: nat)
    ensures m <= |a| && m <= |b| && a[..m] == b[..m]
    ensures m < |a| && m < |b| ==> a[m] != b[m]
  {
    if a == [] || b == [] || a[0] != b[0] then 0
    else
      var m := 1 + CommonPrefix(a[1..], b[1..]);
      assert a[..m] == [a[0]] + a[1..][..m - 1];
      assert b[..m] == [b[0]] + b[1..][..m - 1];
      m
  }

  /** After `is`, the matcher consumes the longest prefix of ` not` found at
      the cursor: all four characters make `is not`, fewer leave `is`, and
      the consumed characters are lost either way. */
  lemma IsSuffixConsumesLongestPrefix(s: string, q: nat)
    requires 0 < q <= |s|
    ensures var m := CommonPrefix(s[q..], " not");
            ScanIsSuffix(s, q) == if m == 4 then Scanned(NotEquals, q + 4) else Scanned(Equals, q + m)
  {
    var t := s[q..];
    var m := CommonPrefix(t, " not");
    if m >= 1 { assert t[0] == t[..m][0]; }
    if m >= 2 { assert t[1] == t[..m][1]; }
    if m >= 3 { assert t[2] == t[..m][2]; }
    if m >= 4 { assert t[3] == t[..m][3]; }
  }

  /** `is` is matched without regard to word boundaries: whatever follows,
      a token starting with `is` is the operator `is`, or `is not` when
      ` not` follows. */
  lemma IsPrefixIsOperator(s: string, i: nat)
    requires i + 2 <= |s| && s[i] == 'i' && s[i + 1] == 's'
    ensures ScanToken(s, i).token == (if i + 6 <= |s| && s[i + 2..i + 6] == " not" then NotEquals else Equals)
  {
    RunEndIs(s, i, i, IsWhitespace);
    ScanTokenAtChar(s, i, i);
    IsSuffixConsumesLongestPrefix(s, i + 2);
    var m := CommonPrefix(s[i + 2..], " not");
    if i + 6 <= |s| && s[i + 2..i + 6] == " not" {
      assert s[i + 2..][..4] == s[i + 2..i + 6];
      assert m == 4;
    }
  }

  /** `is` swallows the start of the word it prefixes: `isolate` is the
      operator followed by the identifier `olate`. */
  lemma IsolateExample(s: string)
    requires s == "isolate"
    ensures Tokenize(s) == [Equals, Identifier("olate"), EOF]
  {
    assert ScanToken(s, 0) == Scanned(Equals, 2) by {
      RunEndIs(s, 0, 0, IsWhitespace);
      ScanTokenAtChar(s, 0, 0);
    }
    assert ScanToken(s, 2) == Scanned(Identifier("olate"), 7) by {
      WordToken(s, 2, 7);
      assert s[2..7] == "olate";
    }
    assert ScanToken(s, 7) == Scanned(EOF, 7) by {
      RunEndIs(s, 7, 7, IsWhitespace);
      ScanTokenEnd(s, 7);
    }
    assert TokensFrom(s, 2) == [Identifier("olate")] + TokensFrom(s, 7);
  }

  /** `String(` starts a literal that keeps its raw body. */
  lemma StringLiteralExample(s: string)
    requires s == "String(Hello)"
    ensures Tokenize(s) == [StringLiteral("Hello"), EOF]
  {
    assert s[0..6] == "String";
    StringParenLiteral(s, 0, 12);
    assert s[7..12] == "Hello";
    RunEndIs(s, 13, 13, IsWhitespace);
    ScanTokenEnd(s, 13);
    assert TokensFrom(s, 13) == [EOF];
  }
}
