/** What the parser promises. Beyond the contracts of the parsing functions
    (progress, the shape of every tree, how each statement kind is chosen),
    this module gives the parser an inverse: a rendering of every tree the
    parser builds back into tokens, and the proof that parsing the rendering
    of a program gives that program back. */
module ParserProperties {
  import opened Wrappers
  import L = Lexer
  import opened Parser

  // Tokens that can start an expression or a statement, and the tokens an
  // expression can be followed by without being extended.

  predicate StartsExpression(t: L.Token) {
    t.StringLiteral? || t.IntegerLiteral? || t.Identifier? || t.TypeString? || t.TypeInteger?
  }

  predicate StartsStatement(t: L.Token) {
    StartsExpression(t) || t.Func? || t.If? || t.Comment?
  }

  /** A token after an expression that neither makes an identifier a call
      nor starts an `is` suffix. */
  predicate Follower(t: L.Token) {
    !t.LeftParen? && !t.Equals? && !t.NotEquals?
  }

  // The rendering.

  function ExpressionTokens(e: Expression): (r: seq<L.Token>)
    ensures |r| > 0 && StartsExpression(r[0])
    decreases e, 1
  {
    match e
    case StringLiteral(text) => [L.StringLiteral(text)]
    case IntegerLiteral(number) => [L.IntegerLiteral(number)]
    case Identifier(name) => [L.Identifier(name)]
    case FunctionCall(name, args) => [L.Identifier(name), L.LeftParen] + ArgumentTokens(args) + [L.RightParen]
    case TypedValue(typeName, value) =>
      [if typeName == "String" then L.TypeString else L.TypeInteger, L.LeftBracket] +
      ExpressionTokens(value) + [L.RightBracket]
    case BinaryOperation(left, operator, right) =>
      ExpressionTokens(left) + [if operator == "is" then L.Equals else L.NotEquals] + ExpressionTokens(right)
  }

  /** Arguments separated by commas. */
  function ArgumentTokens(args: seq<Expression>): (r: seq<L.Token>)
    ensures args != [] ==> |r| > 0 && StartsExpression(r[0])
    decreases args, 0
  {
    if args == [] then []
    else if |args| == 1 then ExpressionTokens(args[0])
    else ExpressionTokens(args[0]) + [L.Comma] + ArgumentTokens(args[1..])
  }

  function ParameterTokens(p: Parameter): seq<L.Token> {
    [L.Identifier(p.name), L.Colon, L.Identifier(p.typeName)]
  }

  /** Parameters separated by commas. */
  function ParameterListTokens(ps: seq<Parameter>): (r: seq<L.Token>)
    ensures ps != [] ==> |r| > 0 && r[0].Identifier?
  {
    if ps == [] then []
    else if |ps| == 1 then ParameterTokens(ps[0])
    else ParameterTokens(ps[0]) + [L.Comma] + ParameterListTokens(ps[1..])
  }

  function StatementTokens(s: Statement): (r: seq<L.Token>)
    ensures |r| > 0 && StartsStatement(r[0])
    decreases s, 1
  {
    match s
    case ExpressionStatement(e) => ExpressionTokens(e)
    case FunctionDeclaration(name, params, body) =>
      [L.Func, L.Identifier(name), L.LeftParen] + ParameterListTokens(params) +
      [L.RightParen, L.LeftBrace] + BlockTokens(body) + [L.RightBrace]
    case IfStatement(condition, body) =>
      [L.If] + ExpressionTokens(condition) + [L.LeftBrace] + BlockTokens(body) + [L.RightBrace]
    case Comment(text) => [L.Comment(text)]
  }

  function BlockTokens(ss: seq<Statement>): (r: seq<L.Token>)
    ensures ss != [] ==> |r| > 0 && StartsStatement(r[0])
    decreases ss, 0
  {
    if ss == [] then [] else StatementTokens(ss[0]) + BlockTokens(ss[1..])
  }

  // Where a rendering sits in the token vector. Positions are passed to
  // the lemmas below explicitly (`mid`, `end`, ...), so that every fact
  // about a position is stated about the same term.

  /** The tokens `r` stand in `ts` from `pos` on. */
  predicate IsAt(ts: seq<L.Token>, pos: nat, r: seq<L.Token>) {
    pos + |r| <= |ts| && ts[pos..pos + |r|] == r
  }

  lemma IsAtConcat(ts: seq<L.Token>, pos: nat, a: seq<L.Token>, b: seq<L.Token>, mid: nat)
    requires IsAt(ts, pos, a + b) && mid == pos + |a|
    ensures IsAt(ts, pos, a) && IsAt(ts, mid, b)
  {
    assert ts[pos..mid] == (a + b)[..|a|];
    assert ts[mid..mid + |b|] == (a + b)[|a|..];
  }

  lemma IsAtPeek(ts: seq<L.Token>, pos: nat, r: seq<L.Token>, k: nat, at: nat)
    requires IsAt(ts, pos, r) && k < |r| && at == pos + k
    ensures at < |ts| && PeekAt(ts, at) == r[k]
  {
    assert ts[at] == ts[pos..pos + |r|][k];
  }

  /** `[a, b] + x + [c]` in place, with `c` at `close`. */
  lemma IsAtBracketed(ts: seq<L.Token>, pos: nat, a: L.Token, b: L.Token, x: seq<L.Token>, c: L.Token, close: nat)
    requires IsAt(ts, pos, [a, b] + x + [c]) && close == pos + 2 + |x|
    ensures PeekAt(ts, pos) == a && PeekAt(ts, pos + 1) == b
    ensures IsAt(ts, pos + 2, x) && close < |ts| && PeekAt(ts, close) == c
  {
    IsAtConcat(ts, pos, [a, b] + x, [c], close);
    IsAtConcat(ts, pos, [a, b], x, pos + 2);
    IsAtPeek(ts, pos, [a, b], 0, pos);
    IsAtPeek(ts, pos, [a, b], 1, pos + 1);
    IsAtPeek(ts, close, [c], 0, close);
  }

  /** `x + [c] + y` in place, with `c` at `mid`. */
  lemma IsAtJoined(ts: seq<L.Token>, pos: nat, x: seq<L.Token>, c: L.Token, y: seq<L.Token>, mid: nat, next: nat)
    requires IsAt(ts, pos, x + [c] + y) && mid == pos + |x| && next == mid + 1
    ensures IsAt(ts, pos, x) && PeekAt(ts, mid) == c && IsAt(ts, next, y)
  {
    IsAtConcat(ts, pos, x + [c], y, next);
    IsAtConcat(ts, pos, x, [c], mid);
    IsAtPeek(ts, mid, [c], 0, mid);
  }

  // Parsing a rendering gives back what was rendered, and stops right
  // after it.

  lemma {:induction false} PrimaryRoundTrip(ts: seq<L.Token>, pos: nat, e: Expression, end: nat)
    requires WellFormed(e) && !e.BinaryOperation?
    requires IsAt(ts, pos, ExpressionTokens(e)) && end == pos + |ExpressionTokens(e)|
    requires !PeekAt(ts, end).LeftParen?
    ensures PrimaryAt(ts, pos) == Ok(Parsed(e, end))
    decreases e, 1
  {
    if e.FunctionCall? {
      CallRoundTrip(ts, pos, e, end);
    } else if e.TypedValue? {
      TypedValueRoundTrip(ts, pos, e, end);
    } else {
      IsAtPeek(ts, pos, ExpressionTokens(e), 0, pos);
      assert end == pos + 1;
    }
  }

  lemma {:induction false} CallRoundTrip(ts: seq<L.Token>, pos: nat, e: Expression, end: nat)
    requires e.FunctionCall? && WellFormed(e)
    requires IsAt(ts, pos, ExpressionTokens(e)) && end == pos + |ExpressionTokens(e)|
    ensures PrimaryAt(ts, pos) == Ok(Parsed(e, end))
    decreases e, 0
  {
    var a := ArgumentTokens(e.arguments);
    var close := pos + 2 + |a|;
    IsAtBracketed(ts, pos, L.Identifier(e.name), L.LeftParen, a, L.RightParen, close);
    ArgumentsRoundTrip(ts, pos + 2, e.arguments, close);
    CallSteps(ts, pos, e.name, e.arguments, close);
  }

  /** `parse_primary_expression` on a call, from its parts. */
  lemma CallSteps(ts: seq<L.Token>, pos: nat, name: string, args: seq<Expression>, close: nat)
    requires pos + 2 <= |ts| && PeekAt(ts, pos) == L.Identifier(name) && PeekAt(ts, pos + 1).LeftParen?
    requires ArgumentsAt(ts, pos + 2) == Ok(Parsed(args, close)) && PeekAt(ts, close).RightParen?
    ensures PrimaryAt(ts, pos) == Ok(Parsed(FunctionCall(name, args), close + 1))
  {
  }

  lemma {:induction false} TypedValueRoundTrip(ts: seq<L.Token>, pos: nat, e: Expression, end: nat)
    requires e.TypedValue? && WellFormed(e)
    requires IsAt(ts, pos, ExpressionTokens(e)) && end == pos + |ExpressionTokens(e)|
    ensures PrimaryAt(ts, pos) == Ok(Parsed(e, end))
    decreases e, 0
  {
    var t := if e.typeName == "String" then L.TypeString else L.TypeInteger;
    var v := ExpressionTokens(e.value);
    var close := pos + 2 + |v|;
    IsAtBracketed(ts, pos, t, L.LeftBracket, v, L.RightBracket, close);
    ExpressionRoundTrip(ts, pos + 2, e.value, close);
    TypedValueSteps(ts, pos, e.value, close);
  }

  /** `parse_primary_expression` on a typed value, from its parts. */
  lemma TypedValueSteps(ts: seq<L.Token>, pos: nat, value: Expression, close: nat)
    requires pos + 2 <= |ts| && (PeekAt(ts, pos).TypeString? || PeekAt(ts, pos).TypeInteger?)
    requires PeekAt(ts, pos + 1).LeftBracket?
    requires ExpressionAt(ts, pos + 2) == Ok(Parsed(value, close)) && PeekAt(ts, close).RightBracket?
    ensures PrimaryAt(ts, pos) ==
      Ok(Parsed(TypedValue(if PeekAt(ts, pos).TypeString? then "String" else "Integer", value), close + 1))
  {
  }

  lemma {:induction false} BinaryRoundTrip(ts: seq<L.Token>, pos: nat, e: Expression, end: nat)
    requires e.BinaryOperation? && WellFormed(e)
    requires IsAt(ts, pos, ExpressionTokens(e)) && end == pos + |ExpressionTokens(e)|
    requires !PeekAt(ts, end).LeftParen?
    ensures ExpressionAt(ts, pos) == Ok(Parsed(e, end))
    decreases e, 1
  {
    var l := ExpressionTokens(e.left);
    var r := ExpressionTokens(e.right);
    var op := if e.operator == "is" then L.Equals else L.NotEquals;
    assert ExpressionTokens(e) == l + [op] + r;
    var mid := pos + |l|;
    IsAtJoined(ts, pos, l, op, r, mid, mid + 1);
    PrimaryRoundTrip(ts, pos, e.left, mid);
    PrimaryRoundTrip(ts, mid + 1, e.right, end);
    BinarySteps(ts, pos, e.left, mid, e.right, end);
  }

  /** `parse_expression` with an operator: the two primaries and the token
      between them. */
  lemma BinarySteps(ts: seq<L.Token>, pos: nat, left: Expression, mid: nat, right: Expression, end: nat)
    requires pos <= |ts| && PrimaryAt(ts, pos) == Ok(Parsed(left, mid))
    requires PeekAt(ts, mid).Equals? || PeekAt(ts, mid).NotEquals?
    requires mid + 1 <= |ts| && PrimaryAt(ts, mid + 1) == Ok(Parsed(right, end))
    ensures ExpressionAt(ts, pos) ==
      Ok(Parsed(BinaryOperation(left, if PeekAt(ts, mid).Equals? then "is" else "is not", right), end))
  {
  }

  lemma {:induction false} ExpressionRoundTrip(ts: seq<L.Token>, pos: nat, e: Expression, end: nat)
    requires WellFormed(e)
    requires IsAt(ts, pos, ExpressionTokens(e)) && end == pos + |ExpressionTokens(e)|
    requires Follower(PeekAt(ts, end))
    ensures ExpressionAt(ts, pos) == Ok(Parsed(e, end))
    decreases e, 2
  {
    if e.BinaryOperation? {
      BinaryRoundTrip(ts, pos, e, end);
    } else {
      PrimaryRoundTrip(ts, pos, e, end);
      PrimaryAlone(ts, pos, e, end);
    }
  }

  /** `parse_expression` with no operator after the primary. */
  lemma PrimaryAlone(ts: seq<L.Token>, pos: nat, e: Expression, end: nat)
    requires pos <= |ts| && PrimaryAt(ts, pos) == Ok(Parsed(e, end)) && Follower(PeekAt(ts, end))
    ensures ExpressionAt(ts, pos) == Ok(Parsed(e, end))
  {
  }

  lemma {:induction false} ArgumentsRoundTrip(ts: seq<L.Token>, pos: nat, args: seq<Expression>, end: nat)
    requires forall a | a in args :: WellFormed(a)
    requires IsAt(ts, pos, ArgumentTokens(args)) && end == pos + |ArgumentTokens(args)|
    requires PeekAt(ts, end).RightParen?
    ensures ArgumentsAt(ts, pos) == Ok(Parsed(args, end))
    decreases args, 3
  {
    if args == [] {
      assert end == pos;
    } else {
      IsAtPeek(ts, pos, ArgumentTokens(args), 0, pos);
      ArgumentListRoundTrip(ts, pos, args, end);
    }
  }

  lemma {:induction false} ArgumentListRoundTrip(ts: seq<L.Token>, pos: nat, args: seq<Expression>, end: nat)
    requires args != [] && forall a | a in args :: WellFormed(a)
    requires IsAt(ts, pos, ArgumentTokens(args)) && end == pos + |ArgumentTokens(args)|
    requires PeekAt(ts, end).RightParen?
    ensures ArgumentList(ts, pos) == Ok(Parsed(args, end))
    decreases args, 2
  {
    if |args| == 1 {
      assert ArgumentTokens(args) == ExpressionTokens(args[0]);
      ExpressionRoundTrip(ts, pos, args[0], end);
      ArgumentListLast(ts, pos, args, end);
    } else {
      ArgumentListStep(ts, pos, args, end);
    }
  }

  /** Two or more arguments: the first, a comma, and the rest. */
  lemma {:induction false} ArgumentListStep(ts: seq<L.Token>, pos: nat, args: seq<Expression>, end: nat)
    requires |args| > 1 && forall a | a in args :: WellFormed(a)
    requires IsAt(ts, pos, ArgumentTokens(args)) && end == pos + |ArgumentTokens(args)|
    requires PeekAt(ts, end).RightParen?
    ensures ArgumentList(ts, pos) == Ok(Parsed(args, end))
    decreases args, 1
  {
    var first := ExpressionTokens(args[0]);
    var rest := ArgumentTokens(args[1..]);
    assert ArgumentTokens(args) == first + [L.Comma] + rest;
    var mid := pos + |first|;
    var next := mid + 1;
    IsAtJoined(ts, pos, first, L.Comma, rest, mid, next);
    ExpressionRoundTrip(ts, pos, args[0], mid);
    assert forall a | a in args[1..] :: a in args;
    ArgumentListRoundTrip(ts, next, args[1..], end);
    ArgumentListContinues(ts, pos, args, mid, next, end);
  }

  /** The last step of the argument loop: an argument before `)`. */
  lemma ArgumentListLast(ts: seq<L.Token>, pos: nat, args: seq<Expression>, end: nat)
    requires |args| == 1
    requires pos <= |ts| && ExpressionAt(ts, pos) == Ok(Parsed(args[0], end)) && PeekAt(ts, end).RightParen?
    ensures ArgumentList(ts, pos) == Ok(Parsed(args, end))
  {
    assert [args[0]] == args;
  }

  /** One step of the argument loop: an argument, a comma, and the rest. */
  lemma ArgumentListContinues(ts: seq<L.Token>, pos: nat, args: seq<Expression>, mid: nat, next: nat, end: nat)
    requires args != []
    requires pos <= |ts| && ExpressionAt(ts, pos) == Ok(Parsed(args[0], mid))
    requires PeekAt(ts, mid).Comma? && next == mid + 1 && next <= |ts|
    requires ArgumentList(ts, next) == Ok(Parsed(args[1..], end))
    ensures ArgumentList(ts, pos) == Ok(Parsed(args, end))
  {
    assert [args[0]] + args[1..] == args;
  }

  lemma ParameterRoundTrip(ts: seq<L.Token>, pos: nat, p: Parameter)
    requires IsAt(ts, pos, ParameterTokens(p))
    ensures ParameterAt(ts, pos) == Ok(Parsed(p, pos + 3))
  {
    IsAtPeek(ts, pos, ParameterTokens(p), 0, pos);
    IsAtPeek(ts, pos, ParameterTokens(p), 1, pos + 1);
    IsAtPeek(ts, pos, ParameterTokens(p), 2, pos + 2);
  }

  /** A parameter whose type is any accepted type token, keyword or not,
      records the name that token stands for. */
  lemma ParameterOfTypeToken(ts: seq<L.Token>, pos: nat, name: string)
    requires pos + 3 <= |ts| && ts[pos] == L.Identifier(name) && ts[pos + 1].Colon?
    requires ParameterTypeName(ts[pos + 2]).Some?
    ensures ParameterAt(ts, pos) == Ok(Parsed(Parameter(name, ParameterTypeName(ts[pos + 2]).value), pos + 3))
  {
  }

  /** The lexer turns `String`, `Integer` and `Unknown` into keyword tokens
      and any other non-keyword word into an identifier; either way the
      parameter records the word as written. */
  lemma TypeWordRecorded(w: string)
    requires w !in L.Keywords || w == "String" || w == "Integer" || w == "Unknown"
    ensures ParameterTypeName(L.KeywordOrIdentifier(w)) == Some(w)
  {
  }

  lemma {:induction false} ParameterListRoundTrip(ts: seq<L.Token>, pos: nat, ps: seq<Parameter>, end: nat)
    requires ps != []
    requires IsAt(ts, pos, ParameterListTokens(ps)) && end == pos + |ParameterListTokens(ps)|
    requires PeekAt(ts, end).RightParen?
    ensures ParameterList(ts, pos) == Ok(Parsed(ps, end))
    decreases |ps|
  {
    if |ps| == 1 {
      assert ParameterListTokens(ps) == ParameterTokens(ps[0]);
      ParameterRoundTrip(ts, pos, ps[0]);
      ParameterListLast(ts, pos, ps, end);
    } else {
      var rest := ParameterListTokens(ps[1..]);
      assert ParameterListTokens(ps) == ParameterTokens(ps[0]) + [L.Comma] + rest;
      IsAtJoined(ts, pos, ParameterTokens(ps[0]), L.Comma, rest, pos + 3, pos + 4);
      ParameterRoundTrip(ts, pos, ps[0]);
      ParameterListRoundTrip(ts, pos + 4, ps[1..], end);
      ParameterListContinues(ts, pos, ps, end);
    }
  }

  /** The last step of the parameter loop: a parameter before `)`. */
  lemma ParameterListLast(ts: seq<L.Token>, pos: nat, ps: seq<Parameter>, end: nat)
    requires |ps| == 1
    requires pos <= |ts| && ParameterAt(ts, pos) == Ok(Parsed(ps[0], pos + 3))
    requires end == pos + 3 && PeekAt(ts, end).RightParen?
    ensures ParameterList(ts, pos) == Ok(Parsed(ps, end))
  {
    assert [ps[0]] == ps;
  }

  /** One step of the parameter loop: a parameter, a comma, and the rest. */
  lemma ParameterListContinues(ts: seq<L.Token>, pos: nat, ps: seq<Parameter>, end: nat)
    requires ps != []
    requires pos <= |ts| && ParameterAt(ts, pos) == Ok(Parsed(ps[0], pos + 3))
    requires PeekAt(ts, pos + 3).Comma? && pos + 4 <= |ts|
    requires ParameterList(ts, pos + 4) == Ok(Parsed(ps[1..], end))
    ensures ParameterList(ts, pos) == Ok(Parsed(ps, end))
  {
    assert [ps[0]] + ps[1..] == ps;
  }

  lemma ParametersRoundTrip(ts: seq<L.Token>, pos: nat, ps: seq<Parameter>, end: nat)
    requires IsAt(ts, pos, ParameterListTokens(ps)) && end == pos + |ParameterListTokens(ps)|
    requires PeekAt(ts, end).RightParen?
    ensures ParametersAt(ts, pos) == Ok(Parsed(ps, end))
  {
    if ps == [] {
      assert end == pos;
    } else {
      IsAtPeek(ts, pos, ParameterListTokens(ps), 0, pos);
      ParameterListRoundTrip(ts, pos, ps, end);
    }
  }

  // Statements, blocks and programs.

  lemma {:induction false} StatementRoundTrip(ts: seq<L.Token>, pos: nat, s: Statement, end: nat)
    requires WellFormedStatement(s)
    requires IsAt(ts, pos, StatementTokens(s)) && end == pos + |StatementTokens(s)|
    requires Follower(PeekAt(ts, end))
    ensures StatementAt(ts, pos) == Ok(Parsed(s, end))
    decreases s, 3
  {
    IsAtPeek(ts, pos, StatementTokens(s), 0, pos);
    match s
    case ExpressionStatement(e) =>
      ExpressionRoundTrip(ts, pos, e, end);
      ExpressionStatementSteps(ts, pos, e, end);
    case FunctionDeclaration(_, _, _) =>
      DeclarationRoundTrip(ts, pos, s, end);
    case IfStatement(_, _) =>
      IfRoundTrip(ts, pos, s, end);
    case Comment(_) =>
      assert end == pos + 1;
  }

  /** `parse_statement` on a token that starts an expression. */
  lemma ExpressionStatementSteps(ts: seq<L.Token>, pos: nat, e: Expression, end: nat)
    requires pos <= |ts| && StartsExpression(PeekAt(ts, pos))
    requires ExpressionAt(ts, pos) == Ok(Parsed(e, end))
    ensures StatementAt(ts, pos) == Ok(Parsed(ExpressionStatement(e), end))
  {
  }

  lemma {:induction false} DeclarationRoundTrip(ts: seq<L.Token>, pos: nat, s: Statement, end: nat)
    requires s.FunctionDeclaration? && WellFormedStatement(s)
    requires IsAt(ts, pos, StatementTokens(s)) && end == pos + |StatementTokens(s)|
    ensures pos < |ts| && ts[pos].Func?
    ensures FunctionDeclarationAt(ts, pos) == Ok(Parsed(s, end))
    decreases s, 2
  {
    var q, close := DeclarationParts(ts, pos, s, end);
    DeclarationAssembled(ts, pos, s, q, close, end);
  }

  /** A declaration from where its parts sit. */
  lemma {:induction false} DeclarationAssembled(ts: seq<L.Token>, pos: nat, s: Statement, q: nat, close: nat, end: nat)
    requires s.FunctionDeclaration? && WellFormedStatement(s)
    requires pos + 3 <= |ts| && ts[pos].Func?
    requires PeekAt(ts, pos + 1) == L.Identifier(s.name) && PeekAt(ts, pos + 2).LeftParen?
    requires IsAt(ts, pos + 3, ParameterListTokens(s.parameters))
    requires q == pos + 3 + |ParameterListTokens(s.parameters)|
    requires q + 2 <= |ts| && PeekAt(ts, q).RightParen? && PeekAt(ts, q + 1).LeftBrace?
    requires IsAt(ts, q + 2, BlockTokens(s.body)) && close == q + 2 + |BlockTokens(s.body)|
    requires PeekAt(ts, close).RightBrace? && end == close + 1
    ensures FunctionDeclarationAt(ts, pos) == Ok(Parsed(s, end))
    decreases s, 1
  {
    ParametersRoundTrip(ts, pos + 3, s.parameters, q);
    FunctionBodyRoundTrip(ts, q, s, close, end);
    DeclarationSteps(ts, pos, s.name, s.parameters, q);
  }

  /** Where the parts of a rendered declaration sit: `q` is the position of
      the `)` after the parameters, `close` that of the final `}`. */
  lemma DeclarationParts(ts: seq<L.Token>, pos: nat, s: Statement, end: nat) returns (q: nat, close: nat)
    requires s.FunctionDeclaration?
    requires IsAt(ts, pos, StatementTokens(s)) && end == pos + |StatementTokens(s)|
    ensures pos + 3 <= |ts| && ts[pos].Func?
    ensures PeekAt(ts, pos + 1) == L.Identifier(s.name) && PeekAt(ts, pos + 2).LeftParen?
    ensures IsAt(ts, pos + 3, ParameterListTokens(s.parameters))
    ensures q == pos + 3 + |ParameterListTokens(s.parameters)|
    ensures q + 2 <= |ts| && PeekAt(ts, q).RightParen? && PeekAt(ts, q + 1).LeftBrace?
    ensures IsAt(ts, q + 2, BlockTokens(s.body)) && close == q + 2 + |BlockTokens(s.body)|
    ensures PeekAt(ts, close).RightBrace? && end == close + 1
  {
    var head := [L.Func, L.Identifier(s.name), L.LeftParen];
    var ps := ParameterListTokens(s.parameters);
    var b := BlockTokens(s.body);
    var h1 := head + ps;
    var h2 := h1 + [L.RightParen, L.LeftBrace];
    var h3 := h2 + b;
    assert StatementTokens(s) == h3 + [L.RightBrace];
    q := pos + 3 + |ps|;
    close := q + 2 + |b|;
    IsAtConcat(ts, pos, h3, [L.RightBrace], close);
    IsAtConcat(ts, pos, h2, b, q + 2);
    IsAtConcat(ts, pos, h1, [L.RightParen, L.LeftBrace], q);
    IsAtConcat(ts, pos, head, ps, pos + 3);
    IsAtPeek(ts, pos, head, 0, pos);
    IsAtPeek(ts, pos, head, 1, pos + 1);
    IsAtPeek(ts, pos, head, 2, pos + 2);
    IsAtPeek(ts, q, [L.RightParen, L.LeftBrace], 0, q);
    IsAtPeek(ts, q, [L.RightParen, L.LeftBrace], 1, q + 1);
    IsAtPeek(ts, close, [L.RightBrace], 0, close);
  }

  /** `parse_function_declaration` up to the `)` after the parameters. */
  lemma DeclarationSteps(ts: seq<L.Token>, pos: nat, name: string, ps: seq<Parameter>, q: nat)
    requires pos + 3 <= |ts| && ts[pos].Func?
    requires PeekAt(ts, pos + 1) == L.Identifier(name) && PeekAt(ts, pos + 2).LeftParen?
    requires ParametersAt(ts, pos + 3) == Ok(Parsed(ps, q))
    ensures FunctionDeclarationAt(ts, pos) == FunctionBodyAt(ts, name, ps, q)
  {
  }

  /** From the `)` after the parameters: `{`, the body and `}`. */
  lemma {:induction false} FunctionBodyRoundTrip(ts: seq<L.Token>, q: nat, s: Statement, close: nat, end: nat)
    requires s.FunctionDeclaration? && WellFormedStatement(s)
    requires q + 2 <= |ts| && PeekAt(ts, q).RightParen? && PeekAt(ts, q + 1).LeftBrace?
    requires IsAt(ts, q + 2, BlockTokens(s.body)) && close == q + 2 + |BlockTokens(s.body)|
    requires PeekAt(ts, close).RightBrace? && end == close + 1
    ensures FunctionBodyAt(ts, s.name, s.parameters, q) == Ok(Parsed(s, end))
    decreases s, 0
  {
    BlockRoundTrip(ts, q + 2, s.body, close);
    FunctionBodySteps(ts, q, s, close, end);
  }

  /** The rest of `parse_function_declaration`, from its parts. */
  lemma FunctionBodySteps(ts: seq<L.Token>, q: nat, s: Statement, close: nat, end: nat)
    requires s.FunctionDeclaration?
    requires q + 2 <= |ts| && PeekAt(ts, q).RightParen? && PeekAt(ts, q + 1).LeftBrace?
    requires BlockAt(ts, q + 2) == Ok(Parsed(s.body, close)) && PeekAt(ts, close).RightBrace?
    requires end == close + 1
    ensures FunctionBodyAt(ts, s.name, s.parameters, q) == Ok(Parsed(s, end))
  {
  }

  lemma {:induction false} IfRoundTrip(ts: seq<L.Token>, pos: nat, s: Statement, end: nat)
    requires s.IfStatement? && WellFormedStatement(s)
    requires IsAt(ts, pos, StatementTokens(s)) && end == pos + |StatementTokens(s)|
    ensures pos < |ts| && ts[pos].If?
    ensures IfStatementAt(ts, pos) == Ok(Parsed(s, end))
    decreases s, 2
  {
    var q, close := IfParts(ts, pos, s, end);
    ExpressionRoundTrip(ts, pos + 1, s.condition, q);
    BlockRoundTrip(ts, q + 1, s.body, close);
    IfSteps(ts, pos, s, q, close, end);
  }

  /** Where the parts of a rendered `if` sit: `q` is the position of the
      `{`, `close` that of the `}`. */
  lemma IfParts(ts: seq<L.Token>, pos: nat, s: Statement, end: nat) returns (q: nat, close: nat)
    requires s.IfStatement?
    requires IsAt(ts, pos, StatementTokens(s)) && end == pos + |StatementTokens(s)|
    ensures pos < |ts| && ts[pos].If?
    ensures IsAt(ts, pos + 1, ExpressionTokens(s.condition))
    ensures q == pos + 1 + |ExpressionTokens(s.condition)|
    ensures q + 1 <= |ts| && PeekAt(ts, q).LeftBrace?
    ensures IsAt(ts, q + 1, BlockTokens(s.body)) && close == q + 1 + |BlockTokens(s.body)|
    ensures PeekAt(ts, close).RightBrace? && end == close + 1
  {
    var c := ExpressionTokens(s.condition);
    var b := BlockTokens(s.body);
    var h1 := [L.If] + c;
    var h2 := h1 + [L.LeftBrace];
    var h3 := h2 + b;
    assert StatementTokens(s) == h3 + [L.RightBrace];
    q := pos + 1 + |c|;
    close := q + 1 + |b|;
    IsAtConcat(ts, pos, h3, [L.RightBrace], close);
    IsAtConcat(ts, pos, h2, b, q + 1);
    IsAtConcat(ts, pos, h1, [L.LeftBrace], q);
    IsAtConcat(ts, pos, [L.If], c, pos + 1);
    IsAtPeek(ts, pos, [L.If], 0, pos);
    IsAtPeek(ts, q, [L.LeftBrace], 0, q);
    IsAtPeek(ts, close, [L.RightBrace], 0, close);
  }

  /** `parse_if_statement` from its parts. */
  lemma IfSteps(ts: seq<L.Token>, pos: nat, s: Statement, q: nat, close: nat, end: nat)
    requires s.IfStatement? && pos < |ts| && ts[pos].If?
    requires ExpressionAt(ts, pos + 1) == Ok(Parsed(s.condition, q)) && PeekAt(ts, q).LeftBrace?
    requires q + 1 <= |ts| && BlockAt(ts, q + 1) == Ok(Parsed(s.body, close)) && PeekAt(ts, close).RightBrace?
    requires end == close + 1
    ensures IfStatementAt(ts, pos) == Ok(Parsed(s, end))
  {
  }

  /** A rendered block is its first statement's tokens followed by tokens
      that are empty or start the next statement. */
  lemma BlockTokensSplit(ss: seq<Statement>)
    requires ss != []
    ensures BlockTokens(ss) == StatementTokens(ss[0]) + BlockTokens(ss[1..])
    ensures BlockTokens(ss[1..]) == [] || StartsStatement(BlockTokens(ss[1..])[0])
  {
    if ss[1..] == [] {
      assert BlockTokens(ss[1..]) == [];
    }
  }

  /** The same in place: where the first statement and the rest sit, and
      the token after the first statement does not extend it. */
  lemma StatementsSplit(ts: seq<L.Token>, pos: nat, whole: seq<L.Token>, first: seq<L.Token>, rest: seq<L.Token>,
                        mid: nat, end: nat)
    requires whole == first + rest
    requires |first| > 0 && StartsStatement(first[0])
    requires rest == [] || StartsStatement(rest[0])
    requires IsAt(ts, pos, whole) && end == pos + |whole| && Follower(PeekAt(ts, end))
    requires mid == pos + |first|
    ensures IsAt(ts, pos, first) && IsAt(ts, mid, rest) && end == mid + |rest|
    ensures Follower(PeekAt(ts, mid)) && StartsStatement(PeekAt(ts, pos))
  {
    IsAtConcat(ts, pos, first, rest, mid);
    IsAtPeek(ts, pos, first, 0, pos);
    if rest != [] {
      IsAtPeek(ts, mid, rest, 0, mid);
    }
  }

  lemma WellFormedTail(ss: seq<Statement>)
    requires ss != [] && WellFormedBlock(ss)
    ensures WellFormedStatement(ss[0]) && WellFormedBlock(ss[1..])
  {
    forall k | 0 <= k < |ss[1..]| ensures WellFormedStatement(ss[1..][k]) {
      assert ss[1..][k] == ss[k + 1];
    }
  }

  lemma {:induction false} BlockRoundTrip(ts: seq<L.Token>, pos: nat, ss: seq<Statement>, end: nat)
    requires WellFormedBlock(ss)
    requires IsAt(ts, pos, BlockTokens(ss)) && end == pos + |BlockTokens(ss)|
    requires PeekAt(ts, end).RightBrace? || PeekAt(ts, end).EOF?
    ensures BlockAt(ts, pos) == Ok(Parsed(ss, end))
    decreases ss, 2
  {
    if ss == [] {
      assert BlockTokens(ss) == [];
      BlockEnds(ts, pos);
    } else {
      BlockTokensSplit(ss);
      var mid := pos + |StatementTokens(ss[0])|;
      StatementsSplit(ts, pos, BlockTokens(ss), StatementTokens(ss[0]), BlockTokens(ss[1..]), mid, end);
      WellFormedTail(ss);
      BlockRoundTripStep(ts, pos, ss, mid, end);
    }
  }

  /** A block of one or more statements, from the facts about its first
      statement and the rest. */
  lemma {:induction false} BlockRoundTripStep(ts: seq<L.Token>, pos: nat, ss: seq<Statement>, mid: nat, end: nat)
    requires ss != [] && WellFormedStatement(ss[0]) && WellFormedBlock(ss[1..])
    requires IsAt(ts, pos, StatementTokens(ss[0])) && mid == pos + |StatementTokens(ss[0])|
    requires Follower(PeekAt(ts, mid)) && StartsStatement(PeekAt(ts, pos))
    requires IsAt(ts, mid, BlockTokens(ss[1..])) && end == mid + |BlockTokens(ss[1..])|
    requires PeekAt(ts, end).RightBrace? || PeekAt(ts, end).EOF?
    ensures BlockAt(ts, pos) == Ok(Parsed(ss, end))
    decreases ss, 1
  {
    StatementRoundTrip(ts, pos, ss[0], mid);
    BlockRoundTrip(ts, mid, ss[1..], end);
    BlockContinues(ts, pos, ss, mid, end);
  }

  /** Both statement loops stop at once at their closing token. */
  lemma BlockEnds(ts: seq<L.Token>, pos: nat)
    requires pos <= |ts|
    ensures PeekAt(ts, pos).RightBrace? || PeekAt(ts, pos).EOF? ==> BlockAt(ts, pos) == Ok(Parsed([], pos))
    ensures PeekAt(ts, pos).EOF? ==> StatementsAt(ts, pos) == Ok(Parsed([], pos))
  {
  }

  /** One step of the body loop: a statement before the closing token, and
      the rest of the body. */
  lemma BlockContinues(ts: seq<L.Token>, pos: nat, ss: seq<Statement>, mid: nat, end: nat)
    requires ss != []
    requires pos <= |ts| && StatementAt(ts, pos) == Ok(Parsed(ss[0], mid))
    requires StartsStatement(PeekAt(ts, pos))
    requires mid <= |ts| && BlockAt(ts, mid) == Ok(Parsed(ss[1..], end))
    ensures BlockAt(ts, pos) == Ok(Parsed(ss, end))
  {
    assert [ss[0]] + ss[1..] == ss;
  }

  /** One step of the loop of `parse`. */
  lemma StatementsContinue(ts: seq<L.Token>, pos: nat, ss: seq<Statement>, mid: nat, end: nat)
    requires ss != []
    requires pos <= |ts| && StatementAt(ts, pos) == Ok(Parsed(ss[0], mid))
    requires StartsStatement(PeekAt(ts, pos))
    requires mid <= |ts| && StatementsAt(ts, mid) == Ok(Parsed(ss[1..], end))
    ensures StatementsAt(ts, pos) == Ok(Parsed(ss, end))
  {
    assert [ss[0]] + ss[1..] == ss;
  }

  lemma {:induction false} StatementsRoundTrip(ts: seq<L.Token>, pos: nat, ss: seq<Statement>, end: nat)
    requires WellFormedBlock(ss)
    requires IsAt(ts, pos, BlockTokens(ss)) && end == pos + |BlockTokens(ss)|
    requires PeekAt(ts, end).EOF?
    ensures StatementsAt(ts, pos) == Ok(Parsed(ss, end))
    decreases ss, 1
  {
    if ss == [] {
      assert BlockTokens(ss) == [];
      BlockEnds(ts, pos);
    } else {
      BlockTokensSplit(ss);
      var mid := pos + |StatementTokens(ss[0])|;
      StatementsSplit(ts, pos, BlockTokens(ss), StatementTokens(ss[0]), BlockTokens(ss[1..]), mid, end);
      WellFormedTail(ss);
      StatementsRoundTripStep(ts, pos, ss, mid, end);
    }
  }

  /** A program of one or more statements, from the facts about its first
      statement and the rest. */
  lemma {:induction false} StatementsRoundTripStep(ts: seq<L.Token>, pos: nat, ss: seq<Statement>, mid: nat, end: nat)
    requires ss != [] && WellFormedStatement(ss[0]) && WellFormedBlock(ss[1..])
    requires IsAt(ts, pos, StatementTokens(ss[0])) && mid == pos + |StatementTokens(ss[0])|
    requires Follower(PeekAt(ts, mid)) && StartsStatement(PeekAt(ts, pos))
    requires IsAt(ts, mid, BlockTokens(ss[1..])) && end == mid + |BlockTokens(ss[1..])|
    requires PeekAt(ts, end).EOF?
    ensures StatementsAt(ts, pos) == Ok(Parsed(ss, end))
    decreases ss, 0
  {
    StatementRoundTrip(ts, pos, ss[0], mid);
    StatementsRoundTrip(ts, mid, ss[1..], end);
    StatementsContinue(ts, pos, ss, mid, end);
  }

  /** The parser's inverse: every program whose trees have the shape the
      parser builds is given back by parsing its rendering, with the `EOF`
      that tokenizing appends. */
  lemma ProgramRoundTrip(ss: seq<Statement>)
    requires WellFormedBlock(ss)
    ensures ParseProgram(BlockTokens(ss) + [L.EOF]) == Ok(Program(ss))
  {
    var ts := BlockTokens(ss) + [L.EOF];
    var end := |BlockTokens(ss)|;
    assert IsAt(ts, 0, BlockTokens(ss)) by {
      assert ts[0..end] == BlockTokens(ss);
    }
    assert PeekAt(ts, end).EOF?;
    StatementsRoundTrip(ts, 0, ss, end);
  }

  // Single steps of the parser, one rule each.

  /** `True` and `False` are read as identifiers, not as booleans. */
  lemma BooleanWordsAreIdentifiers(ts: seq<L.Token>, pos: nat)
    requires pos < |ts| && (ts[pos].TypeTrue? || ts[pos].TypeFalse?)
    ensures PrimaryAt(ts, pos) == Ok(Parsed(Identifier(if ts[pos].TypeTrue? then "True" else "False"), pos + 1))
  {
  }

  /** A type name needs `[`; when it parses, it is a typed value of that
      name around one expression closed by `]`. */
  lemma TypedValueShape(ts: seq<L.Token>, pos: nat)
    requires pos < |ts| && (ts[pos].TypeString? || ts[pos].TypeInteger?)
    ensures !PeekAt(ts, pos + 1).LeftBracket? ==> PrimaryAt(ts, pos) == Err(Malformed("Expected '[' after type name"))
    ensures PrimaryAt(ts, pos).Ok? ==>
      var r := PrimaryAt(ts, pos).value;
      r.value.TypedValue? && r.value.typeName == (if ts[pos].TypeString? then "String" else "Integer") &&
      PeekAt(ts, pos + 1).LeftBracket? && pos + 2 < r.next && ts[r.next - 1].RightBracket? &&
      ExpressionAt(ts, pos + 2) == Ok(Parsed(r.value.value, r.next - 1))
  {
  }

  /** `name()` is a call with no arguments. */
  lemma EmptyCall(ts: seq<L.Token>, pos: nat, name: string)
    requires pos + 2 < |ts| && ts[pos] == L.Identifier(name) && ts[pos + 1].LeftParen? && ts[pos + 2].RightParen?
    ensures PrimaryAt(ts, pos) == Ok(Parsed(FunctionCall(name, []), pos + 3))
  {
  }

  /** After an argument, only `)` or `,` may follow. */
  lemma ArgumentNeedsSeparator(ts: seq<L.Token>, pos: nat)
    requires pos <= |ts| && ExpressionAt(ts, pos).Ok?
    requires var t := PeekAt(ts, ExpressionAt(ts, pos).value.next); !t.RightParen? && !t.Comma?
    ensures ArgumentList(ts, pos) == Err(Malformed("Expected ',' between arguments"))
  {
  }

  /** A function declaration or an `if` with no `}` ahead of it fails: a
      body that runs into the end of the tokens is an error. */
  lemma UnclosedBodyFails(ts: seq<L.Token>, pos: nat)
    requires pos < |ts| && (ts[pos].Func? || ts[pos].If?)
    requires forall k | pos <= k < |ts| :: !ts[k].RightBrace?
    ensures StatementAt(ts, pos).Err?
  {
  }
}
