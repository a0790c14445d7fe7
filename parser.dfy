/** The recursive-descent parser of src/parser.rs. The pure functions say what
    each parsing routine produces from a token position (the value and the
    position after it, or the error); the `Parser` class is the cursor over
    the token vector whose methods are proved to follow them. */
module Parser {
  import opened Wrappers
  import opened Numerics
  import L = Lexer

  datatype Expression =
    | StringLiteral(text: string)
    | IntegerLiteral(number: I64)
    | Identifier(name: string)
    | FunctionCall(name: string, arguments: seq<Expression>)
    | TypedValue(typeName: string, value: Expression)
    | BinaryOperation(left: Expression, operator: string, right: Expression)

  datatype Parameter = Parameter(name: string, typeName: string)

  datatype Statement =
    | ExpressionStatement(expr: Expression)
    | FunctionDeclaration(name: string, parameters: seq<Parameter>, body: seq<Statement>)
    | IfStatement(condition: Expression, body: seq<Statement>)
    | Comment(text: string)

  datatype Program = Program(statements: seq<Statement>)

  /** The parser's error strings: a fixed message, or the `Unexpected token`
      report naming the token found. */
  datatype SyntaxError =
    | Malformed(message: string)
    | UnexpectedToken(found: L.Token)

  /** A parsed value and the position of the first token after it. */
  datatype Parsed<T> = Parsed(value: T, next: nat)

  type ParseResult<T> = Result<Parsed<T>, SyntaxError>

  // The shape of every tree the parser builds.

  predicate IsOperator(op: string) {
    op == "is" || op == "is not"
  }

  predicate IsTypeName(name: string) {
    name == "String" || name == "Integer"
  }

  /** Operators are `is` and `is not` with operands that are not themselves
      operations; typed values are `String` or `Integer`. */
  predicate WellFormed(e: Expression) {
    match e
    case BinaryOperation(l, op, r) =>
      IsOperator(op) && !l.BinaryOperation? && !r.BinaryOperation? && WellFormed(l) && WellFormed(r)
    case TypedValue(t, v) => IsTypeName(t) && WellFormed(v)
    case FunctionCall(_, args) => forall a | a in args :: WellFormed(a)
    case _ => true
  }

  predicate WellFormedStatement(s: Statement) {
    match s
    case ExpressionStatement(e) => WellFormed(e)
    case FunctionDeclaration(_, _, body) => forall b | b in body :: WellFormedStatement(b)
    case IfStatement(c, body) => WellFormed(c) && forall b | b in body :: WellFormedStatement(b)
    case Comment(_) => true
  }

  predicate WellFormedBlock(ss: seq<Statement>) {
    forall k | 0 <= k < |ss| :: WellFormedStatement(ss[k])
  }

  /** The names of a parameter list, in order. */
  function ParameterNames(ps: seq<Parameter>): (ns: seq<string>)
    ensures |ns| == |ps|
    ensures forall k | 0 <= k < |ps| :: ns[k] == ps[k].name
  {
    seq(|ps|, k requires 0 <= k < |ps| => ps[k].name)
  }

  /** `peek_token`: the token at `pos`, or `EOF` past the end. */
  function PeekAt(tokens: seq<L.Token>, pos: nat): L.Token {
    if pos < |tokens| then tokens[pos] else L.EOF
  }

  /** The type token of a parameter, as the name the parameter records. */
  function ParameterTypeName(t: L.Token): (r: Option<string>)
    ensures r.Some? <==> t.TypeString? || t.TypeInteger? || t.TypeUnknown? || t.Identifier?
    ensures t.TypeString? ==> r == Some("String")
    ensures t.TypeInteger? ==> r == Some("Integer")
    ensures t.TypeUnknown? ==> r == Some("Unknown")
    ensures t.Identifier? ==> r == Some(t.name)
  {
    if t.TypeString? then Some("String")
    else if t.TypeInteger? then Some("Integer")
    else if t.TypeUnknown? then Some("Unknown")
    else if t.Identifier? then Some(t.name)
    else None
  }

  /** `xs` followed by a parsed list, or the same error. */
  function Prepend<T>(xs: seq<T>, r: ParseResult<seq<T>>): ParseResult<seq<T>> {
    if r.Ok? then Ok(Parsed(xs + r.value.value, r.value.next)) else r
  }

  lemma PrependNothing<T>(r: ParseResult<seq<T>>)
    ensures Prepend([], r) == r
  {
    if r.Ok? {
      assert [] + r.value.value == r.value.value;
    }
  }

  lemma PrependTwice<T>(xs: seq<T>, ys: seq<T>, r: ParseResult<seq<T>>)
    ensures Prepend(xs, Prepend(ys, r)) == Prepend(xs + ys, r)
  {
    if r.Ok? {
      assert xs + (ys + r.value.value) == (xs + ys) + r.value.value;
    }
  }

  /** What a parsing method returns: the value without its position. */
  function Unpositioned<T>(r: ParseResult<T>): Result<T, SyntaxError> {
    if r.Ok? then Ok(r.value.value) else Err(r.error)
  }

  /** `parse_primary_expression` at `pos`. */
  function PrimaryAt(ts: seq<L.Token>, pos: nat): (r: ParseResult<Expression>)
    requires pos <= |ts|
    ensures r.Ok? ==> pos < r.value.next <= |ts|
    ensures r.Ok? ==> WellFormed(r.value.value) && !r.value.value.BinaryOperation?
    decreases |ts| - pos, 1
  {
    var t := PeekAt(ts, pos);
    if t.StringLiteral? then Ok(Parsed(StringLiteral(t.text), pos + 1))
    else if t.IntegerLiteral? then Ok(Parsed(IntegerLiteral(t.number), pos + 1))
    else if t.Identifier? then
      if PeekAt(ts, pos + 1).LeftParen? then
        var argsResult := ArgumentsAt(ts, pos + 2);
        if argsResult.Err? then Err(argsResult.error) else
        var args := argsResult.value;
        if PeekAt(ts, args.next).RightParen? then
          Ok(Parsed(FunctionCall(t.name, args.value), args.next + 1))
        else Err(Malformed("Expected ')' after function arguments"))
      else Ok(Parsed(Identifier(t.name), pos + 1))
    else if t.TypeString? || t.TypeInteger? then
      var typeName := if t.TypeString? then "String" else "Integer";
      if !PeekAt(ts, pos + 1).LeftBracket? then Err(Malformed("Expected '[' after type name"))
      else
        var valueResult := ExpressionAt(ts, pos + 2);
        if valueResult.Err? then Err(valueResult.error) else
        var value := valueResult.value;
        if PeekAt(ts, value.next).RightBracket? then
          Ok(Parsed(TypedValue(typeName, value.value), value.next + 1))
        else Err(Malformed("Expected ']' after type value"))
    else if t.TypeTrue? then Ok(Parsed(Identifier("True"), pos + 1))
    else if t.TypeFalse? then Ok(Parsed(Identifier("False"), pos + 1))
    else Err(UnexpectedToken(t))
  }

  /** `parse_expression` at `pos`: a primary expression, optionally followed
      by `is` or `is not` and a second primary expression. */
  function ExpressionAt(ts: seq<L.Token>, pos: nat): (r: ParseResult<Expression>)
    requires pos <= |ts|
    ensures r.Ok? ==> pos < r.value.next <= |ts| && WellFormed(r.value.value)
    decreases |ts| - pos, 2
  {
    var leftResult := PrimaryAt(ts, pos);
    if leftResult.Err? then Err(leftResult.error) else
    var left := leftResult.value;
    var t := PeekAt(ts, left.next);
    if t.Equals? || t.NotEquals? then
      var rightResult := PrimaryAt(ts, left.next + 1);
      if rightResult.Err? then Err(rightResult.error) else
      var right := rightResult.value;
      var op := if t.Equals? then "is" else "is not";
      Ok(Parsed(BinaryOperation(left.value, op, right.value), right.next))
    else Ok(left)
  }

  /** The loop of `parse_arguments` from `pos`: one or more expressions
      separated by commas, ending before a `)`. */
  function ArgumentList(ts: seq<L.Token>, pos: nat): (r: ParseResult<seq<Expression>>)
    requires pos <= |ts|
    ensures r.Ok? ==> pos < r.value.next <= |ts| && PeekAt(ts, r.value.next).RightParen?
    ensures r.Ok? ==> |r.value.value| > 0 && forall a | a in r.value.value :: WellFormed(a)
    decreases |ts| - pos, 3
  {
    var argResult := ExpressionAt(ts, pos);
    if argResult.Err? then Err(argResult.error) else
    var arg := argResult.value;
    var t := PeekAt(ts, arg.next);
    if t.RightParen? then Ok(Parsed([arg.value], arg.next))
    else if !t.Comma? then Err(Malformed("Expected ',' between arguments"))
    else Prepend([arg.value], ArgumentList(ts, arg.next + 1))
  }

  /** `parse_arguments` just after `(`: nothing before an immediate `)`. */
  function ArgumentsAt(ts: seq<L.Token>, pos: nat): (r: ParseResult<seq<Expression>>)
    requires pos <= |ts|
    ensures r.Ok? ==> pos <= r.value.next <= |ts| && PeekAt(ts, r.value.next).RightParen?
    ensures r.Ok? ==> forall a | a in r.value.value :: WellFormed(a)
    decreases |ts| - pos, 4
  {
    if PeekAt(ts, pos).RightParen? then Ok(Parsed([], pos)) else ArgumentList(ts, pos)
  }

  /** One entry of `parse_parameters` at `pos`: a name, `:`, and a type. */
  function ParameterAt(ts: seq<L.Token>, pos: nat): (r: ParseResult<Parameter>)
    requires pos <= |ts|
    ensures r.Ok? ==> r.value.next == pos + 3 <= |ts|
    ensures r.Ok? ==> PeekAt(ts, pos) == L.Identifier(r.value.value.name)
  {
    var t := PeekAt(ts, pos);
    if !t.Identifier? then Err(Malformed("Expected parameter name"))
    else if !PeekAt(ts, pos + 1).Colon? then Err(Malformed("Expected ':' after parameter name"))
    else
      var typeName := ParameterTypeName(PeekAt(ts, pos + 2));
      if typeName.None? then Err(Malformed("Expected type name after ':'"))
      else Ok(Parsed(Parameter(t.name, typeName.value), pos + 3))
  }

  /** The loop of `parse_parameters` from `pos`: entries separated by commas,
      ending before a `)`. */
  function ParameterList(ts: seq<L.Token>, pos: nat): (r: ParseResult<seq<Parameter>>)
    requires pos <= |ts|
    ensures r.Ok? ==> pos < r.value.next <= |ts| && PeekAt(ts, r.value.next).RightParen?
    ensures r.Ok? ==> |r.value.value| > 0
    decreases |ts| - pos
  {
    var pResult := ParameterAt(ts, pos);
    if pResult.Err? then Err(pResult.error) else
    var p := pResult.value;
    var u := PeekAt(ts, p.next);
    if u.RightParen? then Ok(Parsed([p.value], p.next))
    else if !u.Comma? then Err(Malformed("Expected ',' between parameters"))
    else Prepend([p.value], ParameterList(ts, p.next + 1))
  }

  /** `parse_parameters` just after `(`: nothing before an immediate `)`. */
  function ParametersAt(ts: seq<L.Token>, pos: nat): (r: ParseResult<seq<Parameter>>)
    requires pos <= |ts|
    ensures r.Ok? ==> pos <= r.value.next <= |ts| && PeekAt(ts, r.value.next).RightParen?
  {
    if PeekAt(ts, pos).RightParen? then Ok(Parsed([], pos)) else ParameterList(ts, pos)
  }

  /** The body loop shared by function declarations and `if` statements:
      statements up to a `}` or the end of the tokens, neither consumed. */
  function BlockAt(ts: seq<L.Token>, pos: nat): (r: ParseResult<seq<Statement>>)
    requires pos <= |ts|
    ensures r.Ok? ==> pos <= r.value.next <= |ts| && WellFormedBlock(r.value.value)
    ensures r.Ok? ==> PeekAt(ts, r.value.next).RightBrace? || PeekAt(ts, r.value.next).EOF?
    decreases |ts| - pos, 7
  {
    var t := PeekAt(ts, pos);
    if t.RightBrace? || t.EOF? then Ok(Parsed([], pos))
    else
      var sResult := StatementAt(ts, pos);
      if sResult.Err? then Err(sResult.error) else
      var s := sResult.value;
      Prepend([s.value], BlockAt(ts, s.next))
  }

  /** `parse_function_declaration` at the `func` token. */
  function FunctionDeclarationAt(ts: seq<L.Token>, pos: nat): (r: ParseResult<Statement>)
    requires pos < |ts| && ts[pos].Func?
    ensures r.Ok? ==> pos < r.value.next <= |ts| && WellFormedStatement(r.value.value)
    ensures r.Ok? ==> r.value.value.FunctionDeclaration? && ts[r.value.next - 1].RightBrace?
    decreases |ts| - pos, 5
  {
    var t := PeekAt(ts, pos + 1);
    if !t.Identifier? then Err(Malformed("Expected function name after 'func' keyword"))
    else if !PeekAt(ts, pos + 2).LeftParen? then Err(Malformed("Expected '(' after function name"))
    else
      var parametersResult := ParametersAt(ts, pos + 3);
      if parametersResult.Err? then Err(parametersResult.error) else
      var parameters := parametersResult.value;
      FunctionBodyAt(ts, t.name, parameters.value, parameters.next)
  }

  /** The rest of `parse_function_declaration`, from the `)` that closes the
      parameters: `{`, the body, `}`. */
  function FunctionBodyAt(ts: seq<L.Token>, name: string, parameters: seq<Parameter>, pos: nat)
    : (r: ParseResult<Statement>)
    requires pos <= |ts|
    ensures r.Ok? ==> pos < r.value.next <= |ts| && WellFormedStatement(r.value.value)
    ensures r.Ok? ==> r.value.value.FunctionDeclaration? && r.value.value.name == name
    ensures r.Ok? ==> r.value.value.parameters == parameters
    ensures r.Ok? ==> ts[r.value.next - 1].RightBrace?
    decreases |ts| - pos, 4
  {
    if !PeekAt(ts, pos).RightParen? then Err(Malformed("Expected ')' after parameters"))
    else if !PeekAt(ts, pos + 1).LeftBrace? then Err(Malformed("Expected '{' after function declaration"))
    else
      var bodyResult := BlockAt(ts, pos + 2);
      if bodyResult.Err? then Err(bodyResult.error) else
      var body := bodyResult.value;
      if !PeekAt(ts, body.next).RightBrace? then Err(Malformed("Expected '}' after function body"))
      else Ok(Parsed(FunctionDeclaration(name, parameters, body.value), body.next + 1))
  }

  /** `parse_if_statement` at the `if` token. */
  function IfStatementAt(ts: seq<L.Token>, pos: nat): (r: ParseResult<Statement>)
    requires pos < |ts| && ts[pos].If?
    ensures r.Ok? ==> pos < r.value.next <= |ts| && WellFormedStatement(r.value.value)
    ensures r.Ok? ==> r.value.value.IfStatement? && ts[r.value.next - 1].RightBrace?
    decreases |ts| - pos, 5
  {
    var conditionResult := ExpressionAt(ts, pos + 1);
    if conditionResult.Err? then Err(conditionResult.error) else
    var condition := conditionResult.value;
    if !PeekAt(ts, condition.next).LeftBrace? then Err(Malformed("Expected '{' after if condition"))
    else
      var bodyResult := BlockAt(ts, condition.next + 1);
      if bodyResult.Err? then Err(bodyResult.error) else
      var body := bodyResult.value;
      if !PeekAt(ts, body.next).RightBrace? then Err(Malformed("Expected '}' after if body"))
      else Ok(Parsed(IfStatement(condition.value, body.value), body.next + 1))
  }

  /** `parse_statement` at `pos`: the kind of statement is decided by the
      first token alone. */
  function StatementAt(ts: seq<L.Token>, pos: nat): (r: ParseResult<Statement>)
    requires pos <= |ts|
    ensures r.Ok? ==> pos < r.value.next <= |ts| && WellFormedStatement(r.value.value)
    ensures r.Ok? ==> (r.value.value.FunctionDeclaration? <==> PeekAt(ts, pos).Func?)
    ensures r.Ok? ==> (r.value.value.IfStatement? <==> PeekAt(ts, pos).If?)
    ensures r.Ok? ==> (r.value.value.Comment? <==> PeekAt(ts, pos).Comment?)
    decreases |ts| - pos, 6
  {
    var t := PeekAt(ts, pos);
    if t.Func? then FunctionDeclarationAt(ts, pos)
    else if t.If? then IfStatementAt(ts, pos)
    else if t.Comment? then Ok(Parsed(Comment(t.text), pos + 1))
    else
      var eResult := ExpressionAt(ts, pos);
      if eResult.Err? then Err(eResult.error) else
      var e := eResult.value;
      Ok(Parsed(ExpressionStatement(e.value), e.next))
  }

  /** The loop of `parse`: statements up to the first `EOF`. */
  function StatementsAt(ts: seq<L.Token>, pos: nat): (r: ParseResult<seq<Statement>>)
    requires pos <= |ts|
    ensures r.Ok? ==> pos <= r.value.next <= |ts| && PeekAt(ts, r.value.next).EOF?
    ensures r.Ok? ==> WellFormedBlock(r.value.value)
    decreases |ts| - pos
  {
    if PeekAt(ts, pos).EOF? then Ok(Parsed([], pos))
    else
      var sResult := StatementAt(ts, pos);
      if sResult.Err? then Err(sResult.error) else
      var s := sResult.value;
      Prepend([s.value], StatementsAt(ts, s.next))
  }

  /** `Parser::new(tokens).parse()`. */
  function ParseProgram(tokens: seq<L.Token>): (r: Result<Program, SyntaxError>)
    ensures r.Ok? ==> WellFormedBlock(r.value.statements)
  {
    var statements := StatementsAt(tokens, 0);
    if statements.Ok? then Ok(Program(statements.value.value)) else Err(statements.error)
  }

  /** The parser: the token vector and the cursor `current_position`. The
      cursor may run past the end, where every token reads as `EOF`. */
  class Parser {
    const tokens: seq<L.Token>
    var current: nat

    constructor (tokens: seq<L.Token>)
      ensures this.tokens == tokens && current == 0
    {
      this.tokens := tokens;
      current := 0;
    }

    function PeekToken(): L.Token
      reads this
    {
      PeekAt(tokens, current)
    }

    function IsAtEnd(): bool
      reads this
    {
      PeekToken().EOF?
    }

    function Check(t: L.Token): bool
      reads this
    {
      PeekToken() == t
    }

    /** `advance` (and `consume_token`): the current token, and the cursor
        moves on even past the end. */
    method Advance() returns (t: L.Token)
      modifies this`current
      ensures t == PeekAt(tokens, old(current)) && current == old(current) + 1
    {
      t := PeekToken();
      current := current + 1;
    }

    method MatchToken(t: L.Token) returns (matched: bool)
      modifies this`current
      ensures matched <==> PeekAt(tokens, old(current)) == t
      ensures current == if matched then old(current) + 1 else old(current)
    {
      if Check(t) {
        var _ := Advance();
        return true;
      }
      return false;
    }

    method Parse() returns (r: Result<Program, SyntaxError>)
      requires current <= |tokens|
      modifies this`current
      ensures var s := StatementsAt(tokens, old(current));
              r == if s.Ok? then Ok(Program(s.value.value)) else Err(s.error)
    {
      ghost var start := current;
      var statements := [];
      PrependNothing(StatementsAt(tokens, current));
      while !IsAtEnd()
        invariant start <= current <= |tokens|
        invariant Prepend(statements, StatementsAt(tokens, current)) == StatementsAt(tokens, start)
        decreases |tokens| - current
      {
        ghost var before := current;
        var s := ParseStatement();
        if s.Err? {
          assert StatementsAt(tokens, before).Err?;
          return Err(s.error);
        }
        assert StatementsAt(tokens, before) == Prepend([s.value], StatementsAt(tokens, current));
        PrependTwice(statements, [s.value], StatementsAt(tokens, current));
        statements := statements + [s.value];
      }
      assert StatementsAt(tokens, current) == Ok(Parsed([], current));
      assert statements + [] == statements;
      r := Ok(Program(statements));
    }

    method ParseStatement() returns (r: Result<Statement, SyntaxError>)
      requires current <= |tokens|
      modifies this`current
      ensures var s := StatementAt(tokens, old(current));
              r == Unpositioned(s) && (s.Ok? ==> current == s.value.next)
      decreases |tokens| - current, 6
    {
      var t := PeekToken();
      if t.Func? {
        r := ParseFunctionDeclaration();
      } else if t.If? {
        r := ParseIfStatement();
      } else if t.Comment? {
        var _ := Advance();
        r := Ok(Comment(t.text));
      } else {
        var e := ParseExpression();
        if e.Err? {
          return Err(e.error);
        }
        r := Ok(ExpressionStatement(e.value));
      }
    }

    /** The body loop of `parse_function_declaration` and `parse_if_statement`. */
    method ParseBlock() returns (r: Result<seq<Statement>, SyntaxError>)
      requires current <= |tokens|
      modifies this`current
      ensures var s := BlockAt(tokens, old(current));
              r == Unpositioned(s) && (s.Ok? ==> current == s.value.next)
      decreases |tokens| - current, 7
    {
      ghost var start := current;
      var body := [];
      PrependNothing(BlockAt(tokens, current));
      while !Check(L.RightBrace) && !IsAtEnd()
        invariant start <= current <= |tokens|
        invariant Prepend(body, BlockAt(tokens, current)) == BlockAt(tokens, start)
        decreases |tokens| - current
      {
        ghost var before := current;
        var s := ParseStatement();
        if s.Err? {
          assert BlockAt(tokens, before).Err?;
          return Err(s.error);
        }
        assert BlockAt(tokens, before) == Prepend([s.value], BlockAt(tokens, current));
        PrependTwice(body, [s.value], BlockAt(tokens, current));
        body := body + [s.value];
      }
      assert BlockAt(tokens, current) == Ok(Parsed([], current));
      assert body + [] == body;
      r := Ok(body);
    }

    method ParseFunctionDeclaration() returns (r: Result<Statement, SyntaxError>)
      requires current < |tokens| && tokens[current].Func?
      modifies this`current
      ensures var s := FunctionDeclarationAt(tokens, old(current));
              r == Unpositioned(s) && (s.Ok? ==> current == s.value.next)
      decreases |tokens| - current, 5
    {
      ghost var start := current;
      var _ := Advance();
      var t := Advance();
      if !t.Identifier? {
        return Err(Malformed("Expected function name after 'func' keyword"));
      }
      var m := MatchToken(L.LeftParen);
      if !m {
        return Err(Malformed("Expected '(' after function name"));
      }
      var parameters := ParseParameters();
      if parameters.Err? {
        return Err(parameters.error);
      }
      ghost var rest := FunctionBodyAt(tokens, t.name, parameters.value, current);
      assert FunctionDeclarationAt(tokens, start) == rest;
      m := MatchToken(L.RightParen);
      if !m {
        // `parse_parameters` succeeds only on a `)`.
        assert false;
      }
      m := MatchToken(L.LeftBrace);
      if !m {
        return Err(Malformed("Expected '{' after function declaration"));
      }
      var body := ParseBlock();
      if body.Err? {
        return Err(body.error);
      }
      m := MatchToken(L.RightBrace);
      if !m {
        return Err(Malformed("Expected '}' after function body"));
      }
      r := Ok(FunctionDeclaration(t.name, parameters.value, body.value));
    }

    method ParseParameters() returns (r: Result<seq<Parameter>, SyntaxError>)
      requires current <= |tokens|
      modifies this`current
      ensures var s := ParametersAt(tokens, old(current));
              r == Unpositioned(s) && (s.Ok? ==> current == s.value.next)
    {
      if Check(L.RightParen) {
        return Ok([]);
      }
      ghost var start := current;
      var parameters := [];
      PrependNothing(ParameterList(tokens, current));
      while true
        invariant start <= current <= |tokens|
        invariant Prepend(parameters, ParameterList(tokens, current)) == ParameterList(tokens, start)
        decreases |tokens| - current
      {
        ghost var before := current;
        var p := ParseParameter();
        if p.Err? {
          return Err(p.error);
        }
        parameters := parameters + [p.value];
        if Check(L.RightParen) {
          assert ParameterList(tokens, before) == Ok(Parsed([p.value], current));
          return Ok(parameters);
        }
        if !Check(L.Comma) {
          return Err(Malformed("Expected ',' between parameters"));
        }
        var _ := Advance();
        assert ParameterList(tokens, before) == Prepend([p.value], ParameterList(tokens, current));
        PrependTwice(parameters[..|parameters| - 1], [p.value], ParameterList(tokens, current));
        assert parameters[..|parameters| - 1] + [p.value] == parameters;
      }
    }

    /** The body of the `parse_parameters` loop up to the pushed parameter. */
    method ParseParameter() returns (r: Result<Parameter, SyntaxError>)
      requires current <= |tokens|
      modifies this`current
      ensures var s := ParameterAt(tokens, old(current));
              r == Unpositioned(s) && (s.Ok? ==> current == s.value.next)
    {
      var t := Advance();
      if !t.Identifier? {
        return Err(Malformed("Expected parameter name"));
      }
      var m := MatchToken(L.Colon);
      if !m {
        return Err(Malformed("Expected ':' after parameter name"));
      }
      var typeToken := Advance();
      var typeName := ParameterTypeName(typeToken);
      if typeName.None? {
        return Err(Malformed("Expected type name after ':'"));
      }
      r := Ok(Parameter(t.name, typeName.value));
    }

    method ParseIfStatement() returns (r: Result<Statement, SyntaxError>)
      requires current < |tokens| && tokens[current].If?
      modifies this`current
      ensures var s := IfStatementAt(tokens, old(current));
              r == Unpositioned(s) && (s.Ok? ==> current == s.value.next)
      decreases |tokens| - current, 5
    {
      var _ := Advance();
      var condition := ParseExpression();
      if condition.Err? {
        return Err(condition.error);
      }
      var m := MatchToken(L.LeftBrace);
      if !m {
        return Err(Malformed("Expected '{' after if condition"));
      }
      var body := ParseBlock();
      if body.Err? {
        return Err(body.error);
      }
      m := MatchToken(L.RightBrace);
      if !m {
        return Err(Malformed("Expected '}' after if body"));
      }
      r := Ok(IfStatement(condition.value, body.value));
    }

    method ParseExpression() returns (r: Result<Expression, SyntaxError>)
      requires current <= |tokens|
      modifies this`current
      ensures var s := ExpressionAt(tokens, old(current));
              r == Unpositioned(s) && (s.Ok? ==> current == s.value.next)
      decreases |tokens| - current, 2
    {
      var left := ParsePrimaryExpression();
      if left.Err? {
        return left;
      }
      if Check(L.Equals) || Check(L.NotEquals) {
        var operator := if Check(L.Equals) then "is" else "is not";
        var _ := Advance();
        var right := ParsePrimaryExpression();
        if right.Err? {
          return right;
        }
        return Ok(BinaryOperation(left.value, operator, right.value));
      }
      r := left;
    }

    method ParsePrimaryExpression() returns (r: Result<Expression, SyntaxError>)
      requires current <= |tokens|
      modifies this`current
      ensures var s := PrimaryAt(tokens, old(current));
              r == Unpositioned(s) && (s.Ok? ==> current == s.value.next)
      decreases |tokens| - current, 1
    {
      var t := PeekToken();
      if t.StringLiteral? {
        var _ := Advance();
        r := Ok(StringLiteral(t.text));
      } else if t.IntegerLiteral? {
        var _ := Advance();
        r := Ok(IntegerLiteral(t.number));
      } else if t.Identifier? {
        var _ := Advance();
        if Check(L.LeftParen) {
          var _ := Advance();
          var arguments := ParseArguments();
          if arguments.Err? {
            return Err(arguments.error);
          }
          var m := MatchToken(L.RightParen);
          if !m {
            return Err(Malformed("Expected ')' after function arguments"));
          }
          r := Ok(FunctionCall(t.name, arguments.value));
        } else {
          r := Ok(Identifier(t.name));
        }
      } else if t.TypeString? || t.TypeInteger? {
        r := ParseTypedValue();
      } else if t.TypeTrue? {
        var _ := Advance();
        r := Ok(Identifier("True"));
      } else if t.TypeFalse? {
        var _ := Advance();
        r := Ok(Identifier("False"));
      } else {
        r := Err(UnexpectedToken(t));
      }
    }

    /** The `TypeString | TypeInteger` arm of `parse_primary_expression`. */
    method ParseTypedValue() returns (r: Result<Expression, SyntaxError>)
      requires current < |tokens| && (tokens[current].TypeString? || tokens[current].TypeInteger?)
      modifies this`current
      ensures var s := PrimaryAt(tokens, old(current));
              r == Unpositioned(s) && (s.Ok? ==> current == s.value.next)
      decreases |tokens| - current, 0
    {
      var t := Advance();
      var typeName := if t.TypeString? then "String" else "Integer";
      var m := MatchToken(L.LeftBracket);
      if !m {
        return Err(Malformed("Expected '[' after type name"));
      }
      var value := ParseExpression();
      if value.Err? {
        return Err(value.error);
      }
      m := MatchToken(L.RightBracket);
      if !m {
        return Err(Malformed("Expected ']' after type value"));
      }
      r := Ok(TypedValue(typeName, value.value));
    }

    method ParseArguments() returns (r: Result<seq<Expression>, SyntaxError>)
      requires current <= |tokens|
      modifies this`current
      ensures var s := ArgumentsAt(tokens, old(current));
              r == Unpositioned(s) && (s.Ok? ==> current == s.value.next)
      decreases |tokens| - current, 4
    {
      if Check(L.RightParen) {
        return Ok([]);
      }
      ghost var start := current;
      var arguments := [];
      PrependNothing(ArgumentList(tokens, current));
      while true
        invariant start <= current <= |tokens|
        invariant Prepend(arguments, ArgumentList(tokens, current)) == ArgumentList(tokens, start)
        decreases |tokens| - current
      {
        ghost var before := current;
        var argument := ParseExpression();
        if argument.Err? {
          return Err(argument.error);
        }
        arguments := arguments + [argument.value];
        if Check(L.RightParen) {
          return Ok(arguments);
        }
        if !Check(L.Comma) {
          return Err(Malformed("Expected ',' between arguments"));
        }
        var _ := Advance();
        assert ArgumentList(tokens, before) == Prepend([argument.value], ArgumentList(tokens, current));
        PrependTwice(arguments[..|arguments| - 1], [argument.value], ArgumentList(tokens, current));
        assert arguments[..|arguments| - 1] + [argument.value] == arguments;
      }
    }
  }
}
