/** The gradual type checker of src/typechecker.rs. The pure functions say
    what checking an expression, a statement and a block produces from a type
    environment (the type or the first error, and the environment after it);
    the `TypeChecker` class holds the environment and its methods are proved
    to follow them. */
module TypeChecker {
  import opened Wrappers
  import opened Numerics
  import opened Scopes
  import P = Parser

  datatype Type =
    | String
    | Integer
    | Boolean
    | Void
    | Function(parameters: seq<Type>, returnType: Type)
    | Unknown

  /** `Display for Type`: a function type is written `fn(A, B) -> R`. */
  function TypeToString(t: Type): string
    decreases t, 1
  {
    match t
    case String => "String"
    case Integer => "Integer"
    case Boolean => "Boolean"
    case Void => "Void"
    case Function(ps, rt) => "fn(" + JoinTypes(ps) + ") -> " + TypeToString(rt)
    case Unknown => "Unknown"
  }

  /** The parameter list of `fn(...)`, separated by `, `. */
  function JoinTypes(ts: seq<Type>): string
    decreases ts, 0
  {
    if ts == [] then ""
    else if |ts| == 1 then TypeToString(ts[0])
    else TypeToString(ts[0]) + ", " + JoinTypes(ts[1..])
  }

  /** The error strings the checker reports, one constructor per message. */
  datatype TypeError =
    | UndefinedVariable(name: string)
    | UndefinedFunction(name: string)
    | ArityMismatch(name: string, parameterCount: nat, argumentCount: nat)
    | TypeMismatch(expected: Type, got: Type)
    | NotAFunction(name: string)
    | NonBooleanCondition(got: Type)
    | UnknownOperator(operator: string)

  function Message(e: TypeError): string {
    match e
    case UndefinedVariable(n) => "Undefined variable '" + n + "'"
    case UndefinedFunction(n) => "Undefined function '" + n + "'"
    case ArityMismatch(n, x, g) =>
      "Function '" + n + "' expects " + NatToString(x) + " arguments, got " + NatToString(g)
    case TypeMismatch(x, g) => "Type mismatch: expected " + TypeToString(x) + ", got " + TypeToString(g)
    case NotAFunction(n) => "'" + n + "' is not a function"
    case NonBooleanCondition(g) => "If condition must be a boolean, got " + TypeToString(g)
    case UnknownOperator(op) => "Unknown operator: " + op
  }

  const PrintType: Type := Function([Unknown], Void)
  const FunctionType: Type := Function([Unknown], Unknown)

  /** `TypeEnvironment::new`: one scope holding the two built-ins, and
      nothing else. */
  function NewTypeEnvironment(): (env: Chain<Type>)
    ensures |env| == 1
    ensures Get(env, "print") == Some(PrintType)
    ensures Get(env, "function") == Some(FunctionType)
    ensures forall n | n != "print" && n != "function" :: Get(env, n) == None
  {
    Define(Define([map[]], "print", PrintType), "function", FunctionType)
  }

  /** `parse_type_name`: the four type names the checker knows, and
      `Unknown` for every other name. */
  function ParseTypeName(name: string): (t: Type)
    ensures t.String? <==> name == "String"
    ensures t.Integer? <==> name == "Integer"
    ensures t.Boolean? <==> name == "Boolean"
    ensures t.Unknown? <==> name != "String" && name != "Integer" && name != "Boolean"
  {
    if name == "String" then String
    else if name == "Integer" then Integer
    else if name == "Boolean" then Boolean
    else Unknown
  }

  /** `types_compatible`: `Unknown` on either side fits anything; otherwise
      the types must be equal. */
  function TypesCompatible(actual: Type, expected: Type): bool {
    expected.Unknown? || actual.Unknown? || actual == expected
  }

  /** The declared types of a parameter list, in order. */
  function ParameterTypes(ps: seq<P.Parameter>): (ts: seq<Type>)
    ensures |ts| == |ps|
    ensures forall k | 0 <= k < |ps| :: ts[k] == ParseTypeName(ps[k].typeName)
  {
    seq(|ps|, k requires 0 <= k < |ps| => ParseTypeName(ps[k].typeName))
  }

  // What `check_expression` computes. It reads the environment and never
  // changes it.

  /** `check_expression`: the type of `e`, or the first error met. */
  function TypeOf(env: Chain<Type>, e: P.Expression): (r: Result<Type, TypeError>)
    ensures e.StringLiteral? ==> r == Ok(String)
    ensures e.IntegerLiteral? ==> r == Ok(Integer)
    ensures r.Ok? && e.BinaryOperation? ==> r.value.Boolean?
    decreases e, 2
  {
    match e
    case StringLiteral(_) => Ok(String)
    case IntegerLiteral(_) => Ok(Integer)
    case Identifier(name) =>
      var found := Get(env, name);
      if found.Some? then Ok(found.value) else Err(UndefinedVariable(name))
    case FunctionCall(name, args) => CallType(env, name, args)
    case TypedValue(typeName, value) =>
      var expected := ParseTypeName(typeName);
      if value.Identifier? then Ok(expected)
      else
        var valueResult := TypeOf(env, value);
        if valueResult.Err? then valueResult
        else if !TypesCompatible(valueResult.value, expected) then Err(TypeMismatch(expected, valueResult.value))
        else Ok(expected)
    case BinaryOperation(left, operator, right) =>
      var leftResult := TypeOf(env, left);
      if leftResult.Err? then leftResult
      else
        var rightResult := TypeOf(env, right);
        if rightResult.Err? then rightResult
        else if operator == "is" || operator == "is not" then Ok(Boolean)
        else Err(UnknownOperator(operator))
  }

  /** The call branch of `check_expression`: the name must be bound; `print`
      and `function` are special-cased by name; any other name must be bound
      to a function type whose arity and parameter types the arguments
      match. */
  function CallType(env: Chain<Type>, name: string, args: seq<P.Expression>): (r: Result<Type, TypeError>)
    ensures Get(env, name).None? ==> r == Err(UndefinedFunction(name))
    decreases args, 1
  {
    var found := Get(env, name);
    if found.None? then Err(UndefinedFunction(name))
    else if name == "print" then
      var checked := CheckEach(env, args);
      if checked.Err? then Err(checked.error) else Ok(Void)
    else if name == "function" then
      if |args| > 0 then TypeOf(env, args[0]) else Ok(Unknown)
    else
      var ft := found.value;
      if !ft.Function? then Err(NotAFunction(name))
      else if |args| != |ft.parameters| then Err(ArityMismatch(name, |ft.parameters|, |args|))
      else
        var checked := CheckArguments(env, args, ft.parameters);
        if checked.Err? then Err(checked.error) else Ok(ft.returnType)
  }

  /** Every argument of `print` checked, left to right; the first error. */
  function CheckEach(env: Chain<Type>, args: seq<P.Expression>): (r: Result<(), TypeError>)
    decreases args, 0
  {
    if args == [] then Ok(())
    else
      var first := TypeOf(env, args[0]);
      if first.Err? then Err(first.error) else CheckEach(env, args[1..])
  }

  /** Arguments against parameter types, left to right: the first argument
      that fails to check, or that is not compatible with its parameter. */
  function CheckArguments(env: Chain<Type>, args: seq<P.Expression>, ps: seq<Type>): (r: Result<(), TypeError>)
    requires |args| == |ps|
    decreases args, 0
  {
    if args == [] then Ok(())
    else
      var first := TypeOf(env, args[0]);
      if first.Err? then Err(first.error)
      else if !TypesCompatible(first.value, ps[0]) then Err(TypeMismatch(ps[0], first.value))
      else CheckArguments(env, args[1..], ps[1..])
  }

  // What `check_statement` computes: a result and the environment after it.

  datatype Checked<T> = Checked(result: Result<T, TypeError>, env: Chain<Type>)

  /** `check_statement`. A declaration binds the function's type in the
      current scope first, so the body may call it; the body is checked in a
      child scope holding the parameters, which is dropped afterwards. An
      `if` body is checked in the current scope. A failure in a body returns
      at once, without restoring the environment. */
  function CheckedStatement(env: Chain<Type>, s: P.Statement): (c: Checked<Type>)
    ensures c.result.Ok? && !s.ExpressionStatement? ==> c.result.value.Void?
    ensures s.ExpressionStatement? || s.Comment? ==> c.env == env
    decreases s, 1
  {
    match s
    case ExpressionStatement(e) => Checked(TypeOf(env, e), env)
    case FunctionDeclaration(name, params, body) =>
      var outer := Define(env, name, Function(ParameterTypes(params), Void));
      var inner := DefineAll(Extend(outer), P.ParameterNames(params), ParameterTypes(params));
      var b := CheckedBody(inner, body);
      if b.result.Err? then Checked(Err(b.result.error), b.env) else Checked(Ok(Void), outer)
    case IfStatement(condition, body) =>
      var conditionResult := TypeOf(env, condition);
      if conditionResult.Err? then Checked(conditionResult, env)
      else if !conditionResult.value.Boolean? && !conditionResult.value.Unknown? then
        Checked(Err(NonBooleanCondition(conditionResult.value)), env)
      else
        var b := CheckedBody(env, body);
        if b.result.Err? then Checked(Err(b.result.error), b.env) else Checked(Ok(Void), b.env)
    case Comment(_) => Checked(Ok(Void), env)
  }

  /** Statements checked in order, stopping at the first error (the loops of
      `check_program` and of the `func` and `if` bodies). */
  function CheckedBody(env: Chain<Type>, ss: seq<P.Statement>): (c: Checked<()>)
    decreases ss, 0
  {
    if ss == [] then Checked(Ok(()), env)
    else
      var first := CheckedStatement(env, ss[0]);
      if first.result.Err? then Checked(Err(first.result.error), first.env)
      else CheckedBody(first.env, ss[1..])
  }

  class TypeChecker {
    var environment: Chain<Type>

    /** `TypeChecker::new`. */
    constructor ()
      ensures environment == NewTypeEnvironment()
    {
      environment := NewTypeEnvironment();
    }

    /** `check_program`: every statement in order, up to the first error. */
    method CheckProgram(program: P.Program) returns (r: Result<(), TypeError>)
      modifies this
      ensures Checked(r, environment) == CheckedBody(old(environment), program.statements)
    {
      r := CheckBody(program.statements);
    }

    /** The statement loop shared by `check_program` and the two bodies. */
    method CheckBody(ss: seq<P.Statement>) returns (r: Result<(), TypeError>)
      modifies this
      ensures Checked(r, environment) == CheckedBody(old(environment), ss)
      decreases ss, 0
    {
      var k := 0;
      while k < |ss|
        invariant k <= |ss|
        invariant CheckedBody(environment, ss[k..]) == CheckedBody(old(environment), ss)
      {
        assert ss[k..][1..] == ss[k + 1..];
        var s := CheckStatement(ss[k]);
        if s.Err? {
          return Err(s.error);
        }
        k := k + 1;
      }
      return Ok(());
    }

    /** `check_statement`. */
    method CheckStatement(s: P.Statement) returns (r: Result<Type, TypeError>)
      modifies this
      ensures Checked(r, environment) == CheckedStatement(old(environment), s)
      decreases s, 1
    {
      match s
      case ExpressionStatement(e) =>
        r := CheckExpression(e);
      case FunctionDeclaration(name, params, body) =>
        r := CheckFunctionDeclaration(name, params, body);
      case IfStatement(condition, body) =>
        var conditionResult := CheckExpression(condition);
        if conditionResult.Err? {
          return conditionResult;
        }
        if !conditionResult.value.Boolean? && !conditionResult.value.Unknown? {
          return Err(NonBooleanCondition(conditionResult.value));
        }
        var b := CheckBody(body);
        if b.Err? {
          return Err(b.error);
        }
        r := Ok(Void);
      case Comment(_) =>
        r := Ok(Void);
    }

    /** The declaration branch of `check_statement`: the parameter types, the
        function bound before its body, the body checked in a child scope
        holding the parameters, and the scope restored after success. */
    method CheckFunctionDeclaration(name: string, params: seq<P.Parameter>, body: seq<P.Statement>)
      returns (r: Result<Type, TypeError>)
      modifies this
      ensures Checked(r, environment) == CheckedStatement(old(environment), P.FunctionDeclaration(name, params, body))
      decreases body, 1
    {
      var paramTypes := CollectParameterTypes(params);
      environment := Define(environment, name, Function(paramTypes, Void));
      var previous := environment;
      environment := Extend(previous);
      ghost var names := P.ParameterNames(params);
      for i := 0 to |params|
        invariant environment == DefineAll(Extend(previous), names[..i], paramTypes[..i])
      {
        assert names[..i + 1][..i] == names[..i] && paramTypes[..i + 1][..i] == paramTypes[..i];
        environment := Define(environment, params[i].name, paramTypes[i]);
      }
      assert names[..|params|] == names && paramTypes[..|params|] == paramTypes;
      var b := CheckBody(body);
      if b.Err? {
        return Err(b.error);
      }
      environment := previous;
      r := Ok(Void);
    }

    /** The loop collecting the declared parameter types. */
    method CollectParameterTypes(params: seq<P.Parameter>) returns (paramTypes: seq<Type>)
      ensures paramTypes == ParameterTypes(params)
    {
      paramTypes := [];
      for i := 0 to |params|
        invariant |paramTypes| == i
        invariant forall k | 0 <= k < i :: paramTypes[k] == ParseTypeName(params[k].typeName)
      {
        paramTypes := paramTypes + [ParseTypeName(params[i].typeName)];
      }
    }

    /** `check_expression`: reads the environment, changes nothing. */
    method CheckExpression(e: P.Expression) returns (r: Result<Type, TypeError>)
      ensures r == TypeOf(environment, e)
      decreases e
    {
      match e
      case StringLiteral(_) =>
        r := Ok(String);
      case IntegerLiteral(_) =>
        r := Ok(Integer);
      case Identifier(name) =>
        var found := Get(environment, name);
        if found.None? {
          return Err(UndefinedVariable(name));
        }
        r := Ok(found.value);
      case FunctionCall(name, args) =>
        r := CheckCall(name, args);
      case TypedValue(typeName, value) =>
        var expected := ParseTypeName(typeName);
        if value.Identifier? {
          return Ok(expected);
        }
        var valueResult := CheckExpression(value);
        if valueResult.Err? {
          return valueResult;
        }
        if !TypesCompatible(valueResult.value, expected) {
          return Err(TypeMismatch(expected, valueResult.value));
        }
        r := Ok(expected);
      case BinaryOperation(left, operator, right) =>
        var leftResult := CheckExpression(left);
        if leftResult.Err? {
          return leftResult;
        }
        var rightResult := CheckExpression(right);
        if rightResult.Err? {
          return rightResult;
        }
        if operator == "is" || operator == "is not" {
          r := Ok(Boolean);
        } else {
          r := Err(UnknownOperator(operator));
        }
    }

    /** The call branch of `check_expression`, with its two argument loops. */
    method CheckCall(name: string, args: seq<P.Expression>) returns (r: Result<Type, TypeError>)
      ensures r == CallType(environment, name, args)
      decreases args
    {
      var found := Get(environment, name);
      if found.None? {
        return Err(UndefinedFunction(name));
      }
      if name == "print" {
        var k := 0;
        while k < |args|
          invariant k <= |args|
          invariant CheckEach(environment, args[k..]) == CheckEach(environment, args)
        {
          assert args[k..][1..] == args[k + 1..];
          var a := CheckExpression(args[k]);
          if a.Err? {
            return Err(a.error);
          }
          k := k + 1;
        }
        return Ok(Void);
      }
      if name == "function" {
        if |args| > 0 {
          r := CheckExpression(args[0]);
          return;
        }
        return Ok(Unknown);
      }
      var ft := found.value;
      if !ft.Function? {
        return Err(NotAFunction(name));
      }
      if |args| != |ft.parameters| {
        return Err(ArityMismatch(name, |ft.parameters|, |args|));
      }
      var k := 0;
      while k < |args|
        invariant k <= |args|
        invariant CheckArguments(environment, args[k..], ft.parameters[k..]) ==
                  CheckArguments(environment, args, ft.parameters)
      {
        assert args[k..][1..] == args[k + 1..] && ft.parameters[k..][1..] == ft.parameters[k + 1..];
        var a := CheckExpression(args[k]);
        if a.Err? {
          return Err(a.error);
        }
        if !TypesCompatible(a.value, ft.parameters[k]) {
          return Err(TypeMismatch(ft.parameters[k], a.value));
        }
        k := k + 1;
      }
      r := Ok(ft.returnType);
    }
  }
}
