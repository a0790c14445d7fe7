/** The tree-walking interpreter of src/interpreter.rs. The pure functions say
    what evaluating an expression, executing a statement and running a block
    produce from a state (the environment and the lines printed so far): the
    value or the first error, and the state after it. The `Interpreter` class
    holds that state and its methods are proved to follow them.

    A user function may call itself without end, so every user call spends
    one unit of `fuel`; the run that would not terminate is the one that ends
    with `OutOfFuel` for every amount of fuel. */
module Interpreter {
  import opened Wrappers
  import opened Numerics
  import opened Scopes
  import P = Parser

  datatype Value =
    | String(text: string)
    | Integer(number: I64)
    | Boolean(truth: bool)
    | Null
    | Function(name: string, parameters: seq<P.Parameter>, body: seq<P.Statement>)

  /** `Display for Value`: what `print` writes for a value. */
  function Display(v: Value): string {
    match v
    case String(s) => s
    case Integer(i) => IntToString(i)
    case Boolean(b) => if b then "true" else "false"
    case Null => "null"
    case Function(name, _, _) => "<function " + name + ">"
  }

  /** The built-in `print`: a function value named `print` with no
      parameters and no body. */
  const BuiltinPrint: Value := Function("print", [], [])

  /** `Environment::new`: one scope holding `print`, and nothing else. */
  function NewEnvironment(): (env: Chain<Value>)
    ensures |env| == 1
    ensures Get(env, "print") == Some(BuiltinPrint)
    ensures forall n | n != "print" :: Get(env, n) == None
  {
    Define([map[]], "print", BuiltinPrint)
  }

  /** The error strings the interpreter reports, one constructor per message.
      `OutOfFuel` stands for a run that does not end. */
  datatype RuntimeError =
    | UndefinedVariable(name: string)
    | UndefinedFunction(name: string)
    | NotAFunction(name: string)
    | ArityMismatch(parameterCount: nat, argumentCount: nat)
    | CannotConvert(text: string)
    | TypeMismatch(typeName: string, found: Value)
    | UnknownOperator(operator: string)
    | OutOfFuel

  /** The message text of an error; the value in a type mismatch is written
      with Rust's debug formatting, which is not modelled. */
  function Message(e: RuntimeError): string
    requires !e.TypeMismatch? && !e.OutOfFuel?
  {
    match e
    case UndefinedVariable(n) => "Undefined variable '" + n + "'"
    case UndefinedFunction(n) => "Undefined function '" + n + "'"
    case NotAFunction(n) => "'" + n + "' is not a function"
    case ArityMismatch(x, g) => "Expected " + NatToString(x) + " arguments but got " + NatToString(g)
    case CannotConvert(t) => "Cannot convert '" + t + "' to Integer"
    case UnknownOperator(op) => "Unknown operator: " + op
  }

  /** `is_truthy`: `false`, `null`, `0` and the empty string are the only
      falsy values. */
  function IsTruthy(v: Value): (b: bool)
    ensures !b <==> v == Boolean(false) || v == Null || v == Integer(0) || v == String("")
  {
    match v
    case Boolean(b) => b
    case Null => false
    case Integer(i) => i != 0
    case String(s) => |s| > 0
    case Function(_, _, _) => true
  }

  /** `values_equal`: equal strings, integers, booleans, and two nulls;
      function values are equal to nothing, themselves included. */
  function ValuesEqual(left: Value, right: Value): (r: bool)
    ensures r <==> left == right && !left.Function?
  {
    match (left, right)
    case (String(a), String(b)) => a == b
    case (Integer(a), Integer(b)) => a == b
    case (Boolean(a), Boolean(b)) => a == b
    case (Null, Null) => true
    case _ => false
  }

  /** The interpreter's state: the environment and the lines printed. */
  datatype State = State(env: Chain<Value>, output: seq<string>)

  datatype Outcome = Outcome(result: Result<Value, RuntimeError>, state: State)

  datatype Outcomes = Outcomes(result: Result<seq<Value>, RuntimeError>, state: State)

  /** The lines `print` writes for its argument values, one per value. */
  function Lines(vs: seq<Value>): (ls: seq<string>)
    ensures |ls| == |vs|
    ensures forall k | 0 <= k < |vs| :: ls[k] == Display(vs[k])
  {
    seq(|vs|, k requires 0 <= k < |vs| => Display(vs[k]))
  }

  /** `vs` followed by the values of a list, or the same error. */
  function PrependValues(vs: seq<Value>, o: Outcomes): Outcomes {
    if o.result.Ok? then Outcomes(Ok(vs + o.result.value), o.state) else o
  }

  // What `evaluate_expression` and `execute_statement` compute.

  /** `evaluate_expression`. */
  function Evaluated(st: State, fuel: nat, e: P.Expression): (o: Outcome)
    decreases fuel, e, 2
  {
    match e
    case StringLiteral(s) => Outcome(Ok(String(s)), st)
    case IntegerLiteral(i) => Outcome(Ok(Integer(i)), st)
    case Identifier(name) =>
      var found := Get(st.env, name);
      if found.Some? then Outcome(Ok(found.value), st) else Outcome(Err(UndefinedVariable(name)), st)
    case FunctionCall(name, args) => Called(st, fuel, name, args)
    case TypedValue(typeName, value) =>
      if value.Identifier? && typeName == "String" then Outcome(Ok(String(value.name)), st)
      else if value.Identifier? && typeName == "Integer" then
        var parsed := ParseI64(value.name);
        if parsed.Some? then Outcome(Ok(Integer(parsed.value)), st)
        else Outcome(Err(CannotConvert(value.name)), st)
      else
        var inner := Evaluated(st, fuel, value);
        if inner.result.Err? then inner
        else if (typeName == "String" && inner.result.value.String?) ||
                (typeName == "Integer" && inner.result.value.Integer?) then inner
        else Outcome(Err(TypeMismatch(typeName, inner.result.value)), inner.state)
    case BinaryOperation(left, operator, right) =>
      var l := Evaluated(st, fuel, left);
      if l.result.Err? then l
      else
        var r := Evaluated(l.state, fuel, right);
        if r.result.Err? then r
        else if operator == "is" then Outcome(Ok(Boolean(ValuesEqual(l.result.value, r.result.value))), r.state)
        else if operator == "is not" then Outcome(Ok(Boolean(!ValuesEqual(l.result.value, r.result.value))), r.state)
        else Outcome(Err(UnknownOperator(operator)), r.state)
  }

  /** The call branch of `evaluate_expression`. Which behaviour a call gets
      depends on the `name` stored in the function value: `print` evaluates
      every argument, prints one line per value and gives `null`; any other
      function checks the argument count first, then evaluates the
      arguments, then runs its body in a new child scope of the caller's
      current environment holding the parameters. After a successful call
      the caller's environment is back in place; after a failure it is
      not. */
  function Called(st: State, fuel: nat, name: string, args: seq<P.Expression>): (o: Outcome)
    decreases fuel, args, 1
  {
    var found := Get(st.env, name);
    if found.None? then Outcome(Err(UndefinedFunction(name)), st)
    else if !found.value.Function? then Outcome(Err(NotAFunction(name)), st)
    else
      var f := found.value;
      if f.name == "print" then
        var vs := EvaluatedAll(st, fuel, args);
        if vs.result.Err? then Outcome(Err(vs.result.error), vs.state)
        else Outcome(Ok(Null), State(vs.state.env, vs.state.output + Lines(vs.result.value)))
      else if |args| != |f.parameters| then Outcome(Err(ArityMismatch(|f.parameters|, |args|)), st)
      else
        var vs := EvaluatedAll(st, fuel, args);
        if vs.result.Err? then Outcome(Err(vs.result.error), vs.state)
        else if fuel == 0 then Outcome(Err(OutOfFuel), vs.state)
        else
          var frame := DefineAll(Extend(vs.state.env), P.ParameterNames(f.parameters), vs.result.value);
          var b := ExecutedBody(State(frame, vs.state.output), fuel - 1, f.body, Null);
          if b.result.Err? then b else Outcome(b.result, State(vs.state.env, b.state.output))
  }

  /** The argument values, left to right, or the first error. */
  function EvaluatedAll(st: State, fuel: nat, args: seq<P.Expression>): (o: Outcomes)
    ensures o.result.Ok? ==> |o.result.value| == |args|
    decreases fuel, args, 0
  {
    if args == [] then Outcomes(Ok([]), st)
    else
      var first := Evaluated(st, fuel, args[0]);
      if first.result.Err? then Outcomes(Err(first.result.error), first.state)
      else PrependValues([first.result.value], EvaluatedAll(first.state, fuel, args[1..]))
  }

  /** `execute_statement`. A declaration binds a function value in the
      current scope and runs nothing; an `if` body runs in the current scope
      when the condition is truthy. */
  function Executed(st: State, fuel: nat, s: P.Statement): (o: Outcome)
    decreases fuel, s, 1
  {
    match s
    case ExpressionStatement(e) => Evaluated(st, fuel, e)
    case FunctionDeclaration(name, params, body) =>
      Outcome(Ok(Null), State(Define(st.env, name, Function(name, params, body)), st.output))
    case IfStatement(condition, body) =>
      var c := Evaluated(st, fuel, condition);
      if c.result.Err? then c
      else if IsTruthy(c.result.value) then ExecutedBody(c.state, fuel, body, Null)
      else Outcome(Ok(Null), c.state)
    case Comment(_) => Outcome(Ok(Null), st)
  }

  /** Statements in order, stopping at the first error; the value is that of
      the last statement (`last` before any has run). */
  function ExecutedBody(st: State, fuel: nat, ss: seq<P.Statement>, last: Value): (o: Outcome)
    decreases fuel, ss, 0
  {
    if ss == [] then Outcome(Ok(last), st)
    else
      var first := Executed(st, fuel, ss[0]);
      if first.result.Err? then first else ExecutedBody(first.state, fuel, ss[1..], first.result.value)
  }

  /** `interpret`: the program's statements in order, up to the first error. */
  function Interpreted(st: State, fuel: nat, program: P.Program): (r: Result<(), RuntimeError>)
  {
    var o := ExecutedBody(st, fuel, program.statements, Null);
    if o.result.Ok? then Ok(()) else Err(o.result.error)
  }

  class Interpreter {
    var environment: Chain<Value>
    var output: seq<string>

    /** `Interpreter::new`. */
    constructor ()
      ensures environment == NewEnvironment() && output == []
    {
      environment := NewEnvironment();
      output := [];
    }

    /** `interpret`. */
    method Interpret(program: P.Program, fuel: nat) returns (r: Result<(), RuntimeError>)
      modifies this
      ensures r == Interpreted(old(State(environment, output)), fuel, program)
      ensures State(environment, output) == ExecutedBody(old(State(environment, output)), fuel, program.statements, Null).state
    {
      var o := ExecuteBody(program.statements, fuel);
      if o.Err? {
        return Err(o.error);
      }
      r := Ok(());
    }

    /** The statement loop shared by the `if` body and the call body: the
        value is the last statement's, `null` for an empty body. */
    method ExecuteBody(ss: seq<P.Statement>, fuel: nat) returns (r: Result<Value, RuntimeError>)
      modifies this
      ensures Outcome(r, State(environment, output)) == ExecutedBody(old(State(environment, output)), fuel, ss, Null)
      decreases fuel, ss, 0
    {
      var result := Null;
      var k := 0;
      while k < |ss|
        invariant k <= |ss|
        invariant ExecutedBody(State(environment, output), fuel, ss[k..], result) ==
                  ExecutedBody(old(State(environment, output)), fuel, ss, Null)
      {
        assert ss[k..][1..] == ss[k + 1..];
        var s := ExecuteStatement(ss[k], fuel);
        if s.Err? {
          return s;
        }
        result := s.value;
        k := k + 1;
      }
      r := Ok(result);
    }

    /** `execute_statement`. */
    method ExecuteStatement(s: P.Statement, fuel: nat) returns (r: Result<Value, RuntimeError>)
      modifies this
      ensures Outcome(r, State(environment, output)) == Executed(old(State(environment, output)), fuel, s)
      decreases fuel, s, 1
    {
      match s
      case ExpressionStatement(e) =>
        r := EvaluateExpression(e, fuel);
      case FunctionDeclaration(name, params, body) =>
        environment := Define(environment, name, Function(name, params, body));
        r := Ok(Null);
      case IfStatement(condition, body) =>
        var c := EvaluateExpression(condition, fuel);
        if c.Err? {
          return c;
        }
        if IsTruthy(c.value) {
          r := ExecuteBody(body, fuel);
        } else {
          r := Ok(Null);
        }
      case Comment(_) =>
        r := Ok(Null);
    }

    /** `evaluate_expression`. */
    method EvaluateExpression(e: P.Expression, fuel: nat) returns (r: Result<Value, RuntimeError>)
      modifies this
      ensures Outcome(r, State(environment, output)) == Evaluated(old(State(environment, output)), fuel, e)
      decreases fuel, e, 2
    {
      match e
      case StringLiteral(s) =>
        r := Ok(String(s));
      case IntegerLiteral(i) =>
        r := Ok(Integer(i));
      case Identifier(name) =>
        var found := Get(environment, name);
        if found.None? {
          return Err(UndefinedVariable(name));
        }
        r := Ok(found.value);
      case FunctionCall(name, args) =>
        r := EvaluateCall(name, args, fuel);
      case TypedValue(typeName, value) =>
        r := EvaluateTypedValue(typeName, value, fuel);
      case BinaryOperation(left, operator, right) =>
        var l := EvaluateExpression(left, fuel);
        if l.Err? {
          return l;
        }
        var rv := EvaluateExpression(right, fuel);
        if rv.Err? {
          return rv;
        }
        if operator == "is" {
          r := Ok(Boolean(ValuesEqual(l.value, rv.value)));
        } else if operator == "is not" {
          r := Ok(Boolean(!ValuesEqual(l.value, rv.value)));
        } else {
          r := Err(UnknownOperator(operator));
        }
    }

    /** The typed-value branch of `evaluate_expression`. */
    method EvaluateTypedValue(typeName: string, value: P.Expression, fuel: nat) returns (r: Result<Value, RuntimeError>)
      modifies this
      ensures Outcome(r, State(environment, output)) ==
              Evaluated(old(State(environment, output)), fuel, P.TypedValue(typeName, value))
      decreases fuel, value, 3
    {
      if value.Identifier? {
        if typeName == "String" {
          return Ok(String(value.name));
        }
        if typeName == "Integer" {
          var parsed := ParseI64(value.name);
          if parsed.Some? {
            return Ok(Integer(parsed.value));
          }
          return Err(CannotConvert(value.name));
        }
      }
      var inner := EvaluateExpression(value, fuel);
      if inner.Err? {
        return inner;
      }
      if (typeName == "String" && inner.value.String?) || (typeName == "Integer" && inner.value.Integer?) {
        return inner;
      }
      r := Err(TypeMismatch(typeName, inner.value));
    }

    /** The call branch of `evaluate_expression`. */
    method EvaluateCall(name: string, args: seq<P.Expression>, fuel: nat) returns (r: Result<Value, RuntimeError>)
      modifies this
      ensures Outcome(r, State(environment, output)) == Called(old(State(environment, output)), fuel, name, args)
      decreases fuel, args, 1
    {
      var found := Get(environment, name);
      if found.None? {
        return Err(UndefinedFunction(name));
      }
      if !found.value.Function? {
        return Err(NotAFunction(name));
      }
      var f := found.value;
      if f.name == "print" {
        var values := EvaluateArguments(args, fuel);
        if values.Err? {
          return Err(values.error);
        }
        Print(values.value);
        return Ok(Null);
      }
      if |args| != |f.parameters| {
        return Err(ArityMismatch(|f.parameters|, |args|));
      }
      var values := EvaluateArguments(args, fuel);
      if values.Err? {
        return Err(values.error);
      }
      if fuel == 0 {
        return Err(OutOfFuel);
      }
      r := RunCall(f, values.value, fuel - 1);
    }

    /** The printing loop of the built-in `print`: one line per value. */
    method Print(values: seq<Value>)
      modifies this
      ensures output == old(output) + Lines(values) && environment == old(environment)
    {
      for i := 0 to |values|
        invariant output == old(output) + Lines(values[..i]) && environment == old(environment)
      {
        assert Lines(values[..i + 1]) == Lines(values[..i]) + [Display(values[i])];
        output := output + [Display(values[i])];
      }
      assert values[..|values|] == values;
    }

    /** The call frame: a child of the current environment holding the
        parameters, the body run in it, and the caller's environment put
        back after success. */
    method RunCall(f: Value, values: seq<Value>, fuel: nat) returns (r: Result<Value, RuntimeError>)
      requires f.Function? && |values| == |f.parameters|
      modifies this
      ensures var frame := DefineAll(Extend(old(environment)), P.ParameterNames(f.parameters), values);
              var b := ExecutedBody(State(frame, old(output)), fuel, f.body, Null);
              Outcome(r, State(environment, output)) ==
                if b.result.Err? then b else Outcome(b.result, State(old(environment), b.state.output))
      decreases fuel, f.body, 1
    {
      var frame := Extend(environment);
      ghost var names := P.ParameterNames(f.parameters);
      for i := 0 to |values|
        invariant frame == DefineAll(Extend(environment), names[..i], values[..i])
      {
        assert names[..i + 1][..i] == names[..i] && values[..i + 1][..i] == values[..i];
        frame := Define(frame, f.parameters[i].name, values[i]);
      }
      assert names[..|values|] == names && values[..|values|] == values;
      var previous := environment;
      environment := frame;
      r := ExecuteBody(f.body, fuel);
      if r.Err? {
        return;
      }
      environment := previous;
    }

    /** The argument loop: values left to right, or the first error. */
    method EvaluateArguments(args: seq<P.Expression>, fuel: nat) returns (r: Result<seq<Value>, RuntimeError>)
      modifies this
      ensures Outcomes(r, State(environment, output)) == EvaluatedAll(old(State(environment, output)), fuel, args)
      decreases fuel, args, 0
    {
      var values := [];
      var k := 0;
      PrependValuesNothing(EvaluatedAll(State(environment, output), fuel, args));
      while k < |args|
        invariant k <= |args|
        invariant PrependValues(values, EvaluatedAll(State(environment, output), fuel, args[k..])) ==
                  EvaluatedAll(old(State(environment, output)), fuel, args)
      {
        assert args[k..][1..] == args[k + 1..];
        ghost var before := State(environment, output);
        var v := EvaluateExpression(args[k], fuel);
        if v.Err? {
          assert EvaluatedAll(before, fuel, args[k..]) == Outcomes(Err(v.error), State(environment, output));
          return Err(v.error);
        }
        PrependValuesTwice(values, [v.value], EvaluatedAll(State(environment, output), fuel, args[k + 1..]));
        values := values + [v.value];
        k := k + 1;
      }
      assert values + [] == values;
      r := Ok(values);
    }
  }

  lemma PrependValuesTwice(xs: seq<Value>, ys: seq<Value>, o: Outcomes)
    ensures PrependValues(xs, PrependValues(ys, o)) == PrependValues(xs + ys, o)
  {
    if o.result.Ok? {
      assert xs + (ys + o.result.value) == (xs + ys) + o.result.value;
    }
  }

  lemma PrependValuesNothing(o: Outcomes)
    ensures PrependValues([], o) == o
  {
    if o.result.Ok? {
      assert [] + o.result.value == o.result.value;
    }
  }
}
