/** What the interpreter promises, stated over `Evaluated`, `Called`,
    `Executed` and `ExecutedBody`. */
module InterpreterProperties {
  import opened Wrappers
  import opened Numerics
  import opened Scopes
  import P = Parser
  import opened Interpreter

  predicate IsPrefix(a: seq<string>, b: seq<string>) {
    |a| <= |b| && b[..|a|] == a
  }

  /** Only the current scope may change. */
  predicate SameOuterScopes(before: Chain<Value>, after: Chain<Value>) {
    |after| == |before| && after[1..] == before[1..]
  }

  lemma PrefixTransitive(a: seq<string>, b: seq<string>, c: seq<string>)
    requires IsPrefix(a, b) && IsPrefix(b, c)
    ensures IsPrefix(a, c)
  {
    assert c[..|a|] == c[..|b|][..|a|];
  }

  // Printed lines are never taken back, and evaluation leaves the
  // environment as it found it: a call puts the caller's environment back,
  // and nothing else in an expression can bind a name.

  lemma {:induction false} EvaluationEffects(st: State, fuel: nat, e: P.Expression)
    ensures IsPrefix(st.output, Evaluated(st, fuel, e).state.output)
    ensures Evaluated(st, fuel, e).result.Ok? ==> Evaluated(st, fuel, e).state.env == st.env
    decreases fuel, e, 2
  {
    match e
    case FunctionCall(name, args) =>
      CallEffects(st, fuel, name, args);
    case TypedValue(typeName, value) =>
      if !(value.Identifier? && (typeName == "String" || typeName == "Integer")) {
        EvaluationEffects(st, fuel, value);
      }
    case BinaryOperation(left, operator, right) =>
      EvaluationEffects(st, fuel, left);
      var l := Evaluated(st, fuel, left);
      if l.result.Ok? {
        EvaluationEffects(l.state, fuel, right);
        PrefixTransitive(st.output, l.state.output, Evaluated(l.state, fuel, right).state.output);
      }
    case _ =>
  }

  lemma {:induction false} CallEffects(st: State, fuel: nat, name: string, args: seq<P.Expression>)
    ensures IsPrefix(st.output, Called(st, fuel, name, args).state.output)
    ensures Called(st, fuel, name, args).result.Ok? ==> Called(st, fuel, name, args).state.env == st.env
    decreases fuel, args, 1
  {
    var found := Get(st.env, name);
    if found.Some? && found.value.Function? {
      var f := found.value;
      var vs := EvaluatedAll(st, fuel, args);
      if f.name == "print" || |args| == |f.parameters| {
        ArgumentsEffects(st, fuel, args);
      }
      if f.name != "print" && |args| == |f.parameters| && vs.result.Ok? && fuel > 0 {
        var frame := DefineAll(Extend(vs.state.env), P.ParameterNames(f.parameters), vs.result.value);
        BodyEffects(State(frame, vs.state.output), fuel - 1, f.body, Null);
        PrefixTransitive(st.output, vs.state.output,
          ExecutedBody(State(frame, vs.state.output), fuel - 1, f.body, Null).state.output);
      }
    }
  }

  lemma {:induction false} ArgumentsEffects(st: State, fuel: nat, args: seq<P.Expression>)
    ensures IsPrefix(st.output, EvaluatedAll(st, fuel, args).state.output)
    ensures EvaluatedAll(st, fuel, args).result.Ok? ==> EvaluatedAll(st, fuel, args).state.env == st.env
    decreases fuel, args, 0
  {
    if args != [] {
      EvaluationEffects(st, fuel, args[0]);
      var first := Evaluated(st, fuel, args[0]);
      if first.result.Ok? {
        ArgumentsEffects(first.state, fuel, args[1..]);
        PrefixTransitive(st.output, first.state.output, EvaluatedAll(first.state, fuel, args[1..]).state.output);
      }
    }
  }

  /** A statement may change only the current scope: a declaration binds in
      it, an `if` body runs in it. */
  lemma {:induction false} StatementEffects(st: State, fuel: nat, s: P.Statement)
    ensures IsPrefix(st.output, Executed(st, fuel, s).state.output)
    ensures Executed(st, fuel, s).result.Ok? ==> SameOuterScopes(st.env, Executed(st, fuel, s).state.env)
    decreases fuel, s, 1
  {
    match s
    case ExpressionStatement(e) =>
      EvaluationEffects(st, fuel, e);
    case IfStatement(condition, body) =>
      EvaluationEffects(st, fuel, condition);
      var c := Evaluated(st, fuel, condition);
      if c.result.Ok? && IsTruthy(c.result.value) {
        BodyEffects(c.state, fuel, body, Null);
        PrefixTransitive(st.output, c.state.output, ExecutedBody(c.state, fuel, body, Null).state.output);
      }
    case _ =>
  }

  lemma {:induction false} BodyEffects(st: State, fuel: nat, ss: seq<P.Statement>, last: Value)
    ensures IsPrefix(st.output, ExecutedBody(st, fuel, ss, last).state.output)
    ensures ExecutedBody(st, fuel, ss, last).result.Ok? ==>
              SameOuterScopes(st.env, ExecutedBody(st, fuel, ss, last).state.env)
    decreases fuel, ss, 0
  {
    if ss != [] {
      StatementEffects(st, fuel, ss[0]);
      var first := Executed(st, fuel, ss[0]);
      if first.result.Ok? {
        BodyEffects(first.state, fuel, ss[1..], first.result.value);
        PrefixTransitive(st.output, first.state.output,
          ExecutedBody(first.state, fuel, ss[1..], first.result.value).state.output);
      }
    }
  }

  /** `is not` gives the negation of `is`, with the same effects and the
      same errors. */
  lemma IsNotNegatesIs(st: State, fuel: nat, left: P.Expression, right: P.Expression)
    ensures var equal := Evaluated(st, fuel, P.BinaryOperation(left, "is", right));
            var notEqual := Evaluated(st, fuel, P.BinaryOperation(left, "is not", right));
            notEqual.state == equal.state &&
            (equal.result.Err? ==> notEqual.result == equal.result) &&
            (equal.result.Ok? ==> equal.result.value.Boolean? && notEqual.result == Ok(Boolean(!equal.result.value.truth)))
  {
  }

  /** A declaration binds a function value carrying its own name, parameters
      and body in the current scope, runs nothing and gives `null`. */
  lemma DeclarationBinds(st: State, fuel: nat, name: string, params: seq<P.Parameter>, body: seq<P.Statement>, other: string)
    ensures var o := Executed(st, fuel, P.FunctionDeclaration(name, params, body));
            o.result == Ok(Null) && o.state.output == st.output &&
            Get(o.state.env, name) == Some(Function(name, params, body)) &&
            (other != name ==> Get(o.state.env, other) == Get(st.env, other))
  {
    GetAfterDefine(st.env, name, Function(name, params, body), other);
  }

  /** A literal argument's value. */
  function LiteralValue(e: P.Expression): Value
    requires e.StringLiteral? || e.IntegerLiteral?
  {
    if e.StringLiteral? then String(e.text) else Integer(e.number)
  }

  predicate AllLiterals(args: seq<P.Expression>) {
    forall k | 0 <= k < |args| :: args[k].StringLiteral? || args[k].IntegerLiteral?
  }

  function LiteralValues(args: seq<P.Expression>): (vs: seq<Value>)
    requires AllLiterals(args)
    ensures |vs| == |args|
    ensures forall k | 0 <= k < |args| :: vs[k] == LiteralValue(args[k])
  {
    seq(|args|, k requires 0 <= k < |args| => LiteralValue(args[k]))
  }

  lemma {:induction false} LiteralArguments(st: State, fuel: nat, args: seq<P.Expression>)
    requires AllLiterals(args)
    ensures EvaluatedAll(st, fuel, args) == Outcomes(Ok(LiteralValues(args)), st)
    decreases |args|
  {
    if args != [] {
      assert AllLiterals(args[1..]) by {
        forall k | 0 <= k < |args| - 1 ensures args[1..][k].StringLiteral? || args[1..][k].IntegerLiteral? {
          assert args[1..][k] == args[k + 1];
        }
      }
      LiteralArguments(st, fuel, args[1..]);
      assert LiteralValues(args) == [LiteralValue(args[0])] + LiteralValues(args[1..]);
    }
  }

  /** A call whose function value is named `print` (the built-in, or a user
      function declared with that name) prints one line per argument, in
      order, checks no argument count and runs no body. */
  lemma PrintLiterals(st: State, fuel: nat, name: string, params: seq<P.Parameter>, body: seq<P.Statement>, args: seq<P.Expression>)
    requires Get(st.env, name) == Some(Function("print", params, body))
    requires AllLiterals(args)
    ensures Called(st, fuel, name, args) == Outcome(Ok(Null), State(st.env, st.output + Lines(LiteralValues(args))))
  {
    LiteralArguments(st, fuel, args);
  }

  /** Declaring `func print(...)` keeps `print` printing: the stored value is
      named `print`, so the call takes the built-in path and the declared
      body never runs. */
  lemma DeclaredPrintStillPrints(st: State, fuel: nat, params: seq<P.Parameter>, body: seq<P.Statement>, args: seq<P.Expression>)
    requires AllLiterals(args)
    ensures var declared := Executed(st, fuel, P.FunctionDeclaration("print", params, body)).state;
            Called(declared, fuel, "print", args) ==
              Outcome(Ok(Null), State(declared.env, st.output + Lines(LiteralValues(args))))
  {
    var declared := Executed(st, fuel, P.FunctionDeclaration("print", params, body)).state;
    GetAfterDefine(st.env, "print", Function("print", params, body), "print");
    PrintLiterals(declared, fuel, "print", params, body, args);
  }

  /** The argument count of a user function is checked before any argument
      is evaluated: nothing is printed and nothing changes. */
  lemma ArityCheckedFirst(st: State, fuel: nat, name: string, f: Value, args: seq<P.Expression>)
    requires Get(st.env, name) == Some(f) && f.Function? && f.name != "print"
    requires |args| != |f.parameters|
    ensures Called(st, fuel, name, args) == Outcome(Err(ArityMismatch(|f.parameters|, |args|)), st)
  {
  }

  /** A user function with no parameters and an empty body gives `null` and
      leaves the state as it was. */
  lemma EmptyCall(st: State, fuel: nat, name: string, fname: string, body: seq<P.Statement>)
    requires Get(st.env, name) == Some(Function(fname, [], [])) && fname != "print" && fuel > 0
    ensures Called(st, fuel, name, []) == Outcome(Ok(Null), st)
  {
    assert EvaluatedAll(st, fuel, []) == Outcomes(Ok([]), st);
    var frame := DefineAll(Extend(st.env), P.ParameterNames([]), []);
    assert ExecutedBody(State(frame, st.output), fuel - 1, [], Null) == Outcome(Ok(Null), State(frame, st.output));
  }

  /** A function that does nothing but call itself never returns: the run
      ends with `OutOfFuel` whatever the fuel. */
  lemma {:induction false} EndlessRecursion(st: State, fuel: nat, name: string)
    requires name != "print"
    requires Get(st.env, name) == Some(Function(name, [], [P.ExpressionStatement(P.FunctionCall(name, []))]))
    ensures Called(st, fuel, name, []).result == Err(OutOfFuel)
    decreases fuel
  {
    if fuel > 0 {
      var f := Function(name, [], [P.ExpressionStatement(P.FunctionCall(name, []))]);
      assert EvaluatedAll(st, fuel, []) == Outcomes(Ok([]), st);
      var frame := DefineAll(Extend(st.env), P.ParameterNames([]), []);
      assert frame == Extend(st.env);
      GetAfterExtend(st.env, name);
      var inner := State(frame, st.output);
      EndlessRecursion(inner, fuel - 1, name);
      assert Executed(inner, fuel - 1, P.ExpressionStatement(P.FunctionCall(name, []))) == Called(inner, fuel - 1, name, []);
    }
  }

  /** The frame of a call with one parameter. */
  lemma OneParameterFrame(env: Chain<Value>, p: string, t: string, v: Value)
    ensures DefineAll(Extend(env), P.ParameterNames([P.Parameter(p, t)]), [v]) == Define(Extend(env), p, v)
  {
    assert P.ParameterNames([P.Parameter(p, t)]) == [p];
    assert [p][..0] == [] && [v][..0] == [];
  }

  /** The frame of a call with no parameters. */
  lemma NoParameterFrame(env: Chain<Value>)
    ensures DefineAll(Extend(env), P.ParameterNames([]), []) == Extend(env)
  {
  }

  /** A function whose body reads a name it does not bind finds that name
      wherever the caller's environment has it, and fails where it does not. */
  lemma {:induction false} CallReadsCallerScope(st: State, fuel: nat, h: string, p: string)
    requires fuel >= 1 && h != "print"
    requires Get(st.env, h) == Some(Function(h, [], [P.ExpressionStatement(P.Identifier(p))]))
    ensures Get(st.env, p).Some? ==> Called(st, fuel, h, []) == Outcome(Ok(Get(st.env, p).value), st)
    ensures Get(st.env, p).None? ==> Called(st, fuel, h, []).result == Err(UndefinedVariable(p))
  {
    assert EvaluatedAll(st, fuel, []) == Outcomes(Ok([]), st);
    NoParameterFrame(st.env);
    GetAfterExtend(st.env, p);
    var inner := State(Extend(st.env), st.output);
    var read := P.ExpressionStatement(P.Identifier(p));
    if Get(st.env, p).Some? {
      var v := Get(st.env, p).value;
      assert Executed(inner, fuel - 1, read) == Outcome(Ok(v), inner);
      assert ExecutedBody(inner, fuel - 1, [read], Null) == ExecutedBody(inner, fuel - 1, [], v);
    } else {
      assert Executed(inner, fuel - 1, read) == Outcome(Err(UndefinedVariable(p)), inner);
      assert ExecutedBody(inner, fuel - 1, [read], Null) == Executed(inner, fuel - 1, read);
    }
  }

  /** Scoping is dynamic: a function's body sees the scopes of whoever calls
      it. Called from `g`, the function `h` finds `g`'s parameter `p`,
      which `h` itself neither binds nor could see where it was declared. */
  lemma DynamicScoping(st: State, fuel: nat, g: string, h: string, p: string, t: string, text: string)
    requires fuel >= 2 && g != "print" && h != "print" && p != h
    requires Get(st.env, g) == Some(Function(g, [P.Parameter(p, t)], [P.ExpressionStatement(P.FunctionCall(h, []))]))
    requires Get(st.env, h) == Some(Function(h, [], [P.ExpressionStatement(P.Identifier(p))]))
    ensures Called(st, fuel, g, [P.StringLiteral(text)]) == Outcome(Ok(String(text)), st)
  {
    assert EvaluatedAll(st, fuel, [P.StringLiteral(text)]) == Outcomes(Ok([String(text)]), st) by {
      LiteralArguments(st, fuel, [P.StringLiteral(text)]);
      assert LiteralValues([P.StringLiteral(text)]) == [String(text)];
    }
    var gFrame := Define(Extend(st.env), p, String(text));
    OneParameterFrame(st.env, p, t, String(text));
    GetAfterExtend(st.env, h);
    GetAfterDefine(Extend(st.env), p, String(text), h);
    var gState := State(gFrame, st.output);
    CallReadsCallerScope(gState, fuel - 1, h, p);
    var call := P.ExpressionStatement(P.FunctionCall(h, []));
    assert Executed(gState, fuel - 1, call) == Outcome(Ok(String(text)), gState);
    assert ExecutedBody(gState, fuel - 1, [call], Null) == ExecutedBody(gState, fuel - 1, [], String(text));
  }

  /** A falsy condition runs nothing and gives `null`. */
  lemma IfFalsy(st: State, fuel: nat, condition: P.Expression, body: seq<P.Statement>)
    requires Evaluated(st, fuel, condition).result.Ok?
    requires !IsTruthy(Evaluated(st, fuel, condition).result.value)
    ensures Executed(st, fuel, P.IfStatement(condition, body)) == Outcome(Ok(Null), Evaluated(st, fuel, condition).state)
  {
  }

  /** An `if` body runs in the enclosing scope: a function declared in it is
      still bound after the `if`, and the `if` gives the body's last value. */
  lemma IfDeclarationLeaks(st: State, fuel: nat, condition: P.Expression, name: string, params: seq<P.Parameter>, body: seq<P.Statement>)
    requires Evaluated(st, fuel, condition).result.Ok?
    requires IsTruthy(Evaluated(st, fuel, condition).result.value)
    ensures var o := Executed(st, fuel, P.IfStatement(condition, [P.FunctionDeclaration(name, params, body)]));
            o.result == Ok(Null) && Get(o.state.env, name) == Some(Function(name, params, body))
  {
    var c := Evaluated(st, fuel, condition);
    var decl := P.FunctionDeclaration(name, params, body);
    var after := Executed(c.state, fuel, decl);
    assert ExecutedBody(c.state, fuel, [decl], Null) == ExecutedBody(after.state, fuel, [], Null);
    GetAfterDefine(c.state.env, name, Function(name, params, body), name);
  }

  /** `String[x]` is the text of the identifier `x`, never looked up. */
  lemma StringOfIdentifier(st: State, fuel: nat, x: string)
    ensures Evaluated(st, fuel, P.TypedValue("String", P.Identifier(x))) == Outcome(Ok(String(x)), st)
  {
  }

  /** `Integer[x]` reads the identifier's text as a decimal `i64`: the
      decimal form `print` writes for an integer reads back as that integer,
      and text that is not a number fails. */
  lemma IntegerOfIdentifier(st: State, fuel: nat, i: I64, x: string)
    ensures Evaluated(st, fuel, P.TypedValue("Integer", P.Identifier(Display(Integer(i))))) == Outcome(Ok(Integer(i)), st)
    ensures ParseI64(x).None? ==> Evaluated(st, fuel, P.TypedValue("Integer", P.Identifier(x))) == Outcome(Err(CannotConvert(x)), st)
  {
    PrintParseRoundTrip(i);
  }

  /** Any other content must already be a value of the tag's variant: there
      is no conversion. */
  lemma TypedValueNoCoercion(st: State, fuel: nat, typeName: string, value: P.Expression)
    requires !value.Identifier?
    requires Evaluated(st, fuel, value).result.Ok?
    ensures var v := Evaluated(st, fuel, value).result.value;
            Evaluated(st, fuel, P.TypedValue(typeName, value)).result ==
              if (typeName == "String" && v.String?) || (typeName == "Integer" && v.Integer?) then Ok(v)
              else Err(TypeMismatch(typeName, v))
  {
  }
}
