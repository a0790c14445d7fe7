/** What the type checker promises, stated over `TypeOf`, `CheckedStatement`
    and `CheckedBody`. */
module TypeCheckerProperties {
  import opened Wrappers
  import opened Scopes
  import P = Parser
  import opened TypeChecker

  /** Gradual compatibility is reflexive and symmetric, `Unknown` fits
      everything, and two compatible types neither of which is `Unknown`
      are equal. */
  lemma CompatibilityLaws(a: Type, b: Type)
    ensures TypesCompatible(a, a)
    ensures TypesCompatible(a, b) == TypesCompatible(b, a)
    ensures TypesCompatible(a, Unknown) && TypesCompatible(Unknown, a)
    ensures TypesCompatible(a, b) && !a.Unknown? && !b.Unknown? ==> a == b
  {
  }

  /** Reading back a displayed type: the four named types come back as
      themselves; `Void` and every function type come back as `Unknown`. */
  lemma DisplayThenParse(t: Type)
    ensures ParseTypeName(TypeToString(t)) == if t.Void? || t.Function? then Unknown else t
  {
    if t.Function? {
      var s := TypeToString(t);
      assert s[0] == 'f';
      assert s != "String" && s != "Integer" && s != "Boolean" by {
        assert "String"[0] == 'S' && "Integer"[0] == 'I' && "Boolean"[0] == 'B';
      }
    }
  }

  /** An argument fits its parameter: it checks, and its type is compatible
      with the parameter's type. */
  predicate Fits(env: Chain<Type>, a: P.Expression, p: Type) {
    TypeOf(env, a).Ok? && TypesCompatible(TypeOf(env, a).value, p)
  }

  /** The error reported for an argument that does not fit. */
  function Misfit(env: Chain<Type>, a: P.Expression, p: Type): TypeError
    requires !Fits(env, a, p)
  {
    if TypeOf(env, a).Err? then TypeOf(env, a).error else TypeMismatch(p, TypeOf(env, a).value)
  }

  /** Arguments are accepted exactly when each fits its parameter; otherwise
      the error is the one of the first argument, left to right, that does
      not. */
  lemma {:induction false} ArgumentsChecked(env: Chain<Type>, args: seq<P.Expression>, ps: seq<Type>)
    requires |args| == |ps|
    ensures CheckArguments(env, args, ps).Ok? <==> forall k | 0 <= k < |args| :: Fits(env, args[k], ps[k])
    ensures CheckArguments(env, args, ps).Err? ==>
              exists k | 0 <= k < |args| ::
                !Fits(env, args[k], ps[k]) && (forall j | 0 <= j < k :: Fits(env, args[j], ps[j])) &&
                CheckArguments(env, args, ps).error == Misfit(env, args[k], ps[k])
    decreases |args|
  {
    if args != [] {
      ArgumentsChecked(env, args[1..], ps[1..]);
      if Fits(env, args[0], ps[0]) {
        assert forall k | 1 <= k < |args| :: args[1..][k - 1] == args[k] && ps[1..][k - 1] == ps[k];
        if CheckArguments(env, args, ps).Err? {
          var k :| 0 <= k < |args| - 1 && !Fits(env, args[1..][k], ps[1..][k]) &&
                   (forall j | 0 <= j < k :: Fits(env, args[1..][j], ps[1..][j])) &&
                   CheckArguments(env, args[1..], ps[1..]).error == Misfit(env, args[1..][k], ps[1..][k]);
          assert forall j | 0 <= j < k + 1 :: Fits(env, args[j], ps[j]) by {
            forall j | 0 <= j < k + 1 ensures Fits(env, args[j], ps[j]) {
              if j > 0 { assert args[1..][j - 1] == args[j] && ps[1..][j - 1] == ps[j]; }
            }
          }
          assert !Fits(env, args[k + 1], ps[k + 1]);
        }
      } else {
        assert !Fits(env, args[0], ps[0]);
      }
    }
  }

  /** A call to a declared function (any name but `print` and `function`)
      has the declared return type exactly when the argument count matches
      and every argument fits its parameter; a wrong count is reported before
      any argument is looked at. */
  lemma CallOfDeclaredFunction(env: Chain<Type>, name: string, args: seq<P.Expression>, ps: seq<Type>, rt: Type)
    requires name != "print" && name != "function"
    requires Get(env, name) == Some(Function(ps, rt))
    ensures |args| != |ps| ==> TypeOf(env, P.FunctionCall(name, args)) == Err(ArityMismatch(name, |ps|, |args|))
    ensures TypeOf(env, P.FunctionCall(name, args)) == Ok(rt) <==>
              |args| == |ps| && forall k | 0 <= k < |args| :: Fits(env, args[k], ps[k])
  {
    if |args| == |ps| {
      ArgumentsChecked(env, args, ps);
    }
  }

  /** A name bound to something other than a function type cannot be called. */
  lemma CallOfNonFunction(env: Chain<Type>, name: string, args: seq<P.Expression>)
    requires name != "print" && name != "function"
    requires Get(env, name).Some? && !Get(env, name).value.Function?
    ensures TypeOf(env, P.FunctionCall(name, args)) == Err(NotAFunction(name))
  {
  }

  /** `print` arguments are checked left to right and then ignored. */
  lemma {:induction false} EachChecked(env: Chain<Type>, args: seq<P.Expression>)
    ensures CheckEach(env, args).Ok? <==> forall k | 0 <= k < |args| :: TypeOf(env, args[k]).Ok?
    decreases |args|
  {
    if args != [] {
      EachChecked(env, args[1..]);
      assert forall k | 1 <= k < |args| :: args[1..][k - 1] == args[k];
    }
  }

  /** `print`, once bound, takes any number of arguments of any types and has
      type `Void`, whatever type the binding declares. */
  lemma PrintCall(env: Chain<Type>, args: seq<P.Expression>)
    requires Get(env, "print").Some?
    ensures TypeOf(env, P.FunctionCall("print", args)).Ok? <==> forall k | 0 <= k < |args| :: TypeOf(env, args[k]).Ok?
    ensures TypeOf(env, P.FunctionCall("print", args)).Ok? ==> TypeOf(env, P.FunctionCall("print", args)).value == Void
  {
    EachChecked(env, args);
  }

  /** `function`, once bound, has the type of its first argument (the other
      arguments are not checked), or `Unknown` with no argument. */
  lemma FunctionBuiltinCall(env: Chain<Type>, args: seq<P.Expression>)
    requires Get(env, "function").Some?
    ensures TypeOf(env, P.FunctionCall("function", args)) == if args == [] then Ok(Unknown) else TypeOf(env, args[0])
  {
  }

  /** `Type[name]` has the tag's type without looking `name` up; any other
      content must check and be compatible with the tag. */
  lemma TypedValueRule(env: Chain<Type>, typeName: string, value: P.Expression)
    ensures value.Identifier? ==> TypeOf(env, P.TypedValue(typeName, value)) == Ok(ParseTypeName(typeName))
    ensures !value.Identifier? ==>
              (TypeOf(env, P.TypedValue(typeName, value)).Ok? <==> Fits(env, value, ParseTypeName(typeName)))
    ensures TypeOf(env, P.TypedValue(typeName, value)).Ok? ==>
              TypeOf(env, P.TypedValue(typeName, value)).value == ParseTypeName(typeName)
  {
  }

  /** An `if` whose condition has a type other than `Boolean` or `Unknown`
      is rejected before its body is looked at, and the environment is left
      as it was. */
  lemma IfConditionRule(env: Chain<Type>, condition: P.Expression, body: seq<P.Statement>)
    requires TypeOf(env, condition).Ok?
    requires !TypeOf(env, condition).value.Boolean? && !TypeOf(env, condition).value.Unknown?
    ensures CheckedStatement(env, P.IfStatement(condition, body)) ==
            Checked(Err(NonBooleanCondition(TypeOf(env, condition).value)), env)
  {
  }

  /** An `if` body is checked in the enclosing scope: a function it declares
      stays visible after the `if`. */
  lemma IfBodyDeclarationVisible(env: Chain<Type>, condition: P.Expression, name: string, params: seq<P.Parameter>)
    requires TypeOf(env, condition) == Ok(Boolean)
    ensures var c := CheckedStatement(env, P.IfStatement(condition, [P.FunctionDeclaration(name, params, [])]));
            c.result == Ok(Void) && Get(c.env, name) == Some(Function(ParameterTypes(params), Void))
  {
    var decl := P.FunctionDeclaration(name, params, []);
    var outer := Define(env, name, Function(ParameterTypes(params), Void));
    assert CheckedStatement(env, decl) == Checked(Ok(Void), outer);
    assert CheckedBody(env, [decl]) == CheckedBody(outer, []);
    GetAfterDefine(env, name, Function(ParameterTypes(params), Void), name);
  }

  /** A successful declaration leaves exactly one trace: the function's
      type, bound in the current scope. Its parameters and whatever its body
      declares are gone. */
  lemma DeclarationScope(env: Chain<Type>, name: string, params: seq<P.Parameter>, body: seq<P.Statement>, other: string)
    requires CheckedStatement(env, P.FunctionDeclaration(name, params, body)).result.Ok?
    ensures var after := CheckedStatement(env, P.FunctionDeclaration(name, params, body)).env;
            Get(after, name) == Some(Function(ParameterTypes(params), Void)) &&
            (other != name ==> Get(after, other) == Get(env, other)) &&
            |after| == |env| && after[1..] == env[1..]
  {
    GetAfterDefine(env, name, Function(ParameterTypes(params), Void), other);
  }

  /** The function is bound before its body is checked, so a function that
      calls itself checks. */
  lemma RecursionChecks(env: Chain<Type>, name: string)
    requires name != "print" && name != "function"
    ensures CheckedStatement(env, P.FunctionDeclaration(name, [], [P.ExpressionStatement(P.FunctionCall(name, []))])).result == Ok(Void)
  {
    var ft := Function([], Void);
    var outer := Define(env, name, ft);
    var inner := DefineAll(Extend(outer), P.ParameterNames([]), ParameterTypes([]));
    assert inner == Extend(outer);
    GetAfterExtend(outer, name);
    GetAfterDefine(env, name, ft, name);
    assert TypeOf(inner, P.FunctionCall(name, [])) == Ok(Void);
    var call := P.ExpressionStatement(P.FunctionCall(name, []));
    assert CheckedBody(inner, [call]) == CheckedBody(inner, []);
  }

  /** Checking a successful statement or block changes at most the current
      scope: the enclosing scopes and the depth are those it started with. */
  lemma {:induction false} StatementTouchesCurrentScopeOnly(env: Chain<Type>, s: P.Statement)
    requires CheckedStatement(env, s).result.Ok?
    ensures |CheckedStatement(env, s).env| == |env| && CheckedStatement(env, s).env[1..] == env[1..]
    decreases s, 1
  {
    match s
    case IfStatement(condition, body) =>
      BodyTouchesCurrentScopeOnly(env, body);
    case _ =>
  }

  lemma {:induction false} BodyTouchesCurrentScopeOnly(env: Chain<Type>, ss: seq<P.Statement>)
    requires CheckedBody(env, ss).result.Ok?
    ensures |CheckedBody(env, ss).env| == |env| && CheckedBody(env, ss).env[1..] == env[1..]
    decreases ss, 0
  {
    if ss != [] {
      var first := CheckedStatement(env, ss[0]);
      StatementTouchesCurrentScopeOnly(env, ss[0]);
      BodyTouchesCurrentScopeOnly(first.env, ss[1..]);
    }
  }

  /** An expression the parser builds (operators `is` and `is not` only)
      never fails with the unknown-operator error. */
  lemma {:induction false} ParsedOperatorsKnown(env: Chain<Type>, e: P.Expression)
    requires P.WellFormed(e)
    ensures TypeOf(env, e).Err? ==> !TypeOf(env, e).error.UnknownOperator?
    decreases e, 1
  {
    match e
    case FunctionCall(name, args) =>
      var found := Get(env, name);
      if found.Some? && name == "print" {
        EachOperatorsKnown(env, args);
      } else if found.Some? && name == "function" && |args| > 0 {
        ParsedOperatorsKnown(env, args[0]);
      } else if found.Some? && found.value.Function? && |args| == |found.value.parameters| {
        ArgumentsOperatorsKnown(env, args, found.value.parameters);
      }
    case TypedValue(_, value) =>
      ParsedOperatorsKnown(env, value);
    case BinaryOperation(left, _, right) =>
      ParsedOperatorsKnown(env, left);
      ParsedOperatorsKnown(env, right);
    case _ =>
  }

  lemma {:induction false} EachOperatorsKnown(env: Chain<Type>, args: seq<P.Expression>)
    requires forall a | a in args :: P.WellFormed(a)
    ensures CheckEach(env, args).Err? ==> !CheckEach(env, args).error.UnknownOperator?
    decreases args, 0
  {
    if args != [] {
      ParsedOperatorsKnown(env, args[0]);
      EachOperatorsKnown(env, args[1..]);
    }
  }

  lemma {:induction false} ArgumentsOperatorsKnown(env: Chain<Type>, args: seq<P.Expression>, ps: seq<Type>)
    requires |args| == |ps|
    requires forall a | a in args :: P.WellFormed(a)
    ensures CheckArguments(env, args, ps).Err? ==> !CheckArguments(env, args, ps).error.UnknownOperator?
    decreases args, 0
  {
    if args != [] {
      ParsedOperatorsKnown(env, args[0]);
      ArgumentsOperatorsKnown(env, args[1..], ps[1..]);
    }
  }
}
