# Noam language core, modelled in Dafny

Noam is a small scripting language. A program goes through four stages:

- **Lexer** (`src/lexer.rs`): turns source text into tokens. It handles `//` comments, brackets, the `is` and `is not` operators, keywords and type names, `String(...)` and `Integer(...)` literals, and decimal numbers. Any other character is dropped.
- **Parser** (`src/parser.rs`): a recursive-descent parser over the token vector. It builds a tree of statements and expressions:
  - statements: function declarations, `if` statements, comments, expression statements;
  - expressions: literals, identifiers, calls, typed values `String[...]`, and one `is` / `is not` comparison.
- **Type checker** (`src/typechecker.rs`): walks the tree over a chain of scopes that map names to types.
- **Interpreter** (`src/interpreter.rs`): evaluates the tree over a chain of scopes that map names to values. `print` is the built-in function.

The Dafny project follows the same split. Each stage has two parts.

- **A pure specification function over the input.**
  - `ScanToken` and `TokensFrom` for the lexer.
  - `StatementAt`, `ExpressionAt` and their relatives for the parser. Each reads a token sequence at a position and returns the parsed value with the next position.
  - `CheckedStatement` and `TypeOf` for the type checker.
  - `Evaluated`, `Called` and `Executed` for the interpreter. These take a state (scope chain and printed lines) and a fuel bound.
- **A class whose fields the source updates in place.**
  - `Lexer.Lexer` has the input and a cursor position.
  - `Parser.Parser` has the tokens and a current position.
  - `TypeChecker.TypeChecker` and `Interpreter.Interpreter` have an environment; the interpreter also has an output list.

Every method is proved to produce exactly what its specification function gives for the old state. The properties of each stage are then proved as lemmas about those functions:

- lexing laws;
- a parse/render round trip;
- typing rules;
- evaluation rules, including dynamic scoping and the leak of declarations out of `if` bodies.

Scope chains (`Scopes`) are modelled as sequences of maps, innermost scope first. `Numerics` models the `i64` parsing and printing the lexer and interpreter rely on.

## Model

| member | source | states |
|---|---|---|
| Numerics.ParseI64 | src/interpreter.rs:223-227 | a parse succeeds only on non-empty text. A digit string gives its decimal value when that fits in `i64` and fails when it overflows. A leading `+` or `-` followed by digits gives the signed value within the `i64` range. A bare sign, a sign followed by a non-digit, or any other non-digit text fails |
| Numerics.NatToStringValue | src/interpreter.rs:17-27 | the decimal rendering of a natural number reads back as that number |
| Numerics.PrintParseRoundTrip | src/interpreter.rs:17-27 | printing any `i64` and parsing the text back gives the same integer |
| Scopes.Innermost | src/interpreter.rs:63-74 | the index of the first scope, innermost first, that binds the name; no scope before it binds the name |
| Scopes.Get | src/interpreter.rs:63-74 | lookup returns the binding of the innermost scope holding the name, or nothing when no scope holds it |
| Scopes.Extend | src/interpreter.rs:52-57 | a fresh empty scope is pushed in front of the whole parent chain |
| Scopes.Define | src/interpreter.rs:59-61 | only the current scope changes; it gains the name and the outer scopes stay as they were |
| Scopes.Assign | src/interpreter.rs:76-85 | assignment fails exactly when no scope binds the name, and keeps the chain depth |
| Scopes.AssignChangesNearestOnly | src/interpreter.rs:76-85 | assignment rebinds the name in the nearest scope holding it and leaves every other scope unchanged |
| Scopes.GetAfterDefine | src/interpreter.rs:59-74 | after a define the name reads back as the new value; other names read as before |
| Scopes.GetAfterExtend | src/interpreter.rs:52-74 | a freshly extended chain sees every binding of its parent |
| Scopes.GetAfterAssign | src/interpreter.rs:63-85 | after an assignment the name reads back as the new value; other names read as before |
| Scopes.DefineAll | src/interpreter.rs:199-201 | binding the parameters one after another touches only the current scope |
| Scopes.GetAfterDefineAll | src/interpreter.rs:197-201 | in a call frame a parameter reads as the last argument bound to its name; a name that is not a parameter reads as in the caller |
| Lexer.RunEnd | src/lexer.rs:65-72 | the loops that consume characters stop at the end of the maximal run of matching characters |
| Lexer.RunStart | src/lexer.rs:91 | the start of the maximal run of matching characters that ends at a given point |
| Lexer.Trim | src/lexer.rs:91 | trimmed comment text is no longer than the original and neither starts nor ends with whitespace |
| LexerProperties.TrimIsSlice | src/lexer.rs:91 | the trimmed text is a slice of the original with only whitespace before and after it |
| LexerProperties.TrimIsOuterCut | src/lexer.rs:91 | that slice is unique: any split into whitespace, a part that neither starts nor ends with whitespace, and whitespace trims to exactly that part |
| Lexer.KeywordOrIdentifier | src/lexer.rs:169-178 | a word is an identifier exactly when it is not one of the seven keywords, and the identifier keeps the word |
| Lexer.ScanWord | src/lexer.rs:144-179 | a word always consumes at least its first character and never yields end-of-file |
| Lexer.ScanIsSuffix | src/lexer.rs:227-250 | after `is` the scanner always yields `is` or `is not` |
| Lexer.ScanAfterI | src/lexer.rs:223-266 | a token beginning with `i` consumes at least the `i` and is never end-of-file |
| Lexer.ScanToken | src/lexer.rs:181-293 | each scan moves forward; end-of-file exactly consumes the rest of the input, and any other token consumes at least one character |
| Lexer.ScanAtChar | src/lexer.rs:190-292 | scanning at a character consumes it; end-of-file only at the end of the input |
| Lexer.TokensFrom | src/lexer.rs:295-311 | the token list ends with end-of-file and has no other end-of-file |
| Lexer.Lexer.constructor | src/lexer.rs:47-55 | a new lexer stands at the first character of its input |
| Lexer.Lexer.CurrentChar | src/lexer.rs:43 | the current character is present exactly while input remains, and it is the character at the cursor |
| Lexer.Lexer.Peek | src/lexer.rs:61-63 | the look-ahead is the character after the current one, when there is one |
| Lexer.Lexer.Advance | src/lexer.rs:57-59 | advancing moves one character forward, and stays put at the end |
| Lexer.Lexer.SkipWhitespace | src/lexer.rs:65-72 | the cursor ends past the maximal run of whitespace |
| Lexer.Lexer.ReadComment | src/lexer.rs:74-92 | a comment runs from after `//` to the line break or end, and its text is that run trimmed |
| Lexer.Lexer.ReadIdentifier | src/lexer.rs:94-107 | reads the maximal run of letters, digits and underscores and returns exactly those characters |
| Lexer.Lexer.ReadNumber | src/lexer.rs:109-122 | reads the maximal digit run; the value is its `i64` parse, or 0 when it overflows |
| Lexer.Lexer.ReadStringLiteral | src/lexer.rs:124-142 | the text runs from after `(` to the first `)`, which is consumed, or to the end of the input |
| Lexer.Lexer.ReadTypeValue | src/lexer.rs:144-179 | produces exactly the token and position of the word-scanning specification |
| Lexer.Lexer.NextToken | src/lexer.rs:181-293 | produces exactly the token and end position of the token-scanning specification |
| Lexer.Lexer.ReadAtChar | src/lexer.rs:190-292 | produces the token of the character-dispatch specification, including dropped characters |
| Lexer.Lexer.ReadAfterI | src/lexer.rs:223-266 | produces the token that the specification gives for a word starting with `i` |
| Lexer.Lexer.ReadIsSuffix | src/lexer.rs:227-250 | produces `is` or `is not` exactly as the suffix specification gives |
| Lexer.Lexer.Tokenize | src/lexer.rs:295-311 | the returned tokens are the specified token list of the rest of the input |
| LexerProperties.DroppedCharacter | src/lexer.rs:288-291 | a character that starts no token is skipped, and scanning resumes at the next one |
| LexerProperties.EofIffNothingLeft | src/lexer.rs:181-293 | end-of-file is produced exactly when the rest is only whitespace and dropped characters |
| LexerProperties.CommentToken | src/lexer.rs:74-92 | `//` produces a comment token of the trimmed rest of the line and stops at the line break |
| LexerProperties.StringParenLiteral | src/lexer.rs:148-153 | `String(` reads everything up to the first `)` as a string literal, keeping spaces and brackets |
| LexerProperties.IntegerParenLiteral | src/lexer.rs:154-162 | `Integer(` reads up to the first `)`; the text's `i64` value, or 0 when it does not parse |
| LexerProperties.NumberLiteral | src/lexer.rs:283-286 | a digit run becomes an integer literal of its value, or 0 when it overflows |
| LexerProperties.WordToken | src/lexer.rs:279-281 | a word not starting with `i` becomes its keyword or identifier and is never `if` |
| LexerProperties.IWordToken | src/lexer.rs:252-266 | a word starting with `i` but not `is` becomes `if` or an identifier |
| LexerProperties.IsSuffixConsumesLongestPrefix | src/lexer.rs:227-250 | after `is`, the scanner consumes the longest prefix of ` not` present and yields `is not` only for the whole of it |
| LexerProperties.IsPrefixIsOperator | src/lexer.rs:223-250 | any text starting with `is` is the `is` operator, or `is not` when ` not` follows |
| LexerProperties.IsolateExample | src/lexer.rs:223-250 | the word `isolate` lexes as `is` followed by the identifier `olate` |
| LexerProperties.StringLiteralExample | src/lexer.rs:148-153 | `String(Hello)` lexes as one string literal `Hello` |
| Parser.ParameterTypeName | src/parser.rs:161-168 | a parameter type is accepted exactly for `String`, `Integer`, `Unknown` or an identifier. The three keyword tokens record the names `String`, `Integer` and `Unknown`, and an identifier records its own text |
| Parser.PrimaryAt | src/parser.rs:241-300 | a parsed primary consumes at least one token, is well formed and is never a comparison |
| Parser.ExpressionAt | src/parser.rs:216-239 | a parsed expression consumes at least one token and is well formed |
| Parser.ArgumentList | src/parser.rs:310-328 | a non-empty argument list stops right before `)` and holds well-formed arguments |
| Parser.ArgumentsAt | src/parser.rs:302-329 | parsed arguments stop right before `)` and are well formed |
| Parser.ParameterAt | src/parser.rs:149-170 | a parameter takes exactly three tokens and begins with its name |
| Parser.ParameterList | src/parser.rs:149-186 | a non-empty parameter list stops right before `)` |
| Parser.ParametersAt | src/parser.rs:141-187 | parsed parameters stop right before `)` |
| Parser.BlockAt | src/parser.rs:123-127 | a body stops at `}` or end-of-file and holds well-formed statements |
| Parser.FunctionDeclarationAt | src/parser.rs:94-139 | a parsed declaration is well formed and ends with its closing `}` |
| Parser.FunctionBodyAt | src/parser.rs:112-138 | the declaration keeps the given name and parameters and ends with `}` |
| Parser.IfStatementAt | src/parser.rs:189-214 | a parsed `if` is well formed and ends with its closing `}` |
| Parser.StatementAt | src/parser.rs:77-92 | a statement is a declaration, an `if` or a comment exactly when its first token is `func`, `if` or a comment |
| Parser.StatementsAt | src/parser.rs:67-72 | the statement loop stops only at end-of-file and yields well-formed statements |
| Parser.ParseProgram | src/parser.rs:62-75 | a parsed program consists of well-formed statements |
| Parser.Parser.constructor | src/parser.rs:55-60 | a new parser stands at the first token |
| Parser.Parser.Advance | src/parser.rs:339-347 | returns the current token, end-of-file past the end, and moves one position |
| Parser.Parser.MatchToken | src/parser.rs:357-364 | consumes the token exactly when it is the expected one |
| Parser.Parser.Parse | src/parser.rs:62-75 | yields exactly the specified statement list or its first error |
| Parser.Parser.ParseStatement | src/parser.rs:77-92 | yields exactly the specified statement and position |
| Parser.Parser.ParseBlock | src/parser.rs:123-127 | yields exactly the specified body and position |
| Parser.Parser.ParseFunctionDeclaration | src/parser.rs:94-139 | yields exactly the specified declaration and position, with its errors |
| Parser.Parser.ParseParameters | src/parser.rs:141-187 | yields exactly the specified parameter list and position, with its errors |
| Parser.Parser.ParseParameter | src/parser.rs:151-170 | yields exactly the specified name, type and position |
| Parser.Parser.ParseIfStatement | src/parser.rs:189-214 | yields exactly the specified `if` statement and position |
| Parser.Parser.ParseExpression | src/parser.rs:216-239 | yields exactly the specified expression and position |
| Parser.Parser.ParsePrimaryExpression | src/parser.rs:241-300 | yields exactly the specified primary expression and position |
| Parser.Parser.ParseTypedValue | src/parser.rs:265-289 | yields exactly the specified typed value and position |
| Parser.Parser.ParseArguments | src/parser.rs:302-329 | yields exactly the specified argument list and position |
| ParserProperties.PrimaryRoundTrip | src/parser.rs:241-300 | the tokens of a well-formed primary parse back to it and stop right after it |
| ParserProperties.CallRoundTrip | src/parser.rs:251-264 | the tokens of a call parse back to the same name and arguments |
| ParserProperties.TypedValueRoundTrip | src/parser.rs:265-289 | the tokens of a typed value parse back to the same type and inner expression |
| ParserProperties.BinaryRoundTrip | src/parser.rs:216-239 | the tokens of a comparison parse back to the same operator and operands |
| ParserProperties.ExpressionRoundTrip | src/parser.rs:216-239 | any well-formed expression followed by a proper follower parses back from its tokens |
| ParserProperties.ArgumentsRoundTrip | src/parser.rs:302-329 | comma-separated argument tokens before `)` parse back to the same arguments |
| ParserProperties.ArgumentListRoundTrip | src/parser.rs:310-328 | a non-empty argument list parses back element by element |
| ParserProperties.ParameterRoundTrip | src/parser.rs:151-170 | `name : type` tokens parse back to the same parameter |
| ParserProperties.ParameterListRoundTrip | src/parser.rs:149-186 | a non-empty parameter list parses back element by element |
| ParserProperties.ParameterOfTypeToken | src/parser.rs:151-170 | `name : T` parses as a parameter of that name for any accepted type token `T`, keyword or identifier, and records the name the token stands for |
| ParserProperties.TypeWordRecorded | src/parser.rs:161-168 | a type word lexed as an identifier or as the keyword `String`, `Integer` or `Unknown` is recorded as the word itself |
| ParserProperties.ParametersRoundTrip | src/parser.rs:141-187 | any parameter list before `)` parses back from its tokens |
| ParserProperties.StatementRoundTrip | src/parser.rs:77-92 | the tokens of a well-formed statement parse back to it |
| ParserProperties.DeclarationRoundTrip | src/parser.rs:94-139 | the tokens of a function declaration parse back to the same name, parameters and body |
| ParserProperties.IfRoundTrip | src/parser.rs:189-214 | the tokens of an `if` statement parse back to the same condition and body |
| ParserProperties.BlockRoundTrip | src/parser.rs:123-127 | the tokens of a body before `}` parse back to the same statements |
| ParserProperties.StatementsRoundTrip | src/parser.rs:67-72 | the tokens of a statement list before end-of-file parse back to it |
| ParserProperties.ProgramRoundTrip | src/parser.rs:62-75 | rendering a well-formed program to tokens and parsing them gives the same program |
| ParserProperties.BooleanWordsAreIdentifiers | src/parser.rs:290-297 | `True` and `False` parse as identifiers of those names |
| ParserProperties.TypedValueShape | src/parser.rs:265-289 | a type name without `[` is an error; a parsed typed value ends with `]` and holds the inner expression |
| ParserProperties.EmptyCall | src/parser.rs:251-264 | `name ( )` parses as a call with no arguments |
| ParserProperties.ArgumentNeedsSeparator | src/parser.rs:319-322 | an argument followed by neither `,` nor `)` is the missing-separator error |
| ParserProperties.UnclosedBodyFails | src/parser.rs:124-132 | a declaration or `if` with no `}` after it fails to parse |
| TypeChecker.NewTypeEnvironment | src/typechecker.rs:46-65 | the initial environment binds exactly `print` and `function`, in one scope |
| TypeChecker.ParseTypeName | src/typechecker.rs:277-285 | `String`, `Integer` and `Boolean` name their types and every other name is `Unknown` |
| TypeChecker.ParameterTypes | src/typechecker.rs:116-121 | each parameter's type is its parsed type name, in order |
| TypeChecker.TypeOf | src/typechecker.rs:176-275 | literals have their own types and a comparison that checks is `Boolean` |
| TypeChecker.CallType | src/typechecker.rs:189-239 | a call to an unbound name is the undefined-function error |
| TypeChecker.CheckedStatement | src/typechecker.rs:110-174 | declarations, `if` and comments check as `Void`; expressions and comments leave the environment alone |
| TypeChecker.TypesCompatible | src/typechecker.rs:287-295 | no contract of its own; CompatibilityLaws states its laws |
| TypeChecker.TypeToString | src/typechecker.rs:17-37 | no contract of its own; DisplayThenParse states that the display of a type parses back to it |
| TypeChecker.Message | src/typechecker.rs:176-275 | no contract of its own; it writes the message text of each type error, and the lemmas name the error constructor rather than its text |
| TypeChecker.CheckedBody | src/typechecker.rs:143-145 | no contract of its own; it checks a statement list in order and stops at the first error. BodyTouchesCurrentScopeOnly states its scope effect, and CheckBody and CheckProgram are proved equal to it |
| TypeChecker.TypeChecker.constructor | src/typechecker.rs:97-101 | a new checker starts from the initial type environment |
| TypeChecker.TypeChecker.CheckProgram | src/typechecker.rs:103-108 | checks the statements in order and stops at the first error, as specified |
| TypeChecker.TypeChecker.CheckBody | src/typechecker.rs:143-145 | checks a body in order and stops at the first error, as specified |
| TypeChecker.TypeChecker.CheckStatement | src/typechecker.rs:110-174 | gives exactly the specified result and new environment |
| TypeChecker.TypeChecker.CheckFunctionDeclaration | src/typechecker.rs:114-151 | binds the function first, then checks the body in a child scope, as specified |
| TypeChecker.TypeChecker.CollectParameterTypes | src/typechecker.rs:116-121 | collects the parsed parameter types in order |
| TypeChecker.TypeChecker.CheckExpression | src/typechecker.rs:176-275 | gives exactly the specified type or error |
| TypeChecker.TypeChecker.CheckCall | src/typechecker.rs:189-239 | gives exactly the specified call type or error |
| TypeCheckerProperties.CompatibilityLaws | src/typechecker.rs:287-295 | compatibility is reflexive and symmetric, `Unknown` fits everything, and otherwise types must be equal |
| TypeCheckerProperties.DisplayThenParse | src/typechecker.rs:17-37 | the display of a type parses back to it, except `Void` and function types, which become `Unknown` |
| TypeCheckerProperties.ArgumentsChecked | src/typechecker.rs:224-233 | the arguments pass exactly when each fits its parameter; the error is the first misfit |
| TypeCheckerProperties.CallOfDeclaredFunction | src/typechecker.rs:213-236 | a call with the wrong count is an arity error; otherwise it types as the return type exactly when every argument fits |
| TypeCheckerProperties.CallOfNonFunction | src/typechecker.rs:237 | calling a bound name that is not a function is an error |
| TypeCheckerProperties.EachChecked | src/typechecker.rs:197-203 | checking a list succeeds exactly when every element type-checks |
| TypeCheckerProperties.PrintCall | src/typechecker.rs:196-203 | `print` accepts any arguments that type-check, and yields `Void` |
| TypeCheckerProperties.FunctionBuiltinCall | src/typechecker.rs:205-211 | `function(...)` has the type of its first argument, or `Unknown` when called with none |
| TypeCheckerProperties.TypedValueRule | src/typechecker.rs:241-260 | a typed identifier takes its declared type unchecked; otherwise the inner type must be compatible |
| TypeCheckerProperties.IfConditionRule | src/typechecker.rs:153-162 | a condition that is neither `Boolean` nor `Unknown` is rejected |
| TypeCheckerProperties.IfBodyDeclarationVisible | src/typechecker.rs:164-167 | a declaration inside an `if` body stays bound after the `if` |
| TypeCheckerProperties.DeclarationScope | src/typechecker.rs:129-150 | after a declaration the name is bound to the function type of its parameters, returning `Void`; every other name reads as before, so parameters do not leak, and only the current scope changes |
| TypeCheckerProperties.RecursionChecks | src/typechecker.rs:129-145 | a function with no parameters whose body is a single call to itself checks, because its name is bound before the body is checked |
| TypeCheckerProperties.StatementTouchesCurrentScopeOnly | src/typechecker.rs:110-174 | a statement that checks changes only the current scope |
| TypeCheckerProperties.BodyTouchesCurrentScopeOnly | src/typechecker.rs:103-108 | a statement list that checks changes only the current scope |
| TypeCheckerProperties.ParsedOperatorsKnown | src/typechecker.rs:262-273 | a parsed expression never produces the unknown-operator error |
| TypeCheckerProperties.EachOperatorsKnown | src/typechecker.rs:197-203 | parsed arguments of `print` never produce the unknown-operator error |
| TypeCheckerProperties.ArgumentsOperatorsKnown | src/typechecker.rs:224-233 | parsed arguments of a call never produce the unknown-operator error |
| Interpreter.NewEnvironment | src/interpreter.rs:36-50 | the initial environment binds exactly `print`, in one scope |
| Interpreter.IsTruthy | src/interpreter.rs:138-146 | a value is falsy exactly when it is `false`, null, 0 or the empty string |
| Interpreter.ValuesEqual | src/interpreter.rs:260-268 | two values are equal exactly when they are the same non-function value |
| Interpreter.Lines | src/interpreter.rs:175-177 | printing gives one line per value, each its display, in order |
| Interpreter.EvaluatedAll | src/interpreter.rs:191-195 | successful argument evaluation yields one value per argument |
| Interpreter.Display | src/interpreter.rs:17-27 | no contract of its own; NatToStringValue and PrintParseRoundTrip state that an integer's display reads back as that integer, and IntegerOfIdentifier relies on it |
| Interpreter.Message | src/interpreter.rs:148-258 | no contract of its own; it writes the message text of each runtime error except the type mismatch, and the lemmas name the error constructor rather than its text |
| Interpreter.Evaluated | src/interpreter.rs:148-258 | no contract of its own: the specification of evaluation. EvaluationEffects, IsNotNegatesIs, StringOfIdentifier, IntegerOfIdentifier and TypedValueNoCoercion state its properties, and EvaluateExpression is proved equal to it |
| Interpreter.Called | src/interpreter.rs:161-215 | no contract of its own: the specification of a call. CallEffects, ArityCheckedFirst, PrintLiterals, DeclaredPrintStillPrints, EmptyCall, EndlessRecursion, CallReadsCallerScope and DynamicScoping state its properties, and EvaluateCall is proved equal to it |
| Interpreter.Executed | src/interpreter.rs:106-136 | no contract of its own: the specification of a statement. StatementEffects, DeclarationBinds, IfFalsy and IfDeclarationLeaks state its properties, and ExecuteStatement is proved equal to it |
| Interpreter.ExecutedBody | src/interpreter.rs:124-128 | no contract of its own: a statement list runs in order, its value is the last statement's, and it stops at the first error. BodyEffects states its effects, and ExecuteBody is proved equal to it |
| Interpreter.Interpreted | src/interpreter.rs:99-104 | no contract of its own: running a program runs its statements in order and drops their value. Interpret is proved equal to it, and BodyEffects states its effects |
| Interpreter.Interpreter.constructor | src/interpreter.rs:93-97 | a new interpreter starts from the initial environment and no output |
| Interpreter.Interpreter.Interpret | src/interpreter.rs:99-104 | runs the statements in order, with the specified result, output and environment |
| Interpreter.Interpreter.ExecuteBody | src/interpreter.rs:205-208 | the body's value is its last statement's, stopping at the first error, as specified |
| Interpreter.Interpreter.ExecuteStatement | src/interpreter.rs:106-136 | gives exactly the specified result, environment and output |
| Interpreter.Interpreter.EvaluateExpression | src/interpreter.rs:148-258 | gives exactly the specified value, environment and output |
| Interpreter.Interpreter.EvaluateTypedValue | src/interpreter.rs:217-245 | gives exactly the specified typed value or conversion error |
| Interpreter.Interpreter.EvaluateCall | src/interpreter.rs:161-215 | gives exactly the specified call result, environment and output |
| Interpreter.Interpreter.Print | src/interpreter.rs:175-177 | appends one line per value to the output and leaves the environment alone |
| Interpreter.Interpreter.RunCall | src/interpreter.rs:197-211 | runs the body in a frame that binds the parameters over the caller's environment; on success the caller's environment is put back, and after an error the frame is left in place, as in the source |
| Interpreter.Interpreter.EvaluateArguments | src/interpreter.rs:191-195 | evaluates the arguments in order and stops at the first error, as specified |
| InterpreterProperties.EvaluationEffects | src/interpreter.rs:148-258 | evaluation only appends output and, when it succeeds, leaves the environment as it was |
| InterpreterProperties.CallEffects | src/interpreter.rs:161-215 | a call only appends output and, when it succeeds, leaves the caller's environment as it was |
| InterpreterProperties.ArgumentsEffects | src/interpreter.rs:191-195 | argument evaluation only appends output and keeps the environment on success |
| InterpreterProperties.StatementEffects | src/interpreter.rs:106-136 | a statement only appends output and, on success, changes only the current scope |
| InterpreterProperties.BodyEffects | src/interpreter.rs:124-128 | a statement list only appends output and, on success, changes only the current scope |
| InterpreterProperties.IsNotNegatesIs | src/interpreter.rs:251-255 | `is not` is the negation of `is` on the same operands |
| InterpreterProperties.DeclarationBinds | src/interpreter.rs:110-118 | a declaration binds its name to the function in the current scope and leaves other names alone |
| InterpreterProperties.PrintLiterals | src/interpreter.rs:166-180 | a function whose declared name is `print` prints one line per literal argument and returns null |
| InterpreterProperties.DeclaredPrintStillPrints | src/interpreter.rs:166-180 | a user function named `print` still behaves as the built-in and ignores its own body |
| InterpreterProperties.ArityCheckedFirst | src/interpreter.rs:183-189 | a call with the wrong argument count fails before evaluating any argument |
| InterpreterProperties.EmptyCall | src/interpreter.rs:197-211 | calling a function with no parameters and an empty body yields null and changes nothing |
| InterpreterProperties.EndlessRecursion | src/interpreter.rs:161-215 | a function that calls itself never returns a value: it runs out of any fuel |
| InterpreterProperties.CallReadsCallerScope | src/interpreter.rs:197-211 | a function body sees the caller's variables, or fails on an undefined one |
| InterpreterProperties.DynamicScoping | src/interpreter.rs:197-203 | a function called from another one sees the caller's parameters |
| InterpreterProperties.IfFalsy | src/interpreter.rs:129-131 | an `if` with a falsy condition yields null and runs nothing |
| InterpreterProperties.IfDeclarationLeaks | src/interpreter.rs:120-128 | a function declared inside a taken `if` body stays bound after the `if` |
| InterpreterProperties.StringOfIdentifier | src/interpreter.rs:219-221 | `String[x]` with a bare identifier is the text `x`, without looking `x` up |
| InterpreterProperties.IntegerOfIdentifier | src/interpreter.rs:222-227 | `Integer[x]` parses the identifier text as an integer or fails to convert |
| InterpreterProperties.TypedValueNoCoercion | src/interpreter.rs:233-244 | any other typed value is kept only when its type matches and is a mismatch otherwise |

## Left out

- `src/main.rs` is not part of this model. Reading files and the command line, and reporting errors, are I/O.
- `println!` is modelled as appending display strings to an `output` sequence. Standard output itself is not modelled.
- Error strings are modelled as error datatypes. `TypeChecker.Message` renders every type error. `Interpreter.Message` renders every runtime error except two: the type mismatch, whose value Rust prints with `{:?}` debug formatting, and the fuel error, which has no source counterpart.
- Character classes (`is_whitespace`, `is_alphabetic`, `is_alphanumeric`) are modelled on ASCII only. Unicode letters and Unicode whitespace are not modelled.
- `Interpreter.Interpreter.EvaluateExpression` and the other evaluation members: the evaluation functions take a `fuel` bound and return the fuel error when it runs out. Deep recursion in Rust overflows the host stack instead, and that is not modelled.
- `HashMap`, `Box` and `clone()` are modelled as immutable values. Scope chains are sequences of maps, so aliasing between a cloned environment and its original is not modelled; the source clones on extend, so no sharing is observable.
- `Environment::assign` is modelled as `Scopes.Assign`. Nothing in the interpreter calls it, and the model does not call it either.
- `Parser.Parser.Parse` and the other parser methods: after an error the parser's position is not stated, because callers drop the parser at that point.
- `consume_token` is the same operation as `advance` and is covered by `Parser.Parser.Advance`. `peek_token`, `is_at_end` and `check` are read-only helpers; they are modelled as functions without contracts.
- The `unreachable!()` branch of the typed-value parser is left out. The same holds for the `)` checks that the argument and parameter loops make impossible to fail.
- ParserProperties.ProgramRoundTrip: the round trip runs one way only, from well-formed trees to tokens and back. Token sequences that are not renderings of a tree are not covered; for example, `True` parses to an identifier that renders as `Identifier("True")`. The rendering also writes every parameter type as an identifier token. The keyword tokens that the lexer produces for `String`, `Integer` and `Unknown` are covered separately by ParserProperties.ParameterOfTypeToken.
- Integers are `i64` in the source. The model keeps literal values in the `i64` range, and overflowing digit runs follow the source's fallback to 0. No arithmetic is done on them.
