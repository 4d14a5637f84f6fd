/**
  * The `NonBlocking` and `Blocking` body macros: given the attribute and the
  * declaration it is attached to, either the new list of body statements or
  * the error the macro throws.
  */
module Macros {
  import opened Wrappers
  import opened Syntax

  /** The error a macro throws; it carries only its message. */
  datatype MacroError = MacroExpansionErrorMessage(message: string)

  const ExpectedFunctionWithBody := MacroExpansionErrorMessage("expected a function with a body")
  const ArgumentNotAString := MacroExpansionErrorMessage("The macro argument is not a string")
  const ArgumentNotAStringLiteral := MacroExpansionErrorMessage("The macro argument is not a string literal")

  /** The compilation condition used when the attribute names none. */
  const DefaultCondition: string := "DEBUG"

  /** True when `decl` is a function that has a body. */
  predicate IsFunctionWithBody(decl: Decl) {
    decl.FunctionDecl? && decl.body.Some?
  }

  /** The first argument of an argument list, if there is one; any other
    * argument shape has none. */
  function FirstArgument(args: AttributeArguments): (r: Option<Argument>)
    ensures r.Some? <==> args.ArgumentList? && |args.arguments| > 0
    ensures r.Some? ==> r.value == args.arguments[0]
  {
    if args.ArgumentList? && |args.arguments| > 0 then Some(args.arguments[0]) else None
  }

  /** Only a function with a body is accepted; its body statements are returned. */
  function EnsureFunctionWithBody(decl: Decl): (r: Result<seq<Stmt>, MacroError>)
    ensures r.Success? <==> IsFunctionWithBody(decl)
    ensures r.Success? ==> r.value == decl.body.value
    ensures r.Failure? ==> r.error == ExpectedFunctionWithBody
  {
    match decl
    case FunctionDecl(_, Some(body)) => Success(body)
    case _ => Failure(ExpectedFunctionWithBody)
  }

  /** The compilation condition named by the attribute. Only the first element
    * of an argument list is inspected, and its label is ignored. */
  function ExtractCompilationCondition(args: AttributeArguments): (r: Result<string, MacroError>)
    ensures r.Failure? ==> FirstArgument(args).Some?
    ensures r.Failure? ==> r.error == ArgumentNotAString || r.error == ArgumentNotAStringLiteral
    ensures r.Success? ==>
      || (FirstArgument(args).None? && r.value == DefaultCondition)
      || (FirstArgument(args).Some? && FirstArgument(args).value.expression == StringLiteral(Some(r.value)))
  {
    match FirstArgument(args)
    case None => Success(DefaultCondition)
    case Some(argument) =>
      match argument.expression
      case OtherExpr => Failure(ArgumentNotAString)
      case StringLiteral(None) => Failure(ArgumentNotAStringLiteral)
      case StringLiteral(Some(literal)) => Success(literal)
  }

  /** `#if cond / realtimeEnter() / defer { realtimeExit() } / #endif` */
  function NonBlockingPrefix(condition: string): (r: Stmt) {
    IfConfig(condition, [Enter, Defer([Exit])])
  }

  /** `#if cond / notifyBlockingCall(functionName: #function) / #endif` */
  function BlockingPrefix(condition: string): (r: Stmt) {
    IfConfig(condition, [NotifyBlocking(HashFunction)])
  }

  /** The `NonBlocking` macro: the declaration is checked first, then the
    * attribute; the result is the guarded prefix followed by the original
    * statements. */
  function NonBlockingExpansion(attribute: AttributeArguments, decl: Decl): (r: Result<seq<Stmt>, MacroError>)
    ensures !IsFunctionWithBody(decl) ==> r == Failure(ExpectedFunctionWithBody)
    ensures IsFunctionWithBody(decl) && ExtractCompilationCondition(attribute).Failure? ==>
      r == Failure(ExtractCompilationCondition(attribute).error)
    ensures r.Success? ==>
      && IsFunctionWithBody(decl)
      && ExtractCompilationCondition(attribute).Success?
      && |r.value| == |decl.body.value| + 1
      && r.value[0] == NonBlockingPrefix(ExtractCompilationCondition(attribute).value)
      && r.value[1..] == decl.body.value
    ensures IsFunctionWithBody(decl) && ExtractCompilationCondition(attribute).Success? ==>
      r == Success([NonBlockingPrefix(ExtractCompilationCondition(attribute).value)] + decl.body.value)
  {
    var body :- EnsureFunctionWithBody(decl);
    var condition :- ExtractCompilationCondition(attribute);
    Success([NonBlockingPrefix(condition)] + body)
  }

  /** The `Blocking` macro: same checks, with the blocking-call notification as
    * the guarded prefix. */
  function BlockingExpansion(attribute: AttributeArguments, decl: Decl): (r: Result<seq<Stmt>, MacroError>)
    ensures !IsFunctionWithBody(decl) ==> r == Failure(ExpectedFunctionWithBody)
    ensures IsFunctionWithBody(decl) && ExtractCompilationCondition(attribute).Failure? ==>
      r == Failure(ExtractCompilationCondition(attribute).error)
    ensures r.Success? ==>
      && IsFunctionWithBody(decl)
      && ExtractCompilationCondition(attribute).Success?
      && |r.value| == |decl.body.value| + 1
      && r.value[0] == BlockingPrefix(ExtractCompilationCondition(attribute).value)
      && r.value[1..] == decl.body.value
    ensures IsFunctionWithBody(decl) && ExtractCompilationCondition(attribute).Success? ==>
      r == Success([BlockingPrefix(ExtractCompilationCondition(attribute).value)] + decl.body.value)
  {
    var body :- EnsureFunctionWithBody(decl);
    var condition :- ExtractCompilationCondition(attribute);
    Success([BlockingPrefix(condition)] + body)
  }

  // ---------------------------------------------------------------------------
  // Properties of the condition argument

  /** Without an argument list, or with an empty one, the condition is "DEBUG". */
  lemma DefaultConditionIsDebug(args: AttributeArguments)
    requires args.NoArguments? || args == ArgumentList([]) || args.OtherArguments?
    ensures ExtractCompilationCondition(args) == Success("DEBUG")
  {
  }

  /** A first argument that is a literal with a represented value gives that
    * value verbatim, whatever its label and whatever follows it. */
  lemma LiteralConditionIsVerbatim(argumentLabel: Option<string>, value: string, rest: seq<Argument>)
    ensures ExtractCompilationCondition(ArgumentList([Argument(argumentLabel, StringLiteral(Some(value)))] + rest)) == Success(value)
  {
  }

  /** Only the first argument decides the outcome; its label plays no part. */
  lemma {:induction false} OnlyFirstArgumentInspected(first: Argument, argumentLabel: Option<string>, rest1: seq<Argument>, rest2: seq<Argument>)
    ensures ExtractCompilationCondition(ArgumentList([first] + rest1))
         == ExtractCompilationCondition(ArgumentList([Argument(argumentLabel, first.expression)] + rest2))
  {
    assert ([first] + rest1)[0] == first;
    assert ([Argument(argumentLabel, first.expression)] + rest2)[0] == Argument(argumentLabel, first.expression);
  }

  /** The two argument errors: a first argument that is not a string literal,
    * and a string literal that has no represented value. */
  lemma ArgumentErrors(args: AttributeArguments)
    requires FirstArgument(args).Some?
    ensures FirstArgument(args).value.expression.OtherExpr? ==>
      ExtractCompilationCondition(args) == Failure(ArgumentNotAString)
    ensures FirstArgument(args).value.expression == StringLiteral(None) ==>
      ExtractCompilationCondition(args) == Failure(ArgumentNotAStringLiteral)
  {
  }

  // ---------------------------------------------------------------------------
  // Properties of the expansions

  /** The declaration check comes before argument parsing: a declaration that is
    * not a function with a body gets the declaration error from both macros,
    * even when the attribute is malformed too. */
  lemma DeclarationCheckedFirst(attribute: AttributeArguments, decl: Decl)
    requires !IsFunctionWithBody(decl)
    ensures NonBlockingExpansion(attribute, decl) == Failure(ExpectedFunctionWithBody)
    ensures BlockingExpansion(attribute, decl) == Failure(ExpectedFunctionWithBody)
  {
  }

  /** Both macros succeed or fail together, with the same error, and on success
    * keep the original statements as an unchanged suffix: each original
    * statement sits one place further on, and only the prefix is new. */
  lemma {:induction false} ExpansionsKeepOriginalStatements(attribute: AttributeArguments, decl: Decl)
    ensures NonBlockingExpansion(attribute, decl).Success? <==> BlockingExpansion(attribute, decl).Success?
    ensures NonBlockingExpansion(attribute, decl).Failure? ==>
      NonBlockingExpansion(attribute, decl).error == BlockingExpansion(attribute, decl).error
    ensures NonBlockingExpansion(attribute, decl).Success? ==>
      && NonBlockingExpansion(attribute, decl).value[1..] == BlockingExpansion(attribute, decl).value[1..]
      && (forall i :: 0 <= i < |decl.body.value| ==>
            && NonBlockingExpansion(attribute, decl).value[i + 1] == decl.body.value[i]
            && BlockingExpansion(attribute, decl).value[i + 1] == decl.body.value[i])
  {
    var nb := NonBlockingExpansion(attribute, decl);
    var b := BlockingExpansion(attribute, decl);
    if nb.Success? {
      forall i | 0 <= i < |decl.body.value|
        ensures nb.value[i + 1] == decl.body.value[i] && b.value[i + 1] == decl.body.value[i]
      {
        assert nb.value[1..][i] == nb.value[i + 1];
        assert b.value[1..][i] == b.value[i + 1];
      }
    }
  }
}
