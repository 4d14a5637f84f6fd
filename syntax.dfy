/**
  * Abstract syntax of the pieces of a Swift declaration that the body macros
  * look at or produce. Parsing and pretty-printing are not modelled: a
  * statement the macros never inspect is an `Opaque` token, and the few calls
  * whose meaning matters at run time (the sanitizer's own entry points, a call
  * the detection backend intercepts, a call of another function) have their
  * own constructors.
  */
module Syntax {
  import opened Wrappers

  /** An expression as the macros see it. A string literal carries the value it
    * represents; SwiftSyntax reports no value (None) for a literal with an
    * interpolation segment or an invalid escape. */
  datatype Expr =
    | StringLiteral(representedValue: Option<string>)
    | OtherExpr

  /** One labelled argument of an attribute, such as `in: "CUSTOM"`. */
  datatype Argument = Argument(argumentLabel: Option<string>, expression: Expr)

  /** The arguments of an attribute: absent (`@NonBlocking`), a parenthesised
    * argument list (`@Blocking()`, `@NonBlocking(in: "CUSTOM")`), or one of the
    * other argument shapes SwiftSyntax knows (availability lists and the like). */
  datatype AttributeArguments =
    | NoArguments
    | ArgumentList(arguments: seq<Argument>)
    | OtherArguments

  /** The token passed to `notifyBlockingCall(functionName:)`: either the
    * `#function` literal, which names the enclosing function, or an explicit
    * string. */
  datatype FunctionNameToken = HashFunction | NameLiteral(name: string)

  /** A statement of a function body.
    * `IfConfig(cond, body)` is `#if cond ... #endif`; `Enter`, `Exit`, `Enable`,
    * `Disable`, `NotifyBlocking` and `WithDisabled` are calls of the
    * corresponding `RealtimeSanitizer` functions (the last one with its closure
    * body); `Defer(body)` is `defer { body }`; `InterceptedCall(symbol)` is a
    * call of a library function the detection backend intercepts (`malloc`,
    * `pthread_mutex_lock`); `Call(callee, body)` calls a function whose body
    * (after macro expansion) is given; `Return` and `Throw` leave the function
    * early; `Opaque(id)` is any other statement. */
  datatype Stmt =
    | IfConfig(condition: string, body: seq<Stmt>)
    | Enter
    | Exit
    | Enable
    | Disable
    | NotifyBlocking(functionName: FunctionNameToken)
    | WithDisabled(body: seq<Stmt>)
    | Defer(body: seq<Stmt>)
    | InterceptedCall(symbol: string)
    | Call(callee: string, body: seq<Stmt>)
    | Return
    | Throw
    | Opaque(id: nat)

  /** A declaration a body macro may be attached to: a function, or any other
    * declaration that may carry a code block (initializer, accessor, ...). */
  datatype Decl =
    | FunctionDecl(name: string, body: Option<seq<Stmt>>)
    | OtherDecl(body: Option<seq<Stmt>>)
}
