# RealtimeSanitizer for Swift, modelled in Dafny

This project models the two parts of the RealtimeSanitizer Swift package that carry logic:

- the `NonBlocking` and `Blocking` body macros, which rewrite the body of an annotated function;
- the `RealtimeSanitizer` entry points, which forward to the real-time sanitizer backend (rtsan).

`@NonBlocking` puts `realtimeEnter()` and `defer { realtimeExit() }` in front of the original statements. `@Blocking` puts `notifyBlockingCall(functionName: #function)` there. In both cases the new statements sit inside `#if <condition> … #endif`. The condition is `DEBUG` unless the attribute names another one.

The backend keeps, for each thread:

- a real-time context depth;
- a suppression depth;
- the violations reported so far.

A blocking call or an intercepted library call is reported only when the context depth is positive and the suppression depth is zero.

Files and modules:

- `wrappers.dfy` (`Wrappers`): `Option`, and `Result` for the macros' `throws`.
- `syntax.dfy` (`Syntax`): the abstract syntax the macros read and produce. This covers attribute arguments, expressions, declarations and statements.
- `macros.dfy` (`Macros`): `ensureFunctionWithBody`, `extractCompilationCondition` and the two expansions as total functions returning a `Result`. The file also holds lemmas about argument parsing and the shape of the output.
- `backend.dfy` (`Backend`): the backend's per-thread state as a value. Each entry point is a state transformer, with lemmas about the contract.
- `realtime_sanitizer.dfy` (`RealtimeSanitizerCore`): class `RealtimeSanitizer`, holding the counters and the log as fields. Its methods change them, and each is specified by the `Backend` function it forwards to. Client methods call the entry points directly, as the behaviour tests do.
- `execution.dfy` (`Execution`): what a statement list does to the backend state when it runs.
  - `#if` is resolved against the set of conditions the build defines.
  - A `defer` block runs on every way out of the function body: falling off the end, `return`, or a thrown error.
  - `#function` names the enclosing function.
  - The file also holds the induction lemmas: suppressed code stays silent, code outside a context stays silent, and balanced code, including nested real-time calls, keeps both depths.
- `instrumentation.dfy` (`Instrumentation`): what the macros' output means at run time.
- `scenarios.dfy` (`Scenarios`): the behaviour tests, each stated for every idle thread state.

Three details of the code the model keeps:

- The macro throws two distinct argument errors. "The macro argument is not a string" is for a first argument that is not a string-literal expression. "The macro argument is not a string literal" is for a literal that has no represented value.
- `withDisabled` calls `disable()`, `execute()`, `enable()` in a straight line, with no `defer`. Its `() -> Void` closure cannot throw, so the model treats a `Throw` inside the closure as ending it, like `return`.
- Only the first element of an `.argumentList` is looked at. An empty list (`@Blocking()`) and any other argument shape both give `"DEBUG"`, the same default the macro declarations state.

## Model

| member | source | states |
|---|---|---|
| Macros.FirstArgument | Sources/RealtimeSanitizerMacros/RealtimeSanitizerMacro.swift:72 | present exactly for a non-empty `.argumentList`, and then it is that list's first element |
| Macros.EnsureFunctionWithBody | Sources/RealtimeSanitizerMacros/RealtimeSanitizerMacro.swift:65-70 | succeeds exactly for a function declaration that has a body, returning that body; every other declaration fails with "expected a function with a body" |
| Macros.ExtractCompilationCondition | Sources/RealtimeSanitizerMacros/RealtimeSanitizerMacro.swift:71-82 | fails only when there is a first argument, and only with one of the two argument errors; on success the condition is "DEBUG" when there is no first argument, otherwise the represented value of the first argument's string literal |
| Macros.NonBlockingExpansion | Sources/RealtimeSanitizerMacros/RealtimeSanitizerMacro.swift:20-40 | succeeds exactly for a function with a body and a parseable attribute; the declaration error wins over any argument error; an argument error is passed on unchanged; on success the output is one statement longer than the body, starts with `#if cond { enter; defer { exit } }` for the extracted condition, and has the original body as its suffix |
| Macros.BlockingExpansion | Sources/RealtimeSanitizerMacros/RealtimeSanitizerMacro.swift:46-63 | succeeds exactly for a function with a body and a parseable attribute; the same error order; on success the output is `#if cond { notifyBlockingCall(#function) }` followed by the original body, unchanged |
| Macros.DefaultConditionIsDebug | Sources/RealtimeSanitizerMacros/RealtimeSanitizerMacro.swift:71-82 | no arguments, an empty argument list, or another argument shape all give "DEBUG" |
| Macros.LiteralConditionIsVerbatim | Sources/RealtimeSanitizerMacros/RealtimeSanitizerMacro.swift:72-79 | a first argument that is a literal with value v gives exactly v, whatever its label and whatever follows it |
| Macros.OnlyFirstArgumentInspected | Sources/RealtimeSanitizerMacros/RealtimeSanitizerMacro.swift:72-73 | two argument lists with the same first expression give the same result, whatever the labels and the later arguments |
| Macros.ArgumentErrors | Sources/RealtimeSanitizerMacros/RealtimeSanitizerMacro.swift:73-78 | a first argument that is not a string literal fails with "…is not a string"; a literal with no represented value fails with "…is not a string literal" |
| Macros.DeclarationCheckedFirst | Sources/RealtimeSanitizerMacros/RealtimeSanitizerMacro.swift:26-27 | for a declaration that is not a function with a body, both macros fail with the declaration error, even with a malformed attribute |
| Macros.ExpansionsKeepOriginalStatements | Sources/RealtimeSanitizerMacros/RealtimeSanitizerMacro.swift:29-61 | both macros succeed or fail together, with the same error; on success each original statement i appears unchanged at position i+1 in both outputs, and the outputs differ only in their first statement |
| Backend.Report | Sources/RealtimeSanitizerCore/RealtimeSanitizer.swift:39-44 | appends one violation of the given kind and name exactly when the depth is positive and reporting is not disabled; nothing else changes |
| Backend.EnsureInitializedIdempotent | Sources/RealtimeSanitizerCore/RealtimeSanitizer.swift:4-9 | initialising twice is initialising once; an initialised state is left unchanged; only the flag changes |
| Backend.CounterOperationsTouchOneCounter | Sources/RealtimeSanitizerCore/RealtimeSanitizer.swift:11-37 | enter and exit change only the context depth, and disable and enable change only the suppression depth, each by one; none reports; exit undoes enter and enable undoes disable |
| Backend.NotifyRecordsExactlyWhenActive | Sources/RealtimeSanitizerCore/RealtimeSanitizer.swift:39-44 | the log grows by one iff the thread is in an entered, non-disabled context, and by none otherwise; the new entry is a blocking-call violation with the given name; earlier entries and the counters are unchanged |
| Backend.NestedDisableNeedsMatchingEnables | Sources/RealtimeSanitizerCore/RealtimeSanitizer.swift:11-21 | after two disables and one enable reporting is still suppressed; the second enable restores reporting exactly when the thread is in a context |
| Backend.WithDisabledRestoresDepths | Sources/RealtimeSanitizerCore/RealtimeSanitizer.swift:46-50 | the closure runs with reporting disabled; if the closure keeps the depths, the depths after `withDisabled` equal those before; the log is the closure's |
| Backend.WithDisabledSuppressesNotify | Sources/RealtimeSanitizerCore/RealtimeSanitizer.swift:46-50 | a closure that only notifies a blocking call inside `withDisabled` leaves the state exactly as it was |
| RealtimeSanitizerCore.RealtimeSanitizer.EnsureInitialized | Sources/RealtimeSanitizerCore/RealtimeSanitizer.swift:7-9 | sets the initialised flag and nothing else; a second call changes nothing |
| RealtimeSanitizerCore.RealtimeSanitizer.Enable | Sources/RealtimeSanitizerCore/RealtimeSanitizer.swift:11-15 | requires a preceding disable (suppression depth > 0); lowers that depth by one, nothing else |
| RealtimeSanitizerCore.RealtimeSanitizer.Disable | Sources/RealtimeSanitizerCore/RealtimeSanitizer.swift:17-21 | raises the suppression depth by one, nothing else |
| RealtimeSanitizerCore.RealtimeSanitizer.RealtimeEnter | Sources/RealtimeSanitizerCore/RealtimeSanitizer.swift:23-30 | raises the context depth by one, nothing else |
| RealtimeSanitizerCore.RealtimeSanitizer.RealtimeExit | Sources/RealtimeSanitizerCore/RealtimeSanitizer.swift:32-37 | requires a preceding enter (context depth > 0); lowers the depth by one, nothing else |
| RealtimeSanitizerCore.RealtimeSanitizer.NotifyBlockingCall | Sources/RealtimeSanitizerCore/RealtimeSanitizer.swift:39-44 | the new state is the backend's notify on the old one: one blocking-call violation is logged iff in an entered, non-disabled context |
| RealtimeSanitizerCore.RealtimeSanitizer.WithDisabled | Sources/RealtimeSanitizerCore/RealtimeSanitizer.swift:46-50 | the new state is disable, then the closure, then enable, applied to the old state |
| RealtimeSanitizerCore.NotifyOutsideContext | Tests/RealtimeSanitizerTests/RealtimeSanitizerTests.swift:191-200 | on a fresh thread a blocking call outside any context logs nothing |
| RealtimeSanitizerCore.NotifyWhenExplicitlyEntered | Tests/RealtimeSanitizerTests/RealtimeSanitizerTests.swift:202-213 | enter, notify, exit logs exactly one blocking-call violation for "userBlocking" and leaves the depth at zero |
| RealtimeSanitizerCore.NotifyWhenEnteredButDisabled | Tests/RealtimeSanitizerTests/RealtimeSanitizerTests.swift:215-228 | disable, enter, notify, exit, enable logs nothing and leaves both depths at zero |
| RealtimeSanitizerCore.NotifyInsideWithDisabled | Tests/RealtimeSanitizerTests/RealtimeSanitizerTests.swift:254-266 | an entered blocking call inside `withDisabled` logs nothing, and the suppression depth is back to zero |
| Execution.SuppressedStaysSilent | Sources/RealtimeSanitizerCore/RealtimeSanitizer.swift:17-21 | once reporting is disabled, code with no `enable` call anywhere in it or in the functions it calls reports nothing, and the suppression depth never drops below where it started, on every way out |
| Execution.OutsideContextStaysSilent | Sources/RealtimeSanitizerCore/RealtimeSanitizer.swift:32-34 | outside any context, code with no `realtimeEnter` call anywhere in it or in the functions it calls reports nothing and stays outside |
| Execution.BalancedKeepsDepths | Sources/RealtimeSanitizerMacros/RealtimeSanitizerMacro.swift:29-38 | balanced code never breaks the exit/enable preconditions and returns both depths to where they were, on every way out. Balanced means no bare counter call anywhere in it or its callees, except the guarded enter/defer-exit pair a `NonBlocking` expansion starts with; `withDisabled` blocks are allowed. So calls of other real-time functions, to any depth, are covered |
| Instrumentation.NonBlockingExpansionMeaning | Sources/RealtimeSanitizerMacros/RealtimeSanitizerMacro.swift:29-38 | when the condition is defined, running the expansion equals running the original body one context level deeper, then leaving that level, whatever way the body ends; otherwise it equals running the original body |
| Instrumentation.BlockingExpansionMeaning | Sources/RealtimeSanitizerMacros/RealtimeSanitizerMacro.swift:55-61 | when the condition is defined, running the expansion equals notifying a blocking call named after the function, then running the original body; otherwise it equals running the original body |
| Instrumentation.ExpansionsKeepBalance | Sources/RealtimeSanitizerMacros/RealtimeSanitizerMacro.swift:29-61 | both macros turn a balanced body into a balanced body, so expanded functions compose when they call each other |
| Instrumentation.NonBlockingExitsOnEveryPath | Sources/RealtimeSanitizerMacros/RealtimeSanitizerMacro.swift:31-36 | for a balanced body, including one that calls other `@NonBlocking` or `@Blocking` functions, the expansion never breaks the backend contract. It restores both depths, ends the way the body ends, and reports what the body reports inside the context |
| Scenarios.UnsafeCallInNonBlockingReportedOnce | Tests/RealtimeSanitizerTests/RealtimeSanitizerTests.swift:111-151 | an intercepted library call in a `@NonBlocking` function, in a DEBUG build, logs exactly one unsafe-library-call violation, and the thread ends idle |
| Scenarios.SafeBodyInNonBlockingReportsNothing | Tests/RealtimeSanitizerTests/RealtimeSanitizerTests.swift:153-162 | a `@NonBlocking` function without unsafe calls leaves the state exactly as it was |
| Scenarios.NotifyInNonBlockingReportedOnce | Tests/RealtimeSanitizerTests/RealtimeSanitizerTests.swift:164-174 | a direct `notifyBlockingCall` in a `@NonBlocking` function logs exactly one violation, both with the default condition and with `in: "DEBUG"` |
| Scenarios.BlockingCalledFromNonBlockingReportedOnce | Tests/RealtimeSanitizerTests/RealtimeSanitizerTests.swift:176-189 | a `@Blocking` function called from a `@NonBlocking` one logs exactly one blocking-call violation, named after the callee |
| Scenarios.NotifyWithoutAnnotationReportsNothing | Tests/RealtimeSanitizerTests/RealtimeSanitizerTests.swift:191-200 | a blocking call from an unannotated function leaves the state unchanged |
| Scenarios.InactiveConditionReportsNothing | Tests/RealtimeSanitizerTests/RealtimeSanitizerTests.swift:230-240 | `@NonBlocking(in: "CUSTOM")` in a build without CUSTOM leaves the state unchanged |
| Scenarios.WithDisabledSuppressesNonBlockingCallee | Tests/RealtimeSanitizerTests/RealtimeSanitizerTests.swift:254-266 | a `@NonBlocking` function that notifies a blocking call, called inside `withDisabled`, leaves the state unchanged |
| Scenarios.NestedNonBlockingReportedOnce | Sources/RealtimeSanitizerMacros/RealtimeSanitizerMacro.swift:29-38 | a `@NonBlocking` function calling another `@NonBlocking` function that makes an intercepted call logs exactly one unsafe-library-call violation, and the thread ends idle |
| Scenarios.EarlyExitStillLeavesContext | Sources/RealtimeSanitizerMacros/RealtimeSanitizerMacro.swift:31-36 | an early `return` or `throw` in a `@NonBlocking` body still leaves the context; the statements after it do not run |

## Left out

- The rtsan backend is foreign code, and `Backend` is a contract for it, not a model of its implementation. Only the enable-after-disable rule comes from the package's doc comments (Sources/RealtimeSanitizerCore/RealtimeSanitizer.swift:11-12,17-18). The report on the in-context-and-not-disabled check is what the tests observe, at a single level. The nesting depths and the exit-after-enter precondition are an assumed contract of the rtsan backend that the package does not state. Symbol interception (`malloc`, `pthread_mutex_lock`, `OSAllocatedUnfairLock`) is reduced to one `InterceptedCall` statement that makes the same check.
- The backend's handling of a report is left out: the text and stack trace it prints, halting the process, and deduplicating equal reports. A report is one `Violation(kind, name)` entry in a log.
- Thread-local storage and concurrent first-time initialisation are left out. The model holds one thread's state, and `initialized` is a flag.
- SwiftSyntax parsing and pretty-printing are left out. So is the computation of `representedLiteralValue`: a string literal carries its represented value, or none. `#if` conditions are single flag names that a build either defines or not.
- The exact string `#function` expands to is left out. The model uses the declaration's name.
- The macro expansion `context` parameter is left out, because the macros never use it. The `RealtimeSanitizerPlugin` registration is left out too.
- RealtimeSanitizerCore.RealtimeSanitizer.WithDisabled takes the closure as a transformer of the thread's state, not as code. The closure's own effects are whatever that function does.
- A `Throw` inside a `withDisabled` closure is treated as ending the closure. Swift's `() -> Void` closure cannot throw, so compiled code never reaches that case.
- Control flow inside a `defer` block is left out: its `return` or `throw` does not change how the function ends. Swift forbids both there.
- `listenForUnsafeCall`, the stderr pipe, `dup2` and the death callback are left out. They are test I/O.
- `Package.swift`, `Examples/AVAudioEngine/AVAudioEngine.swift` and `Examples/Playground/main.swift` are left out. They are build configuration and demonstrations.
