/**
  * The behaviour the repository's tests check, stated for every thread state
  * outside a real-time context with reporting enabled and every build
  * configuration of the kind the tests assume.
  */
module Scenarios {
  import opened Wrappers
  import opened Syntax
  import opened Macros
  import Backend
  import opened Execution
  import opened Instrumentation

  /** A thread outside any real-time context, with reporting enabled. */
  predicate Idle(s: Backend.State) {
    s.enterCount == 0 && s.disableCount == 0
  }

  function Reported(s: Backend.State, kind: Backend.ViolationKind, name: string): (r: Backend.State) {
    s.(violations := s.violations + [Backend.Violation(kind, name)])
  }

  /** `@NonBlocking func callBlocking() { <library call> }` in a debug build:
    * the intercepted call is reported once, and the thread is idle again
    * afterwards. */
  lemma UnsafeCallInNonBlockingReportedOnce(defined: set<string>, s: Backend.State, symbol: string)
    requires "DEBUG" in defined && Idle(s)
    ensures var expanded := NonBlockingExpansion(NoArguments, FunctionDecl("callBlocking", Some([InterceptedCall(symbol)])));
      && expanded.Success?
      && Exec(defined, "callBlocking", expanded.value, s) == Run(Reported(s, Backend.UnsafeLibraryCall, symbol), Normal)
  {
    var decl := FunctionDecl("callBlocking", Some([InterceptedCall(symbol)]));
    NonBlockingExpansionMeaning(NoArguments, decl, defined, s);
  }

  /** `@NonBlocking func callNonBlocking() { 1 + 1 }`: nothing is reported. */
  lemma SafeBodyInNonBlockingReportsNothing(defined: set<string>, s: Backend.State)
    requires "DEBUG" in defined && Idle(s)
    ensures var expanded := NonBlockingExpansion(NoArguments, FunctionDecl("callNonBlocking", Some([Opaque(0)])));
      && expanded.Success?
      && Exec(defined, "callNonBlocking", expanded.value, s) == Run(s, Normal)
  {
    var decl := FunctionDecl("callNonBlocking", Some([Opaque(0)]));
    NonBlockingExpansionMeaning(NoArguments, decl, defined, s);
  }

  /** A `NonBlocking` function that calls `notifyBlockingCall` directly reports
    * one blocking call, with the default condition and with `in: "DEBUG"`. */
  lemma NotifyInNonBlockingReportedOnce(defined: set<string>, s: Backend.State, argumentLabel: Option<string>)
    requires "DEBUG" in defined && Idle(s)
    ensures forall attribute | attribute in {NoArguments, ArgumentList([Argument(argumentLabel, StringLiteral(Some("DEBUG")))])} ::
      var expanded := NonBlockingExpansion(attribute, FunctionDecl("userBlocking", Some([NotifyBlocking(NameLiteral("userBlocking"))])));
      && expanded.Success?
      && Exec(defined, "userBlocking", expanded.value, s) == Run(Reported(s, Backend.BlockingCall, "userBlocking"), Normal)
  {
    var decl := FunctionDecl("userBlocking", Some([NotifyBlocking(NameLiteral("userBlocking"))]));
    var explicit := ArgumentList([Argument(argumentLabel, StringLiteral(Some("DEBUG")))]);
    NonBlockingExpansionMeaning(NoArguments, decl, defined, s);
    NonBlockingExpansionMeaning(explicit, decl, defined, s);
  }

  /** `@Blocking func userBlocking() { }` called from a `NonBlocking` function:
    * one blocking call is reported, named by `#function` after the callee. */
  lemma BlockingCalledFromNonBlockingReportedOnce(defined: set<string>, s: Backend.State)
    requires "DEBUG" in defined && Idle(s)
    ensures var callee := BlockingExpansion(NoArguments, FunctionDecl("userBlocking", Some([])));
      && callee.Success?
      && var caller := NonBlockingExpansion(NoArguments, FunctionDecl("callNonBlocking", Some([Call("userBlocking", callee.value)])));
      && caller.Success?
      && Exec(defined, "callNonBlocking", caller.value, s) == Run(Reported(s, Backend.BlockingCall, "userBlocking"), Normal)
  {
    var calleeDecl := FunctionDecl("userBlocking", Some([]));
    var callee := BlockingExpansion(NoArguments, calleeDecl).value;
    var callerDecl := FunctionDecl("callNonBlocking", Some([Call("userBlocking", callee)]));
    NonBlockingExpansionMeaning(NoArguments, callerDecl, defined, s);
    BlockingExpansionMeaning(NoArguments, calleeDecl, defined, Backend.RealtimeEnter(s));
  }

  /** A function that nobody marked real-time calling `notifyBlockingCall`
    * reports nothing. */
  lemma NotifyWithoutAnnotationReportsNothing(defined: set<string>, s: Backend.State)
    requires Idle(s)
    ensures Exec(defined, "userBlocking", [NotifyBlocking(NameLiteral("userBlocking"))], s) == Run(s, Normal)
  {
  }

  /** `@NonBlocking(in: "CUSTOM")` in a build that does not define CUSTOM:
    * nothing is reported. */
  lemma InactiveConditionReportsNothing(defined: set<string>, s: Backend.State, argumentLabel: Option<string>)
    requires "CUSTOM" !in defined && Idle(s)
    ensures var expanded := NonBlockingExpansion(ArgumentList([Argument(argumentLabel, StringLiteral(Some("CUSTOM")))]),
                                                 FunctionDecl("userBlocking", Some([NotifyBlocking(NameLiteral("userBlocking"))])));
      && expanded.Success?
      && Exec(defined, "userBlocking", expanded.value, s) == Run(s, Normal)
  {
    var attribute := ArgumentList([Argument(argumentLabel, StringLiteral(Some("CUSTOM")))]);
    var decl := FunctionDecl("userBlocking", Some([NotifyBlocking(NameLiteral("userBlocking"))]));
    NonBlockingExpansionMeaning(attribute, decl, defined, s);
  }

  /** A `NonBlocking` function that notifies a blocking call, called inside
    * `withDisabled`: nothing is reported and the thread is idle again
    * afterwards. */
  lemma WithDisabledSuppressesNonBlockingCallee(defined: set<string>, s: Backend.State)
    requires "DEBUG" in defined && Idle(s)
    ensures var callee := NonBlockingExpansion(NoArguments, FunctionDecl("userBlocking", Some([NotifyBlocking(NameLiteral("userBlocking"))])));
      && callee.Success?
      && Exec(defined, "test", [WithDisabled([Call("userBlocking", callee.value)])], s) == Run(s, Normal)
  {
    var decl := FunctionDecl("userBlocking", Some([NotifyBlocking(NameLiteral("userBlocking"))]));
    var callee := NonBlockingExpansion(NoArguments, decl).value;
    NonBlockingExpansionMeaning(NoArguments, decl, defined, Backend.Disable(s));
    assert Exec(defined, "test", [Call("userBlocking", callee)], Backend.Disable(s)) == Run(Backend.Disable(s), Normal);
  }

  /** An early return or a thrown error inside a `NonBlocking` function still
    * leaves the real-time context, once; statements after it do not run. */
  lemma EarlyExitStillLeavesContext(defined: set<string>, s: Backend.State, symbol: string)
    requires "DEBUG" in defined && Idle(s)
    ensures forall exit | exit in {Return, Throw} ::
      var expanded := NonBlockingExpansion(NoArguments, FunctionDecl("process", Some([Opaque(1), exit, InterceptedCall(symbol)])));
      && expanded.Success?
      && Exec(defined, "process", expanded.value, s) == Run(s, if exit == Return then Returned else Threw)
  {
    NonBlockingExpansionMeaning(NoArguments, FunctionDecl("process", Some([Opaque(1), Return, InterceptedCall(symbol)])), defined, s);
    NonBlockingExpansionMeaning(NoArguments, FunctionDecl("process", Some([Opaque(1), Throw, InterceptedCall(symbol)])), defined, s);
  }

  /** A `NonBlocking` function calling another `NonBlocking` function whose
    * body makes an intercepted call: the call is reported once, inside the
    * nested context, and both levels are left again. */
  lemma NestedNonBlockingReportedOnce(defined: set<string>, s: Backend.State, symbol: string)
    requires "DEBUG" in defined && Idle(s)
    ensures var callee := NonBlockingExpansion(NoArguments, FunctionDecl("inner", Some([InterceptedCall(symbol)])));
      && callee.Success?
      && var caller := NonBlockingExpansion(NoArguments, FunctionDecl("outer", Some([Call("inner", callee.value)])));
      && caller.Success?
      && Exec(defined, "outer", caller.value, s) == Run(Reported(s, Backend.UnsafeLibraryCall, symbol), Normal)
  {
    var calleeDecl := FunctionDecl("inner", Some([InterceptedCall(symbol)]));
    var callee := NonBlockingExpansion(NoArguments, calleeDecl).value;
    var callerDecl := FunctionDecl("outer", Some([Call("inner", callee)]));
    NonBlockingExpansionMeaning(NoArguments, callerDecl, defined, s);
    NonBlockingExpansionMeaning(NoArguments, calleeDecl, defined, Backend.RealtimeEnter(s));
  }
}
