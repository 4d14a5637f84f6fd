/**
  * `RealtimeSanitizer`: the Swift entry points, each of which forwards to the
  * backend. The object holds one thread's backend state; each method is
  * specified by the backend function it forwards to.
  */
module RealtimeSanitizerCore {
  import Backend

  class RealtimeSanitizer {
    var initialized: bool
    var enterCount: nat
    var disableCount: nat
    var violations: seq<Backend.Violation>

    /** The state as a value, for the backend functions. */
    function State(): (r: Backend.State)
      reads this
    {
      Backend.State(initialized, enterCount, disableCount, violations)
    }

    /** A thread's state on first touch. */
    constructor ()
      ensures State() == Backend.Initial
    {
      initialized, enterCount, disableCount, violations := false, 0, 0, [];
    }

    method EnsureInitialized()
      modifies this
      ensures State() == Backend.EnsureInitialized(old(State()))
      ensures old(initialized) ==> State() == old(State())
    {
      initialized := true;
    }

    /** Re-enable reporting; must follow `Disable`. */
    method Enable()
      requires disableCount > 0
      modifies this
      ensures State() == Backend.Enable(old(State()))
    {
      disableCount := disableCount - 1;
    }

    /** Disable reporting; must be paired with `Enable`. */
    method Disable()
      modifies this
      ensures State() == Backend.Disable(old(State()))
    {
      disableCount := disableCount + 1;
    }

    method RealtimeEnter()
      modifies this
      ensures State() == Backend.RealtimeEnter(old(State()))
    {
      enterCount := enterCount + 1;
    }

    /** Leave the real-time context; must follow `RealtimeEnter`. */
    method RealtimeExit()
      requires enterCount > 0
      modifies this
      ensures State() == Backend.RealtimeExit(old(State()))
    {
      enterCount := enterCount - 1;
    }

    method NotifyBlockingCall(functionName: string)
      modifies this
      ensures State() == Backend.NotifyBlockingCall(old(State()), functionName)
    {
      if enterCount > 0 && disableCount == 0 {
        violations := violations + [Backend.Violation(Backend.BlockingCall, functionName)];
      }
    }

    /** Disable, run `execute` on this thread's state, enable. */
    method WithDisabled(execute: Backend.State -> Backend.State)
      requires execute(Backend.Disable(State())).disableCount > 0
      modifies this
      ensures State() == Backend.WithDisabled(old(State()), execute)
    {
      Disable();
      var after := execute(State());
      initialized, enterCount, disableCount, violations :=
        after.initialized, after.enterCount, after.disableCount, after.violations;
      Enable();
    }
  }

  // ---------------------------------------------------------------------------
  // Clients that call the entry points directly, on a thread's fresh state

  /** A blocking call from a function nobody marked real-time reports nothing. */
  method NotifyOutsideContext() returns (reported: seq<Backend.Violation>)
    ensures reported == []
  {
    var sanitizer := new RealtimeSanitizer();
    sanitizer.EnsureInitialized();
    sanitizer.NotifyBlockingCall("userBlocking");
    reported := sanitizer.violations;
  }

  /** Between an explicit enter and exit, a blocking call is reported once. */
  method NotifyWhenExplicitlyEntered() returns (reported: seq<Backend.Violation>, depth: nat)
    ensures reported == [Backend.Violation(Backend.BlockingCall, "userBlocking")]
    ensures depth == 0
  {
    var sanitizer := new RealtimeSanitizer();
    sanitizer.EnsureInitialized();
    sanitizer.RealtimeEnter();
    sanitizer.NotifyBlockingCall("userBlocking");
    sanitizer.RealtimeExit();
    reported, depth := sanitizer.violations, sanitizer.enterCount;
  }

  /** With reporting disabled around the entered region, nothing is reported,
    * and both depths are back to zero afterwards. */
  method NotifyWhenEnteredButDisabled() returns (reported: seq<Backend.Violation>, depth: nat, suppression: nat)
    ensures reported == [] && depth == 0 && suppression == 0
  {
    var sanitizer := new RealtimeSanitizer();
    sanitizer.EnsureInitialized();
    sanitizer.Disable();
    sanitizer.RealtimeEnter();
    sanitizer.NotifyBlockingCall("userBlocking");
    sanitizer.RealtimeExit();
    sanitizer.Enable();
    reported, depth, suppression := sanitizer.violations, sanitizer.enterCount, sanitizer.disableCount;
  }

  /** The state change of a real-time function whose body makes one blocking
    * call: enter, notify, exit. */
  function EnteredBlockingCall(s: Backend.State): (r: Backend.State) {
    Backend.RealtimeExit(Backend.NotifyBlockingCall(Backend.RealtimeEnter(s), "userBlocking"))
  }

  /** Inside `withDisabled`, even an entered region reports nothing; the
    * suppression depth is restored afterwards. */
  method NotifyInsideWithDisabled() returns (reported: seq<Backend.Violation>, suppression: nat)
    ensures reported == [] && suppression == 0
  {
    var sanitizer := new RealtimeSanitizer();
    sanitizer.EnsureInitialized();
    ghost var disabled := Backend.Disable(sanitizer.State());
    assert !Backend.InActiveRealtimeContext(Backend.RealtimeEnter(disabled));
    sanitizer.WithDisabled(EnteredBlockingCall);
    reported, suppression := sanitizer.violations, sanitizer.disableCount;
  }
}
