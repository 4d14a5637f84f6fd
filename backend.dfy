/**
  * The per-thread state of the real-time sanitizer backend that the Swift
  * `RealtimeSanitizer` functions forward to, as values and state transformers.
  * The backend itself is foreign code: these functions are its contract as the
  * doc comments and the behaviour tests state it, not Swift-side logic.
  */
module Backend {

  /** Who reported a violation: an intercepted library call, or a call of
    * `notifyBlockingCall` (a function the user declared blocking). */
  datatype ViolationKind = UnsafeLibraryCall | BlockingCall

  /** One reported violation and the name of the offending function. */
  datatype Violation = Violation(kind: ViolationKind, functionName: string)

  /** One thread's view of the backend: whether the process-wide
    * initialisation has run, the real-time context depth, the suppression
    * depth, and the violations reported so far. */
  datatype State = State(initialized: bool, enterCount: nat, disableCount: nat, violations: seq<Violation>)

  /** The state of a thread that has not touched the sanitizer yet. */
  const Initial := State(false, 0, 0, [])

  /** The question every detection point asks: inside a real-time context, and
    * reporting not disabled? */
  predicate InActiveRealtimeContext(s: State) {
    s.enterCount > 0 && s.disableCount == 0
  }

  function EnsureInitialized(s: State): (r: State) {
    s.(initialized := true)
  }

  function RealtimeEnter(s: State): (r: State) {
    s.(enterCount := s.enterCount + 1)
  }

  /** Must follow a `RealtimeEnter`. */
  function RealtimeExit(s: State): (r: State)
    requires s.enterCount > 0
  {
    s.(enterCount := s.enterCount - 1)
  }

  function Disable(s: State): (r: State) {
    s.(disableCount := s.disableCount + 1)
  }

  /** Must follow a `Disable`. */
  function Enable(s: State): (r: State)
    requires s.disableCount > 0
  {
    s.(disableCount := s.disableCount - 1)
  }

  /** Report a violation of the given kind if the thread is in an active
    * real-time context; otherwise nothing happens. */
  function Report(s: State, kind: ViolationKind, name: string): (r: State)
    ensures r.violations == s.violations + (if InActiveRealtimeContext(s) then [Violation(kind, name)] else [])
    ensures r.(violations := s.violations) == s
  {
    if InActiveRealtimeContext(s) then s.(violations := s.violations + [Violation(kind, name)]) else s
  }

  /** `notifyBlockingCall(functionName:)`: the user-declared blocking call. */
  function NotifyBlockingCall(s: State, functionName: string): (r: State) {
    Report(s, BlockingCall, functionName)
  }

  /** What the backend does when an intercepted library function (`malloc`,
    * `pthread_mutex_lock`, ...) is called: the same check, another kind; the
    * call itself then goes ahead. */
  function InterceptedCall(s: State, symbol: string): (r: State) {
    Report(s, UnsafeLibraryCall, symbol)
  }

  /** `withDisabled(execute)`: disable, run the closure (a state transformer
    * here), enable. The closure must not enable more often than it disables. */
  function WithDisabled(s: State, execute: State -> State): (r: State)
    requires execute(Disable(s)).disableCount > 0
  {
    Enable(execute(Disable(s)))
  }

  // ---------------------------------------------------------------------------
  // Properties of the backend contract

  /** Initialisation is idempotent, and it changes nothing but the flag. */
  lemma EnsureInitializedIdempotent(s: State)
    ensures EnsureInitialized(EnsureInitialized(s)) == EnsureInitialized(s)
    ensures s.initialized ==> EnsureInitialized(s) == s
    ensures EnsureInitialized(s).(initialized := s.initialized) == s
  {
  }

  /** Enter and exit change only the context depth, enable and disable only the
    * suppression depth; none of them reports anything, and each pair undoes
    * itself. */
  lemma CounterOperationsTouchOneCounter(s: State)
    ensures RealtimeEnter(s).enterCount == s.enterCount + 1 && RealtimeEnter(s).(enterCount := s.enterCount) == s
    ensures s.enterCount > 0 ==> RealtimeExit(s).enterCount == s.enterCount - 1 && RealtimeExit(s).(enterCount := s.enterCount) == s
    ensures Disable(s).disableCount == s.disableCount + 1 && Disable(s).(disableCount := s.disableCount) == s
    ensures s.disableCount > 0 ==> Enable(s).disableCount == s.disableCount - 1 && Enable(s).(disableCount := s.disableCount) == s
    ensures RealtimeExit(RealtimeEnter(s)) == s
    ensures Enable(Disable(s)) == s
  {
  }

  /** `notifyBlockingCall` records exactly one violation, naming the function,
    * if and only if the thread is in an entered, non-disabled context, and
    * changes nothing else. */
  lemma NotifyRecordsExactlyWhenActive(s: State, functionName: string)
    ensures |NotifyBlockingCall(s, functionName).violations| == |s.violations| + 1 <==> InActiveRealtimeContext(s)
    ensures |NotifyBlockingCall(s, functionName).violations| == |s.violations| <==> !InActiveRealtimeContext(s)
    ensures InActiveRealtimeContext(s) ==>
      NotifyBlockingCall(s, functionName).violations[|s.violations|] == Violation(BlockingCall, functionName)
    ensures NotifyBlockingCall(s, functionName).violations[..|s.violations|] == s.violations
    ensures NotifyBlockingCall(s, functionName).(violations := s.violations) == s
  {
  }

  /** Suppression nests: after two disables, one enable still suppresses
    * reporting; the second lifts it. */
  lemma NestedDisableNeedsMatchingEnables(s: State)
    requires s.disableCount == 0
    ensures !InActiveRealtimeContext(Enable(Disable(Disable(s))))
    ensures InActiveRealtimeContext(Enable(Enable(Disable(Disable(s))))) <==> s.enterCount > 0
  {
  }

  /** Within `withDisabled`, anything executed sees reporting disabled; when the
    * closure itself keeps the suppression depth, the depth after `withDisabled`
    * is the depth before, and so is the context depth if the closure keeps it. */
  lemma WithDisabledRestoresDepths(s: State, execute: State -> State)
    requires execute(Disable(s)).disableCount == Disable(s).disableCount
    ensures !InActiveRealtimeContext(Disable(s))
    ensures WithDisabled(s, execute).disableCount == s.disableCount
    ensures execute(Disable(s)).enterCount == s.enterCount ==> WithDisabled(s, execute).enterCount == s.enterCount
    ensures WithDisabled(s, execute).violations == execute(Disable(s)).violations
  {
  }

  /** `withDisabled` around a closure that only notifies blocking calls reports
    * nothing and leaves the state as it was. */
  lemma WithDisabledSuppressesNotify(s: State, functionName: string)
    ensures WithDisabled(s, t => NotifyBlockingCall(t, functionName)) == s
  {
  }
}
