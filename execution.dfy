/**
  * What an expanded body does to the sanitizer's state when it runs, so that
  * the macros' output can be related to the runtime. `#if` blocks are resolved
  * against the set of compilation conditions the build defines; a `defer`
  * block runs when control leaves the enclosing function body, whichever way
  * it leaves; `#function` names the enclosing function.
  */
module Execution {
  import opened Syntax
  import Backend

  /** How a statement list finished: by falling off its end, by `return`, by a
    * thrown error, or by breaking the backend's contract (an exit without an
    * enter, an enable without a disable), which ends the process. */
  datatype Outcome = Normal | Returned | Threw | ContractBroken

  datatype Run = Run(state: Backend.State, outcome: Outcome)

  function StmtSize(st: Stmt): (r: nat) {
    match st
    case IfConfig(_, body) => 1 + BlockSize(body)
    case WithDisabled(body) => 1 + BlockSize(body)
    case Defer(body) => 1 + BlockSize(body)
    case Call(_, body) => 1 + BlockSize(body)
    case _ => 1
  }

  function BlockSize(ss: seq<Stmt>): (r: nat) {
    if ss == [] then 0 else StmtSize(ss[0]) + BlockSize(ss[1..])
  }

  lemma {:induction false} BlockSizeAppend(a: seq<Stmt>, b: seq<Stmt>)
    ensures BlockSize(a + b) == BlockSize(a) + BlockSize(b)
  {
    if a == [] {
      assert a + b == b;
    } else {
      assert (a + b)[0] == a[0];
      assert (a + b)[1..] == a[1..] + b;
      BlockSizeAppend(a[1..], b);
    }
  }

  /** The name `notifyBlockingCall` receives. */
  function ReportedName(token: FunctionNameToken, enclosing: string): (r: string) {
    match token
    case HashFunction => enclosing
    case NameLiteral(name) => name
  }

  /** Run `ss`, the body of function `enclosing` (or a part of it), from state
    * `s`, in a build that defines the conditions in `defined`. */
  function Exec(defined: set<string>, enclosing: string, ss: seq<Stmt>, s: Backend.State): (r: Run)
    decreases BlockSize(ss)
  {
    if ss == [] then Run(s, Normal)
    else
      var rest := ss[1..];
      assert BlockSize(ss) == StmtSize(ss[0]) + BlockSize(rest);
      match ss[0]
      case IfConfig(condition, body) =>
        // compile time: the block's statements replace it, or it vanishes
        var chosen := if condition in defined then body else [];
        BlockSizeAppend(chosen, rest);
        Exec(defined, enclosing, chosen + rest, s)
      case Enter => Exec(defined, enclosing, rest, Backend.RealtimeEnter(s))
      case Exit =>
        if s.enterCount == 0 then Run(s, ContractBroken)
        else Exec(defined, enclosing, rest, Backend.RealtimeExit(s))
      case Disable => Exec(defined, enclosing, rest, Backend.Disable(s))
      case Enable =>
        if s.disableCount == 0 then Run(s, ContractBroken)
        else Exec(defined, enclosing, rest, Backend.Enable(s))
      case NotifyBlocking(token) =>
        Exec(defined, enclosing, rest, Backend.NotifyBlockingCall(s, ReportedName(token, enclosing)))
      case InterceptedCall(symbol) => Exec(defined, enclosing, rest, Backend.InterceptedCall(s, symbol))
      case Opaque(_) => Exec(defined, enclosing, rest, s)
      case Return => Run(s, Returned)
      case Throw => Run(s, Threw)
      case Defer(body) =>
        // the rest of the body first, then the deferred block, on every way out
        var after := Exec(defined, enclosing, rest, s);
        if after.outcome == ContractBroken then after
        else
          var deferred := Exec(defined, enclosing, body, after.state);
          if deferred.outcome == ContractBroken then deferred else Run(deferred.state, after.outcome)
      case WithDisabled(body) =>
        // disable(); execute(); enable(). The closure cannot throw (its type is
        // `() -> Void`), so an error raised in it is handled inside it and,
        // like a `return`, only ends the closure.
        var inner := Exec(defined, enclosing, body, Backend.Disable(s));
        if inner.outcome == ContractBroken then inner
        else if inner.state.disableCount == 0 then Run(inner.state, ContractBroken)
        else Exec(defined, enclosing, rest, Backend.Enable(inner.state))
      case Call(callee, body) =>
        var called := Exec(defined, callee, body, s);
        if called.outcome == Threw || called.outcome == ContractBroken then called
        else Exec(defined, enclosing, rest, called.state)
  }

  /** `st` is not, and does not contain, the statement `target`. */
  predicate StmtAvoids(st: Stmt, target: Stmt) {
    st != target &&
    match st
    case IfConfig(_, body) => Avoids(body, target)
    case WithDisabled(body) => Avoids(body, target)
    case Defer(body) => Avoids(body, target)
    case Call(_, body) => Avoids(body, target)
    case _ => true
  }

  predicate Avoids(ss: seq<Stmt>, target: Stmt) {
    forall i :: 0 <= i < |ss| ==> StmtAvoids(ss[i], target)
  }

  lemma AvoidsParts(ss: seq<Stmt>, target: Stmt)
    requires ss != [] && Avoids(ss, target)
    ensures StmtAvoids(ss[0], target) && Avoids(ss[1..], target)
  {
    forall i | 0 <= i < |ss[1..]| ensures StmtAvoids(ss[1..][i], target) {
      assert ss[1..][i] == ss[i + 1];
    }
  }

  lemma AvoidsAppend(a: seq<Stmt>, b: seq<Stmt>, target: Stmt)
    requires Avoids(a, target) && Avoids(b, target)
    ensures Avoids(a + b, target)
  {
    forall i | 0 <= i < |a + b| ensures StmtAvoids((a + b)[i], target) {
      if i < |a| { assert (a + b)[i] == a[i]; } else { assert (a + b)[i] == b[i - |a|]; }
    }
  }

  /** Once reporting is disabled, code that never calls `enable` directly
    * reports nothing, and the suppression depth never drops below where it
    * started (a `withDisabled` inside it only adds a balanced level). */
  lemma {:induction false} SuppressedStaysSilent(defined: set<string>, enclosing: string, ss: seq<Stmt>, s: Backend.State)
    requires s.disableCount > 0
    requires Avoids(ss, Enable)
    ensures Exec(defined, enclosing, ss, s).state.violations == s.violations
    ensures Exec(defined, enclosing, ss, s).state.disableCount >= s.disableCount
    decreases BlockSize(ss)
  {
    if ss != [] {
      var rest := ss[1..];
      assert BlockSize(ss) == StmtSize(ss[0]) + BlockSize(rest);
      AvoidsParts(ss, Enable);
      match ss[0]
      case IfConfig(condition, body) =>
        var chosen := if condition in defined then body else [];
        BlockSizeAppend(chosen, rest);
        AvoidsAppend(chosen, rest, Enable);
        SuppressedStaysSilent(defined, enclosing, chosen + rest, s);
      case Enter =>
        SuppressedStaysSilent(defined, enclosing, rest, Backend.RealtimeEnter(s));
      case Exit =>
        if s.enterCount > 0 {
          SuppressedStaysSilent(defined, enclosing, rest, Backend.RealtimeExit(s));
        }
      case Disable =>
        SuppressedStaysSilent(defined, enclosing, rest, Backend.Disable(s));
      case Enable =>
        assert false;
      case NotifyBlocking(token) =>
        SuppressedStaysSilent(defined, enclosing, rest, Backend.NotifyBlockingCall(s, ReportedName(token, enclosing)));
      case InterceptedCall(symbol) =>
        SuppressedStaysSilent(defined, enclosing, rest, Backend.InterceptedCall(s, symbol));
      case Opaque(_) =>
        SuppressedStaysSilent(defined, enclosing, rest, s);
      case Return =>
      case Throw =>
      case Defer(body) =>
        SuppressedStaysSilent(defined, enclosing, rest, s);
        var after := Exec(defined, enclosing, rest, s);
        if after.outcome != ContractBroken {
          SuppressedStaysSilent(defined, enclosing, body, after.state);
        }
      case WithDisabled(body) =>
        SuppressedStaysSilent(defined, enclosing, body, Backend.Disable(s));
        var inner := Exec(defined, enclosing, body, Backend.Disable(s));
        if inner.outcome != ContractBroken && inner.state.disableCount > 0 {
          SuppressedStaysSilent(defined, enclosing, rest, Backend.Enable(inner.state));
        }
      case Call(callee, body) =>
        SuppressedStaysSilent(defined, callee, body, s);
        var called := Exec(defined, callee, body, s);
        if called.outcome != Threw && called.outcome != ContractBroken {
          SuppressedStaysSilent(defined, enclosing, rest, called.state);
        }
    }
  }

  /** Outside any real-time context, code that never calls `realtimeEnter`
    * directly reports nothing and stays outside. */
  lemma {:induction false} OutsideContextStaysSilent(defined: set<string>, enclosing: string, ss: seq<Stmt>, s: Backend.State)
    requires s.enterCount == 0
    requires Avoids(ss, Enter)
    ensures Exec(defined, enclosing, ss, s).state.violations == s.violations
    ensures Exec(defined, enclosing, ss, s).state.enterCount == 0
    decreases BlockSize(ss)
  {
    if ss != [] {
      var rest := ss[1..];
      assert BlockSize(ss) == StmtSize(ss[0]) + BlockSize(rest);
      AvoidsParts(ss, Enter);
      match ss[0]
      case IfConfig(condition, body) =>
        var chosen := if condition in defined then body else [];
        BlockSizeAppend(chosen, rest);
        AvoidsAppend(chosen, rest, Enter);
        OutsideContextStaysSilent(defined, enclosing, chosen + rest, s);
      case Enter =>
        assert false;
      case Exit =>
      case Disable =>
        OutsideContextStaysSilent(defined, enclosing, rest, Backend.Disable(s));
      case Enable =>
        if s.disableCount > 0 {
          OutsideContextStaysSilent(defined, enclosing, rest, Backend.Enable(s));
        }
      case NotifyBlocking(token) =>
        OutsideContextStaysSilent(defined, enclosing, rest, Backend.NotifyBlockingCall(s, ReportedName(token, enclosing)));
      case InterceptedCall(symbol) =>
        OutsideContextStaysSilent(defined, enclosing, rest, Backend.InterceptedCall(s, symbol));
      case Opaque(_) =>
        OutsideContextStaysSilent(defined, enclosing, rest, s);
      case Return =>
      case Throw =>
      case Defer(body) =>
        OutsideContextStaysSilent(defined, enclosing, rest, s);
        var after := Exec(defined, enclosing, rest, s);
        if after.outcome != ContractBroken {
          OutsideContextStaysSilent(defined, enclosing, body, after.state);
        }
      case WithDisabled(body) =>
        OutsideContextStaysSilent(defined, enclosing, body, Backend.Disable(s));
        var inner := Exec(defined, enclosing, body, Backend.Disable(s));
        if inner.outcome != ContractBroken && inner.state.disableCount > 0 {
          OutsideContextStaysSilent(defined, enclosing, rest, Backend.Enable(inner.state));
        }
      case Call(callee, body) =>
        OutsideContextStaysSilent(defined, callee, body, s);
        var called := Exec(defined, callee, body, s);
        if called.outcome != Threw && called.outcome != ContractBroken {
          OutsideContextStaysSilent(defined, enclosing, rest, called.state);
        }
    }
  }

  /** `#if cond { realtimeEnter(); defer { realtimeExit() } }`: the statements
    * the `NonBlocking` macro puts in front of a body. */
  const EnterExitPair: seq<Stmt> := [Enter, Defer([Exit])]

  /** Code whose counter calls are all balanced: no bare enter, exit, enable or
    * disable, anywhere in it or in the functions it calls, except for the
    * guarded enter/exit pair a `NonBlocking` expansion starts with; every
    * `withDisabled` pairs its own disable with an enable. */
  predicate StmtBalanced(st: Stmt) {
    match st
    case Enter => false
    case Exit => false
    case Enable => false
    case Disable => false
    case IfConfig(_, body) => body == EnterExitPair || Balanced(body)
    case WithDisabled(body) => Balanced(body)
    case Defer(body) => Balanced(body)
    case Call(_, body) => Balanced(body)
    case _ => true
  }

  predicate Balanced(ss: seq<Stmt>) {
    forall i :: 0 <= i < |ss| ==> StmtBalanced(ss[i])
  }

  lemma BalancedParts(ss: seq<Stmt>)
    requires ss != [] && Balanced(ss)
    ensures StmtBalanced(ss[0]) && Balanced(ss[1..])
  {
    forall i | 0 <= i < |ss[1..]| ensures StmtBalanced(ss[1..][i]) {
      assert ss[1..][i] == ss[i + 1];
    }
  }

  lemma BalancedAppend(a: seq<Stmt>, b: seq<Stmt>)
    requires Balanced(a) && Balanced(b)
    ensures Balanced(a + b)
  {
    forall i | 0 <= i < |a + b| ensures StmtBalanced((a + b)[i]) {
      if i < |a| { assert (a + b)[i] == a[i]; } else { assert (a + b)[i] == b[i - |a|]; }
    }
  }

  /** Balanced code never breaks the backend's contract and leaves both depths
    * as it found them, on every way out: this covers guarded enter/exit pairs,
    * `withDisabled` blocks and calls of functions whose own bodies are
    * balanced, so real-time functions calling real-time functions. */
  lemma {:induction false} BalancedKeepsDepths(defined: set<string>, enclosing: string, ss: seq<Stmt>, s: Backend.State)
    requires Balanced(ss)
    ensures Exec(defined, enclosing, ss, s).outcome != ContractBroken
    ensures Exec(defined, enclosing, ss, s).state.enterCount == s.enterCount
    ensures Exec(defined, enclosing, ss, s).state.disableCount == s.disableCount
    decreases BlockSize(ss)
  {
    if ss != [] {
      var rest := ss[1..];
      assert BlockSize(ss) == StmtSize(ss[0]) + BlockSize(rest);
      BalancedParts(ss);
      match ss[0]
      case IfConfig(condition, body) =>
        if condition in defined && body == EnterExitPair {
          // enter, then the rest one level deeper, then the deferred exit
          var spliced := EnterExitPair + rest;
          assert spliced[0] == Enter && spliced[1..] == [Defer([Exit])] + rest;
          var afterEnter := [Defer([Exit])] + rest;
          assert afterEnter[0] == Defer([Exit]) && afterEnter[1..] == rest;
          BalancedKeepsDepths(defined, enclosing, rest, Backend.RealtimeEnter(s));
          var after := Exec(defined, enclosing, rest, Backend.RealtimeEnter(s));
          assert [Exit][1..] == [];
          assert Exec(defined, enclosing, [Exit], after.state) == Run(Backend.RealtimeExit(after.state), Normal);
          assert Exec(defined, enclosing, afterEnter, Backend.RealtimeEnter(s)) == Run(Backend.RealtimeExit(after.state), after.outcome);
          assert Exec(defined, enclosing, ss, s) == Exec(defined, enclosing, spliced, s);
          assert Exec(defined, enclosing, spliced, s) == Exec(defined, enclosing, afterEnter, Backend.RealtimeEnter(s));
        } else {
          var chosen := if condition in defined then body else [];
          BlockSizeAppend(chosen, rest);
          BalancedAppend(chosen, rest);
          BalancedKeepsDepths(defined, enclosing, chosen + rest, s);
        }
      case Enter =>
        assert false;
      case Exit =>
        assert false;
      case Disable =>
        assert false;
      case Enable =>
        assert false;
      case NotifyBlocking(token) =>
        BalancedKeepsDepths(defined, enclosing, rest, Backend.NotifyBlockingCall(s, ReportedName(token, enclosing)));
      case InterceptedCall(symbol) =>
        BalancedKeepsDepths(defined, enclosing, rest, Backend.InterceptedCall(s, symbol));
      case Opaque(_) =>
        BalancedKeepsDepths(defined, enclosing, rest, s);
      case Return =>
      case Throw =>
      case Defer(body) =>
        BalancedKeepsDepths(defined, enclosing, rest, s);
        BalancedKeepsDepths(defined, enclosing, body, Exec(defined, enclosing, rest, s).state);
      case WithDisabled(body) =>
        BalancedKeepsDepths(defined, enclosing, body, Backend.Disable(s));
        var inner := Exec(defined, enclosing, body, Backend.Disable(s));
        BalancedKeepsDepths(defined, enclosing, rest, Backend.Enable(inner.state));
      case Call(callee, body) =>
        BalancedKeepsDepths(defined, callee, body, s);
        var called := Exec(defined, callee, body, s);
        if called.outcome != Threw {
          BalancedKeepsDepths(defined, enclosing, rest, called.state);
        }
    }
  }
}
