/**
  * What the macros' output means at run time: the expanded body of a
  * `NonBlocking` function runs the original statements between an enter and
  * an exit, the exit happening on every way out; the expanded body of a
  * `Blocking` function notifies the backend first; and in a build that does
  * not define the compilation condition both behave exactly as the original.
  */
module Instrumentation {
  import opened Wrappers
  import opened Syntax
  import opened Macros
  import Backend
  import opened Execution

  /** Running a `NonBlocking` expansion: with its condition defined, the original
    * body runs one context level deeper and the level is left afterwards,
    * whether the body falls off its end, returns or throws; without it, the
    * expansion runs exactly as the original body. */
  lemma {:induction false} NonBlockingExpansionMeaning(attribute: AttributeArguments, decl: Decl, defined: set<string>, s: Backend.State)
    requires NonBlockingExpansion(attribute, decl).Success?
    ensures var expanded := NonBlockingExpansion(attribute, decl).value;
            var body := decl.body.value;
            var inner := Exec(defined, decl.name, body, Backend.RealtimeEnter(s));
      && (ExtractCompilationCondition(attribute).value in defined ==>
            Exec(defined, decl.name, expanded, s) ==
              if inner.outcome == ContractBroken then inner
              else if inner.state.enterCount == 0 then Run(inner.state, ContractBroken)
              else Run(Backend.RealtimeExit(inner.state), inner.outcome))
      && (ExtractCompilationCondition(attribute).value !in defined ==>
            Exec(defined, decl.name, expanded, s) == Exec(defined, decl.name, body, s))
  {
    var condition := ExtractCompilationCondition(attribute).value;
    var expanded := NonBlockingExpansion(attribute, decl).value;
    var body := decl.body.value;
    var fn := decl.name;
    assert expanded[0] == IfConfig(condition, [Enter, Defer([Exit])]);
    assert expanded[1..] == body;
    if condition in defined {
      var afterIf := [Enter, Defer([Exit])] + body;
      assert Exec(defined, fn, expanded, s) == Exec(defined, fn, afterIf, s);
      assert afterIf[0] == Enter && afterIf[1..] == [Defer([Exit])] + body;
      var afterEnter := [Defer([Exit])] + body;
      assert afterEnter[0] == Defer([Exit]) && afterEnter[1..] == body;
      assert Exec(defined, fn, expanded, s) == Exec(defined, fn, afterEnter, Backend.RealtimeEnter(s));
    } else {
      assert [] + body == body;
    }
  }

  /** Running a `Blocking` expansion: with its condition defined, the backend is
    * told of a blocking call named after the function itself before the
    * original body runs; without it, the expansion runs exactly as the
    * original body. */
  lemma {:induction false} BlockingExpansionMeaning(attribute: AttributeArguments, decl: Decl, defined: set<string>, s: Backend.State)
    requires BlockingExpansion(attribute, decl).Success?
    ensures var expanded := BlockingExpansion(attribute, decl).value;
            var body := decl.body.value;
      && (ExtractCompilationCondition(attribute).value in defined ==>
            Exec(defined, decl.name, expanded, s) ==
              Exec(defined, decl.name, body, Backend.NotifyBlockingCall(s, decl.name)))
      && (ExtractCompilationCondition(attribute).value !in defined ==>
            Exec(defined, decl.name, expanded, s) == Exec(defined, decl.name, body, s))
  {
    var condition := ExtractCompilationCondition(attribute).value;
    var expanded := BlockingExpansion(attribute, decl).value;
    var body := decl.body.value;
    var fn := decl.name;
    assert expanded[0] == IfConfig(condition, [NotifyBlocking(HashFunction)]);
    assert expanded[1..] == body;
    if condition in defined {
      var afterIf := [NotifyBlocking(HashFunction)] + body;
      assert Exec(defined, fn, expanded, s) == Exec(defined, fn, afterIf, s);
      assert afterIf[0] == NotifyBlocking(HashFunction) && afterIf[1..] == body;
    } else {
      assert [] + body == body;
    }
  }

  /** Both macros turn a balanced body into a balanced body, so expanded
    * functions can call each other, to any depth, and stay balanced. */
  lemma {:induction false} ExpansionsKeepBalance(attribute: AttributeArguments, decl: Decl)
    requires IsFunctionWithBody(decl) && Balanced(decl.body.value)
    ensures NonBlockingExpansion(attribute, decl).Success? ==> Balanced(NonBlockingExpansion(attribute, decl).value)
    ensures BlockingExpansion(attribute, decl).Success? ==> Balanced(BlockingExpansion(attribute, decl).value)
  {
    if NonBlockingExpansion(attribute, decl).Success? {
      var condition := ExtractCompilationCondition(attribute).value;
      assert StmtBalanced(NonBlockingPrefix(condition));
      assert Balanced([BlockingPrefix(condition)]);
      BalancedAppend([NonBlockingPrefix(condition)], decl.body.value);
      BalancedAppend([BlockingPrefix(condition)], decl.body.value);
    }
  }

  /** For a balanced body (one that may call other expanded functions), the
    * `NonBlocking` expansion with its condition defined never breaks the
    * backend's contract, leaves both depths as they were on every way out,
    * finishes the way the body finishes, and reports exactly what the body
    * reports one level deep. */
  lemma NonBlockingExitsOnEveryPath(attribute: AttributeArguments, decl: Decl, defined: set<string>, s: Backend.State)
    requires NonBlockingExpansion(attribute, decl).Success?
    requires ExtractCompilationCondition(attribute).value in defined
    requires Balanced(decl.body.value)
    ensures var r := Exec(defined, decl.name, NonBlockingExpansion(attribute, decl).value, s);
            var inner := Exec(defined, decl.name, decl.body.value, Backend.RealtimeEnter(s));
      && r.outcome == inner.outcome
      && r.outcome != ContractBroken
      && r.state.enterCount == s.enterCount
      && r.state.disableCount == s.disableCount
      && r.state.violations == inner.state.violations
  {
    NonBlockingExpansionMeaning(attribute, decl, defined, s);
    BalancedKeepsDepths(defined, decl.name, decl.body.value, Backend.RealtimeEnter(s));
  }
}
