/** The gate and the dispatch look a name up in different orders: the gate asks the tenant's tools
    first, the dispatch the built-in capabilities. What that means for the calls that run. */
module Dispatch {
  import opened Text
  import opened Tags
  import opened HarnessState
  import opened SiteSpecs
  import opened LoopSpec
  import opened Transcript
  import opened CallLemmas
  import opened Runs
  import opened Scripts
  import opened Batches
  import Printer

  // ----- what the dispatch runs -----

  predicate Clears(p: Policy, risk: Risk, name: string) {
    risk == Low || (risk == Medium && name !in p.requiresApproval)
  }

  /** The built-in's own risk lets it run without approval. */
  predicate OwnRiskClears(p: Policy, name: string) {
    Clears(p, Classify(p, name), name)
  }

  predicate RunsBuiltIn(env: Env, inv: Invocation) {
    RouteOf(env, inv.iteration, inv.call.name) == BuiltInCapability
  }

  /** A tool of the tenant speaks for the built-in of the same name at the gate, and clears a
      call that the built-in's own risk would stop. */
  predicate Shadows(env: Env, k: nat, name: string) {
    && name in ActiveTools(env, k) && name in env.policy.builtIn
    && Clears(env.policy, ClassifyDynamic(ActiveTools(env, k)[name]), name)
    && !OwnRiskClears(env.policy, name)
  }

  /** With one snapshot of the tenant's tools, an executed call is never turned away by the
      dispatch. It runs the tenant's tool exactly when no built-in has the name, and a built-in
      that its own risk would stop exactly when a tool shadows it. */
  lemma DispatchAgrees(env: Env, k: nat, w: Work, c: Call)
    requires HasTenant(env) && env.policy.defaultRisk.Keys <= env.policy.builtIn && c in Executed(env, k, w)
    ensures RouteOf(env, k, c.name) in {BuiltInCapability, TenantTool}
    ensures RouteOf(env, k, c.name) == TenantTool ==>
      c.name in ActiveTools(env, k) && Clears(env.policy, ClassifyDynamic(ActiveTools(env, k)[c.name]), c.name)
    ensures RouteOf(env, k, c.name) == BuiltInCapability && !OwnRiskClears(env.policy, c.name)
      <==> Shadows(env, k, c.name)
  {
    hide Executed, Gate, Classify, ClassifyDynamic;
    ExecutedAdmissible(env, k, w, c);
  }

  lemma SafeRoute(env: Env, inv: Invocation)
    requires SafeInvocation(env, inv) && RunsBuiltIn(env, inv)
    ensures OwnRiskClears(env.policy, inv.call.name) <==> !Shadows(env, inv.iteration, inv.call.name)
  {
    hide WorkAt, Gate, Classify, ClassifyDynamic, VerdictOf;
  }

  /** Every built-in the run executes may run on its own risk. */
  ghost predicate Guarded(env: Env) {
    forall inv :: inv in Result(env).invoked && RunsBuiltIn(env, inv) ==> OwnRiskClears(env.policy, inv.call.name)
  }

  // ----- whole runs -----

  /** No run of an environment whose tools have names of their own executes a built-in that
      needs approval or is disabled. */
  lemma BuiltInsGuarded(env: Env)
    requires forall k: nat, name :: name in ActiveTools(env, k) ==> name !in env.policy.builtIn
    ensures Guarded(env)
  {
    hide Result, Classify, ActiveTools, SafeInvocation, OwnRiskClears;
    GateSafety(env);
    forall inv | inv in Result(env).invoked && RunsBuiltIn(env, inv) ensures OwnRiskClears(env.policy, inv.call.name) {
      SafeRoute(env, inv);
    }
  }

  /** A run is guarded exactly when it executes no call of a shadowed name. */
  lemma GuardedExactly(env: Env)
    ensures Guarded(env)
      <==> forall inv :: inv in Result(env).invoked && HasTenant(env) ==> !Shadows(env, inv.iteration, inv.call.name)
  {
    hide Result, Classify, ActiveTools, SafeInvocation, OwnRiskClears, ClassifyDynamic;
    GateSafety(env);
    forall inv | inv in Result(env).invoked && RunsBuiltIn(env, inv)
      ensures OwnRiskClears(env.policy, inv.call.name) <==> !Shadows(env, inv.iteration, inv.call.name)
    {
      SafeRoute(env, inv);
    }
  }

  // ----- every reply of the model -----

  function PlainCall(name: string): Call { Call(name, None, "", false, false) }

  /** A name that can be written into a tag. */
  predicate Writable(name: string) { name != "" && Printer.AttrValue(name) }

  /** A model that asks for the call and nothing else, every time. */
  function Asking(env: Env, name: string): Env
    requires Writable(name)
  {
    Scripted(env, [CallEvent(PlainCall(name))])
  }

  lemma AskScriptable(name: string)
    requires Writable(name)
    ensures Scriptable([CallEvent(PlainCall(name))])
  {
  }

  lemma KeptOne(caps: Caps, c: Call)
    requires caps.maxActionsPerIteration >= 1
    ensures KeptAfterTrim(caps, [c]) == [c]
  {
  }

  lemma AskedWork(env: Env, name: string, k: nat)
    requires Writable(name) && env.caps.maxActionsPerIteration >= 1
    ensures var w, c := WorkAt(Asking(env, name), k), PlainCall(name);
      w.kept == [c] && w.batch == Batch([c], [], [], [], [], [], [], false)
  {
    hide BatchOf, Script, KeptAfterTrim, Scriptable, WorkAt, Writable;
    var e := CallEvent(PlainCall(name));
    AskScriptable(name);
    ScriptWork(env, [e], k);
    BatchOne(e);
    KeptOne(env.caps, PlainCall(name));
  }

  /** A shadowed name that the model asks for is executed as the built-in. */
  lemma ShadowRuns(env: Env, name: string)
    requires HasTenant(env) && Writable(name) && Shadows(env, 0, name)
    requires env.caps.maxIterations >= 1 && env.caps.maxActionsPerIteration >= 1 && env.caps.maxTotalActions >= 1
    requires env.world.iterationMs(0) <= env.caps.maxIterationWallclockMs
    ensures var env', inv := Asking(env, name), Invocation(0, PlainCall(name));
      inv in Result(env').invoked && RunsBuiltIn(env', inv) && !OwnRiskClears(env'.policy, name)
    ensures !Blocked(Asking(env, name), 0, WorkAt(Asking(env, name), 0))
  {
    hide Result, WorkAt, EndsRun, Executed, Blocked, Asking, Classify, ClassifyDynamic, VerdictOf, InvokedUpTo,
      ActingIterations;
    var env', c := Asking(env, name), PlainCall(name);
    AskingKeeps(env, name);
    AskedWork(env, name, 0);
    ShadowClears(env', name);
    OneCleared(env', 0, WorkAt(env', 0), c);
    EveryRunEnds(env');
    var k, e :| EndsRun(env', k, e);
    EndActing(env', k, e);
    if k == 0 { FirstActs(env', e); }
    InvokedFrom(env', ActingIterations(env', Result(env')));
    assert Invocations(0, [c])[0] == Invocation(0, c);
  }

  lemma AskingKeeps(env: Env, name: string)
    requires Writable(name)
    ensures var env' := Asking(env, name);
      && env'.caps == env.caps && env'.policy == env.policy && HasTenant(env') == HasTenant(env)
      && env'.world.iterationMs == env.world.iterationMs && env'.world.reply(0).Replied?
      && forall n, k :: Shadows(env', k, n) == Shadows(env, k, n)
  {
  }

  lemma ShadowClears(env: Env, name: string)
    requires Shadows(env, 0, name)
    ensures VerdictOf(env, 0, PlainCall(name)).Clear?
  {
    hide ClassifyDynamic, Classify;
  }

  /** With one call asked for, in time and within the caps, the first iteration goes through its sites. */
  lemma FirstActs(env: Env, e: Ending)
    requires EndsRun(env, 0, e)
    requires env.world.reply(0).Replied? && env.world.iterationMs(0) <= env.caps.maxIterationWallclockMs
    requires !WorkAt(env, 0).batch.hasFinal && |WorkAt(env, 0).batch.calls| <= env.caps.maxTotalActions
    ensures ActedOn(e)
  {
    hide Result, WorkAt, EndsAs, EndFits, DigestText, CompactedMessages, DecisionOf, QuestionAt;
    assert After(env, 0).turn.digest == None;
    assert AskedUpTo(env, 1) == AskedUpTo(env, 0) + |WorkAt(env, 0).batch.calls|;
  }

  lemma {:induction false} InvokedFrom(env: Env, n: nat)
    requires n >= 1
    ensures Invocations(0, Executed(env, 0, WorkAt(env, 0))) <= InvokedUpTo(env, n)
  {
    hide Executed, WorkAt, Invocations;
    if n == 1 {
      assert InvokedUpTo(env, 0) == [];
    } else {
      InvokedFrom(env, n - 1);
    }
  }

  /** The exact condition on what the tenant registered: whatever the model replies, every built-in
      that runs may run on its own risk, if and only if no tool shadows a built-in. It is stated for
      a turn that can act at all, and for tools that stay the same during the turn. */
  lemma GuardedAlways(env: Env)
    requires HasTenant(env) && (forall k: nat :: ActiveTools(env, k) == ActiveTools(env, 0))
    requires forall name :: name in env.policy.builtIn ==> Writable(name)
    requires env.caps.maxIterations >= 1 && env.caps.maxActionsPerIteration >= 1 && env.caps.maxTotalActions >= 1
    requires env.world.iterationMs(0) <= env.caps.maxIterationWallclockMs
    ensures (forall reply: nat -> Reply :: Guarded(WithReplies(env, reply)))
      <==> forall name :: !Shadows(env, 0, name)
  {
    hide Result, Guarded, OwnRiskClears, Clears, ClassifyDynamic;
    if forall name :: !Shadows(env, 0, name) {
      forall reply: nat -> Reply ensures Guarded(WithReplies(env, reply)) {
        var env' := WithReplies(env, reply);
        forall k: nat, name ensures !Shadows(env', k, name) {
          assert ActiveTools(env', k) == ActiveTools(env, k) == ActiveTools(env, 0);
          assert !Shadows(env, 0, name);
        }
        GuardedExactly(env');
      }
    } else {
      var name :| Shadows(env, 0, name);
      ShadowRuns(env, name);
      ShadowBreaks(Asking(env, name), Invocation(0, PlainCall(name)));
      assert Asking(env, name) == WithReplies(env, Asking(env, name).world.reply);
    }
  }

  lemma ShadowBreaks(env: Env, inv: Invocation)
    requires inv in Result(env).invoked && RunsBuiltIn(env, inv) && !OwnRiskClears(env.policy, inv.call.name)
    ensures !Guarded(env)
  {
    hide Result, OwnRiskClears, RunsBuiltIn;
  }

  // ----- the refund -----

  const REFUND := "payment.razorpay.refund"

  /** A tenant that registered a GET endpoint under the name of the refund capability. */
  function RefundEnv(): Env {
    Env(Caps(1, 100, 100, 100, 6, 32, 2, 20), Some("t"), "hi", [],
      Policy({REFUND}, map[REFUND := High], map[], {}, false, {}, None), {},
      StillWorld().(tools := (n: nat) => map[REFUND := DynamicTool(None, false, Get)], apiLocked := (n: nat) => true))
  }

  /** The refund is rated high, and yet it runs without approval. */
  lemma RefundRuns()
    ensures Writable(REFUND)
    ensures var env, inv := Asking(RefundEnv(), REFUND), Invocation(0, PlainCall(REFUND));
      && Classify(env.policy, REFUND) == High
      && inv in Result(env).invoked && RunsBuiltIn(env, inv)
      && !Blocked(env, 0, WorkAt(env, 0))
  {
    hide Result, WorkAt, Blocked, Asking;
    var env := RefundEnv();
    AskingKeeps(env, REFUND);
    assert Classify(env.policy, REFUND) == High;
    assert Shadows(env, 0, REFUND);
    ShadowRuns(env, REFUND);
  }
}
