/** Whole-run results: how turns end, what they send, what they may invoke and what they cost. */
module Runs {
  import opened Text
  import opened Tags
  import opened HarnessState
  import opened SiteSpecs
  import opened LoopSpec
  import opened Transcript
  import opened CallLemmas
  import Parser
  import Patterns
  import RoundTrip

  // ----- every run with at least one iteration ends inside the loop -----

  ghost predicate EndsRun(env: Env, k: nat, e: Ending) {
    k < env.caps.maxIterations && EndedAt(env, k, Result(env), e)
  }

  lemma EveryRunEnds(env: Env)
    requires env.caps.maxIterations >= 1
    ensures exists k, e :: EndsRun(env, k, e)
  {
    hide EndedAt, RunsAs, Continued, Result, After;
    var n := Rounds(env);
    AfterIs(env, n);
    ResultIs(env);
    if After(env, n).Running? {
      RunsContinued(env, n, After(env, n).turn, After(env, n).actions);
      NotAgainAtCap(env, n - 1);
      assert false;
    } else {
      var k, e :| 0 <= k < n && EndedAt(env, k, After(env, n).turn, e);
      assert EndsRun(env, k, e);
    }
  }

  lemma ResultIs(env: Env)
    ensures After(env, Rounds(env)).Stopped? ==> Result(env) == After(env, Rounds(env)).turn
  {
    hide After;
  }

  lemma RunsContinued(env: Env, n: nat, s: Turn, actions: nat)
    requires RunsAs(env, n, s, actions) && n > 0
    ensures Continued(env, n - 1)
  {
    hide Continued;
  }

  lemma NotAgainAtCap(env: Env, k: nat)
    requires k + 1 >= env.caps.maxIterations
    ensures !Continued(env, k)
  {
    hide Handled, WorkAt, Surviving, Blocked, SaidUpTo, CostUpTo;
  }

  lemma NoRounds(env: Env)
    requires env.caps.maxIterations < 1
    ensures Result(env) == FRESH_TURN.(outcome := Expire, code := Some(LoopMaxIterations))
  {
  }

  // ----- outcomes and codes -----

  const FINALIZE_CODES := {ModelEmittedFinalAnswer, IterationBudgetReachedWithAnswer, CriticEscalated}
  const FAIL_CODES := {InternalError, IterationDeadlineExceeded, ModelOutputAmbiguous}
  const EXPIRE_CODES := {LoopNoProgress, LoopMaxActions, LoopMaxIterations, TaskDeadlineExceeded, BudgetExceeded}

  ghost predicate OutcomeCoded(t: Turn) {
    && t.outcome in {Finalize, Fail, Expire, SuspendPermission}
    && (t.code == None <==> t.outcome == SuspendPermission)
    && (t.outcome == Finalize ==> t.code.value in FINALIZE_CODES)
    && (t.outcome == Fail ==> t.code.value in FAIL_CODES)
    && (t.outcome == Expire ==> t.code.value in EXPIRE_CODES)
    && (t.outcome == SuspendPermission ==> t.approval.Some? && t.outbound == None)
    && (t.approval.Some? ==> t.outcome == SuspendPermission || t.code == Some(CriticEscalated))
  }

  lemma EndCoded(env: Env, k: nat, t: Turn, e: Ending)
    requires EndsAs(env, k, t, e) && EndFits(env, k, e)
    ensures OutcomeCoded(t)
  {
    hide WorkAt, Handled, OutboundOf, SaidUpTo, CostUpTo, InvokedUpTo, ModelCallsUpTo, AskedUpTo, GateOf;
    if e.ByDecision? {
      var q := QuestionAt(env, k);
      DecisionBlocked(env.caps, q);
    }
  }

  /** Every turn ends with one of four outcomes, each with its own codes; a suspended turn has
      no code and waits for an approval; an approval survives only there or in an escalation. */
  lemma OutcomeExact(env: Env)
    ensures OutcomeCoded(Result(env))
  {
    hide Result, EndFits, EndsAs, OutcomeCoded;
    if env.caps.maxIterations < 1 {
      NoRounds(env);
      NoRoundsCoded();
    } else {
      EveryRunEnds(env);
      var k, e :| EndsRun(env, k, e);
      EndCoded(env, k, Result(env), e);
    }
  }

  lemma NoRoundsCoded()
    ensures OutcomeCoded(FRESH_TURN.(outcome := Expire, code := Some(LoopMaxIterations)))
  {
  }

  /** Iteration `k` left nothing to do and something to send, without a final. */
  ghost predicate Answered(env: Env, k: nat) {
    var w := WorkAt(env, k);
    && !w.batch.hasFinal && Surviving(env, k, w) == [] && w.batch.swarms == []
    && (SaidUpTo(env, k + 1) != [] || w.batch.asks != [])
  }

  /** Every code names what really happened, a cap that was reached above all. */
  ghost predicate CapReached(env: Env, t: Turn) {
    && (t.code == Some(LoopMaxIterations) ==> env.caps.maxIterations < 1 || t.iteration + 1 == env.caps.maxIterations)
    && (t.code == Some(TaskDeadlineExceeded) ==> env.world.elapsedMs(t.iteration) >= env.caps.maxWallclockMs)
    && (t.code == Some(BudgetExceeded) ==> t.costPaise >= env.caps.maxCostPaise)
    && (t.code == Some(LoopMaxActions) ==> AskedUpTo(env, t.iteration + 1) > env.caps.maxTotalActions)
    && (t.code == Some(IterationDeadlineExceeded) ==>
        env.world.iterationMs(t.iteration) > env.caps.maxIterationWallclockMs)
    && (t.code == Some(InternalError) ==> env.world.reply(t.iteration).CallFailed?)
    && (t.code == Some(ModelOutputAmbiguous) ==> Ambiguous(WorkAt(env, t.iteration).batch))
    && (t.code == Some(ModelEmittedFinalAnswer) ==> WorkAt(env, t.iteration).batch.hasFinal)
    && (t.code == Some(IterationBudgetReachedWithAnswer) ==> Answered(env, t.iteration))
    && (t.code == Some(CriticEscalated) ==> WorkAt(env, t.iteration).batch.escalations != [])
    && (t.code == Some(LoopNoProgress) ==> t.streak >= 1 && t.streak >= env.caps.maxNoProgress)
  }

  lemma EndNames(env: Env, k: nat, t: Turn, e: Ending)
    requires EndsAs(env, k, t, e) && EndFits(env, k, e) && k < env.caps.maxIterations
    ensures CapReached(env, t)
  {
    hide WorkAt, Handled, OutboundOf, SaidUpTo, CostUpTo, InvokedUpTo, ModelCallsUpTo, AskedUpTo, GateOf, Surviving,
      Blocked, Ambiguous;
  }

  lemma CodesNameCaps(env: Env)
    ensures CapReached(env, Result(env))
  {
    hide Result, CapReached, EndsAs, EndFits;
    if env.caps.maxIterations < 1 {
      NoRounds(env);
      NoRoundsReached(env);
    } else {
      EveryRunEnds(env);
      var k, e :| EndsRun(env, k, e);
      EndNames(env, k, Result(env), e);
    }
  }

  lemma NoRoundsReached(env: Env)
    requires env.caps.maxIterations < 1
    ensures CapReached(env, FRESH_TURN.(outcome := Expire, code := Some(LoopMaxIterations)))
  {
    hide WorkAt;
  }

  // ----- what is sent -----

  lemma {:induction false} NonEmptyIs(texts: seq<string>)
    ensures forall t :: t in NonEmpty(texts) ==> t != ""
    ensures (forall t :: t in texts ==> t != "") ==> NonEmpty(texts) == texts
  {
    if texts != [] {
      var front, last := texts[..|texts| - 1], texts[|texts| - 1];
      NonEmptyIs(front);
      assert texts == front + [last];
      if forall t :: t in texts ==> t != "" {
        assert last in texts;
        forall t | t in front ensures t != "" { assert t in texts; }
      }
    }
  }

  lemma {:induction false} SaidNonEmpty(env: Env, n: nat)
    ensures forall t :: t in SaidUpTo(env, n) ==> t != ""
  {
    hide WorkAt, NonEmpty;
    if n > 0 {
      SaidNonEmpty(env, n - 1);
      NonEmptyIs(WorkAt(env, n - 1).batch.says);
    }
  }

  const SENDING_EXPIRES := {Some(LoopMaxIterations), Some(TaskDeadlineExceeded), Some(BudgetExceeded)}

  ghost predicate SentFrom(env: Env, t: Turn) {
    var message := MessageOf(SaidUpTo(env, t.iteration + 1), WorkAt(env, t.iteration).batch.asks);
    && (t.outcome == Finalize ==>
        t.outbound == if t.code == Some(CriticEscalated) then Some(TextMessage(EscalationText(env))) else message)
    && (t.outcome == Expire && env.caps.maxIterations >= 1 && t.code in SENDING_EXPIRES ==> t.outbound == message)
    && (t.outcome in {Fail, SuspendPermission} ==> t.outbound == None)
    && (t.code in {Some(LoopNoProgress), Some(LoopMaxActions)} ==> t.outbound == None)
  }

  lemma EndSent(env: Env, k: nat, t: Turn, e: Ending)
    requires EndsAs(env, k, t, e) && EndFits(env, k, e)
    ensures SentFrom(env, t)
  {
    hide WorkAt, Handled, CostUpTo, InvokedUpTo, ModelCallsUpTo, AskedUpTo, GateOf, ClipItems, ClipButtons, Take,
      Join, NonEmpty, SaidUpTo;
    var said := SaidUpTo(env, k + 1);
    SaidNonEmpty(env, k + 1);
    NonEmptyIs(said);
    if e.ByDecision? {
      DecisionBlocked(env.caps, QuestionAt(env, k));
    }
  }

  /** What a turn sends is a function of its transcript. */
  lemma SentMessage(env: Env)
    ensures SentFrom(env, Result(env))
  {
    hide Result, EndFits, EndsAs, SentFrom;
    if env.caps.maxIterations < 1 {
      NoRounds(env);
      NothingSent(env);
    } else {
      EveryRunEnds(env);
      var k, e :| EndsRun(env, k, e);
      EndSent(env, k, Result(env), e);
    }
  }

  lemma NothingSent(env: Env)
    requires env.caps.maxIterations < 1
    ensures SentFrom(env, FRESH_TURN.(outcome := Expire, code := Some(LoopMaxIterations)))
  {
  }

  /** The message keeps to the limits of the channel: at most ten items with titles of at most 24
      characters, or at most three buttons with titles of at most 20, each the beginning of what
      the last ask wanted. */
  predicate FitsChannel(m: Outbound, asks: seq<Ask>) {
    match m
    case TextMessage(_) => true
    case ListMessage(_, _, _, items) =>
      && asks != []
      && var wanted := asks[|asks| - 1].items;
      && |items| == (if |wanted| < 10 then |wanted| else 10) && items != []
      && forall i :: 0 <= i < |items| ==>
           && items[i].id == wanted[i].id && items[i].description == wanted[i].description
           && items[i].title <= wanted[i].title && |items[i].title| <= 24
           && (|items[i].title| < 24 ==> items[i].title == wanted[i].title)
    case ButtonsMessage(_, buttons) =>
      && asks != [] && asks[|asks| - 1].items == []
      && var wanted := asks[|asks| - 1].buttons;
      && |buttons| == (if |wanted| < 3 then |wanted| else 3)
      && forall i :: 0 <= i < |buttons| ==>
           && buttons[i].id == wanted[i].id
           && buttons[i].title <= wanted[i].title && |buttons[i].title| <= 20
           && (|buttons[i].title| < 20 ==> buttons[i].title == wanted[i].title)
  }

  lemma MessageFits(said: seq<string>, asks: seq<Ask>)
    ensures MessageOf(said, asks).Some? ==> FitsChannel(MessageOf(said, asks).value, asks)
  {
    hide Join;
  }

  /** Whatever the model asked for, what a run sends keeps to the limits of the channel. */
  lemma MessageLimits(env: Env)
    ensures var t := Result(env);
      t.outbound.Some? ==> FitsChannel(t.outbound.value, WorkAt(env, t.iteration).batch.asks)
  {
    hide Result, WorkAt, SaidUpTo, MessageOf, EndsAs, EndFits;
    OutcomeExact(env);
    SentMessage(env);
    var t := Result(env);
    MessageFits(SaidUpTo(env, t.iteration + 1), WorkAt(env, t.iteration).batch.asks);
    if env.caps.maxIterations < 1 { NoRounds(env); }
  }

  // ----- what is invoked -----

  /** The work on which an invocation was made. */
  ghost predicate SafeInvocation(env: Env, inv: Invocation) {
    Admissible(env, inv.iteration, WorkAt(env, inv.iteration), inv.call)
  }

  lemma {:induction false} InvokedSafe(env: Env, n: nat)
    ensures forall i :: 0 <= i < |InvokedUpTo(env, n)| ==>
      InvokedUpTo(env, n)[i].iteration < n && SafeInvocation(env, InvokedUpTo(env, n)[i])
  {
    hide WorkAt, Executed, Admissible;
    if n > 0 {
      InvokedSafe(env, n - 1);
      var w := WorkAt(env, n - 1);
      var run := Executed(env, n - 1, w);
      forall i | 0 <= i < |run| ensures Admissible(env, n - 1, w, run[i]) {
        ExecutedAdmissible(env, n - 1, w, run[i]);
      }
    }
  }

  /** The codes of a turn that stopped before the sites of its last iteration ran. */
  const HALTING_CODES := {
    Some(LoopNoProgress), Some(InternalError), Some(IterationDeadlineExceeded), Some(ModelOutputAmbiguous),
    Some(LoopMaxActions)}

  /** How many iterations of the ended turn went through their sites. */
  function ActingIterations(env: Env, t: Turn): nat {
    if env.caps.maxIterations < 1 || t.code in HALTING_CODES then t.iteration else t.iteration + 1
  }

  lemma EndActing(env: Env, k: nat, e: Ending)
    requires EndsRun(env, k, e)
    ensures Result(env).invoked == InvokedUpTo(env, ActingIterations(env, Result(env)))
    ensures ActingIterations(env, Result(env)) == if ActedOn(e) then k + 1 else k
  {
    hide Result, EndFits, VerdictEntry, InvokedUpTo, EndingOf, After, QuestionAt, EndOutbound, EndApproval,
      ModelCallsUpTo, SaidUpTo, CostUpTo;
    assert EndsAs(env, k, Result(env), e);
  }

  /** The run's invocations are the executed calls of the iterations that went through their
      sites, in order, and every one of them was admissible. */
  lemma GateSafety(env: Env)
    ensures Result(env).invoked == InvokedUpTo(env, ActingIterations(env, Result(env)))
    ensures forall inv :: inv in Result(env).invoked ==> SafeInvocation(env, inv)
  {
    hide Result, EndsRun, InvokedUpTo, SafeInvocation;
    if env.caps.maxIterations < 1 {
      NoRounds(env);
      NothingInvoked(env);
    } else {
      EveryRunEnds(env);
      var k, e :| EndsRun(env, k, e);
      EndActing(env, k, e);
    }
    InvokedSafe(env, ActingIterations(env, Result(env)));
  }

  lemma NothingInvoked(env: Env)
    ensures InvokedUpTo(env, 0) == []
  {
  }

  // ----- resources -----

  function SumCosts(calls: seq<ModelCall>): int {
    if calls == [] then 0 else SumCosts(calls[..|calls| - 1]) + calls[|calls| - 1].costPaise
  }

  lemma {:induction false} CallsRecorded(env: Env, n: nat)
    requires forall i :: 0 <= i < n ==> env.world.reply(i).Replied?
    ensures |ModelCallsUpTo(env, n)| == n
    ensures SumCosts(ModelCallsUpTo(env, n)) == CostUpTo(env, n)
    ensures n > 0 ==> ModelCallsUpTo(env, n)[..n - 1] == ModelCallsUpTo(env, n - 1)
  {
    if n > 0 {
      CallsRecorded(env, n - 1);
      var before, calls := ModelCallsUpTo(env, n - 1), ModelCallsUpTo(env, n);
      assert calls == before + [calls[n - 1]];
      assert calls[..n - 1] == before;
    }
  }

  lemma {:induction false} InvokedBound(env: Env, n: nat)
    ensures |InvokedUpTo(env, n)| <= AskedUpTo(env, n)
    ensures env.caps.maxActionsPerIteration >= 0 ==> |InvokedUpTo(env, n)| <= n * env.caps.maxActionsPerIteration
  {
    hide Executed, WorkAt;
    if n > 0 {
      InvokedBound(env, n - 1);
      var w := WorkAt(env, n - 1);
      ExecutedCount(env, n - 1, w);
      KeptBound(env, n - 1);
    }
  }

  lemma KeptBound(env: Env, k: nat)
    ensures |WorkAt(env, k).kept| <= |WorkAt(env, k).batch.calls|
    ensures env.caps.maxActionsPerIteration >= 0 ==> |WorkAt(env, k).kept| <= env.caps.maxActionsPerIteration
  {
    hide EventsOf, BatchOf;
  }

  lemma {:induction false} AskedGrows(env: Env, n: nat, m: nat)
    requires n <= m
    ensures AskedUpTo(env, n) <= AskedUpTo(env, m)
  {
    hide WorkAt;
    if n < m { AskedGrows(env, n, m - 1); }
  }

  ghost predicate WithinLimits(env: Env, t: Turn) {
    && (env.caps.maxIterations >= 0 ==> |t.modelCalls| <= env.caps.maxIterations)
    && (env.caps.maxTotalActions >= 0 ==> |t.invoked| <= env.caps.maxTotalActions)
    && (env.caps.maxIterations >= 0 && env.caps.maxActionsPerIteration >= 0 ==>
        |t.invoked| <= env.caps.maxIterations * env.caps.maxActionsPerIteration)
    && t.costPaise == SumCosts(t.modelCalls)
    && (|t.modelCalls| >= 2 ==> SumCosts(t.modelCalls[..|t.modelCalls| - 1]) < env.caps.maxCostPaise)
  }

  lemma EarlierContinued(env: Env, k: nat, e: Ending)
    requires EndsRun(env, k, e)
    ensures forall i :: 0 <= i < k ==> Continued(env, i)
  {
    hide Continued, EndsAs, EndFits, Result;
    AfterIs(env, k);
  }

  lemma ContinuedMeans(env: Env, i: nat)
    requires Continued(env, i)
    ensures env.world.reply(i).Replied? && CostUpTo(env, i + 1) < env.caps.maxCostPaise
    ensures AskedUpTo(env, i + 1) <= env.caps.maxTotalActions
  {
    hide WorkAt, CostUpTo, AskedUpTo, SaidUpTo, Surviving, Blocked;
  }

  lemma Multiply(a: int, b: int, c: int)
    requires a <= b && 0 <= c
    ensures a * c <= b * c
  {
  }

  lemma EndFields(env: Env, k: nat, e: Ending)
    requires EndsRun(env, k, e)
    ensures var t := Result(env); var n := RepliesOf(k, e);
      && t.modelCalls == ModelCallsUpTo(env, n) && t.costPaise == CostUpTo(env, n)
      && t.invoked == InvokedUpTo(env, if ActedOn(e) then k + 1 else k)
      && (n == k + 1 ==> env.world.reply(k).Replied?)
      && (ActedOn(e) ==> AskedUpTo(env, k + 1) <= env.caps.maxTotalActions)
  {
    hide Result, WorkAt, QuestionAt, DecisionOf, InvokedUpTo, CostUpTo, AskedUpTo, SaidUpTo, ModelCallsUpTo, After,
      OutboundOf, GateOf, CodeFor;
  }

  lemma EndCalls(env: Env, k: nat, e: Ending)
    requires EndsRun(env, k, e)
    ensures var calls := Result(env).modelCalls; var n := RepliesOf(k, e);
      && |calls| == n && Result(env).costPaise == SumCosts(calls)
      && (n >= 2 ==> SumCosts(calls[..n - 1]) < env.caps.maxCostPaise)
  {
    hide Result, Continued, CostUpTo, ModelCallsUpTo, SumCosts, EndsRun, InvokedUpTo, AskedUpTo;
    EarlierContinued(env, k, e);
    EndFields(env, k, e);
    forall i | 0 <= i < k ensures env.world.reply(i).Replied? { ContinuedMeans(env, i); }
    var n := RepliesOf(k, e);
    CallsRecorded(env, n);
    if n >= 2 {
      CallsRecorded(env, n - 1);
      ContinuedMeans(env, n - 2);
    }
  }

  lemma EndInvoked(env: Env, k: nat, e: Ending)
    requires EndsRun(env, k, e)
    ensures var m := if ActedOn(e) then k + 1 else k;
      && Result(env).invoked == InvokedUpTo(env, m)
      && (m > 0 ==> AskedUpTo(env, m) <= env.caps.maxTotalActions)
  {
    hide Result, Continued, CostUpTo, ModelCallsUpTo, EndsRun, InvokedUpTo, AskedUpTo;
    EarlierContinued(env, k, e);
    EndFields(env, k, e);
    if k > 0 { ContinuedMeans(env, k - 1); }
  }

  lemma EndWithin(env: Env, k: nat, e: Ending)
    requires EndsRun(env, k, e)
    ensures WithinLimits(env, Result(env))
  {
    hide Result, EndedAt, InvokedUpTo, AskedUpTo, SumCosts;
    assert k < env.caps.maxIterations;
    EndCalls(env, k, e);
    EndInvoked(env, k, e);
    var m := if ActedOn(e) then k + 1 else k;
    InvokedBound(env, m);
    if m == 0 { NothingAsked(env); }
    if env.caps.maxActionsPerIteration >= 0 {
      Multiply(m, env.caps.maxIterations, env.caps.maxActionsPerIteration);
    }
  }

  lemma NothingAsked(env: Env)
    ensures AskedUpTo(env, 0) == 0
  {
  }

  /** Calls of the model, executed tools and cost of a whole turn. */
  lemma ResourceBounds(env: Env)
    ensures WithinLimits(env, Result(env))
  {
    hide Result, EndsRun, WithinLimits;
    if env.caps.maxIterations < 1 {
      NoRounds(env);
      FreshWithin(env);
    } else {
      EveryRunEnds(env);
      var k, e :| EndsRun(env, k, e);
      EndWithin(env, k, e);
    }
  }

  lemma FreshWithin(env: Env)
    ensures WithinLimits(env, FRESH_TURN.(outcome := Expire, code := Some(LoopMaxIterations)))
  {
    assert env.caps.maxIterations >= 0 && env.caps.maxActionsPerIteration >= 0 ==>
      0 <= env.caps.maxIterations * env.caps.maxActionsPerIteration;
  }

  // ----- recovered replies -----

  lemma PickNone<T>(es: seq<Event>, f: Event -> Option<T>)
    requires forall e :: e in es ==> f(e) == None
    ensures Pick(es, f) == []
  {
  }

  /** Untagged text that the parser recovers is never answered with another iteration. */
  lemma RecoveredNeverIterates(env: Env, k: nat)
    requires var lx := Patterns.Lexicon(env.policy.builtIn, env.letters); var es := Parser.Tagged(lx, TextAt(env, k));
      !Parser.HasSay(es) && !Parser.HasActionable(es) && |Parser.Leftover(lx, TextAt(env, k))| >= 4
    ensures !Continued(env, k)
    ensures !Ambiguous(WorkAt(env, k).batch) && WorkAt(env, k).kept == []
  {
    hide Parser.Tagged, Parser.Leftover, Parser.Parse, Handled, Parser.IsActionable;
    var lx := Patterns.Lexicon(env.policy.builtIn, env.letters);
    RoundTrip.RecoveredReply(lx, TextAt(env, k));
    var es := EventsOf(env, TextAt(env, k));
    forall e | e in es ensures !e.CallEvent? && !e.AskEvent? && !e.SwarmEvent? && !e.RequestApproval? {
      ActionableKinds(e);
    }
    PickNone(es, AsCall);
    PickNone(es, AsAsk);
    PickNone(es, AsSwarm);
    PickNone(es, AsApproval);
    assert WorkAt(env, k).batch.hasFinal;
    NothingToDo(env, k);
  }

  lemma ActionableKinds(e: Event)
    ensures e.CallEvent? || e.AskEvent? || e.SwarmEvent? || e.RequestApproval? ==> Parser.IsActionable(e)
  {
  }

  lemma NothingToDo(env: Env, k: nat)
    requires var w := WorkAt(env, k);
      w.batch.hasFinal && w.batch.calls == [] && w.batch.asks == [] && w.batch.swarms == []
    ensures WorkAt(env, k).kept == [] && DecisionOf(env.caps, QuestionAt(env, k)) != Again
  {
    hide EventsOf, BatchOf, Surviving, Blocked, SaidUpTo, CostUpTo;
  }
}
