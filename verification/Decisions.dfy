/** When a turn goes on, how it ends otherwise, and under which code, from the replies, the clock
    and the costs alone. */
module Decisions {
  import opened Text
  import opened Tags
  import opened HarnessState
  import opened SiteSpecs
  import opened LoopSpec
  import opened Transcript
  import opened CallLemmas
  import opened Runs
  import opened Batches
  import opened Approvals

  /** A cap of the turn is reached when iteration `k` decides. */
  predicate Capped(env: Env, k: nat) {
    || k + 1 >= env.caps.maxIterations
    || env.world.elapsedMs(k) >= env.caps.maxWallclockMs
    || CostUpTo(env, k + 1) >= env.caps.maxCostPaise
  }

  /** There is still something to feed back: a call that was cleared and verified, or a swarm. */
  predicate WorkLeft(env: Env, k: nat) {
    Surviving(env, k, WorkAt(env, k)) != [] || WorkAt(env, k).batch.swarms != []
  }

  /** Something was said in this or an earlier reply, or this one asks something. */
  predicate SomethingToSend(env: Env, k: nat) {
    SaidUpTo(env, k + 1) != [] || WorkAt(env, k).batch.asks != []
  }

  predicate HasFinalAt(env: Env, k: nat) { WorkAt(env, k).batch.hasFinal }

  lemma DecisionMeans(env: Env, k: nat)
    ensures var d := DecisionOf(env.caps, QuestionAt(env, k)); var blocked := Blocked(env, k, WorkAt(env, k));
      && (DecidedOutcome(d) == SuspendPermission <==> blocked)
      && (DecidedOutcome(d) == Expire <==> !blocked && Capped(env, k))
      && (DecidedOutcome(d) == Finalize <==>
          !blocked && !Capped(env, k)
          && (HasFinalAt(env, k) || (!WorkLeft(env, k) && SomethingToSend(env, k))))
      && (DecidedOutcome(d) == Iterate <==>
          !blocked && !Capped(env, k) && !HasFinalAt(env, k)
          && (WorkLeft(env, k) || !SomethingToSend(env, k)))
      && (d == Again <==> DecidedOutcome(d) == Iterate)
  {
    hide WorkAt, Surviving, Blocked, SaidUpTo, CostUpTo;
  }

  lemma CodeMeans(env: Env, k: nat)
    ensures var q := QuestionAt(env, k); var o := DecidedOutcome(DecisionOf(env.caps, q));
      CodeFor(env.caps, q) ==
        if o == Finalize then
          Some(if HasFinalAt(env, k) then ModelEmittedFinalAnswer else IterationBudgetReachedWithAnswer)
        else if o == Expire then
          Some(if env.world.elapsedMs(k) >= env.caps.maxWallclockMs then TaskDeadlineExceeded
               else if CostUpTo(env, k + 1) >= env.caps.maxCostPaise then BudgetExceeded
               else LoopMaxIterations)
        else None
  {
    hide WorkAt, Surviving, Blocked, SaidUpTo, CostUpTo, DecisionOf;
  }

  /** An iteration goes on if and only if its reply was handled, nothing is escalated or waits for
      the owner, no cap is reached, there is no final, and either there is work to feed back, or
      nothing to send at all. */
  lemma ContinuesExactly(env: Env, k: nat)
    ensures Continued(env, k) <==>
      && Handled(env, k) && WorkAt(env, k).batch.escalations == []
      && !Requests(env, k) && !NeedsOwnerAt(env, k)
      && !Capped(env, k) && !HasFinalAt(env, k)
      && (WorkLeft(env, k) || !SomethingToSend(env, k))
  {
    hide WorkAt, Surviving, Blocked, DecisionOf, QuestionAt, Handled, Capped, WorkLeft, SomethingToSend, HasFinalAt,
      Requests, NeedsOwnerAt;
    DecisionMeans(env, k);
    BlockedMeans(env, k);
  }

  /** And the run then starts its next iteration, unless the breaker stopped this one. */
  lemma GoesOnExactly(env: Env, k: nat)
    requires After(env, k).Running?
    ensures After(env, k + 1).Running? <==>
      !NoProgress(env, k, After(env, k).turn, After(env, k).msgs) && Continued(env, k)
  {
    hide Step, NoProgress, EndsAs, DecisionOf, QuestionAt, WorkAt, AskedUpTo, Ambiguous;
    AfterIs(env, k);
    var p := After(env, k);
    StepIs(env, k, p.turn, p.msgs, p.actions);
    assert After(env, k + 1) == Step(env, k, p.turn, p.msgs, p.actions);
    if After(env, k + 1).Running? { NotBroken(env, k, p.turn, p.msgs, p.actions); }
  }

  lemma NotBroken(env: Env, k: nat, s: Turn, msgs: seq<Message>, actions: nat)
    requires Step(env, k, s, msgs, actions).Running?
    ensures !NoProgress(env, k, s, msgs)
  {
    hide NoProgress, Prepared, Handle, WorkOf, CompactedMessages;
  }

  /** How a turn ends that reaches the output decision of its last reply: it waits for the owner, or
      else expires at a cap, or else finalizes, with a final or with nothing left to do and something
      to send. The code of an expired turn names the clock before the cost, and the cost before the
      iterations; the journal names the iterations first. */
  lemma EndsExactly(env: Env)
    requires Decided(env, Result(env))
    ensures var t := Result(env); var k := t.iteration; var waits := Requests(env, k) || NeedsOwnerAt(env, k);
      && (t.outcome == SuspendPermission <==> waits)
      && (t.outcome == Expire <==> !waits && Capped(env, k))
      && (t.outcome == Finalize <==> !waits && !Capped(env, k))
      && (t.outcome == Finalize ==> HasFinalAt(env, k) || (!WorkLeft(env, k) && SomethingToSend(env, k)))
  {
    hide Result, EndsRun, WorkAt, DecisionOf, QuestionAt, Capped, WorkLeft, SomethingToSend, HasFinalAt, Requests,
      NeedsOwnerAt, Blocked;
    var k := DecidedEnds(env);
    DecisionMeans(env, k);
    BlockedMeans(env, k);
    DecisionFields(env, k);
  }

  lemma EndCodes(env: Env)
    requires Decided(env, Result(env))
    ensures var t := Result(env); var k := t.iteration;
      && (t.outcome == Finalize ==>
          t.code == Some(if HasFinalAt(env, k) then ModelEmittedFinalAnswer else IterationBudgetReachedWithAnswer))
      && (t.outcome == Expire ==>
          t.code == Some(
            if t.wallclockMs >= env.caps.maxWallclockMs then TaskDeadlineExceeded
            else if t.costPaise >= env.caps.maxCostPaise then BudgetExceeded
            else LoopMaxIterations))
      && t.wallclockMs == env.world.elapsedMs(k)
      && t.sites != [] && t.sites[|t.sites| - 1] == VerdictEntry(env, k)
  {
    hide Result, EndsRun, WorkAt, DecisionOf, QuestionAt, HasFinalAt, CostUpTo, CodeFor, VerdictEntry;
    var k := DecidedEnds(env);
    CodeMeans(env, k);
    DecisionFields(env, k);
  }

  lemma DecisionFields(env: Env, k: nat)
    requires EndsRun(env, k, ByDecision(DecisionOf(env.caps, QuestionAt(env, k))))
    ensures var t := Result(env); var q := QuestionAt(env, k);
      && t.iteration == k && t.outcome == DecidedOutcome(DecisionOf(env.caps, q)) && t.code == CodeFor(env.caps, q)
      && t.costPaise == CostUpTo(env, k + 1) && t.wallclockMs == env.world.elapsedMs(k)
      && t.sites != [] && t.sites[|t.sites| - 1] == VerdictEntry(env, k)
      && DecisionOf(env.caps, q) != Again
  {
    hide Result, WorkAt, QuestionAt, DecisionOf, CodeFor, DecidedOutcome, EndOutbound, EndApproval, ModelCallsUpTo,
      SaidUpTo, InvokedUpTo, CostUpTo, EndingOf, After, Handled, VerdictEntry;
    assert EndsAs(env, k, Result(env), ByDecision(DecisionOf(env.caps, QuestionAt(env, k))));
    assert EndFits(env, k, ByDecision(DecisionOf(env.caps, QuestionAt(env, k))));
  }

  /** The reply ends its turn as ambiguous. */
  predicate Mixed(b: Batch) { b.hasFinal && |b.calls| + |b.asks| + |b.swarms| > 0 }

  /** Which of several reasons to stop counts: the breaker before the model is called, then a failed
      call, the deadline, a mixed reply, too many calls, an escalation, and at last the decision. */
  lemma StopsExactly(env: Env, k: nat)
    requires After(env, k).Running? && After(env, k + 1).Stopped?
    ensures var t, p, b := After(env, k + 1).turn, After(env, k), WorkAt(env, k).batch;
      t.iteration == k
      && (if NoProgress(env, k, p.turn, p.msgs) then t.code == Some(LoopNoProgress)
          else if env.world.reply(k).CallFailed? then t.code == Some(InternalError)
          else if env.world.iterationMs(k) > env.caps.maxIterationWallclockMs then
            t.code == Some(IterationDeadlineExceeded)
          else if Mixed(b) then t.code == Some(ModelOutputAmbiguous)
          else if AskedUpTo(env, k + 1) > env.caps.maxTotalActions then t.code == Some(LoopMaxActions)
          else if b.escalations != [] then t.code == Some(CriticEscalated)
          else t.code !in HALTING_CODES && t.code != Some(CriticEscalated))
  {
    hide Step, NoProgress, DecisionOf, QuestionAt, WorkAt, AskedUpTo, EndOutbound, EndApproval, ModelCallsUpTo,
      CostUpTo, SaidUpTo, InvokedUpTo, CodeFor, VerdictEntry;
    AfterIs(env, k);
    var p, b := After(env, k), WorkAt(env, k).batch;
    StepIs(env, k, p.turn, p.msgs, p.actions);
    assert After(env, k + 1) == Step(env, k, p.turn, p.msgs, p.actions);
    assert Mixed(b) <==> Ambiguous(b);
    CodeMeans(env, k);
  }
}
