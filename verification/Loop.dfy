/** `run_harness`: the loop over the iterations, proved against the run specification. */
module Loop {
  import opened Text
  import opened Tags
  import opened HarnessState
  import opened SiteSpecs
  import opened LoopSpec
  import opened Sites
  import Patterns
  import Parser

  lemma PickSnoc<T>(es: seq<Event>, i: nat, f: Event -> Option<T>)
    requires i < |es|
    ensures Pick(es[..i + 1], f) == Pick(es[..i], f) + (match f(es[i]) case None => [] case Some(x) => [x])
  {
    assert es[..i + 1][..i] == es[..i];
  }

  /** What one more event adds to the reply's events by kind. */
  function Bucket(b: Batch, e: Event): Batch {
    match e
    case CallEvent(c) => b.(calls := b.calls + [c])
    case Say(text) => b.(says := b.says + [text])
    case AskEvent(a) => b.(asks := b.asks + [a])
    case Recall(key, _) => b.(recalls := b.recalls + [key])
    case RequestApproval(text, capability, payload) =>
      b.(approvals := b.approvals + [Approval(ExplicitRequest, capability, text, payload, None)])
    case SwarmEvent(s) => b.(swarms := b.swarms + [s])
    case Escalate(_, _) => b.(escalations := b.escalations + [e])
    case Final => b.(hasFinal := true)
    case _ => b
  }

  lemma BatchSnoc(es: seq<Event>, i: nat)
    requires i < |es|
    ensures BatchOf(es[..i + 1]) == Bucket(BatchOf(es[..i]), es[i])
  {
    hide Pick;
    PickSnoc(es, i, AsCall);
    PickSnoc(es, i, AsSay);
    PickSnoc(es, i, AsAsk);
    PickSnoc(es, i, AsRecall);
    PickSnoc(es, i, AsApproval);
    PickSnoc(es, i, AsSwarm);
    PickSnoc(es, i, AsEscalation);
    assert es[..i + 1] == es[..i] + [es[i]];
  }

  lemma NoBatch()
    ensures BatchOf([]) == Batch([], [], [], [], [], [], [], false)
  {
  }

  /** `_bucketize` over a whole reply, with the final flag. */
  method Bucketize(es: seq<Event>) returns (b: Batch)
    ensures b == BatchOf(es)
  {
    hide BatchOf;
    var calls: seq<Call>, says: seq<string>, asks: seq<Ask>, recalls: seq<string> := [], [], [], [];
    var approvals: seq<Approval>, swarms: seq<Swarm>, escalations: seq<Event>, hasFinal := [], [], [], false;
    NoBatch();
    for i := 0 to |es|
      invariant BatchOf(es[..i]) == Batch(calls, says, asks, recalls, approvals, swarms, escalations, hasFinal)
    {
      BatchSnoc(es, i);
      match es[i]
      case CallEvent(c) => calls := calls + [c];
      case Say(text) => says := says + [text];
      case AskEvent(a) => asks := asks + [a];
      case Recall(key, _) => recalls := recalls + [key];
      case RequestApproval(text, capability, payload) =>
        approvals := approvals + [Approval(ExplicitRequest, capability, text, payload, None)];
      case SwarmEvent(s) => swarms := swarms + [s];
      case Escalate(_, _) => escalations := escalations + [es[i]];
      case Final => hasFinal := true;
      case _ =>
    }
    assert es[..|es|] == es;
    b := Batch(calls, says, asks, recalls, approvals, swarms, escalations, hasFinal);
  }

  method Halt(state: State, outcome: TurnOutcome, code: TerminationCode, entry: SiteOutcome, payload: Payload)
    modifies state
    ensures state.Snapshot() == Halted(old(state.Snapshot()), outcome, code, entry, payload)
  {
    state.Terminate(outcome, code);
    state.AppendSite(OutputSite, entry, payload);
  }

  method CheckProgress(state: State, digest: string) returns (stalled: bool)
    modifies state
    ensures state.Snapshot() == Progressed(old(state.Snapshot()), digest)
    ensures stalled == Stalls(old(state.Snapshot()), digest)
  {
    if Some(digest) == state.digest {
      state.streak := state.streak + 1;
      stalled := true;
    } else {
      state.streak := 0;
      state.digest := Some(digest);
      stalled := false;
    }
  }

  /** Sites 1, 3 and 2: what is cleared, verified and executed. */
  method RunCalls(env: Env, k: nat, state: State, w: Work)
    returns (surviving: seq<Call>, blocked: bool, feedback: seq<Record>)
    requires state.iteration == k
    modifies state
    ensures state.Snapshot() == AfterTools(env, k, old(state.Snapshot()), w)
    ensures surviving == Surviving(env, k, w) && blocked == Blocked(env, k, w)
    ensures feedback == Results(env, k, w) + Corrections(env, k, Gate(env, k, w).cleared)
      + RecallRecords(env, k, w.batch.recalls)
  {
    hide GateOf, KeptCalls, Corrections, RecallRecords, ToolResults, ToolsTurn, MemoryTurn, Denials;
    var cleared, denied, shortCircuit := GateSite(env, k, state, w.kept, w.batch.approvals);
    assert state.iteration == k;
    var corrections: seq<Record>, recallResults: seq<Record> := [], [];
    surviving := cleared;
    if cleared != [] || w.batch.recalls != [] {
      surviving, corrections, recallResults := VerifySite(env, k, state, cleared, w.batch.recalls);
      assert state.iteration == k by {
        MemoryKeeps(env, k, AfterGate(env, k, old(state.Snapshot()), w), cleared, w.batch.recalls);
      }
    } else {
      NothingVerified(env, k);
    }
    var results: seq<Record> := [];
    blocked := shortCircuit;
    if !shortCircuit {
      results := ExecuteSite(env, k, state, surviving, denied);
    }
    feedback := results + corrections + recallResults;
  }

  lemma MemoryKeeps(env: Env, k: nat, s: Turn, cleared: seq<Call>, recalls: seq<string>)
    ensures MemoryTurn(env, k, s, cleared, recalls).iteration == s.iteration
  {
  }

  lemma NothingVerified(env: Env, k: nat)
    ensures KeptCalls(env, k, []) == [] && Corrections(env, k, []) == [] && RecallRecords(env, k, []) == []
  {
  }

  /** The sites of one iteration up to the accumulation of what is said. */
  method RunSites(env: Env, k: nat, state: State, w: Work)
    returns (surviving: seq<Call>, blocked: bool, feedback: seq<Record>)
    requires state.iteration == k
    modifies state
    ensures state.Snapshot() == Worked(env, k, old(state.Snapshot()), w)
    ensures surviving == Surviving(env, k, w) && blocked == Blocked(env, k, w)
    ensures feedback == Feedback(env, k, w)
  {
    hide AfterTools, Surviving, Blocked, Results, Corrections, RecallRecords, SwarmRecords, CriticRecords, CriticNote,
      CriticTurn, SwarmTurn, NonEmpty, Gate;
    surviving, blocked, feedback := RunCalls(env, k, state, w);
    var swarmResults := SwarmRun(env, k, state, w.batch.swarms);
    var correction := CriticReview(env, k, state, w.batch);
    state.says := state.says + NonEmpty(w.batch.says);
    if w.batch.asks != [] {
      var last := w.batch.asks[|w.batch.asks| - 1];
      state.ask := Some(AskDraft(last.bodyText, last.buttons, last.items));
    }
    feedback := feedback + swarmResults + correction;
  }

  /** The output decision with its wall clock and termination code. */
  method Conclude(env: Env, k: nat, state: State, ghost w: Work, q: Ask7) returns (again: bool)
    requires q == QuestionOf(env, k, state.Snapshot(), w)
    modifies state
    ensures state.Snapshot() == Concluded(env, k, old(state.Snapshot()), w)
    ensures again == (DecisionOf(env.caps, q) == Again)
  {
    hide DecidedTurn, DecisionOf, Surviving, Blocked;
    state.wallclockMs := q.elapsedMs;
    var decision := Decide(env.caps, state, q);
    OutcomeAgain(env.caps, q);
    if decision == Finalize {
      state.code := Some(if q.hasFinal then ModelEmittedFinalAnswer else IterationBudgetReachedWithAnswer);
    } else if decision == Expire {
      if q.elapsedMs >= env.caps.maxWallclockMs {
        state.code := Some(TaskDeadlineExceeded);
      } else if q.costPaise >= env.caps.maxCostPaise {
        state.code := Some(BudgetExceeded);
      } else {
        state.code := Some(LoopMaxIterations);
      }
    }
    again := decision == Iterate;
  }

  /** Everything from the permission gate to the output decision. */
  method ActOn(env: Env, k: nat, state: State, msgs: seq<Message>, ghost actions: nat, w: Work)
    returns (over: bool, next: seq<Message>)
    requires state.iteration == k
    modifies state
    ensures match Act(env, k, old(state.Snapshot()), msgs, actions, w)
      case Stopped(t) => over && state.Snapshot() == t
      case Running(t, m, _) => !over && state.Snapshot() == t && next == m
  {
    hide Worked, Surviving, Blocked, Feedback, Concluded, DecisionOf, NextMessages;
    over, next := true, msgs;
    var surviving, blocked, feedback := RunSites(env, k, state, w);
    if w.batch.escalations != [] {
      state.outbound := Some(TextMessage(
        if env.policy.escalationMessage.Some? then env.policy.escalationMessage.value else DEFAULT_ESCALATION));
      state.Terminate(Finalize, CriticEscalated);
      return;
    }
    var q := Ask7(state.says, w.batch.asks, w.batch.hasFinal, surviving, w.batch.swarms, blocked, k + 1,
      env.world.elapsedMs(k), state.costPaise);
    var again := Conclude(env, k, state, w, q);
    if again {
      over, next := false, NextMessages(env.world, msgs, w.text, feedback);
    }
  }

  lemma OutcomeAgain(caps: Caps, q: Ask7)
    ensures DecidedOutcome(DecisionOf(caps, q)) == Iterate <==> DecisionOf(caps, q) == Again
    ensures DecidedOutcome(DecisionOf(caps, q)) in {SuspendPermission, Expire, Finalize, Iterate}
  {
  }

  method ReadReply(env: Env, text: string) returns (b: Batch)
    ensures b == BatchOf(EventsOf(env, text))
  {
    hide BatchOf, Parser.Parse;
    var events := Parser.ParseReply(Patterns.Lexicon(env.policy.builtIn, env.letters), text);
    b := Bucketize(events);
  }

  lemma WorkIs(env: Env, text: string)
    ensures WorkOf(env, text)
      == Work(text, BatchOf(EventsOf(env, text)), KeptAfterTrim(env.caps, BatchOf(EventsOf(env, text)).calls))
  {
    hide BatchOf, EventsOf, KeptAfterTrim;
  }

  /** From the parsed reply on. `actions` counts the calls the model has asked for so far. */
  method HandleReply(env: Env, k: nat, state: State, msgs: seq<Message>, actions: nat, text: string, b: Batch)
    returns (over: bool, next: seq<Message>, total: nat)
    requires state.iteration == k
    modifies state
    ensures match Handle(env, k, old(state.Snapshot()), msgs, actions, Work(text, b, KeptAfterTrim(env.caps, b.calls)))
      case Stopped(t) => over && state.Snapshot() == t
      case Running(t, m, a) => !over && state.Snapshot() == t && next == m && total == a
  {
    hide Act, Take, Halted;
    over, next, total := true, msgs, actions;
    if b.hasFinal && (b.calls != [] || b.asks != [] || b.swarms != []) {
      Halt(state, Fail, ModelOutputAmbiguous, FailAmbiguous, Limit(|b.calls|, |b.asks|));
      return;
    }
    total := actions + |b.calls|;
    if total > env.caps.maxTotalActions {
      Halt(state, Expire, LoopMaxActions, ExpireActions, Amount(total));
      return;
    }
    var kept := b.calls;
    if |kept| > env.caps.maxActionsPerIteration {
      kept := Take(kept, env.caps.maxActionsPerIteration);
    }
    assert kept == KeptAfterTrim(env.caps, b.calls);
    ActTotal(env, k, state.Snapshot(), msgs, total, Work(text, b, kept));
    over, next := ActOn(env, k, state, msgs, total, Work(text, b, kept));
  }

  method Iteration(env: Env, k: nat, state: State, msgs: seq<Message>, actions: nat)
    returns (over: bool, next: seq<Message>, total: nat)
    modifies state
    ensures match Step(env, k, old(state.Snapshot()), msgs, actions)
      case Stopped(t) => over && state.Snapshot() == t
      case Running(t, m, a) => !over && state.Snapshot() == t && next == m && total == a
  {
    hide Handle, CompactedMessages, CompactedTurn, DigestText, WorkOf, BatchOf, EventsOf, KeptAfterTrim, Halted,
      Progressed;
    over, next, total := true, msgs, actions;
    state.iteration := k;
    next := MaybeCompact(env, k, state, msgs);
    var digest := DigestText(next);
    var stalled := CheckProgress(state, digest);
    assert state.Snapshot() == Prepared(env, k, old(state.Snapshot()), msgs);
    assert state.iteration == k by { PreparedIteration(env, k, old(state.Snapshot()), msgs); }
    assert stalled == Stalls(old(state.Snapshot()), digest) by {
      CompactionKeeps(old(state.Snapshot()).(iteration := k), msgs);
    }
    if stalled && state.streak >= env.caps.maxNoProgress {
      Halt(state, Expire, LoopNoProgress, ExpireNoProgress, Amount(state.streak));
      return;
    }
    assert !NoProgress(env, k, old(state.Snapshot()), msgs);
    var reply := env.world.reply(k);
    if reply.CallFailed? {
      Halt(state, Fail, InternalError, FailCall(reply.error), NoPayload);
      return;
    }
    var elapsed := env.world.iterationMs(k);
    if elapsed > env.caps.maxIterationWallclockMs {
      Halt(state, Fail, IterationDeadlineExceeded, FailDeadline, Amount(elapsed));
      return;
    }
    state.modelCalls := state.modelCalls + [ModelCall(k, reply.model, reply.tokens, reply.costPaise, reply.text)];
    state.costPaise := state.costPaise + reply.costPaise;
    var b := ReadReply(env, reply.text);
    WorkIs(env, reply.text);
    over, next, total := HandleReply(env, k, state, next, actions, reply.text, b);
  }

  lemma CompactionKeeps(s: Turn, msgs: seq<Message>)
    ensures CompactedTurn(s, msgs).digest == s.digest && CompactedTurn(s, msgs).streak == s.streak
  {
    hide DigestText;
  }

  lemma PreparedIteration(env: Env, k: nat, s: Turn, msgs: seq<Message>)
    ensures Prepared(env, k, s, msgs).iteration == k
  {
  }

  lemma ActTotal(env: Env, k: nat, s: Turn, msgs: seq<Message>, actions: nat, w: Work)
    ensures var p := Act(env, k, s, msgs, actions, w); p.Running? ==> p.actions == actions
  {
    hide Worked, Concluded, QuestionOf, Feedback, NextMessages, DecisionOf;
  }

  /** The whole turn. */
  method RunHarness(env: Env) returns (state: State)
    ensures fresh(state) && state.Snapshot() == Result(env)
  {
    hide Step;
    state := new State();
    var messages := TakeLast(env.history, env.caps.maxHistory) + [Message("user", Plain(env.userText))];
    var actions := 0;
    var rounds := Rounds(env);
    for k := 0 to rounds
      invariant fresh(state)
      invariant After(env, k) == Running(state.Snapshot(), messages, actions)
    {
      var over, next, total := Iteration(env, k, state, messages, actions);
      if over {
        StaysStopped(env, k + 1, rounds);
        return;
      }
      messages, actions := next, total;
    }
    state.Terminate(Expire, LoopMaxIterations);
  }

  lemma {:induction false} StaysStopped(env: Env, n: nat, m: nat)
    requires n <= m && After(env, n).Stopped?
    ensures After(env, m) == After(env, n)
  {
    hide Step;
    if n < m { StaysStopped(env, n, m - 1); }
  }
}
