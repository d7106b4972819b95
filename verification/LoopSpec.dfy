/** One iteration of the harness, and whole runs, as functions of the environment. */
module LoopSpec {
  import opened Text
  import opened Tags
  import opened HarnessState
  import opened SiteSpecs
  import Patterns
  import Parser

  /** Where a run stands: over, or about to start the next iteration. */
  datatype Progress =
    | Stopped(turn: Turn)
    | Running(turn: Turn, msgs: seq<Message>, actions: nat)

  /** What one iteration knows once the model has replied. */
  datatype Work = Work(text: string, batch: Batch, kept: seq<Call>)

  function EventsOf(env: Env, text: string): seq<Event> {
    Parser.Parse(Patterns.Lexicon(env.policy.builtIn, env.letters), text)
  }

  /** The calls left by the per-iteration trim; the others are dropped. */
  function KeptAfterTrim(caps: Caps, calls: seq<Call>): (r: seq<Call>)
    ensures r <= calls
  {
    if |calls| > caps.maxActionsPerIteration then Take(calls, caps.maxActionsPerIteration) else calls
  }

  function WorkOf(env: Env, text: string): Work {
    var b := BatchOf(EventsOf(env, text));
    Work(text, b, KeptAfterTrim(env.caps, b.calls))
  }

  /** The turn ended with nothing sent: outcome, code and one last journal entry. */
  function Halted(s: Turn, outcome: TurnOutcome, code: TerminationCode, entry: SiteOutcome, payload: Payload): Turn {
    Journaled(s.(outcome := outcome, code := Some(code)), OutputSite, entry, payload)
  }

  // ----- before the model call -----

  function Stalls(s: Turn, digest: string): bool {
    s.digest == Some(digest)
  }

  function Progressed(s: Turn, digest: string): Turn {
    if Stalls(s, digest) then s.(streak := s.streak + 1) else s.(streak := 0, digest := Some(digest))
  }

  /** The turn after compaction and the progress check of iteration `k`. */
  function Prepared(env: Env, k: nat, s: Turn, msgs: seq<Message>): Turn {
    Progressed(CompactedTurn(s.(iteration := k), msgs), DigestText(CompactedMessages(env, k, msgs)))
  }

  predicate NoProgress(env: Env, k: nat, s: Turn, msgs: seq<Message>) {
    && Stalls(s, DigestText(CompactedMessages(env, k, msgs)))
    && Prepared(env, k, s, msgs).streak >= env.caps.maxNoProgress
  }

  function Recorded(s: Turn, k: nat, r: Reply): Turn
    requires r.Replied?
  {
    s.(modelCalls := s.modelCalls + [ModelCall(k, r.model, r.tokens, r.costPaise, r.text)],
       costPaise := s.costPaise + r.costPaise)
  }

  // ----- after the reply -----

  predicate Ambiguous(b: Batch) {
    b.hasFinal && (b.calls != [] || b.asks != [] || b.swarms != [])
  }

  function Gate(env: Env, k: nat, w: Work): GateResult {
    GateOf(env, k, w.kept, w.batch.approvals)
  }

  predicate Blocked(env: Env, k: nat, w: Work) {
    Gate(env, k, w).block.Some?
  }

  /** The cleared calls that memory verification lets through. */
  function Surviving(env: Env, k: nat, w: Work): seq<Call> {
    KeptCalls(env, k, Gate(env, k, w).cleared)
  }

  /** The calls that reach `_invoke`, in the order they are started. */
  function Executed(env: Env, k: nat, w: Work): seq<Call> {
    if Blocked(env, k, w) then []
    else Parallel(Surviving(env, k, w)) + Sequential(Surviving(env, k, w))
  }

  function Results(env: Env, k: nat, w: Work): seq<Record> {
    if Blocked(env, k, w) then []
    else ToolResults(env, k, Surviving(env, k, w), Denials(env, k, Gate(env, k, w).denied))
  }

  /** What is fed back to the model when the turn goes on. */
  function Feedback(env: Env, k: nat, w: Work): seq<Record> {
    Results(env, k, w) + Corrections(env, k, Gate(env, k, w).cleared)
    + RecallRecords(env, k, w.batch.recalls) + SwarmRecords(env, k, w.batch.swarms)
    + CriticRecords(CriticNote(env, k, w.batch))
  }

  function AfterGate(env: Env, k: nat, s: Turn, w: Work): Turn {
    GatedTurn(env, k, s, Gate(env, k, w))
  }

  function AfterMemory(env: Env, k: nat, s: Turn, w: Work): Turn {
    var g := Gate(env, k, w);
    if Verifies(g.cleared, w.batch.recalls) then MemoryTurn(env, k, AfterGate(env, k, s, w), g.cleared, w.batch.recalls)
    else AfterGate(env, k, s, w)
  }

  function AfterTools(env: Env, k: nat, s: Turn, w: Work): Turn {
    if Blocked(env, k, w) then AfterMemory(env, k, s, w)
    else ToolsTurn(env, k, AfterMemory(env, k, s, w), Surviving(env, k, w), Denials(env, k, Gate(env, k, w).denied))
  }

  function AfterCritic(env: Env, k: nat, s: Turn, w: Work): Turn {
    CriticTurn(env, k, SwarmTurn(AfterTools(env, k, s, w), w.batch.swarms), w.batch)
  }

  function Worked(env: Env, k: nat, s: Turn, w: Work): Turn {
    Accumulated(AfterCritic(env, k, s, w), w.batch)
  }

  const DEFAULT_ESCALATION := "Let me connect you with our team for this. They'll be with you shortly."

  function EscalatedTurn(env: Env, s: Turn): Turn {
    s.(outbound := Some(TextMessage(
         if env.policy.escalationMessage.Some? then env.policy.escalationMessage.value else DEFAULT_ESCALATION)),
       outcome := Finalize, code := Some(CriticEscalated))
  }

  function QuestionOf(env: Env, k: nat, s: Turn, w: Work): Ask7 {
    Ask7(s.says, w.batch.asks, w.batch.hasFinal, Surviving(env, k, w), w.batch.swarms, Blocked(env, k, w),
      k + 1, env.world.elapsedMs(k), s.costPaise)
  }

  function CodeFor(caps: Caps, q: Ask7): Option<TerminationCode> {
    match DecidedOutcome(DecisionOf(caps, q))
    case Finalize => Some(if q.hasFinal then ModelEmittedFinalAnswer else IterationBudgetReachedWithAnswer)
    case Expire =>
      Some(if q.elapsedMs >= caps.maxWallclockMs then TaskDeadlineExceeded
           else if q.costPaise >= caps.maxCostPaise then BudgetExceeded else LoopMaxIterations)
    case _ => None
  }

  /** The turn after the output decision, its wall clock and its code. */
  function Concluded(env: Env, k: nat, s: Turn, w: Work): Turn {
    var q := QuestionOf(env, k, s, w);
    var d := DecidedTurn(env.caps, s.(wallclockMs := q.elapsedMs), q);
    match CodeFor(env.caps, q) case None => d case Some(c) => d.(code := Some(c))
  }

  /** From the reply's work on: permission, memory, tools, swarm, critic, escalation, output. */
  function Act(env: Env, k: nat, s: Turn, msgs: seq<Message>, actions: nat, w: Work): Progress {
    var s1 := Worked(env, k, s, w);
    if w.batch.escalations != [] then Stopped(EscalatedTurn(env, s1))
    else
      var s2 := Concluded(env, k, s1, w);
      if DecisionOf(env.caps, QuestionOf(env, k, s1, w)) == Again
      then Running(s2, NextMessages(env.world, msgs, w.text, Feedback(env, k, w)), actions)
      else Stopped(s2)
  }

  /** Exclusivity and the cap on all actions of the turn. */
  function Handle(env: Env, k: nat, s: Turn, msgs: seq<Message>, actions: nat, w: Work): Progress {
    var b := w.batch;
    if Ambiguous(b) then Stopped(Halted(s, Fail, ModelOutputAmbiguous, FailAmbiguous, Limit(|b.calls|, |b.asks|)))
    else if actions + |b.calls| > env.caps.maxTotalActions then
      Stopped(Halted(s, Expire, LoopMaxActions, ExpireActions, Amount(actions + |b.calls|)))
    else Act(env, k, s, msgs, actions + |b.calls|, w)
  }

  function Step(env: Env, k: nat, s: Turn, msgs: seq<Message>, actions: nat): Progress {
    var s1 := Prepared(env, k, s, msgs);
    if NoProgress(env, k, s, msgs) then
      Stopped(Halted(s1, Expire, LoopNoProgress, ExpireNoProgress, Amount(s1.streak)))
    else
      match env.world.reply(k)
      case CallFailed(error) => Stopped(Halted(s1, Fail, InternalError, FailCall(error), NoPayload))
      case Replied(text, _, _, _) =>
        if env.world.iterationMs(k) > env.caps.maxIterationWallclockMs then
          Stopped(Halted(s1, Fail, IterationDeadlineExceeded, FailDeadline, Amount(env.world.iterationMs(k))))
        else
          Handle(env, k, Recorded(s1, k, env.world.reply(k)), CompactedMessages(env, k, msgs), actions,
            WorkOf(env, text))
  }

  // ----- whole runs -----

  function InitialMessages(env: Env): seq<Message> {
    TakeLast(env.history, env.caps.maxHistory) + [Message("user", Plain(env.userText))]
  }

  /** Where the run stands after `n` iterations were given the chance to start. */
  function After(env: Env, n: nat): Progress {
    if n == 0 then Running(FRESH_TURN, InitialMessages(env), 0)
    else
      match After(env, n - 1)
      case Stopped(t) => Stopped(t)
      case Running(s, msgs, actions) => Step(env, n - 1, s, msgs, actions)
  }

  function Rounds(env: Env): nat {
    if env.caps.maxIterations < 0 then 0 else env.caps.maxIterations
  }

  /** The turn that a run ends with; falling out of the loop expires it. */
  function Result(env: Env): Turn {
    match After(env, Rounds(env))
    case Stopped(t) => t
    case Running(s, _, _) => s.(outcome := Expire, code := Some(LoopMaxIterations))
  }
}
