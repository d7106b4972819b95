/** What a run's state is, as a function of the replies the model gave. */
module Transcript {
  import opened Text
  import opened Tags
  import opened HarnessState
  import opened SiteSpecs
  import opened LoopSpec

  // ----- the transcript -----

  function TextAt(env: Env, k: nat): string {
    match env.world.reply(k) case Replied(text, _, _, _) => text case CallFailed(_) => ""
  }

  function CostAt(env: Env, k: nat): int {
    match env.world.reply(k) case Replied(_, _, _, cost) => cost case CallFailed(_) => 0
  }

  function WorkAt(env: Env, k: nat): Work {
    WorkOf(env, TextAt(env, k))
  }

  /** Every non-empty text said in the first `n` replies, in order. */
  function SaidUpTo(env: Env, n: nat): seq<string> {
    if n == 0 then [] else SaidUpTo(env, n - 1) + NonEmpty(WorkAt(env, n - 1).batch.says)
  }

  function CostUpTo(env: Env, n: nat): int {
    if n == 0 then 0 else CostUpTo(env, n - 1) + CostAt(env, n - 1)
  }

  /** How many calls the first `n` replies asked for, before any trim. */
  function AskedUpTo(env: Env, n: nat): nat {
    if n == 0 then 0 else AskedUpTo(env, n - 1) + |WorkAt(env, n - 1).batch.calls|
  }

  function InvokedUpTo(env: Env, n: nat): seq<Invocation> {
    if n == 0 then []
    else InvokedUpTo(env, n - 1) + Invocations(n - 1, Executed(env, n - 1, WorkAt(env, n - 1)))
  }

  function ModelCallsUpTo(env: Env, n: nat): seq<ModelCall> {
    if n == 0 then []
    else
      match env.world.reply(n - 1)
      case Replied(text, model, tokens, cost) =>
        ModelCallsUpTo(env, n - 1) + [ModelCall(n - 1, model, tokens, cost, text)]
      case CallFailed(_) => ModelCallsUpTo(env, n - 1)
  }

  /** The question the output site answers in iteration `k`, from the transcript. */
  function QuestionAt(env: Env, k: nat): Ask7 {
    var w := WorkAt(env, k);
    Ask7(SaidUpTo(env, k + 1), w.batch.asks, w.batch.hasFinal, Surviving(env, k, w), w.batch.swarms,
      Blocked(env, k, w), k + 1, env.world.elapsedMs(k), CostUpTo(env, k + 1))
  }

  /** The reply of iteration `k` came in time, was not ambiguous and kept within the cap on all calls. */
  ghost predicate Handled(env: Env, k: nat) {
    && env.world.reply(k).Replied?
    && env.world.iterationMs(k) <= env.caps.maxIterationWallclockMs
    && !Ambiguous(WorkAt(env, k).batch)
    && AskedUpTo(env, k + 1) <= env.caps.maxTotalActions
  }

  /** Iteration `k` went through all its sites and asked for another one. */
  ghost predicate Continued(env: Env, k: nat) {
    && Handled(env, k)
    && WorkAt(env, k).batch.escalations == []
    && DecisionOf(env.caps, QuestionAt(env, k)) == Again
  }

  // ----- how a run ends -----

  datatype Ending =
    | ByNoProgress | ByCallFailure | ByDeadline | ByAmbiguity | ByActions | ByEscalation
    | ByDecision(decision: Decision)

  /** How many replies the ended turn has recorded and whether it acted on the last one. */
  function RepliesOf(k: nat, e: Ending): nat {
    if e.ByNoProgress? || e.ByCallFailure? || e.ByDeadline? then k else k + 1
  }

  predicate ActedOn(e: Ending) { e.ByEscalation? || e.ByDecision? }

  function EndOutcome(e: Ending): TurnOutcome {
    match e
    case ByNoProgress => Expire
    case ByCallFailure => Fail
    case ByDeadline => Fail
    case ByAmbiguity => Fail
    case ByActions => Expire
    case ByEscalation => Finalize
    case ByDecision(d) => DecidedOutcome(d)
  }

  function EndCode(env: Env, k: nat, e: Ending): Option<TerminationCode> {
    match e
    case ByNoProgress => Some(LoopNoProgress)
    case ByCallFailure => Some(InternalError)
    case ByDeadline => Some(IterationDeadlineExceeded)
    case ByAmbiguity => Some(ModelOutputAmbiguous)
    case ByActions => Some(LoopMaxActions)
    case ByEscalation => Some(CriticEscalated)
    case ByDecision(_) => CodeFor(env.caps, QuestionAt(env, k))
  }

  function EscalationText(env: Env): string {
    if env.policy.escalationMessage.Some? then env.policy.escalationMessage.value else DEFAULT_ESCALATION
  }

  function EndOutbound(env: Env, k: nat, e: Ending): Option<Outbound> {
    match e
    case ByEscalation => Some(TextMessage(EscalationText(env)))
    case ByDecision(d) =>
      if d == Suspend then None else OutboundOf(SaidUpTo(env, k + 1), WorkAt(env, k).batch.asks)
    case _ => None
  }

  function EndApproval(env: Env, k: nat, e: Ending): Option<Approval> {
    if ActedOn(e) then Gate(env, k, WorkAt(env, k)).block else None
  }

  /** The ended turn's fields, other than its journal and progress counters. */
  ghost predicate EndsAs(env: Env, k: nat, t: Turn, e: Ending) {
    && t.iteration == k
    && t.outcome == EndOutcome(e)
    && t.code == EndCode(env, k, e)
    && t.outbound == EndOutbound(env, k, e)
    && t.approval == EndApproval(env, k, e)
    && t.modelCalls == ModelCallsUpTo(env, RepliesOf(k, e))
    && t.costPaise == CostUpTo(env, RepliesOf(k, e))
    && t.says == SaidUpTo(env, if ActedOn(e) then k + 1 else k)
    && t.invoked == InvokedUpTo(env, if ActedOn(e) then k + 1 else k)
    && (e == ByNoProgress ==> t.streak >= 1 && t.streak >= env.caps.maxNoProgress)
    && (e.ByDecision? ==>
        t.wallclockMs == env.world.elapsedMs(k) && t.sites != [] && t.sites[|t.sites| - 1] == VerdictEntry(env, k))
  }

  /** The last journal entry of a turn that its output decision ended. */
  function VerdictEntry(env: Env, k: nat): SiteEntry {
    var ms, paise, said := env.world.elapsedMs(k), CostUpTo(env, k + 1), |SaidUpTo(env, k + 1)|;
    if Blocked(env, k, WorkAt(env, k)) then SiteEntry(OutputSite, k, Forced(SuspendPermission), NoPayload)
    else if k + 1 >= env.caps.maxIterations then
      SiteEntry(OutputSite, k, ExpireIterations, Limit(k + 1, env.caps.maxIterations))
    else if ms >= env.caps.maxWallclockMs then
      SiteEntry(OutputSite, k, ExpireWallclock, Limit(ms, env.caps.maxWallclockMs))
    else if paise >= env.caps.maxCostPaise then
      SiteEntry(OutputSite, k, ExpireCost, Limit(paise, env.caps.maxCostPaise))
    else
      SiteEntry(OutputSite, k,
        if WorkAt(env, k).batch.hasFinal then FinalizeExplicit else FinalizeImplicit, Amount(said))
  }

  /** When a run can end that way. */
  ghost predicate EndFits(env: Env, k: nat, e: Ending) {
    match e
    case ByNoProgress => true
    case ByCallFailure => env.world.reply(k).CallFailed?
    case ByDeadline => env.world.reply(k).Replied? && env.world.iterationMs(k) > env.caps.maxIterationWallclockMs
    case ByAmbiguity => env.world.reply(k).Replied? && Ambiguous(WorkAt(env, k).batch)
    case ByActions => env.world.reply(k).Replied? && AskedUpTo(env, k + 1) > env.caps.maxTotalActions
    case ByEscalation => Handled(env, k) && WorkAt(env, k).batch.escalations != []
    case ByDecision(d) => Handled(env, k) && d == DecisionOf(env.caps, QuestionAt(env, k)) && d != Again
  }

  // ----- the running turn -----

  /** The turn that has just started iteration `n`, from the transcript. */
  ghost predicate RunsAs(env: Env, n: nat, s: Turn, actions: nat) {
    && s.outcome == (if n == 0 then Pending else Iterate)
    && s.code == None && s.outbound == None && s.approval == None
    && s.modelCalls == ModelCallsUpTo(env, n)
    && s.costPaise == CostUpTo(env, n)
    && s.says == SaidUpTo(env, n)
    && s.invoked == InvokedUpTo(env, n)
    && actions == AskedUpTo(env, n)
    && forall i :: 0 <= i < n ==> Continued(env, i)
  }

  // ----- one iteration -----

  lemma AfterMemoryIs(env: Env, k: nat, s: Turn, w: Work)
    ensures var t := AfterMemory(env, k, s, w);
      t == s.(approval := if Blocked(env, k, w) then Gate(env, k, w).block else s.approval, sites := t.sites)
  {
    hide GateOf, Corrections, Claims, Denials, CallNames;
  }

  lemma NoInvocations(k: nat)
    ensures Invocations(k, []) == []
  {
  }

  lemma InvocationsJoin(k: nat, a: seq<Call>, b: seq<Call>)
    ensures Invocations(k, a + b) == Invocations(k, a) + Invocations(k, b)
  {
  }

  lemma ToolsTurnIs(env: Env, k: nat, s: Turn, calls: seq<Call>, denied: seq<Denied>)
    ensures var t := ToolsTurn(env, k, s, calls, denied);
      t == s.(invoked := s.invoked + Invocations(k, Parallel(calls) + Sequential(calls)), sites := t.sites)
  {
    hide ToolEntries, CallNames, Invocations, Records;
    if calls == [] && denied == [] {
      assert Parallel(calls) + Sequential(calls) == [];
      NoInvocations(k);
    } else {
      InvocationsJoin(k, Parallel(calls), Sequential(calls));
    }
  }

  /** The sites of an iteration change the journal, what is said and asked, the calls
      invoked and the pending approval, and nothing else. */
  lemma WorkedIs(env: Env, k: nat, s: Turn, w: Work)
    ensures var t := Worked(env, k, s, w);
      t == s.(
        says := s.says + NonEmpty(w.batch.says),
        ask := t.ask,
        approval := if Blocked(env, k, w) then Gate(env, k, w).block else s.approval,
        invoked := s.invoked + Invocations(k, Executed(env, k, w)),
        sites := t.sites)
  {
    hide AfterMemory, ToolsTurn, Gate, Surviving, Denials, NonEmpty, AgentNames, Invocations, Parallel, Sequential;
    AfterMemoryIs(env, k, s, w);
    var m := AfterMemory(env, k, s, w);
    if Blocked(env, k, w) {
      NoInvocations(k);
      assert s.invoked + [] == s.invoked;
    } else {
      ToolsTurnIs(env, k, m, Surviving(env, k, w), Denials(env, k, Gate(env, k, w).denied));
    }
  }

  lemma DecidedIs(caps: Caps, s: Turn, q: Ask7)
    ensures var t := DecidedTurn(caps, s, q); var d := DecisionOf(caps, q);
      t == s.(
        outcome := DecidedOutcome(d),
        outbound := if d == Suspend || d == Again then s.outbound else OutboundOf(q.says, q.asks),
        sites := t.sites)
  {
    hide OutboundOf, CallNames;
  }

  lemma ConcludedIs(env: Env, k: nat, s: Turn, w: Work)
    ensures var q := QuestionOf(env, k, s, w); var t := Concluded(env, k, s, w); var d := DecisionOf(env.caps, q);
      t == s.(
        wallclockMs := env.world.elapsedMs(k),
        outcome := DecidedOutcome(d),
        code := if CodeFor(env.caps, q).Some? then CodeFor(env.caps, q) else s.code,
        outbound := if d == Suspend || d == Again then s.outbound else OutboundOf(q.says, q.asks),
        sites := t.sites)
  {
    hide DecidedTurn, OutboundOf, DecisionOf, Surviving, Blocked, DecidedOutcome, CodeFor;
    var q := QuestionOf(env, k, s, w);
    DecidedIs(env.caps, s.(wallclockMs := q.elapsedMs), q);
  }

  lemma PreparedIs(env: Env, k: nat, s: Turn, msgs: seq<Message>)
    ensures var t := Prepared(env, k, s, msgs);
      t == s.(iteration := k, digest := t.digest, streak := t.streak, sites := t.sites)
  {
    hide DigestText, NeedsCompaction;
  }

  lemma ConcludedEntry(env: Env, k: nat, s: Turn)
    requires s.iteration == k
    requires var w := WorkAt(env, k); QuestionOf(env, k, s, w) == QuestionAt(env, k)
    requires DecisionOf(env.caps, QuestionAt(env, k)) != Again
    ensures var t := Concluded(env, k, s, WorkAt(env, k)); t.sites == s.sites + [VerdictEntry(env, k)]
  {
    hide WorkAt, Surviving, Blocked, SaidUpTo, CostUpTo, OutboundOf, CallNames, NonEmpty;
  }

  /** The turn on which iteration `k` acts. */
  ghost predicate ActsAs(env: Env, k: nat, s: Turn, actions: nat) {
    && s.iteration == k && s.code == None && s.outbound == None && s.approval == None
    && s.modelCalls == ModelCallsUpTo(env, k + 1)
    && s.costPaise == CostUpTo(env, k + 1)
    && s.says == SaidUpTo(env, k)
    && s.invoked == InvokedUpTo(env, k)
    && actions == AskedUpTo(env, k + 1)
    && (forall i :: 0 <= i < k ==> Continued(env, i))
    && Handled(env, k)
  }

  lemma ActIs(env: Env, k: nat, s: Turn, msgs: seq<Message>, actions: nat)
    requires ActsAs(env, k, s, actions)
    ensures var p := Act(env, k, s, msgs, actions, WorkAt(env, k));
      var e := if WorkAt(env, k).batch.escalations != [] then ByEscalation
        else ByDecision(DecisionOf(env.caps, QuestionAt(env, k)));
      && (p.Running? ==> RunsAs(env, k + 1, p.turn, p.actions))
      && (p.Stopped? ==> EndsAs(env, k, p.turn, e) && EndFits(env, k, e))
  {
    hide Worked, Concluded, Feedback, NextMessages, DecisionOf, OutboundOf, WorkAt, Surviving, Gate, CodeFor,
      Invocations, Executed, NonEmpty, Handled, ModelCallsUpTo, CostUpTo, AskedUpTo, VerdictEntry;
    var w := WorkAt(env, k);
    var s1 := Worked(env, k, s, w);
    WorkedIs(env, k, s, w);
    assert s1.says == SaidUpTo(env, k + 1) && s1.invoked == InvokedUpTo(env, k + 1);
    assert QuestionOf(env, k, s1, w) == QuestionAt(env, k);
    if w.batch.escalations == [] {
      ConcludedIs(env, k, s1, w);
      if DecisionOf(env.caps, QuestionAt(env, k)) != Again { ConcludedEntry(env, k, s1); }
      DecisionBlocked(env.caps, QuestionAt(env, k));
      assert Gate(env, k, w).block == None <==> !Blocked(env, k, w);
    }
  }

  lemma DecisionBlocked(caps: Caps, q: Ask7)
    ensures DecisionOf(caps, q) == Suspend <==> q.blocked
    ensures DecidedOutcome(DecisionOf(caps, q)) == SuspendPermission <==> q.blocked
    ensures CodeFor(caps, q) == None <==> DecisionOf(caps, q) == Suspend || DecisionOf(caps, q) == Again
  {
  }

  ghost function EndingOf(env: Env, k: nat, s: Turn, msgs: seq<Message>): Ending {
    if NoProgress(env, k, s, msgs) then ByNoProgress
    else if env.world.reply(k).CallFailed? then ByCallFailure
    else if env.world.iterationMs(k) > env.caps.maxIterationWallclockMs then ByDeadline
    else if Ambiguous(WorkAt(env, k).batch) then ByAmbiguity
    else if AskedUpTo(env, k + 1) > env.caps.maxTotalActions then ByActions
    else if WorkAt(env, k).batch.escalations != [] then ByEscalation
    else ByDecision(DecisionOf(env.caps, QuestionAt(env, k)))
  }

  lemma HandleIs(env: Env, k: nat, s: Turn, msgs: seq<Message>, actions: nat)
    requires s.iteration == k && s.code == None && s.outbound == None && s.approval == None
    requires s.modelCalls == ModelCallsUpTo(env, k + 1) && s.costPaise == CostUpTo(env, k + 1)
    requires s.says == SaidUpTo(env, k) && s.invoked == InvokedUpTo(env, k) && actions == AskedUpTo(env, k)
    requires forall i :: 0 <= i < k ==> Continued(env, i)
    requires env.world.reply(k).Replied? && env.world.iterationMs(k) <= env.caps.maxIterationWallclockMs
    ensures var p := Handle(env, k, s, msgs, actions, WorkAt(env, k));
      var e := if Ambiguous(WorkAt(env, k).batch) then ByAmbiguity
        else if AskedUpTo(env, k + 1) > env.caps.maxTotalActions then ByActions
        else if WorkAt(env, k).batch.escalations != [] then ByEscalation
        else ByDecision(DecisionOf(env.caps, QuestionAt(env, k)));
      && (p.Running? ==> RunsAs(env, k + 1, p.turn, p.actions))
      && (p.Stopped? ==> EndsAs(env, k, p.turn, e) && EndFits(env, k, e))
  {
    hide Act, WorkAt, Continued, QuestionAt, DecisionOf, ModelCallsUpTo, CostUpTo, SaidUpTo, InvokedUpTo, RunsAs;
    var b := WorkAt(env, k).batch;
    assert AskedUpTo(env, k + 1) == actions + |b.calls|;
    if !Ambiguous(b) && actions + |b.calls| <= env.caps.maxTotalActions {
      ActIs(env, k, s, msgs, actions + |b.calls|);
    }
  }

  lemma BrokenStreak(env: Env, k: nat, s: Turn, msgs: seq<Message>)
    requires NoProgress(env, k, s, msgs)
    ensures var t := Prepared(env, k, s, msgs); t.streak >= 1 && t.streak >= env.caps.maxNoProgress
  {
    hide DigestText, NeedsCompaction;
  }

  /** One iteration keeps the description of the running turn, or ends the turn as described. */
  lemma StepIs(env: Env, k: nat, s: Turn, msgs: seq<Message>, actions: nat)
    requires RunsAs(env, k, s, actions)
    ensures var p := Step(env, k, s, msgs, actions);
      var e := EndingOf(env, k, s, msgs);
      && (p.Running? ==> RunsAs(env, k + 1, p.turn, p.actions))
      && (p.Stopped? ==> EndsAs(env, k, p.turn, e) && EndFits(env, k, e))
  {
    hide Handle, Prepared, NoProgress, CompactedMessages, WorkOf, Continued, QuestionAt, DecisionOf, SaidUpTo,
      InvokedUpTo, AskedUpTo;
    PreparedIs(env, k, s, msgs);
    if NoProgress(env, k, s, msgs) { BrokenStreak(env, k, s, msgs); }
    var s1 := Prepared(env, k, s, msgs);
    if !NoProgress(env, k, s, msgs) && env.world.reply(k).Replied?
      && env.world.iterationMs(k) <= env.caps.maxIterationWallclockMs
    {
      var s2 := Recorded(s1, k, env.world.reply(k));
      assert s2.modelCalls == ModelCallsUpTo(env, k + 1) && s2.costPaise == CostUpTo(env, k + 1);
      HandleIs(env, k, s2, CompactedMessages(env, k, msgs), actions);
    }
  }

  /** The ended turn of a run, with the iteration and the way it ended in. */
  ghost predicate EndedAt(env: Env, k: nat, t: Turn, e: Ending) {
    && After(env, k).Running? && EndsAs(env, k, t, e) && EndFits(env, k, e)
    && e == EndingOf(env, k, After(env, k).turn, After(env, k).msgs)
  }

  lemma {:induction false} AfterIs(env: Env, n: nat)
    ensures var p := After(env, n);
      && (p.Running? ==> RunsAs(env, n, p.turn, p.actions))
      && (p.Stopped? ==> exists k, e :: 0 <= k < n && EndedAt(env, k, p.turn, e))
  {
    hide Step, RunsAs, EndsAs, EndFits;
    if n == 0 {
      StartIs(env);
    } else {
      AfterIs(env, n - 1);
      var p := After(env, n - 1);
      if p.Running? {
        StepIs(env, n - 1, p.turn, p.msgs, p.actions);
        if After(env, n).Stopped? {
          assert EndedAt(env, n - 1, After(env, n).turn, EndingOf(env, n - 1, p.turn, p.msgs));
        }
      }
    }
  }

  lemma StartIs(env: Env)
    ensures RunsAs(env, 0, FRESH_TURN, 0)
  {
  }
}
