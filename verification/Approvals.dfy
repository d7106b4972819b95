/** When a turn waits for its owner, for what, and which calls are refused, from the risk of the
    calls alone. */
module Approvals {
  import opened Text
  import opened Tags
  import opened HarnessState
  import opened SiteSpecs
  import opened LoopSpec
  import opened Transcript
  import opened CallLemmas
  import opened Runs
  import opened Batches

  // ----- the risk of a name -----

  /** An override that names a level decides, whatever the table says; any other is ignored; and a
      capability that is in neither is a medium risk. */
  lemma ClassifyExactly(p: Policy, name: string)
    ensures name in p.riskOverrides && p.riskOverrides[name] == "low" ==> Classify(p, name) == Low
    ensures name in p.riskOverrides && p.riskOverrides[name] == "medium" ==> Classify(p, name) == Medium
    ensures name in p.riskOverrides && p.riskOverrides[name] == "high" ==> Classify(p, name) == High
    ensures name in p.riskOverrides && p.riskOverrides[name] == "deny" ==> Classify(p, name) == Deny
    ensures !(name in p.riskOverrides && p.riskOverrides[name] in {"low", "medium", "high", "deny"}) ==>
      Classify(p, name) == if name in p.defaultRisk then p.defaultRisk[name] else Medium
  {
  }

  /** Without an override, a tool of the tenant is a high risk when it has side effects, even one
      that is only read, or when it deletes; reading is a low risk and the rest is medium. */
  lemma ToolRiskExactly(t: DynamicTool)
    ensures t.riskOverride.Some? ==> ClassifyDynamic(t) == t.riskOverride.value
    ensures t.riskOverride.None? ==>
      && (ClassifyDynamic(t) == High <==> t.sideEffect || t.verb == Delete)
      && (ClassifyDynamic(t) == Low <==> !t.sideEffect && t.verb == Get)
      && ClassifyDynamic(t) != Deny
  {
  }

  /** A tool of the tenant, callable only through a locked connection, decides for its name. */
  lemma RiskExactly(env: Env, k: nat, name: string)
    ensures Known(env, k, name) <==>
      || name in env.policy.defaultRisk || name in env.policy.builtIn
      || (HasTenant(env) && env.world.apiLocked(k) && name in env.world.tools(k))
    ensures RiskOf(env, k, name) ==
      if HasTenant(env) && env.world.apiLocked(k) && name in env.world.tools(k)
      then ClassifyDynamic(env.world.tools(k)[name]) else Classify(env.policy, name)
  {
    hide Classify, ClassifyDynamic;
  }

  // ----- the gate -----

  /** Only the owner can let the call run: a high risk, or a medium one on the policy's list. */
  predicate NeedsOwner(env: Env, k: nat, c: Call) {
    && Known(env, k, c.name)
    && (RiskOf(env, k, c.name) == High
        || (RiskOf(env, k, c.name) == Medium && c.name in env.policy.requiresApproval))
  }

  predicate Refused(env: Env, k: nat, c: Call) {
    !Known(env, k, c.name) || RiskOf(env, k, c.name) == Deny
  }

  /** What the owner is asked about a call. */
  function RequestFor(env: Env, k: nat, c: Call): Approval {
    Approval(if RiskOf(env, k, c.name) == High then HighRiskCapability else PolicyRequired,
      c.name, env.world.labelFor(c), c.args, c.correlationId)
  }

  lemma VerdictMeans(env: Env, k: nat, c: Call)
    ensures VerdictOf(env, k, c).NeedsApproval? <==> NeedsOwner(env, k, c)
    ensures IsDenied(VerdictOf(env, k, c)) <==> Refused(env, k, c)
    ensures VerdictOf(env, k, c).Clear? <==> !NeedsOwner(env, k, c) && !Refused(env, k, c)
    ensures NeedsOwner(env, k, c) ==> ApprovalFor(env, VerdictOf(env, k, c).kind, c) == RequestFor(env, k, c)
    ensures DenialOf(env, k, c) == Denied(c.name,
      if !Known(env, k, c.name) then "unknown capability: " + c.name else "capability is disabled in v1")
  {
    hide Known, RiskOf;
  }

  ghost predicate FirstToAsk(env: Env, k: nat, calls: seq<Call>, n: nat) {
    n < |calls| && NeedsOwner(env, k, calls[n]) && forall j :: 0 <= j < n ==> !NeedsOwner(env, k, calls[j])
  }

  lemma FirstBlockedMeans(env: Env, k: nat, calls: seq<Call>)
    ensures FirstBlocked(env, k, calls) < |calls| <==> exists c :: c in calls && NeedsOwner(env, k, c)
    ensures forall n: nat :: FirstToAsk(env, k, calls, n) ==> FirstBlocked(env, k, calls) == n
  {
    hide VerdictOf, NeedsOwner, FirstBlocked;
    forall c ensures VerdictOf(env, k, c).NeedsApproval? <==> NeedsOwner(env, k, c) { VerdictMeans(env, k, c); }
    var n := FirstBlocked(env, k, calls);
    if n < |calls| { assert calls[n] in calls && NeedsOwner(env, k, calls[n]); }
  }

  lemma {:induction false} DeniedMeans(env: Env, k: nat, calls: seq<Call>, c: Call)
    ensures c in DeniedCalls(env, k, calls) <==> c in calls && Refused(env, k, c)
    ensures c in ClearedOf(env, k, calls) <==> c in calls && !Refused(env, k, c) && !NeedsOwner(env, k, c)
  {
    hide VerdictOf, Refused, NeedsOwner, ClearedOf, DeniedCalls;
    if calls == [] {
      NothingSplit(env, k);
    } else {
      var rest, last := calls[..|calls| - 1], calls[|calls| - 1];
      DeniedMeans(env, k, rest, c);
      GateSnoc(env, k, calls);
      VerdictMeans(env, k, last);
      assert calls == rest + [last];
    }
  }

  lemma NothingSplit(env: Env, k: nat)
    ensures ClearedOf(env, k, []) == [] && DeniedCalls(env, k, []) == []
  {
  }

  /** The gate waits for the owner exactly when the reply asks for it or a kept call needs it: for
      the first request, or else for the first such call. When it does not wait, it refuses the
      calls that are unknown or disabled and clears all others. */
  lemma GateExactly(env: Env, k: nat, w: Work)
    ensures Blocked(env, k, w) <==> w.batch.approvals != [] || exists c :: c in w.kept && NeedsOwner(env, k, c)
    ensures w.batch.approvals != [] ==> Gate(env, k, w) == GateResult([], [], Some(w.batch.approvals[0]))
    ensures forall n: nat :: w.batch.approvals == [] && FirstToAsk(env, k, w.kept, n) ==>
      Gate(env, k, w).block == Some(RequestFor(env, k, w.kept[n]))
    ensures forall c :: !Blocked(env, k, w) ==>
      && (c in Gate(env, k, w).denied <==> c in w.kept && Refused(env, k, c))
      && (c in Gate(env, k, w).cleared <==> c in w.kept && !Refused(env, k, c))
  {
    hide VerdictOf, NeedsOwner, Refused, FirstBlocked, ClearedOf, DeniedCalls, RequestFor;
    FirstBlockedMeans(env, k, w.kept);
    forall n: nat | FirstToAsk(env, k, w.kept, n) && w.batch.approvals == []
      ensures Gate(env, k, w).block == Some(RequestFor(env, k, w.kept[n]))
    {
      VerdictMeans(env, k, w.kept[n]);
    }
    if !Blocked(env, k, w) {
      OpenGate(env, k, w);
      forall c
        ensures c in Gate(env, k, w).denied <==> c in w.kept && Refused(env, k, c)
        ensures c in Gate(env, k, w).cleared <==> c in w.kept && !Refused(env, k, c)
      {
        DeniedMeans(env, k, w.kept, c);
      }
    }
  }

  // ----- whole runs -----

  /** The first request for approval among the events. */
  ghost predicate FirstRequest(es: seq<Event>, i: nat) {
    i < |es| && es[i].RequestApproval? && forall j :: 0 <= j < i ==> !es[j].RequestApproval?
  }

  lemma RequestsMeant(es: seq<Event>)
    ensures BatchOf(es).approvals != [] <==> exists e :: e in es && e.RequestApproval?
    ensures forall i: nat :: FirstRequest(es, i) ==>
      && BatchOf(es).approvals != []
      && BatchOf(es).approvals[0] ==
         Approval(ExplicitRequest, es[i].capability, es[i].actionLabel, es[i].payload, None)
  {
    hide Pick;
    PickFirst(es, AsApproval);
    if exists e :: e in es && e.RequestApproval? {
      assert exists e :: e in es && AsApproval(e).Some?;
    }
    forall i: nat | FirstRequest(es, i)
      ensures BatchOf(es).approvals != []
      ensures BatchOf(es).approvals[0] ==
        Approval(ExplicitRequest, es[i].capability, es[i].actionLabel, es[i].payload, None)
    {
      assert es[i] in es && AsApproval(es[i]).Some?;
      var n :| 0 <= n < |es| && AsApproval(es[n]) == Some(Pick(es, AsApproval)[0])
        && forall j :: 0 <= j < n ==> AsApproval(es[j]) == None;
      assert n == i;
    }
  }

  /** The turn reached the output decision of its last reply. */
  ghost predicate Decided(env: Env, t: Turn) {
    env.caps.maxIterations >= 1 && t.code !in HALTING_CODES && t.code != Some(CriticEscalated)
  }

  lemma DecidedEnds(env: Env) returns (k: nat)
    requires Decided(env, Result(env))
    ensures EndsRun(env, k, ByDecision(DecisionOf(env.caps, QuestionAt(env, k)))) && Result(env).iteration == k
  {
    hide Result, QuestionAt, DecisionOf, CodeFor, EndOutbound, EndApproval, ModelCallsUpTo, SaidUpTo, InvokedUpTo,
      CostUpTo, EndingOf, After, Handled;
    EveryRunEnds(env);
    var n, e :| EndsRun(env, n, e);
    k := n;
    assert EndsAs(env, k, Result(env), e) && EndFits(env, k, e);
  }

  lemma SuspendEnds(env: Env, k: nat)
    requires EndsRun(env, k, ByDecision(DecisionOf(env.caps, QuestionAt(env, k))))
    ensures Result(env).outcome == SuspendPermission <==> Blocked(env, k, WorkAt(env, k))
    ensures Result(env).approval == Gate(env, k, WorkAt(env, k)).block
  {
    hide Result, WorkAt, Surviving, Blocked, Gate, CodeFor, EndOutbound, ModelCallsUpTo, SaidUpTo, InvokedUpTo,
      CostUpTo, EndingOf, After, Handled, DecisionOf, QuestionAt;
    DecisionBlocked(env.caps, QuestionAt(env, k));
    assert EndsAs(env, k, Result(env), ByDecision(DecisionOf(env.caps, QuestionAt(env, k))));
    assert QuestionAt(env, k).blocked == Blocked(env, k, WorkAt(env, k)) by { QuestionBlocked(env, k); }
  }

  lemma QuestionBlocked(env: Env, k: nat)
    ensures QuestionAt(env, k).blocked == Blocked(env, k, WorkAt(env, k))
  {
    hide WorkAt, Surviving, Blocked;
  }

  /** The reply asks for approval itself. */
  ghost predicate Requests(env: Env, k: nat) {
    exists e :: e in EventsAt(env, k) && e.RequestApproval?
  }

  /** A call of the reply that the trim kept needs the owner. */
  ghost predicate NeedsOwnerAt(env: Env, k: nat) {
    exists c :: c in WorkAt(env, k).kept && NeedsOwner(env, k, c)
  }

  /** What the owner is asked first in iteration `k`. */
  ghost predicate AskedFirst(env: Env, k: nat, a: Approval) {
    var es, kept := EventsAt(env, k), WorkAt(env, k).kept;
    && (forall i: nat :: FirstRequest(es, i) ==>
        a == Approval(ExplicitRequest, es[i].capability, es[i].actionLabel, es[i].payload, None))
    && (forall n: nat :: !Requests(env, k) && FirstToAsk(env, k, kept, n) ==> a == RequestFor(env, k, kept[n]))
  }

  lemma BlockedMeans(env: Env, k: nat)
    ensures Blocked(env, k, WorkAt(env, k)) <==> Requests(env, k) || NeedsOwnerAt(env, k)
    ensures Blocked(env, k, WorkAt(env, k)) ==> AskedFirst(env, k, Gate(env, k, WorkAt(env, k)).block.value)
  {
    hide NeedsOwner, Gate, BatchOf, EventsOf, KeptAfterTrim, RequestFor, FirstRequest, FirstToAsk;
    GateExactly(env, k, WorkAt(env, k));
    RequestsMeant(EventsAt(env, k));
  }

  /** A turn that reaches the output decision of its last reply waits for its owner if and only if
      that reply asks for approval, or one of its kept calls is a known high risk, or a known medium
      risk on the policy's list. It waits for the first request, or else for the first such call. */
  lemma SuspendsExactly(env: Env)
    requires Decided(env, Result(env))
    ensures var t := Result(env); var k := t.iteration;
      && (t.outcome == SuspendPermission <==> Requests(env, k) || NeedsOwnerAt(env, k))
      && (t.outcome == SuspendPermission ==> t.approval.Some? && AskedFirst(env, k, t.approval.value))
  {
    hide Result, EndsRun, Blocked, Gate, DecisionOf, QuestionAt, WorkAt, Requests, NeedsOwnerAt, AskedFirst;
    var k := DecidedEnds(env);
    SuspendEnds(env, k);
    BlockedMeans(env, k);
    OutcomeExact(env);
  }
}
