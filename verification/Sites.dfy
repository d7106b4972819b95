/** The sites as the source runs them: loops over the calls that grow lists and journal
    on the mutable state. Each is proved to do what its specification function says. */
module Sites {
  import opened Text
  import opened Tags
  import opened HarnessState
  import opened SiteSpecs

  // ----- compaction -----

  lemma PartsSnoc(ps: seq<Option<string>>, j: nat)
    requires j < |ps|
    ensures PartsText(ps[..j + 1]) == PartsText(ps[..j]) + (match ps[j] case None => "" case Some(t) => t)
  {
    assert ps[..j + 1][..j] == ps[..j];
  }

  lemma DigestSnoc(msgs: seq<Message>, i: nat)
    requires i < |msgs|
    ensures DigestText(msgs[..i + 1]) == DigestText(msgs[..i]) + ContentText(msgs[i].content)
  {
    hide ContentText;
    assert msgs[..i + 1][..i] == msgs[..i];
  }

  lemma NoText()
    ensures PartsText([]) == "" && DigestText([]) == ""
  {
  }

  method EstimateChars(msgs: seq<Message>) returns (chars: nat)
    ensures chars == |DigestText(msgs)|
  {
    hide DigestText, PartsText;
    NoText();
    chars := 0;
    for i := 0 to |msgs|
      invariant chars == |DigestText(msgs[..i])|
    {
      DigestSnoc(msgs, i);
      match msgs[i].content
      case Plain(t) => chars := chars + |t|;
      case Other =>
      case Parts(ps) =>
        ghost var before := chars;
        for j := 0 to |ps|
          invariant chars == before + |PartsText(ps[..j])|
        {
          PartsSnoc(ps, j);
          if ps[j].Some? { chars := chars + |ps[j].value|; }
        }
        assert ps[..|ps|] == ps;
    }
    assert msgs[..|msgs|] == msgs;
  }

  method MaybeCompact(env: Env, k: nat, state: State, msgs: seq<Message>) returns (r: seq<Message>)
    modifies state
    ensures state.Snapshot() == CompactedTurn(old(state.Snapshot()), msgs)
    ensures r == CompactedMessages(env, k, msgs)
  {
    hide DigestText, TranscriptLine, Join, Strip;
    var chars := EstimateChars(msgs);
    var est := chars / 4;
    if est < TOKEN_BUDGET || |msgs| < 6 {
      state.AppendSite(CompactionSite, Skip, Amount(est));
      return msgs;
    }
    var head, tail := msgs[..|msgs| - 4], msgs[|msgs| - 4..];
    var transcript: seq<string> := [];
    for i := 0 to |head|
      invariant transcript == TranscriptLines(head[..i])
      invariant unchanged(state)
    {
      assert head[..i + 1][..i] == head[..i];
      var line := TranscriptLine(head[i]);
      if line.Some? { transcript := transcript + [line.value]; }
    }
    assert head[..|head|] == head;
    var summary := env.world.summary(k, Take(Join("\n", transcript), SUMMARY_INPUT));
    state.AppendSite(CompactionSite, Ok, Limit(|msgs| - 4, est));
    return [SummaryMessage(summary)] + tail;
  }

  // ----- permission -----

  /** The loop over the calls: it stops at the first one that needs approval. */
  method GateCalls(env: Env, k: nat, calls: seq<Call>)
    returns (cleared: seq<Call>, denied: seq<Denied>, stopped: bool, at: nat)
    ensures at == FirstBlocked(env, k, calls) && stopped == (at < |calls|)
    ensures cleared == ClearedOf(env, k, calls[..at])
    ensures denied == Denials(env, k, DeniedCalls(env, k, calls[..at]))
  {
    hide VerdictOf, DenialOf;
    cleared, denied, stopped, at := [], [], false, 0;
    while at < |calls|
      invariant at <= |calls|
      invariant FirstBlocked(env, k, calls) == at + FirstBlocked(env, k, calls[at..])
      invariant cleared == ClearedOf(env, k, calls[..at])
      invariant denied == Denials(env, k, DeniedCalls(env, k, calls[..at]))
      decreases |calls| - at
    {
      var call := calls[at];
      assert calls[..at + 1][..at] == calls[..at] && calls[at..][1..] == calls[at + 1..];
      var verdict := VerdictOf(env, k, call);
      match verdict {
        case Unknown => denied := denied + [DenialOf(env, k, call)];
        case Disabled => denied := denied + [DenialOf(env, k, call)];
        case NeedsApproval(_) =>
          stopped := true;
          return;
        case Clear(_) => cleared := cleared + [call];
      }
      at := at + 1;
    }
  }

  method GateSite(env: Env, k: nat, state: State, calls: seq<Call>, approvals: seq<Approval>)
    returns (cleared: seq<Call>, denied: seq<Denied>, shortCircuit: bool)
    modifies state
    ensures var g := GateOf(env, k, calls, approvals);
      && state.Snapshot() == GatedTurn(env, k, old(state.Snapshot()), g)
      && cleared == g.cleared && denied == Denials(env, k, g.denied) && shortCircuit == g.block.Some?
  {
    hide FirstBlocked, ClearedOf, DeniedCalls, VerdictOf, DenialOf;
    if approvals != [] {
      var ra := approvals[0];
      state.approval := Some(ra);
      state.AppendSite(PermissionSite, SuspendOutcome(ra.kind), Capability(ra.capability));
      return [], [], true;
    }
    var at;
    cleared, denied, shortCircuit, at := GateCalls(env, k, calls);
    if shortCircuit {
      var call := calls[at];
      var a := ApprovalFor(env, VerdictOf(env, k, call).kind, call);
      state.approval := Some(a);
      state.AppendSite(PermissionSite, SuspendOutcome(a.kind), Capability(a.capability));
    } else {
      state.AppendSite(PermissionSite, Ok, Gated(CallNames(cleared), denied));
    }
  }

  // ----- memory verification -----

  method VerifySite(env: Env, k: nat, state: State, cleared: seq<Call>, recalls: seq<string>)
    returns (still: seq<Call>, corrections: seq<Record>, recallResults: seq<Record>)
    modifies state
    ensures state.Snapshot() == MemoryTurn(env, k, old(state.Snapshot()), cleared, recalls)
    ensures still == KeptCalls(env, k, cleared)
    ensures corrections == Corrections(env, k, cleared)
    ensures recallResults == RecallRecords(env, k, recalls)
  {
    hide Objection, Correction, RecallRecord;
    still, corrections := [], [];
    for i := 0 to |cleared|
      invariant still == KeptCalls(env, k, cleared[..i])
      invariant corrections == Corrections(env, k, cleared[..i])
      invariant unchanged(state)
    {
      assert cleared[..i + 1][..i] == cleared[..i];
      var objection := Objection(env, k, i, cleared[i]);
      if objection.None? {
        still := still + [cleared[i]];
      } else {
        corrections := corrections + [Correction(cleared[i], objection.value)];
      }
    }
    assert cleared[..|cleared|] == cleared;
    recallResults := [];
    for i := 0 to |recalls|
      invariant recallResults == RecallRecords(env, k, recalls)[..i]
      invariant unchanged(state)
    {
      recallResults := recallResults + [RecallRecord(env, k, i, recalls[i])];
    }
    state.AppendSite(MemorySite, if corrections == [] then Ok else OkWithCorrections,
      Verified(Claims(cleared), |corrections|, |recalls|));
  }

  // ----- tools -----

  method Invoke(env: Env, k: nat, j: nat, state: State, call: Call) returns (r: ToolResult)
    modifies state`invoked
    ensures r == InvokeResult(env, k, j, call)
    ensures state.invoked == old(state.invoked) + [Invocation(k, call)]
  {
    ghost var record := Invocation(k, call);
    state.invoked := state.invoked + [record];
    r := InvokeResult(env, k, j, call);
  }

  method Partition(calls: seq<Call>) returns (par: seq<Call>, sq: seq<Call>)
    ensures par == Parallel(calls) && sq == Sequential(calls)
  {
    par, sq := [], [];
    for i := 0 to |calls|
      invariant par == Parallel(calls[..i]) && sq == Sequential(calls[..i])
    {
      assert calls[..i + 1][..i] == calls[..i];
      if calls[i].sideEffect { sq := sq + [calls[i]]; } else { par := par + [calls[i]]; }
    }
    assert calls[..|calls|] == calls;
  }

  method RunParallel(env: Env, k: nat, state: State, par: seq<Call>) returns (results: seq<Record>)
    modifies state`invoked
    ensures results == Records(env, k, 0, par)
    ensures state.invoked == old(state.invoked) + Invocations(k, par)
  {
    hide InvokeResult, RecordOf;
    results := [];
    for i := 0 to |par|
      invariant results == Records(env, k, 0, par)[..i]
      invariant state.invoked == old(state.invoked) + Invocations(k, par)[..i]
    {
      var r := Invoke(env, k, i, state, par[i]);
      results := results + [RecordOf(par[i], r)];
    }
  }

  lemma EntriesSnoc(env: Env, k: nat, base: nat, sq: seq<Call>, i: nat)
    requires i < |sq|
    ensures var r := RecordOf(sq[i], InvokeResult(env, k, base + i, sq[i]));
      ToolEntries(env, k, base, sq[..i + 1]) == ToolEntries(env, k, base, sq[..i])
        + [SiteEntry(ToolsSite, k, Intent, IntentOf(sq[i])),
           SiteEntry(ToolsSite, k, if r.ok then Ok else ToolError, ResultOf(sq[i].name, r))]
  {
    hide InvokeResult, RecordOf;
    assert sq[..i + 1][..i] == sq[..i];
  }

  lemma OneMoreDone(env: Env, k: nat, base: nat, sq: seq<Call>, i: nat)
    requires i < |sq|
    ensures Records(env, k, base, sq)[..i + 1]
      == Records(env, k, base, sq)[..i] + [RecordOf(sq[i], InvokeResult(env, k, base + i, sq[i]))]
    ensures Invocations(k, sq)[..i + 1] == Invocations(k, sq)[..i] + [Invocation(k, sq[i])]
  {
    hide InvokeResult, RecordOf;
  }

  method RunSequential(env: Env, k: nat, base: nat, state: State, sq: seq<Call>) returns (results: seq<Record>)
    requires state.iteration == k
    modifies state`invoked, state`sites
    ensures results == Records(env, k, base, sq)
    ensures state.invoked == old(state.invoked) + Invocations(k, sq)
    ensures state.sites == old(state.sites) + ToolEntries(env, k, base, sq)
  {
    hide InvokeResult, Records, Invocations, ToolEntries;
    NoEntries(env, k, base);
    assert sq[..0] == [];
    results := [];
    for i := 0 to |sq|
      invariant results == Records(env, k, base, sq)[..i]
      invariant state.invoked == old(state.invoked) + Invocations(k, sq)[..i]
      invariant state.sites == old(state.sites) + ToolEntries(env, k, base, sq[..i])
    {
      EntriesSnoc(env, k, base, sq, i);
      OneMoreDone(env, k, base, sq, i);
      state.AppendSite(ToolsSite, Intent, IntentOf(sq[i]));
      var r := Invoke(env, k, base + i, state, sq[i]);
      var record := RecordOf(sq[i], r);
      results := results + [record];
      state.AppendSite(ToolsSite, if record.ok then Ok else ToolError, ResultOf(sq[i].name, record));
    }
    assert sq[..|sq|] == sq;
  }

  method ExecuteSite(env: Env, k: nat, state: State, cleared: seq<Call>, denied: seq<Denied>)
    returns (results: seq<Record>)
    requires state.iteration == k
    modifies state
    ensures state.Snapshot() == ToolsTurn(env, k, old(state.Snapshot()), cleared, denied)
    ensures results == ToolResults(env, k, cleared, denied)
  {
    hide Records, ToolEntries, Invocations;
    if cleared == [] && denied == [] {
      state.AppendSite(ToolsSite, Skip, NoPayload);
      EmptyResults(env, k);
      return [];
    }
    results := DeniedRecords(denied);
    var par, sq := Partition(cleared);
    var first := RunParallel(env, k, state, par);
    results := results + first;
    var second := RunSequential(env, k, |par|, state, sq);
    results := results + second;
    if sq == [] {
      NoEntries(env, k, |par|);
      state.AppendSite(ToolsSite, Ok, CallsOf(CallNames(cleared), |results|));
    }
  }

  lemma EmptyResults(env: Env, k: nat)
    ensures ToolResults(env, k, [], []) == []
  {
  }

  lemma NoEntries(env: Env, k: nat, base: nat)
    ensures ToolEntries(env, k, base, []) == [] && Records(env, k, base, []) == [] && Invocations(k, []) == []
  {
  }

  // ----- swarm, critic -----

  method SwarmRun(env: Env, k: nat, state: State, swarms: seq<Swarm>) returns (results: seq<Record>)
    modifies state
    ensures state.Snapshot() == SwarmTurn(old(state.Snapshot()), swarms)
    ensures results == SwarmRecords(env, k, swarms)
  {
    hide SwarmRecord;
    results := [];
    if swarms == [] {
      state.AppendSite(SwarmSite, Skip, NoPayload);
      return;
    }
    for i := 0 to |swarms|
      invariant results == SwarmRecords(env, k, swarms)[..i]
      invariant unchanged(state)
    {
      results := results + [SwarmRecord(env, k, i, swarms[i])];
    }
    state.AppendSite(SwarmSite, Ok, CallsOf(AgentNames(swarms), |results|));
  }

  method CriticReview(env: Env, k: nat, state: State, b: Batch) returns (correction: seq<Record>)
    modifies state
    ensures state.Snapshot() == CriticTurn(env, k, old(state.Snapshot()), b)
    ensures correction == CriticRecords(CriticNote(env, k, b))
  {
    hide ReadVerdict;
    if !env.policy.criticEnabled || (b.says == [] && b.asks == []) {
      state.AppendSite(CriticSite, Skip, NoPayload);
      return [];
    }
    var verdict := ReadVerdict(env.world.critic(k));
    if verdict.Some? {
      state.AppendSite(CriticSite, Revise, Reason(verdict.value));
    } else {
      state.AppendSite(CriticSite, Ok, NoPayload);
    }
    correction := CriticRecords(verdict);
  }

  // ----- output -----

  method BuildOutbound(state: State, says: seq<string>, asks: seq<Ask>)
    modifies state`outbound
    ensures state.outbound == OutboundOf(says, asks)
  {
    hide Join, Take;
    if asks != [] {
      var ask := asks[|asks| - 1];
      if ask.items != [] {
        state.outbound := Some(
          ListMessage(ask.bodyText, ask.buttonText, ask.sectionTitle, ClipItems(Take(ask.items, 10))));
      } else {
        state.outbound := Some(ButtonsMessage(ask.bodyText, ClipButtons(Take(ask.buttons, 3))));
      }
      return;
    }
    var lines: seq<string> := [];
    for i := 0 to |says|
      invariant lines == NonEmpty(says[..i])
    {
      assert says[..i + 1][..i] == says[..i];
      if says[i] != "" { lines := lines + [says[i]]; }
    }
    assert says[..|says|] == says;
    if lines == [] {
      state.outbound := None;
      return;
    }
    state.outbound := Some(TextMessage(Join("\n", lines)));
  }

  method Decide(caps: Caps, state: State, q: Ask7) returns (outcome: TurnOutcome)
    modifies state
    ensures state.Snapshot() == DecidedTurn(caps, old(state.Snapshot()), q)
    ensures outcome == DecidedOutcome(DecisionOf(caps, q))
  {
    hide OutboundOf;
    if q.blocked {
      state.outcome := SuspendPermission;
      state.AppendSite(OutputSite, Forced(state.outcome), NoPayload);
      return state.outcome;
    }
    if q.iteration >= caps.maxIterations {
      state.outcome := Expire;
      state.AppendSite(OutputSite, ExpireIterations, Limit(q.iteration, caps.maxIterations));
      BuildOutbound(state, q.says, q.asks);
      return state.outcome;
    }
    if q.elapsedMs >= caps.maxWallclockMs {
      state.outcome := Expire;
      state.AppendSite(OutputSite, ExpireWallclock, Limit(q.elapsedMs, caps.maxWallclockMs));
      BuildOutbound(state, q.says, q.asks);
      return state.outcome;
    }
    if q.costPaise >= caps.maxCostPaise {
      state.outcome := Expire;
      state.AppendSite(OutputSite, ExpireCost, Limit(q.costPaise, caps.maxCostPaise));
      BuildOutbound(state, q.says, q.asks);
      return state.outcome;
    }
    var implicitFinal := q.cleared == [] && q.swarms == [] && (q.says != [] || q.asks != []) && !q.hasFinal;
    if q.hasFinal || implicitFinal {
      state.outcome := Finalize;
      BuildOutbound(state, q.says, q.asks);
      state.AppendSite(OutputSite, if q.hasFinal then FinalizeExplicit else FinalizeImplicit, Amount(|q.says|));
      return state.outcome;
    }
    state.outcome := Iterate;
    state.AppendSite(OutputSite, Iterated, CallsOf(CallNames(q.cleared), |q.swarms|));
    return state.outcome;
  }
}
