/** What each entry of the journal says, by its site, from what happened in its iteration. */
module Entries {
  import opened Text
  import opened Tags
  import opened HarnessState
  import opened SiteSpecs
  import opened LoopSpec
  import opened Transcript
  import opened CallLemmas
  import opened Runs
  import opened Journal
  import opened Batches
  import opened Approvals
  import opened Decisions

  // ----- permission -----

  function Cleared(env: Env, k: nat): seq<Call> { Gate(env, k, WorkAt(env, k)).cleared }

  ghost predicate TellsCleared(env: Env, k: nat, names: seq<string>) {
    forall name :: name in names <==>
      exists c :: c in WorkAt(env, k).kept && c.name == name && !Refused(env, k, c) && !NeedsOwner(env, k, c)
  }

  ghost predicate TellsDenied(env: Env, k: nat, ds: seq<Denied>) {
    forall d :: d in ds <==> exists c :: c in WorkAt(env, k).kept && Refused(env, k, c) && d == Refusal(env, k, c)
  }

  function Refusal(env: Env, k: nat, c: Call): Denied {
    Denied(c.name, if !Known(env, k, c.name) then "unknown capability: " + c.name else "capability is disabled in v1")
  }

  /** The first request, or the first call that needs the owner and why; else the names that were
      cleared and those that were refused, each kept call once. */
  ghost predicate PermissionTells(env: Env, e: SiteEntry) {
    var k := e.iteration; var kept := WorkAt(env, k).kept;
    if Requests(env, k) then
      && e.outcome == SuspendExplicit
      && forall i: nat :: FirstRequest(EventsAt(env, k), i) ==> e.payload == Capability(EventsAt(env, k)[i].capability)
    else if NeedsOwnerAt(env, k) then
      forall n: nat :: FirstToAsk(env, k, kept, n) ==>
        && e.outcome == (if RiskOf(env, k, kept[n].name) == High then SuspendHighRisk else SuspendPolicy)
        && e.payload == Capability(kept[n].name)
    else
      && e.outcome == Ok && e.payload.Gated? && |e.payload.cleared| + |e.payload.denied| == |kept|
      && TellsCleared(env, k, e.payload.cleared) && TellsDenied(env, k, e.payload.denied)
  }

  lemma NamesMean(calls: seq<Call>, name: string)
    ensures name in CallNames(calls) <==> exists c :: c in calls && c.name == name
  {
    if name in CallNames(calls) {
      var i :| 0 <= i < |calls| && CallNames(calls)[i] == name;
      assert calls[i] in calls;
    }
    if c :| c in calls && c.name == name {
      var i :| 0 <= i < |calls| && calls[i] == c;
      assert CallNames(calls)[i] == name;
    }
  }

  lemma DenialsMean(env: Env, k: nat, calls: seq<Call>, d: Denied)
    ensures d in Denials(env, k, calls) <==> exists c :: c in calls && d == Refusal(env, k, c)
  {
    hide VerdictOf, Known;
    forall c ensures DenialOf(env, k, c) == Refusal(env, k, c) { VerdictMeans(env, k, c); }
    if d in Denials(env, k, calls) {
      var i :| 0 <= i < |calls| && Denials(env, k, calls)[i] == d;
      assert calls[i] in calls;
    }
    if c :| c in calls && d == Refusal(env, k, c) {
      var i :| 0 <= i < |calls| && calls[i] == c;
      assert Denials(env, k, calls)[i] == d;
    }
  }

  lemma {:induction false} SharedOut(env: Env, k: nat, calls: seq<Call>)
    requires forall c :: c in calls ==> !NeedsOwner(env, k, c)
    ensures |ClearedOf(env, k, calls)| + |DeniedCalls(env, k, calls)| == |calls|
  {
    hide VerdictOf, NeedsOwner, ClearedOf, DeniedCalls;
    if calls == [] {
      NothingSplit(env, k);
    } else {
      var rest, last := calls[..|calls| - 1], calls[|calls| - 1];
      assert calls == rest + [last];
      SharedOut(env, k, rest);
      GateSnoc(env, k, calls);
      VerdictMeans(env, k, last);
      VerdictSplit(env, k, last);
    }
  }

  lemma VerdictSplit(env: Env, k: nat, c: Call)
    ensures var v := VerdictOf(env, k, c);
      !v.NeedsApproval? ==> (IsDenied(v) <==> !v.Clear?)
  {
    hide VerdictOf;
  }

  lemma OpenTells(env: Env, k: nat)
    requires !Blocked(env, k, WorkAt(env, k))
    ensures PermissionTells(env, GateEntry(env, k, WorkAt(env, k)))
  {
    hide WorkAt, Gate, NeedsOwner, Refused, Denials, CallNames, ClearedOf, DeniedCalls, Refusal, Requests;
    var w := WorkAt(env, k);
    var g := Gate(env, k, w);
    GateExactly(env, k, w);
    BlockedMeans(env, k);
    OpenGate(env, k, w);
    SharedOut(env, k, w.kept);
    forall name
      ensures name in CallNames(g.cleared) <==>
        exists c :: c in w.kept && c.name == name && !Refused(env, k, c) && !NeedsOwner(env, k, c)
    {
      NamesMean(g.cleared, name);
    }
    forall d
      ensures d in Denials(env, k, g.denied) <==>
        exists c :: c in w.kept && Refused(env, k, c) && d == Refusal(env, k, c)
    {
      DenialsMean(env, k, g.denied, d);
    }
  }

  lemma BlockedTells(env: Env, k: nat)
    requires Blocked(env, k, WorkAt(env, k))
    ensures PermissionTells(env, GateEntry(env, k, WorkAt(env, k)))
  {
    hide WorkAt, Gate, NeedsOwner, RiskOf, FirstRequest, FirstToAsk, CallNames, Denials;
    BlockedMeans(env, k);
    var w := WorkAt(env, k);
    var a := Gate(env, k, w).block.value;
    if Requests(env, k) {
      RequestKind(env, k);
    }
  }

  lemma RequestKind(env: Env, k: nat)
    requires Requests(env, k)
    ensures var b := Gate(env, k, WorkAt(env, k)).block; b.Some? && b.value.kind == ExplicitRequest
  {
    hide BatchOf, EventsOf, NeedsOwner, Gate, KeptAfterTrim, RequestFor;
    var es := EventsAt(env, k);
    RequestsMeant(es);
    GateExactly(env, k, WorkAt(env, k));
    var e :| e in es && e.RequestApproval?;
    var i :| 0 <= i < |es| && es[i] == e;
    var n := FirstRequestAt(es, i);
  }

  lemma FirstRequestAt(es: seq<Event>, i: nat) returns (n: nat)
    requires i < |es| && es[i].RequestApproval?
    ensures FirstRequest(es, n)
  {
    n := 0;
    while !es[n].RequestApproval?
      invariant n <= i && forall j :: 0 <= j < n ==> !es[j].RequestApproval?
      decreases i - n
    {
      n := n + 1;
    }
  }

  lemma GateTells(env: Env, k: nat)
    ensures PermissionTells(env, GateEntry(env, k, WorkAt(env, k)))
  {
    hide WorkAt, Gate, Blocked, PermissionTells, GateEntry;
    if Blocked(env, k, WorkAt(env, k)) { BlockedTells(env, k); } else { OpenTells(env, k); }
  }

  // ----- memory -----

  /** The cleared calls that claim something, and those whose claim was refuted. */
  ghost function Claiming(calls: seq<Call>): set<nat> { set n: nat | n < |calls| && calls[n].memoryClaim }

  ghost function RefutedAt(env: Env, k: nat, calls: seq<Call>): set<nat> {
    set n: nat | n < |calls| && calls[n].memoryClaim && env.world.claim(k, n).Some?
  }

  ghost predicate MemoryTells(env: Env, e: SiteEntry) {
    var k := e.iteration; var cleared := Cleared(env, k);
    && e.outcome == (if RefutedAt(env, k, cleared) == {} then Ok else OkWithCorrections)
    && e.payload
      == Verified(|Claiming(cleared)|, |RefutedAt(env, k, cleared)|, |WorkAt(env, k).batch.recalls|)
  }

  lemma {:induction false} ClaimsCounted(calls: seq<Call>)
    ensures Claims(calls) == |Claiming(calls)|
  {
    if calls == [] {
      assert Claiming(calls) == {};
    } else {
      var n := |calls| - 1;
      ClaimsCounted(calls[..n]);
      assert Claiming(calls) == Claiming(calls[..n]) + (if calls[n].memoryClaim then {n} else {});
    }
  }

  lemma {:induction false} CorrectionsCounted(env: Env, k: nat, calls: seq<Call>)
    ensures |Corrections(env, k, calls)| == |RefutedAt(env, k, calls)|
  {
    hide RefutedAt, Objection, Correction;
    if calls == [] {
      assert RefutedAt(env, k, calls) == {} by { NoneRefuted(env, k); }
    } else {
      var n := |calls| - 1;
      CorrectionsCounted(env, k, calls[..n]);
      RefutedSnoc(env, k, calls);
    }
  }

  lemma NoneRefuted(env: Env, k: nat)
    ensures RefutedAt(env, k, []) == {}
  {
  }

  lemma RefutedSnoc(env: Env, k: nat, calls: seq<Call>)
    requires calls != []
    ensures var n := |calls| - 1; var front := RefutedAt(env, k, calls[..n]);
      && RefutedAt(env, k, calls) == front + (if Objection(env, k, n, calls[n]).Some? then {n} else {}) && n !in front
  {
  }

  /** Memory is verified exactly when something was cleared or is to be recalled. */
  lemma MemoryMeans(env: Env, k: nat)
    ensures var es, w := MemoryEntries(env, k, WorkAt(env, k)), WorkAt(env, k);
      && |es| == (if Cleared(env, k) == [] && w.batch.recalls == [] then 0 else 1)
      && forall e :: e in es ==> e.site == MemorySite && MemoryTells(env, e)
  {
    hide WorkAt, Gate, Corrections, Claims, Claiming, RefutedAt;
    ClaimsCounted(Cleared(env, k));
    CorrectionsCounted(env, k, Cleared(env, k));
  }

  // ----- tools, swarm and critic -----

  /** The entry of tools none of which has side effects. */
  ghost predicate ToolsTell(env: Env, e: SiteEntry) {
    var k := e.iteration; var calls := Surviving(env, k, WorkAt(env, k));
    var refused := |Gate(env, k, WorkAt(env, k)).denied|;
    if calls == [] && refused == 0 then e.outcome == Skip && e.payload == NoPayload
    else
      && (forall c :: c in calls ==> !c.sideEffect)
      && e.outcome == Ok && e.payload.CallsOf? && e.payload.results == refused + |calls|
      && |e.payload.calls| == |calls| && forall i :: 0 <= i < |calls| ==> e.payload.calls[i] == calls[i].name
  }

  ghost predicate SwarmTells(env: Env, e: SiteEntry) {
    var swarms := WorkAt(env, e.iteration).batch.swarms;
    if swarms == [] then e.outcome == Skip && e.payload == NoPayload
    else
      && e.outcome == Ok && e.payload.CallsOf? && e.payload.results == |swarms| == |e.payload.calls|
      && forall i :: 0 <= i < |swarms| ==> e.payload.calls[i] == swarms[i].agent
  }

  ghost predicate CriticTells(env: Env, e: SiteEntry) {
    var b, answer := WorkAt(env, e.iteration).batch, env.world.critic(e.iteration);
    && (e.outcome == Skip <==> !env.policy.criticEnabled || (b.says == [] && b.asks == []))
    && (e.outcome == Revise <==> e.outcome != Skip && ReadVerdict(answer).Some?)
    && e.outcome in {Skip, Revise, Ok}
    && e.payload == if e.outcome == Revise then Reason(ReadVerdict(answer).value) else NoPayload
  }

  lemma SwarmCriticTell(env: Env, k: nat)
    ensures SwarmTells(env, SwarmEntry(k, WorkAt(env, k))) && CriticTells(env, CriticEntry(env, k, WorkAt(env, k)))
  {
    hide WorkAt, ReadVerdict;
  }

  lemma ToolsMean(env: Env, k: nat)
    requires !Blocked(env, k, WorkAt(env, k)) && Sequential(Surviving(env, k, WorkAt(env, k))) == []
    ensures forall e :: e in RunEntries(env, k, WorkAt(env, k)) ==>
      e.site == ToolsSite && !e.payload.ResultOf? && ToolsTell(env, e)
  {
    hide WorkAt, Gate, Surviving, Blocked, Denials, ToolEntries;
    var w := WorkAt(env, k);
    var calls, ds := Surviving(env, k, w), Denials(env, k, Gate(env, k, w).denied);
    NoneSequential(calls);
    assert |ds| == |Gate(env, k, w).denied|;
    assert RunEntries(env, k, w) == ToolsEntries(env, k, calls, ds);
  }

  lemma {:induction false} NoneSequential(calls: seq<Call>)
    requires Sequential(calls) == []
    ensures |Parallel(calls)| == |calls| && forall c :: c in calls ==> !c.sideEffect
  {
    if calls != [] {
      var rest, last := calls[..|calls| - 1], calls[|calls| - 1];
      assert calls == rest + [last];
      NoneSequential(rest);
    }
  }

  // ----- compaction and output -----

  /** Whether the messages were compacted, how many, and how long they are, in fours of characters. */
  ghost predicate TellsOf(msgs: seq<Message>, e: SiteEntry) {
    var chars := |DigestText(msgs)|;
    if |msgs| >= 6 && chars >= 320000 then e.outcome == Ok && e.payload == Limit(|msgs| - 4, chars / 4)
    else e.outcome == Skip && e.payload == Amount(chars / 4)
  }

  /** The messages that the iteration started with. */
  ghost predicate CompactionTells(env: Env, e: SiteEntry) {
    After(env, e.iteration).Running? && TellsOf(After(env, e.iteration).msgs, e)
  }

  /** Why the turn stopped, or what is left to do in the next iteration. */
  ghost predicate OutputTells(env: Env, e: SiteEntry) {
    var k := e.iteration; var b := WorkAt(env, k).batch;
    match e.outcome
    case FailCall(error) => env.world.reply(k) == CallFailed(error) && e.payload == NoPayload
    case FailDeadline => e.payload == Amount(env.world.iterationMs(k))
    case FailAmbiguous => e.payload == Limit(|b.calls|, |b.asks|)
    case ExpireActions => e.payload == Amount(AskedUpTo(env, k + 1))
    case ExpireNoProgress => e.payload.Amount? && e.payload.amount >= 1 && e.payload.amount >= env.caps.maxNoProgress
    case Iterated =>
      var calls := Surviving(env, k, WorkAt(env, k));
      && e.payload.CallsOf? && e.payload.results == |b.swarms| && |e.payload.calls| == |calls|
      && forall i :: 0 <= i < |calls| ==> e.payload.calls[i] == calls[i].name
    case _ => e == VerdictEntry(env, k)
  }

  /** What an entry says is so. */
  ghost predicate EntryTells(env: Env, e: SiteEntry) {
    match e.site
    case PermissionSite => PermissionTells(env, e)
    case MemorySite => MemoryTells(env, e)
    case ToolsSite => e.payload.IntentOf? || e.payload.ResultOf? || ToolsTell(env, e)
    case SwarmSite => SwarmTells(env, e)
    case CriticSite => CriticTells(env, e)
    case CompactionSite => CompactionTells(env, e)
    case OutputSite => OutputTells(env, e)
  }

  lemma CompactionOf(env: Env, k: nat, s: Turn, msgs: seq<Message>) returns (e: SiteEntry)
    ensures Prepared(env, k, s, msgs).sites == s.sites + [e]
    ensures e.site == CompactionSite && e.iteration == k && !e.payload.ResultOf? && TellsOf(msgs, e)
  {
    hide DigestText;
    var t := Prepared(env, k, s, msgs);
    e := t.sites[|t.sites| - 1];
  }

  lemma CompactionMeans(env: Env, k: nat, s: Turn) returns (e: SiteEntry)
    requires After(env, k).Running?
    ensures var t := Prepared(env, k, s, After(env, k).msgs);
      t.sites == s.sites + [e] && e.site == CompactionSite && e.iteration == k && !e.payload.ResultOf?
    ensures EntryTells(env, e)
  {
    hide DigestText, After, Prepared, TellsOf;
    e := CompactionOf(env, k, s, After(env, k).msgs);
  }

  lemma AgainMeans(env: Env, k: nat, s: Turn) returns (e: SiteEntry)
    requires s.iteration == k && QuestionOf(env, k, s, WorkAt(env, k)) == QuestionAt(env, k)
    ensures var t := Concluded(env, k, s, WorkAt(env, k)); t.sites == s.sites + [e] && e.site == OutputSite
    ensures !e.payload.ResultOf? && EntryTells(env, e)
  {
    hide WorkAt, Concluded, DecisionOf, QuestionAt, VerdictEntry, OutputTells;
    if DecisionOf(env.caps, QuestionAt(env, k)) != Again {
      ConcludedEntry(env, k, s);
      e := VerdictEntry(env, k);
      VerdictTells(env, k);
    } else {
      e := IteratedTells(env, k, s);
    }
  }

  lemma VerdictTells(env: Env, k: nat)
    ensures var e := VerdictEntry(env, k);
      e.site == OutputSite && !e.payload.ResultOf? && OutputTells(env, e)
  {
    hide WorkAt, Blocked, SaidUpTo, CostUpTo;
  }

  lemma IteratedTells(env: Env, k: nat, s: Turn) returns (e: SiteEntry)
    requires s.iteration == k && QuestionOf(env, k, s, WorkAt(env, k)) == QuestionAt(env, k)
    requires DecisionOf(env.caps, QuestionAt(env, k)) == Again
    ensures var t := Concluded(env, k, s, WorkAt(env, k)); t.sites == s.sites + [e] && e.site == OutputSite
    ensures !e.payload.ResultOf? && OutputTells(env, e)
  {
    hide WorkAt, Surviving, Blocked, SaidUpTo, CostUpTo, OutboundOf, NonEmpty, DecisionOf;
    var t := Concluded(env, k, s, WorkAt(env, k));
    e := t.sites[|t.sites| - 1];
  }
}
