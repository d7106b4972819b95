/** The grammar of the journal over a whole run, and the pairing of intents with results. */
module Journal {
  import opened Text
  import opened Tags
  import opened HarnessState
  import opened SiteSpecs
  import opened LoopSpec
  import opened Transcript
  import opened Runs

  // ----- words -----

  function SitesOf(es: seq<SiteEntry>): (r: seq<SiteName>)
    ensures |r| == |es|
  {
    seq(|es|, i requires 0 <= i < |es| => es[i].site)
  }

  predicate Stamped(es: seq<SiteEntry>, k: nat) {
    forall i :: 0 <= i < |es| ==> es[i].iteration == k
  }

  function Rep(site: SiteName, n: nat): (r: seq<SiteName>)
    ensures |r| == n
  {
    seq(n, _ => site)
  }

  /** COMPACTION PERMISSION MEMORY_VERIFY? TOOLS^n SWARM CRITIC */
  function BodySites(memory: bool, n: nat): seq<SiteName> {
    [CompactionSite, PermissionSite] + (if memory then [MemorySite] else []) + Rep(ToolsSite, n)
    + [SwarmSite, CriticSite]
  }

  /** The entries of an iteration that went through its sites, blocked at the gate or not. */
  ghost predicate Body(es: seq<SiteEntry>, k: nat, blocked: bool) {
    && Stamped(es, k) && |es| >= 2 && Tracked(Idle, es) == Idle
    && (if blocked then es[1].outcome in {SuspendExplicit, SuspendHighRisk, SuspendPolicy} else es[1].outcome == Ok)
    && exists memory, n :: (n == 0 <==> blocked) && SitesOf(es) == BodySites(memory, n)
  }

  predicate OutputEntry(e: SiteEntry, k: nat) {
    e.site == OutputSite && e.iteration == k && !e.payload.ResultOf?
  }

  /** The word of an iteration that asked for another one. */
  ghost predicate ContinuedWord(es: seq<SiteEntry>, k: nat) {
    && es != [] && Body(es[..|es| - 1], k, false)
    && OutputEntry(es[|es| - 1], k) && es[|es| - 1].outcome == Iterated
  }

  /** The entry of a turn that stops before its sites run, with the outcome and code it stands for. */
  predicate HaltEntry(entry: SiteOutcome, outcome: TurnOutcome, code: Option<TerminationCode>) {
    match entry
    case ExpireNoProgress => outcome == Expire && code == Some(LoopNoProgress)
    case FailCall(_) => outcome == Fail && code == Some(InternalError)
    case FailDeadline => outcome == Fail && code == Some(IterationDeadlineExceeded)
    case FailAmbiguous => outcome == Fail && code == Some(ModelOutputAmbiguous)
    case ExpireActions => outcome == Expire && code == Some(LoopMaxActions)
    case _ => false
  }

  predicate DecisionEntry(entry: SiteOutcome, outcome: TurnOutcome, code: Option<TerminationCode>) {
    match entry
    case Forced(o) => o == SuspendPermission && outcome == SuspendPermission && code == None
    case ExpireIterations => outcome == Expire && code in SENDING_EXPIRES
    case ExpireWallclock => outcome == Expire && code == Some(TaskDeadlineExceeded)
    case ExpireCost => outcome == Expire && code == Some(BudgetExceeded)
    case FinalizeExplicit => outcome == Finalize && code == Some(ModelEmittedFinalAnswer)
    case FinalizeImplicit => outcome == Finalize && code == Some(IterationBudgetReachedWithAnswer)
    case _ => false
  }

  ghost predicate TerminalWord(es: seq<SiteEntry>, k: nat, outcome: TurnOutcome, code: Option<TerminationCode>) {
    || (Stamped(es, k) && SitesOf(es) == [CompactionSite, OutputSite] && HaltEntry(es[1].outcome, outcome, code)
        && Tracked(Idle, es) == Idle)
    || (outcome == Finalize && code == Some(CriticEscalated) && (Body(es, k, false) || Body(es, k, true)))
    || (es != [] && Body(es[..|es| - 1], k, outcome == SuspendPermission)
        && OutputEntry(es[|es| - 1], k) && DecisionEntry(es[|es| - 1].outcome, outcome, code))
  }

  // ----- intents and results -----

  datatype Tracker = Bad | Idle | Open(capability: string)

  function Track(t: Tracker, e: SiteEntry): Tracker {
    if e.outcome == Intent then
      if t == Idle && e.payload.IntentOf? then Open(e.payload.call.name) else Bad
    else if e.payload.ResultOf? then
      if t == Open(e.payload.resultCapability) then Idle else Bad
    else if t == Idle then Idle else Bad
  }

  function Tracked(t: Tracker, es: seq<SiteEntry>): Tracker {
    if es == [] then t else Track(Tracked(t, es[..|es| - 1]), es[|es| - 1])
  }

  /** The capabilities of the journaled intents. */
  function Intents(es: seq<SiteEntry>): seq<string> {
    if es == [] then []
    else
      var rest, last := Intents(es[..|es| - 1]), es[|es| - 1];
      if last.outcome == Intent && last.payload.IntentOf? then rest + [last.payload.call.name] else rest
  }

  /** The capabilities of the journaled results. */
  function ResultNames(es: seq<SiteEntry>): seq<string> {
    if es == [] then []
    else
      var rest, last := ResultNames(es[..|es| - 1]), es[|es| - 1];
      if last.outcome != Intent && last.payload.ResultOf? then rest + [last.payload.resultCapability] else rest
  }

  lemma {:induction false} TrackedJoin(t: Tracker, a: seq<SiteEntry>, b: seq<SiteEntry>)
    ensures Tracked(t, a + b) == Tracked(Tracked(t, a), b)
  {
    hide Track;
    if b == [] {
      assert a + b == a;
    } else {
      assert (a + b)[..|a + b| - 1] == a + b[..|b| - 1];
      TrackedJoin(t, a, b[..|b| - 1]);
    }
  }

  lemma {:induction false} TrackedMeans(es: seq<SiteEntry>)
    ensures match Tracked(Idle, es)
      case Idle => Intents(es) == ResultNames(es)
      case Open(c) => Intents(es) == ResultNames(es) + [c]
      case Bad => true
  {
    if es != [] { TrackedMeans(es[..|es| - 1]); }
  }

  lemma BadStays(es: seq<SiteEntry>)
    ensures Tracked(Bad, es) == Bad
  {
  }

  /** In every prefix of a tracked journal the results are the first intents, all of them or
      all but the last. */
  lemma PrefixPaired(es: seq<SiteEntry>, p: nat)
    requires Tracked(Idle, es) != Bad && p <= |es|
    ensures var i, r := Intents(es[..p]), ResultNames(es[..p]); r <= i && |i| - |r| <= 1
  {
    hide Track;
    assert es == es[..p] + es[p..];
    TrackedJoin(Idle, es[..p], es[p..]);
    if Tracked(Idle, es[..p]) == Bad { BadStays(es[p..]); }
    TrackedMeans(es[..p]);
  }

  // ----- the entries of one iteration -----

  function MemoryEntries(env: Env, k: nat, w: Work): seq<SiteEntry> {
    var g := Gate(env, k, w);
    if Verifies(g.cleared, w.batch.recalls) then
      var corrections := Corrections(env, k, g.cleared);
      [SiteEntry(MemorySite, k, if corrections == [] then Ok else OkWithCorrections,
        Verified(Claims(g.cleared), |corrections|, |w.batch.recalls|))]
    else []
  }

  function ToolsEntries(env: Env, k: nat, calls: seq<Call>, denied: seq<Denied>): seq<SiteEntry> {
    var par, sq := Parallel(calls), Sequential(calls);
    if calls == [] && denied == [] then [SiteEntry(ToolsSite, k, Skip, NoPayload)]
    else if sq != [] then ToolEntries(env, k, |par|, sq)
    else [SiteEntry(ToolsSite, k, Ok, CallsOf(CallNames(calls), |denied| + |par|))]
  }

  function GateEntry(env: Env, k: nat, w: Work): SiteEntry {
    var g := Gate(env, k, w);
    match g.block
    case Some(a) => SiteEntry(PermissionSite, k, SuspendOutcome(a.kind), Capability(a.capability))
    case None => SiteEntry(PermissionSite, k, Ok, Gated(CallNames(g.cleared), Denials(env, k, g.denied)))
  }

  function SwarmEntry(k: nat, w: Work): SiteEntry {
    if w.batch.swarms == [] then SiteEntry(SwarmSite, k, Skip, NoPayload)
    else SiteEntry(SwarmSite, k, Ok, CallsOf(AgentNames(w.batch.swarms), |w.batch.swarms|))
  }

  function CriticEntry(env: Env, k: nat, w: Work): SiteEntry {
    if !env.policy.criticEnabled || (w.batch.says == [] && w.batch.asks == [])
    then SiteEntry(CriticSite, k, Skip, NoPayload)
    else
      match ReadVerdict(env.world.critic(k))
      case Some(reason) => SiteEntry(CriticSite, k, Revise, Reason(reason))
      case None => SiteEntry(CriticSite, k, Ok, NoPayload)
  }

  function RunEntries(env: Env, k: nat, w: Work): seq<SiteEntry> {
    if Blocked(env, k, w) then []
    else ToolsEntries(env, k, Surviving(env, k, w), Denials(env, k, Gate(env, k, w).denied))
  }

  function WorkEntries(env: Env, k: nat, w: Work): seq<SiteEntry> {
    [GateEntry(env, k, w)] + MemoryEntries(env, k, w) + RunEntries(env, k, w)
    + [SwarmEntry(k, w), CriticEntry(env, k, w)]
  }

  lemma ToolsSites(env: Env, k: nat, s: Turn, calls: seq<Call>, denied: seq<Denied>)
    requires s.iteration == k
    ensures ToolsTurn(env, k, s, calls, denied).sites == s.sites + ToolsEntries(env, k, calls, denied)
    ensures ToolsTurn(env, k, s, calls, denied).iteration == k
  {
    hide ToolEntries, CallNames, Invocations, Parallel;
    if Sequential(calls) == [] { EmptyEntries(env, k, |Parallel(calls)|); }
  }

  lemma EmptyEntries(env: Env, k: nat, base: nat)
    ensures ToolEntries(env, k, base, []) == []
  {
  }

  lemma MemorySites(env: Env, k: nat, s: Turn, w: Work)
    requires s.iteration == k
    ensures var t := AfterMemory(env, k, s, w);
      t.sites == s.sites + ([GateEntry(env, k, w)] + MemoryEntries(env, k, w)) && t.iteration == k
  {
    hide GateOf, Corrections, Claims, Denials, CallNames;
  }

  lemma AfterToolsSites(env: Env, k: nat, s: Turn, w: Work)
    requires s.iteration == k
    ensures var t := AfterTools(env, k, s, w);
      && t.sites == s.sites + ([GateEntry(env, k, w)] + MemoryEntries(env, k, w) + RunEntries(env, k, w))
      && t.iteration == k
  {
    hide AfterMemory, ToolsTurn, ToolsEntries, MemoryEntries, GateEntry, Gate, Surviving, Denials, Blocked;
    MemorySites(env, k, s, w);
    if !Blocked(env, k, w) {
      var m := AfterMemory(env, k, s, w);
      ToolsSites(env, k, m, Surviving(env, k, w), Denials(env, k, Gate(env, k, w).denied));
    }
  }

  lemma AfterCriticSites(env: Env, k: nat, s: Turn, w: Work)
    requires AfterTools(env, k, s, w).iteration == k
    ensures var t := Worked(env, k, s, w);
      && t.sites == AfterTools(env, k, s, w).sites + [SwarmEntry(k, w), CriticEntry(env, k, w)]
      && t.iteration == k
  {
    hide AfterTools, NonEmpty, AgentNames, ReadVerdict;
  }

  lemma WorkedSites(env: Env, k: nat, s: Turn, w: Work)
    requires s.iteration == k
    ensures Worked(env, k, s, w).sites == s.sites + WorkEntries(env, k, w)
    ensures Worked(env, k, s, w).iteration == k
  {
    hide AfterTools, Worked, MemoryEntries, GateEntry, RunEntries, SwarmEntry, CriticEntry;
    AfterToolsSites(env, k, s, w);
    AfterCriticSites(env, k, s, w);
  }

  // ----- their shape -----

  lemma {:induction false} ToolEntriesShape(env: Env, k: nat, base: nat, calls: seq<Call>)
    ensures var es := ToolEntries(env, k, base, calls);
      |es| == 2 * |calls| && Stamped(es, k) && SitesOf(es) == Rep(ToolsSite, 2 * |calls|) && Tracked(Idle, es) == Idle
  {
    hide InvokeResult, RecordOf;
    if calls != [] {
      var n := |calls| - 1;
      ToolEntriesShape(env, k, base, calls[..n]);
      var front, es := ToolEntries(env, k, base, calls[..n]), ToolEntries(env, k, base, calls);
      forall i | 0 <= i < |es| ensures es[i].site == ToolsSite && es[i].iteration == k {
        if i < |front| { assert es[i] == front[i] && SitesOf(front)[i] == Rep(ToolsSite, |front|)[i]; }
      }
      assert es[..|es| - 1] == front + [es[|es| - 2]];
      assert es[..|es| - 1][..|es| - 2] == front;
    }
  }

  lemma OneEntry(e: SiteEntry, k: nat)
    requires e.iteration == k && e.outcome != Intent && !e.payload.ResultOf?
    ensures Stamped([e], k) && SitesOf([e]) == Rep(e.site, 1) && SitesOf([e]) == [e.site] && Tracked(Idle, [e]) == Idle
  {
    assert [e][..0] == [];
  }

  lemma ToolsEntriesShape(env: Env, k: nat, calls: seq<Call>, denied: seq<Denied>) returns (n: nat)
    ensures var es := ToolsEntries(env, k, calls, denied);
      n >= 1 && Stamped(es, k) && SitesOf(es) == Rep(ToolsSite, n) && Tracked(Idle, es) == Idle
  {
    hide ToolEntries, Tracked, SitesOf, Rep, Stamped, Parallel, Sequential, CallNames;
    var es := ToolsEntries(env, k, calls, denied);
    if !(calls == [] && denied == []) && Sequential(calls) != [] {
      ToolEntriesShape(env, k, |Parallel(calls)|, Sequential(calls));
      n := 2 * |Sequential(calls)|;
    } else {
      OneEntry(es[0], k);
      n := 1;
    }
  }

  lemma SitesJoin(a: seq<SiteEntry>, b: seq<SiteEntry>, k: nat)
    requires Stamped(a, k) && Stamped(b, k)
    ensures SitesOf(a + b) == SitesOf(a) + SitesOf(b) && Stamped(a + b, k)
    ensures Tracked(Idle, a) == Idle ==> Tracked(Idle, a + b) == Tracked(Idle, b)
  {
    hide Track, Tracked;
    TrackedJoin(Idle, a, b);
  }

  lemma MemoryShape(env: Env, k: nat, w: Work)
    ensures var es := MemoryEntries(env, k, w);
      Stamped(es, k) && Tracked(Idle, es) == Idle
      && SitesOf(es) == (if Verifies(Gate(env, k, w).cleared, w.batch.recalls) then [MemorySite] else [])
  {
    hide Gate, Corrections, Claims, Tracked, SitesOf;
    var es := MemoryEntries(env, k, w);
    if es != [] { OneEntry(es[0], k); } else { NoEntry(k); }
  }

  lemma NoEntry(k: nat)
    ensures Stamped([], k) && Tracked(Idle, []) == Idle && SitesOf([]) == []
  {
  }

  lemma EntryShapes(env: Env, k: nat, w: Work)
    ensures var e := GateEntry(env, k, w);
      e.site == PermissionSite && e.iteration == k && !e.payload.ResultOf?
      && (if Blocked(env, k, w) then e.outcome in {SuspendExplicit, SuspendHighRisk, SuspendPolicy}
          else e.outcome == Ok)
    ensures var e := SwarmEntry(k, w);
      e.site == SwarmSite && e.iteration == k && e.outcome != Intent && !e.payload.ResultOf?
    ensures var e := CriticEntry(env, k, w);
      e.site == CriticSite && e.iteration == k && e.outcome != Intent && !e.payload.ResultOf?
  {
    hide GateOf, Denials, CallNames, AgentNames;
  }

  lemma RunShape(env: Env, k: nat, w: Work) returns (n: nat)
    ensures var es := RunEntries(env, k, w);
      && (n == 0 <==> Blocked(env, k, w))
      && Stamped(es, k) && SitesOf(es) == Rep(ToolsSite, n) && Tracked(Idle, es) == Idle
  {
    hide ToolsEntries, Surviving, Denials, Gate, Blocked;
    if Blocked(env, k, w) {
      n := 0;
    } else {
      n := ToolsEntriesShape(env, k, Surviving(env, k, w), Denials(env, k, Gate(env, k, w).denied));
    }
  }

  lemma PairEntries(a: SiteEntry, b: SiteEntry, k: nat)
    requires a.iteration == k && a.outcome != Intent && !a.payload.ResultOf?
    requires b.iteration == k && b.outcome != Intent && !b.payload.ResultOf?
    ensures Stamped([a, b], k) && SitesOf([a, b]) == [a.site, b.site] && Tracked(Idle, [a, b]) == Idle
  {
    hide Tracked, Track, SitesOf;
    OneEntry(a, k);
    OneEntry(b, k);
    SitesJoin([a], [b], k);
    assert [a] + [b] == [a, b];
  }

  /** A compaction entry followed by the entries of the sites is a body. */
  lemma WorkBody(env: Env, k: nat, c: SiteEntry, w: Work)
    requires c.site == CompactionSite && c.iteration == k && c.outcome != Intent && !c.payload.ResultOf?
    ensures Body([c] + WorkEntries(env, k, w), k, Blocked(env, k, w))
  {
    hide Tracked, Track, SitesOf, Rep, Stamped, GateEntry, MemoryEntries, RunEntries, SwarmEntry, CriticEntry,
      Blocked, Gate;
    EntryShapes(env, k, w);
    var g, m, r := GateEntry(env, k, w), MemoryEntries(env, k, w), RunEntries(env, k, w);
    var tail := [SwarmEntry(k, w), CriticEntry(env, k, w)];
    assert g.outcome != Intent;
    PairEntries(c, g, k);
    MemoryShape(env, k, w);
    var n := RunShape(env, k, w);
    PairEntries(tail[0], tail[1], k);
    assert tail == [tail[0], tail[1]];
    SitesJoin([c, g], m, k);
    SitesJoin([c, g] + m, r, k);
    SitesJoin([c, g] + m + r, tail, k);
    var es := [c] + WorkEntries(env, k, w);
    assert es == [c, g] + m + r + tail;
    assert es[1] == g;
    var memory := Verifies(Gate(env, k, w).cleared, w.batch.recalls);
    assert SitesOf(es) == BodySites(memory, n);
  }

  // ----- whole runs -----

  function Flatten(words: seq<seq<SiteEntry>>): seq<SiteEntry> {
    if words == [] then [] else Flatten(words[..|words| - 1]) + words[|words| - 1]
  }

  /** The entries are one word for each of the iterations that asked for another. */
  ghost predicate Spells(words: seq<seq<SiteEntry>>, es: seq<SiteEntry>) {
    Flatten(words) == es && forall i :: 0 <= i < |words| ==> ContinuedWord(words[i], i)
  }

  lemma CompactionEntry(env: Env, k: nat, s: Turn, msgs: seq<Message>) returns (c: SiteEntry)
    ensures Prepared(env, k, s, msgs).sites == s.sites + [c] && Prepared(env, k, s, msgs).iteration == k
    ensures c.site == CompactionSite && c.iteration == k && c.outcome != Intent && !c.payload.ResultOf?
  {
    hide DigestText, NeedsCompaction, EstimateTokens;
    var t := CompactedTurn(s.(iteration := k), msgs);
    c := t.sites[|t.sites| - 1];
  }

  lemma DecidedEntry(env: Env, k: nat, s: Turn, w: Work) returns (e: SiteEntry)
    requires s.iteration == k && s.code == None
    ensures var q := QuestionOf(env, k, s, w); var t := Concluded(env, k, s, w);
      && t.sites == s.sites + [e] && OutputEntry(e, k)
      && (DecisionOf(env.caps, q) == Again ==> e.outcome == Iterated && !Blocked(env, k, w))
      && (DecisionOf(env.caps, q) != Again ==> DecisionEntry(e.outcome, t.outcome, t.code))
      && (t.outcome == SuspendPermission <==> Blocked(env, k, w))
  {
    hide OutboundOf, CallNames, Surviving, Blocked;
    var t := Concluded(env, k, s, w);
    e := t.sites[|t.sites| - 1];
  }

  lemma ActWord(env: Env, k: nat, s: Turn, c: SiteEntry, before: seq<SiteEntry>,
                msgs: seq<Message>, actions: nat, w: Work)
    requires s.iteration == k && s.code == None && s.sites == before + [c]
    requires c.site == CompactionSite && c.iteration == k && c.outcome != Intent && !c.payload.ResultOf?
    ensures var p := Act(env, k, s, msgs, actions, w);
      exists es :: p.turn.sites == before + es
        && (if p.Running? then ContinuedWord(es, k) else TerminalWord(es, k, p.turn.outcome, p.turn.code))
  {
    hide Worked, Concluded, Feedback, NextMessages, DecisionOf, Surviving, Blocked, Body, WorkEntries, DecisionEntry,
      QuestionOf, HaltEntry;
    var s1, p := Worked(env, k, s, w), Act(env, k, s, msgs, actions, w);
    WorkedSites(env, k, s, w);
    WorkBody(env, k, c, w);
    var body := [c] + WorkEntries(env, k, w);
    assert s1.sites == before + body;
    if w.batch.escalations != [] {
      assert p.turn.sites == before + body;
      assert TerminalWord(body, k, p.turn.outcome, p.turn.code);
    } else {
      assert s1.code == None by { WorkedIs(env, k, s, w); }
      var e := DecidedEntry(env, k, s1, w);
      var es := body + [e];
      assert es[..|es| - 1] == body;
      assert p.turn.sites == before + es;
      if p.Stopped? {
        assert Body(body, k, p.turn.outcome == SuspendPermission);
        assert TerminalWord(es, k, p.turn.outcome, p.turn.code);
      } else {
        assert ContinuedWord(es, k);
      }
    }
  }

  lemma HaltWord(k: nat, c: SiteEntry, before: seq<SiteEntry>, s: Turn, outcome: TurnOutcome, code: TerminationCode,
                 entry: SiteOutcome, payload: Payload)
    requires s.iteration == k && s.sites == before + [c]
    requires c.site == CompactionSite && c.iteration == k && c.outcome != Intent && !c.payload.ResultOf?
    requires HaltEntry(entry, outcome, Some(code)) && !payload.ResultOf?
    ensures var t := Halted(s, outcome, code, entry, payload);
      exists es :: t.sites == before + es && TerminalWord(es, k, t.outcome, t.code)
  {
    hide Tracked, SitesOf, Body;
    var last := SiteEntry(OutputSite, k, entry, payload);
    PairEntries(c, last, k);
    var t := Halted(s, outcome, code, entry, payload);
    assert t.sites == before + [c, last];
    assert [c, last][1] == last;
    assert TerminalWord([c, last], k, t.outcome, t.code);
  }

  lemma HandleWord(env: Env, k: nat, s: Turn, c: SiteEntry, before: seq<SiteEntry>,
                   msgs: seq<Message>, actions: nat, w: Work)
    requires s.iteration == k && s.code == None && s.sites == before + [c]
    requires c.site == CompactionSite && c.iteration == k && c.outcome != Intent && !c.payload.ResultOf?
    ensures var p := Handle(env, k, s, msgs, actions, w);
      exists es :: p.turn.sites == before + es
        && (if p.Running? then ContinuedWord(es, k) else TerminalWord(es, k, p.turn.outcome, p.turn.code))
  {
    hide Act, ContinuedWord, TerminalWord, Halted, Ambiguous;
    var b := w.batch;
    if Ambiguous(b) {
      HaltWord(k, c, before, s, Fail, ModelOutputAmbiguous, FailAmbiguous, Limit(|b.calls|, |b.asks|));
    } else if actions + |b.calls| > env.caps.maxTotalActions {
      HaltWord(k, c, before, s, Expire, LoopMaxActions, ExpireActions, Amount(actions + |b.calls|));
    } else {
      ActWord(env, k, s, c, before, msgs, actions + |b.calls|, w);
    }
  }

  lemma StepWord(env: Env, k: nat, s: Turn, msgs: seq<Message>, actions: nat)
    requires s.code == None
    ensures var p := Step(env, k, s, msgs, actions);
      exists es :: p.turn.sites == s.sites + es
        && (if p.Running? then ContinuedWord(es, k) else TerminalWord(es, k, p.turn.outcome, p.turn.code))
  {
    hide Handle, Prepared, NoProgress, CompactedMessages, WorkOf, ContinuedWord, TerminalWord, Halted;
    var c := CompactionEntry(env, k, s, msgs);
    PreparedIs(env, k, s, msgs);
    var s1, r := Prepared(env, k, s, msgs), env.world.reply(k);
    if NoProgress(env, k, s, msgs) {
      HaltWord(k, c, s.sites, s1, Expire, LoopNoProgress, ExpireNoProgress, Amount(s1.streak));
    } else if r.CallFailed? {
      HaltWord(k, c, s.sites, s1, Fail, InternalError, FailCall(r.error), NoPayload);
    } else if env.world.iterationMs(k) > env.caps.maxIterationWallclockMs {
      HaltWord(k, c, s.sites, s1, Fail, IterationDeadlineExceeded, FailDeadline, Amount(env.world.iterationMs(k)));
    } else {
      HandleWord(env, k, Recorded(s1, k, r), c, s.sites, CompactedMessages(env, k, msgs), actions, WorkOf(env, r.text));
    }
  }

  lemma SpellsSnoc(words: seq<seq<SiteEntry>>, es: seq<SiteEntry>, word: seq<SiteEntry>)
    requires Spells(words, es) && ContinuedWord(word, |words|)
    ensures Spells(words + [word], es + word)
  {
    hide ContinuedWord;
    assert (words + [word])[..|words|] == words;
  }

  /** The journal of a run: the words of its continued iterations, then a terminal word. */
  ghost predicate JournalOf(words: seq<seq<SiteEntry>>, last: seq<SiteEntry>, t: Turn) {
    && Spells(words, Flatten(words)) && Flatten(words) + last == t.sites
    && |words| == t.iteration && TerminalWord(last, t.iteration, t.outcome, t.code)
  }

  /** One more iteration after the words of the earlier ones. */
  lemma JournalStep(env: Env, k: nat, words: seq<seq<SiteEntry>>)
    requires After(env, k).Running? && |words| == k && Spells(words, After(env, k).turn.sites)
    ensures var p := After(env, k + 1);
      && (p.Running? ==> exists words :: |words| == k + 1 && Spells(words, p.turn.sites))
      && (p.Stopped? ==> exists words, last :: JournalOf(words, last, p.turn))
  {
    hide Step, ContinuedWord, TerminalWord, RunsAs, EndsAs, EndFits, EndingOf, Flatten;
    var before := After(env, k);
    var p := Step(env, k, before.turn, before.msgs, before.actions);
    assert After(env, k + 1) == p;
    AfterIs(env, k);
    RunningCode(env, k, before.turn, before.actions);
    StepWord(env, k, before.turn, before.msgs, before.actions);
    var es :| p.turn.sites == before.turn.sites + es
      && (if p.Running? then ContinuedWord(es, k) else TerminalWord(es, k, p.turn.outcome, p.turn.code));
    if p.Running? {
      SpellsSnoc(words, before.turn.sites, es);
      assert |words + [es]| == k + 1;
    } else {
      StepIs(env, k, before.turn, before.msgs, before.actions);
      EndIteration(env, k, p.turn, EndingOf(env, k, before.turn, before.msgs));
      assert JournalOf(words, es, p.turn);
    }
  }

  lemma {:induction false} JournalAfter(env: Env, n: nat)
    ensures var p := After(env, n);
      && (p.Running? ==> exists words :: |words| == n && Spells(words, p.turn.sites))
      && (p.Stopped? ==> exists words, last :: JournalOf(words, last, p.turn))
  {
    hide Step, JournalOf, ContinuedWord;
    if n == 0 {
      assert Spells([], []);
    } else {
      JournalAfter(env, n - 1);
      if After(env, n - 1).Running? {
        var words :| |words| == n - 1 && Spells(words, After(env, n - 1).turn.sites);
        JournalStep(env, n - 1, words);
      }
    }
  }

  lemma RunningCode(env: Env, n: nat, s: Turn, actions: nat)
    requires RunsAs(env, n, s, actions)
    ensures s.code == None
  {
    hide Continued;
  }

  lemma EndIteration(env: Env, k: nat, t: Turn, e: Ending)
    requires EndsAs(env, k, t, e)
    ensures t.iteration == k
  {
    hide EndOutcome, EndCode, EndOutbound, EndApproval;
  }

  /** Every run with at least one iteration journals the words of its continued iterations
      and one terminal word that agrees with its outcome and code. */
  lemma JournalGrammar(env: Env)
    requires env.caps.maxIterations >= 1
    ensures exists words, last :: JournalOf(words, last, Result(env))
  {
    hide Result, JournalOf, EndedAt, After;
    EveryRunEnds(env);
    JournalAfter(env, Rounds(env));
    RunStops(env);
    ResultIs(env);
  }

  lemma RunStops(env: Env)
    requires env.caps.maxIterations >= 1
    ensures After(env, Rounds(env)).Stopped?
  {
    hide RunsAs, Continued, After, EndedAt;
    var n := Rounds(env);
    AfterIs(env, n);
    if After(env, n).Running? {
      RunsContinued(env, n, After(env, n).turn, After(env, n).actions);
      NotAgainAtCap(env, n - 1);
      assert false;
    }
  }

  lemma WordTracked(es: seq<SiteEntry>, k: nat)
    requires ContinuedWord(es, k)
    ensures Tracked(Idle, es) == Idle
  {
    hide SitesOf;
  }

  lemma TerminalTracked(es: seq<SiteEntry>, k: nat, outcome: TurnOutcome, code: Option<TerminationCode>)
    requires TerminalWord(es, k, outcome, code)
    ensures Tracked(Idle, es) == Idle
  {
    hide SitesOf;
  }

  lemma {:induction false} FlattenTracked(words: seq<seq<SiteEntry>>)
    requires forall i :: 0 <= i < |words| ==> ContinuedWord(words[i], i)
    ensures Tracked(Idle, Flatten(words)) == Idle
  {
    hide ContinuedWord, Track;
    if words != [] {
      var front := words[..|words| - 1];
      FlattenTracked(front);
      WordTracked(words[|words| - 1], |words| - 1);
      TrackedJoin(Idle, Flatten(front), words[|words| - 1]);
    }
  }

  /** In every prefix of every run's journal the side-effect results name the first intents in
      order, and at most the last intent has no result yet. */
  lemma IntentsPaired(env: Env, p: nat)
    requires p <= |Result(env).sites|
    ensures var i, r := Intents(Result(env).sites[..p]), ResultNames(Result(env).sites[..p]);
      r <= i && |i| - |r| <= 1
  {
    hide Result, TerminalWord, ContinuedWord, Tracked, Intents, ResultNames;
    if env.caps.maxIterations < 1 {
      NoRounds(env);
      NoJournal(Result(env).sites[..p]);
    } else {
      JournalGrammar(env);
      var words, last :| JournalOf(words, last, Result(env));
      FlattenTracked(words);
      TerminalTracked(last, Result(env).iteration, Result(env).outcome, Result(env).code);
      TrackedJoin(Idle, Flatten(words), last);
      PrefixPaired(Result(env).sites, p);
    }
  }

  lemma NoJournal(es: seq<SiteEntry>)
    requires es == []
    ensures Intents(es) == [] && ResultNames(es) == []
  {
  }
}
