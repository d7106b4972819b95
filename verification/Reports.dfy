/** What the model is told about each call, and what the journal says of it: what really answered. */
module Reports {
  import opened Text
  import opened Tags
  import opened HarnessState
  import opened SiteSpecs
  import opened LoopSpec
  import opened Transcript
  import opened CallLemmas
  import opened Runs
  import opened Journal
  import opened Approvals
  import opened Reconcile
  import opened Entries

  // ----- what answers a call -----

  /** The record tells what the j-th call that iteration `k` executed came to: the registry's answer
      for a built-in, the endpoint's for a tool of the tenant, its error only when it failed, and a
      refusal without a tenant or without either. */
  ghost predicate Tells(env: Env, k: nat, j: nat, c: Call, r: Record) {
    && r.call == c.name && r.id == c.correlationId
    && if !HasTenant(env) then
         r.(call := "", id := None)
         == Record("", None, false, None, Some("capability calls require tenant_id; you are in Veda mode"))
       else if c.name in env.policy.builtIn then
         var answer := env.world.registry(k, j);
         r.ok == answer.ok && r.output == answer.output && r.error == answer.error
       else if env.world.apiLocked(k) && c.name in env.world.tools(k) then
         var answer := env.world.endpoint(k, j);
         r.ok == answer.ok && r.output == answer.output && r.error == (if answer.ok then None else answer.error)
       else
         r.(call := "", id := None)
         == Record("", None, false, None, Some("no such capability or registered tool: " + c.name))
  }

  lemma RecordTells(env: Env, k: nat, j: nat, c: Call)
    ensures Tells(env, k, j, c, RecordOf(c, InvokeResult(env, k, j, c)))
  {
  }

  /** The record of a refused call: never a success, never an output, and the reason. */
  ghost predicate TellsRefusal(env: Env, k: nat, c: Call, r: Record) {
    r == Record(c.name, None, false, None,
      Some(if !Known(env, k, c.name) then "unknown capability: " + c.name else "capability is disabled in v1"))
  }

  lemma RefusalTells(env: Env, k: nat, calls: seq<Call>, i: nat)
    requires i < |calls|
    ensures TellsRefusal(env, k, calls[i], DeniedRecords(Denials(env, k, calls))[i])
  {
    hide VerdictOf, Known, RiskOf;
    VerdictMeans(env, k, calls[i]);
  }

  /** In an iteration that does not suspend, the answers are, in order: one refusal for each refused
      call, and one true record for each executed one, the side-effecting ones last. */
  lemma AnswersTell(env: Env, k: nat, w: Work)
    requires !Blocked(env, k, w)
    ensures var d, x := Gate(env, k, w).denied, Executed(env, k, w);
      && |Results(env, k, w)| == |d| + |x|
      && (forall i :: 0 <= i < |d| ==> TellsRefusal(env, k, d[i], Results(env, k, w)[i]))
      && (forall j: nat :: j < |x| ==> Tells(env, k, j, x[j], Results(env, k, w)[|d| + j]))
  {
    hide Gate, Surviving, Parallel, Sequential, InvokeResult, Tells, TellsRefusal, Blocked, Denials, DeniedRecords,
      RecordOf;
    var d, s := Gate(env, k, w).denied, Surviving(env, k, w);
    var x := Executed(env, k, w);
    forall i | 0 <= i < |d| ensures TellsRefusal(env, k, d[i], Results(env, k, w)[i]) { RefusalTells(env, k, d, i); }
    forall j: nat | j < |x| ensures Tells(env, k, j, x[j], Results(env, k, w)[|d| + j]) {
      RecordTells(env, k, j, x[j]);
      ResultAt(env, k, Parallel(s), Sequential(s), DeniedRecords(Denials(env, k, d)), j);
    }
  }

  lemma ResultAt(env: Env, k: nat, par: seq<Call>, sq: seq<Call>, ds: seq<Record>, j: nat)
    requires j < |par| + |sq|
    ensures var x := par + sq;
      (ds + Records(env, k, 0, par) + Records(env, k, |par|, sq))[|ds| + j]
      == RecordOf(x[j], InvokeResult(env, k, j, x[j]))
  {
    hide InvokeResult, RecordOf;
  }

  // ----- the rest of the feedback -----

  /** The record tells what refuted the n-th cleared call. */
  ghost predicate TellsObjection(env: Env, k: nat, cleared: seq<Call>, n: nat, r: Record) {
    && n < |cleared| && cleared[n].memoryClaim && env.world.claim(k, n).Some?
    && r == Record(cleared[n].name, cleared[n].correlationId, false, None,
         Some("memory verification failed: " + env.world.claim(k, n).value))
  }

  lemma {:induction false} CorrectionTells(env: Env, k: nat, cleared: seq<Call>, r: Record)
    ensures r in Corrections(env, k, cleared) <==> exists n: nat :: TellsObjection(env, k, cleared, n, r)
  {
    if cleared != [] {
      var n := |cleared| - 1;
      var rest := cleared[..n];
      CorrectionTells(env, k, rest, r);
      VerifiedSnoc(env, k, cleared);
      if r in Corrections(env, k, rest) {
        var m: nat :| TellsObjection(env, k, rest, m, r);
        assert TellsObjection(env, k, cleared, m, r);
      }
      if r in Corrections(env, k, cleared) && r !in Corrections(env, k, rest) {
        assert TellsObjection(env, k, cleared, n, r);
      }
      if m: nat :| TellsObjection(env, k, cleared, m, r) {
        if m < n { assert TellsObjection(env, k, rest, m, r); }
      }
    }
  }

  /** A cleared call stays exactly when it makes no memory claim or its claim was not refuted. */
  lemma {:induction false} KeptExactly(env: Env, k: nat, cleared: seq<Call>, c: Call)
    ensures c in KeptCalls(env, k, cleared) <==>
      exists n: nat :: n < |cleared| && cleared[n] == c && !(c.memoryClaim && env.world.claim(k, n).Some?)
  {
    if cleared != [] {
      var n := |cleared| - 1;
      var rest := cleared[..n];
      KeptExactly(env, k, rest, c);
      VerifiedSnoc(env, k, cleared);
      if c in KeptCalls(env, k, rest) {
        var m: nat :| m < |rest| && rest[m] == c && !(c.memoryClaim && env.world.claim(k, m).Some?);
        assert cleared[m] == c;
      }
      if m: nat :| m < |cleared| && cleared[m] == c && !(c.memoryClaim && env.world.claim(k, m).Some?) {
        if m < n { assert rest[m] == c; }
      }
    }
  }

  /** Memory that is read is told under its key; sub-agents are told under their names, the unknown
      ones as an error; and an objection to the draft as a failed review. */
  lemma OthersTell(env: Env, k: nat, w: Work)
    ensures |RecallRecords(env, k, w.batch.recalls)| == |w.batch.recalls|
    ensures forall i: nat :: i < |w.batch.recalls| ==>
      RecallRecords(env, k, w.batch.recalls)[i]
      == Record("recall", Some(w.batch.recalls[i]), true, env.world.memory(k, i), None)
    ensures |SwarmRecords(env, k, w.batch.swarms)| == |w.batch.swarms|
    ensures forall i: nat :: i < |w.batch.swarms| ==>
      var s, a := w.batch.swarms[i], env.world.agent(k, i);
      SwarmRecords(env, k, w.batch.swarms)[i] ==
        if s.agent in env.policy.agents then Record("swarm", Some(s.agent), a.ok, a.output, a.error)
        else Record("swarm", Some(s.agent), false, None, Some("unknown sub-agent: " + s.agent))
    ensures CriticRecords(CriticNote(env, k, w.batch)) ==
      if env.policy.criticEnabled && (w.batch.says != [] || w.batch.asks != [])
         && ReadVerdict(env.world.critic(k)).Some?
      then
        [Record("critic", None, false, None, Some(
          "reviewer flagged this draft: " + ReadVerdict(env.world.critic(k)).value + ". Revise or escalate."))]
      else []
    ensures Feedback(env, k, w) ==
      Results(env, k, w) + Corrections(env, k, Gate(env, k, w).cleared) + RecallRecords(env, k, w.batch.recalls)
      + SwarmRecords(env, k, w.batch.swarms) + CriticRecords(CriticNote(env, k, w.batch))
  {
    hide Results, Gate, ReadVerdict, Corrections;
  }

  // ----- the critic's answer -----

  predicate OneLine(s: string) { forall i :: 0 <= i < |s| ==> !IsLineBreak(s[i]) }

  lemma {:induction false} FirstLineIs(line: string, rest: string)
    requires OneLine(line) && (rest == "" || IsLineBreak(rest[0]))
    ensures FirstLine(line + rest) == line
  {
    if line == "" {
      assert line + rest == rest;
    } else {
      assert (line + rest)[1..] == line[1..] + rest;
      FirstLineIs(line[1..], rest);
    }
  }

  lemma {:induction false} TrimKeepsFirst(line: string, rest: string)
    requires line != "" && Trimmed(line)
    ensures line <= Strip(line + rest) && Strip(line + rest) <= line + rest
  {
    assert SpaceRun(line + rest) == 0;
    assert Lstrip(line + rest) == line + rest;
    RstripKeeps(line, rest);
  }

  lemma {:induction false} RstripKeeps(line: string, rest: string)
    requires line != "" && !IsSpace(line[|line| - 1])
    ensures line <= Rstrip(line + rest)
  {
    if rest != "" && IsSpace(rest[|rest| - 1]) {
      assert (line + rest)[..|line + rest| - 1] == line + rest[..|rest| - 1];
      RstripKeeps(line, rest[..|rest| - 1]);
    }
  }

  /** Only the first line of the answer is read. */
  lemma VerdictFirstLine(line: string, rest: string)
    requires line != "" && Trimmed(line) && OneLine(line) && (rest == "" || IsLineBreak(rest[0]))
    ensures ReadVerdict(line + rest) == ReadVerdict(line)
  {
    hide SaysRevise, IndexOf, Strip, IsLineBreak, Trimmed;
    TrimKeepsFirst(line, rest);
    var s := Strip(line + rest);
    var tail := s[|line|..];
    assert s == line + tail;
    assert tail != "" ==> tail[0] == rest[0] by { if tail != "" { assert s[|line|] == (line + rest)[|line|]; } }
    FirstLineIs(line, tail);
    FirstLineIs(line, "");
    StripTrimmed(line);
    assert line + "" == line;
  }

  lemma ReviseLetters(line: string)
    ensures SaysRevise(line) <==>
      && |line| >= 6 && line[0] in {'r', 'R'} && line[1] in {'e', 'E'} && line[2] in {'v', 'V'}
      && line[3] in {'i', 'I', '\U{131}'} && line[4] in {'s', 'S', '\U{17f}'} && line[5] in {'e', 'E'}
  {
    var w := "REVISE";
    assert w[0] == 'R' && w[1] == 'E' && w[2] == 'V' && w[3] == 'I' && w[4] == 'S' && w[5] == 'E';
    if |line| >= 6 {
      assert SaysRevise(line) <==>
        && UpperOf(line[0]) == w[0] && UpperOf(line[1]) == w[1] && UpperOf(line[2]) == w[2]
        && UpperOf(line[3]) == w[3] && UpperOf(line[4]) == w[4] && UpperOf(line[5]) == w[5];
    }
  }

  /** An answer that says REVISE, in any case, objects, with what follows the first colon; no other
      answer does. */
  lemma VerdictExactly(line: string)
    requires line != "" && Trimmed(line) && OneLine(line)
    ensures ReadVerdict(line).Some? <==>
      && |line| >= 6 && line[0] in {'r', 'R'} && line[1] in {'e', 'E'} && line[2] in {'v', 'V'}
      && line[3] in {'i', 'I', '\U{131}'} && line[4] in {'s', 'S', '\U{17f}'} && line[5] in {'e', 'E'}
  {
    hide SaysRevise, IndexOf, Strip;
    ReviseLetters(line);
    FirstLineIs(line, "");
    assert line + "" == line;
    StripTrimmed(line);
  }

  lemma VerdictReason(head: string, reason: string)
    requires SaysRevise(head) && ':' !in head && OneLine(head) && OneLine(reason) && Trimmed(reason)
    requires reason != "" && !IsSpace(head[0])
    ensures ReadVerdict(head + ":" + reason) == Some(reason)
    ensures ReadVerdict(head + ": " + reason) == Some(reason)
  {
    hide SaysRevise, IndexOf, Strip, ReadVerdict, OneLine, IsLineBreak;
    StripTrimmed(reason);
    ReasonAfter(head, reason, reason);
    StripLeading(reason);
    assert OneLine(" " + reason) by { SpaceLine(reason); }
    assert !IsSpace((" " + reason)[|reason|]);
    ReasonAfter(head, " " + reason, reason);
    assert head + ": " + reason == head + ":" + (" " + reason);
  }

  lemma SpaceLine(s: string)
    requires OneLine(s)
    ensures OneLine(" " + s)
  {
  }

  lemma StripLeading(s: string)
    requires Trimmed(s) && s != ""
    ensures Strip(" " + s) == s
  {
    assert (" " + s)[1..] == s;
    assert SpaceRun(" " + s) == 1;
  }

  lemma ReasonAfter(head: string, said: string, reason: string)
    requires SaysRevise(head) && ':' !in head && OneLine(head) && OneLine(said)
    requires said != "" && !IsSpace(head[0]) && !IsSpace(said[|said| - 1]) && Strip(said) == reason
    ensures ReadVerdict(head + ":" + said) == Some(reason)
  {
    hide Strip, IndexOf, UpperOf, IsSpace;
    var line := head + ":" + said;
    assert Trimmed(line);
    assert OneLine(line) by { assert !IsLineBreak(':'); }
    assert forall i :: 0 <= i < 6 ==> line[i] == head[i];
    FirstLineIs(line, "");
    assert line + "" == line;
    StripTrimmed(line);
    ColonFound(head, said);
    assert line[|head| + 1..] == said;
  }

  lemma {:induction false} ColonFound(head: string, said: string)
    requires ':' !in head
    ensures IndexOf(':', head + ":" + said) == |head|
  {
    if head == "" {
      assert head + ":" + said == ":" + said;
    } else {
      assert (head + ":" + said)[1..] == head[1..] + ":" + said;
      ColonFound(head[1..], said);
    }
  }

  // ----- the journal -----

  /** A result entry follows the intent of a side-effecting call that its iteration executed, tells
      what really answered that call, and says `ok` exactly when the answer was. */
  ghost predicate TrueAt(env: Env, es: seq<SiteEntry>, i: nat)
    requires i < |es|
  {
    es[i].payload.ResultOf? ==>
      && i > 0 && es[i - 1].payload.IntentOf? && es[i].site == ToolsSite
      && TrueResult(env, es[i], es[i - 1].payload.call)
  }

  ghost predicate TrueResult(env: Env, e: SiteEntry, c: Call)
    requires e.payload.ResultOf?
  {
    var k, r := e.iteration, e.payload.record;
    && c.sideEffect && e.payload.resultCapability == c.name
    && e.outcome == (if r.ok then Ok else ToolError)
    && exists j: nat ::
         j < |Executed(env, k, WorkAt(env, k))| && Executed(env, k, WorkAt(env, k))[j] == c && Tells(env, k, j, c, r)
  }

  /** Every entry says what happened. */
  ghost predicate AllTrue(env: Env, es: seq<SiteEntry>) {
    forall i: nat :: i < |es| ==> TrueAt(env, es, i) && EntryTells(env, es[i])
  }

  lemma TrueJoin(env: Env, a: seq<SiteEntry>, b: seq<SiteEntry>)
    requires AllTrue(env, a) && AllTrue(env, b)
    ensures AllTrue(env, a + b)
  {
    hide TrueResult, EntryTells;
    forall i: nat | i < |a + b| ensures TrueAt(env, a + b, i) && EntryTells(env, (a + b)[i]) {
      if i < |a| { assert TrueAt(env, a, i); } else { assert TrueAt(env, b, i - |a|); }
    }
  }

  lemma QuietTrue(env: Env, es: seq<SiteEntry>)
    requires forall e :: e in es ==> !e.payload.ResultOf? && EntryTells(env, e)
    ensures AllTrue(env, es)
  {
    hide TrueResult, EntryTells;
    forall i: nat | i < |es| ensures TrueAt(env, es, i) && EntryTells(env, es[i]) { assert es[i] in es; }
  }

  lemma {:induction false} ToolEntriesTrue(env: Env, k: nat, calls: seq<Call>, base: nat)
    requires var x := Executed(env, k, WorkAt(env, k));
      base + |calls| <= |x| && calls == x[base..base + |calls|]
    requires forall c :: c in calls ==> c.sideEffect
    ensures AllTrue(env, ToolEntries(env, k, base, calls))
  {
    hide Executed, WorkAt, InvokeResult, Tells, AllTrue, RecordOf;
    if calls == [] {
      QuietTrue(env, []);
    } else {
      var n := |calls| - 1;
      ToolEntriesTrue(env, k, calls[..n], base);
      assert Executed(env, k, WorkAt(env, k))[base + n] == calls[n] && calls[n] in calls;
      PairTrue(env, k, base + n);
      TrueJoin(env, ToolEntries(env, k, base, calls[..n]), PairOf(env, k, base + n, calls[n]));
    }
  }

  /** The two entries of one side-effecting call. */
  function PairOf(env: Env, k: nat, j: nat, c: Call): seq<SiteEntry> {
    var r := RecordOf(c, InvokeResult(env, k, j, c));
    [SiteEntry(ToolsSite, k, Intent, IntentOf(c)),
     SiteEntry(ToolsSite, k, if r.ok then Ok else ToolError, ResultOf(c.name, r))]
  }

  lemma PairResult(env: Env, k: nat, j: nat)
    requires var x := Executed(env, k, WorkAt(env, k)); j < |x| && x[j].sideEffect
    ensures var c := Executed(env, k, WorkAt(env, k))[j]; TrueResult(env, PairOf(env, k, j, c)[1], c)
  {
    hide Executed, WorkAt, InvokeResult, Tells, RecordOf;
    var c := Executed(env, k, WorkAt(env, k))[j];
    RecordTells(env, k, j, c);
    assert Executed(env, k, WorkAt(env, k))[j] == c;
  }

  lemma PairTrue(env: Env, k: nat, j: nat)
    requires var x := Executed(env, k, WorkAt(env, k)); j < |x| && x[j].sideEffect
    ensures AllTrue(env, PairOf(env, k, j, Executed(env, k, WorkAt(env, k))[j]))
  {
    hide Executed, WorkAt, InvokeResult, Tells, RecordOf, TrueResult, ToolsTell;
    var c := Executed(env, k, WorkAt(env, k))[j];
    var es := PairOf(env, k, j, c);
    PairResult(env, k, j);
    forall i: nat | i < |es| ensures TrueAt(env, es, i) && EntryTells(env, es[i]) {}
  }

  lemma RunEntriesTrue(env: Env, k: nat)
    ensures AllTrue(env, RunEntries(env, k, WorkAt(env, k)))
  {
    hide WorkAt, Surviving, Denials, Gate, Blocked, Parallel, Sequential, ToolEntries, AllTrue, CallNames, Splits;
    var w := WorkAt(env, k);
    if Blocked(env, k, w) {
      QuietTrue(env, []);
    } else {
      var s, d := Surviving(env, k, w), Denials(env, k, Gate(env, k, w).denied);
      var par, sq := Parallel(s), Sequential(s);
      PartitionIs(s);
      if sq == [] {
        ToolsMean(env, k);
        ToolSiteTells(env, RunEntries(env, k, w));
        QuietTrue(env, RunEntries(env, k, w));
      } else {
        assert s != [] by { if s == [] { NoSequential(); } }
        assert Executed(env, k, w) == par + sq;
        assert (par + sq)[|par|..|par| + |sq|] == sq;
        ToolEntriesTrue(env, k, sq, |par|);
      }
    }
  }

  lemma NoSequential()
    ensures Sequential([]) == []
  {
  }

  lemma ToolSiteTells(env: Env, es: seq<SiteEntry>)
    requires forall e :: e in es ==> e.site == ToolsSite && ToolsTell(env, e)
    ensures forall e :: e in es ==> EntryTells(env, e)
  {
    hide ToolsTell;
  }

  lemma OneQuiet(env: Env, e: SiteEntry)
    requires !e.payload.ResultOf? && EntryTells(env, e)
    ensures AllTrue(env, [e])
  {
    hide EntryTells;
    QuietTrue(env, [e]);
  }

  lemma WorkEntriesTrue(env: Env, k: nat)
    ensures AllTrue(env, WorkEntries(env, k, WorkAt(env, k)))
  {
    hide GateEntry, MemoryEntries, RunEntries, SwarmEntry, CriticEntry, AllTrue, WorkAt, EntryTells;
    var w := WorkAt(env, k);
    var g, m, r := GateEntry(env, k, w), MemoryEntries(env, k, w), RunEntries(env, k, w);
    var a, b := SwarmEntry(k, w), CriticEntry(env, k, w);
    QuietWork(env, k);
    OneQuiet(env, g);
    OneQuiet(env, a);
    OneQuiet(env, b);
    QuietTrue(env, m);
    RunEntriesTrue(env, k);
    TrueJoin(env, [g], m);
    TrueJoin(env, [g] + m, r);
    TrueJoin(env, [g] + m + r, [a]);
    TrueJoin(env, [g] + m + r + [a], [b]);
    assert WorkEntries(env, k, w) == [g] + m + r + [a] + [b];
  }

  lemma QuietWork(env: Env, k: nat)
    ensures var g, a, b := GateEntry(env, k, WorkAt(env, k)), SwarmEntry(k, WorkAt(env, k)),
      CriticEntry(env, k, WorkAt(env, k));
      && !g.payload.ResultOf? && !a.payload.ResultOf? && !b.payload.ResultOf?
      && EntryTells(env, g) && EntryTells(env, a) && EntryTells(env, b)
    ensures forall e :: e in MemoryEntries(env, k, WorkAt(env, k)) ==> !e.payload.ResultOf? && EntryTells(env, e)
  {
    hide PermissionTells, MemoryTells, SwarmTells, CriticTells, WorkAt, GateEntry, MemoryEntries, SwarmEntry,
      CriticEntry;
    GateTells(env, k);
    MemoryMeans(env, k);
    SwarmCriticTell(env, k);
    WorkSites(env, k, WorkAt(env, k));
  }

  lemma WorkSites(env: Env, k: nat, w: Work)
    ensures var g, a, b := GateEntry(env, k, w), SwarmEntry(k, w), CriticEntry(env, k, w);
      && g.site == PermissionSite && a.site == SwarmSite && b.site == CriticSite
      && !g.payload.ResultOf? && !a.payload.ResultOf? && !b.payload.ResultOf?
    ensures forall e :: e in MemoryEntries(env, k, w) ==> !e.payload.ResultOf?
  {
    hide Gate, Corrections, Claims, Denials, CallNames, AgentNames, ReadVerdict;
  }

  // ----- whole runs -----

  lemma TrueWith(env: Env, s: Turn, t: Turn, e: SiteEntry)
    requires AllTrue(env, s.sites) && t.sites == s.sites + [e] && !e.payload.ResultOf? && EntryTells(env, e)
    ensures AllTrue(env, t.sites)
  {
    hide AllTrue, EntryTells;
    OneQuiet(env, e);
    TrueJoin(env, s.sites, [e]);
  }

  lemma HaltedTrue(env: Env, s: Turn, o: TurnOutcome, code: TerminationCode, entry: SiteOutcome, payload: Payload)
    requires AllTrue(env, s.sites) && !payload.ResultOf?
    requires OutputTells(env, SiteEntry(OutputSite, s.iteration, entry, payload))
    ensures AllTrue(env, Halted(s, o, code, entry, payload).sites)
  {
    hide AllTrue, OutputTells;
    TrueWith(env, s, Halted(s, o, code, entry, payload), SiteEntry(OutputSite, s.iteration, entry, payload));
  }

  lemma ActTrue(env: Env, k: nat, s: Turn, msgs: seq<Message>, actions: nat)
    requires AllTrue(env, s.sites) && ActsAs(env, k, s, actions)
    ensures AllTrue(env, Act(env, k, s, msgs, actions, WorkAt(env, k)).turn.sites)
  {
    hide Worked, Concluded, Feedback, NextMessages, DecisionOf, AllTrue, WorkAt, WorkEntries, Surviving, Gate,
      Invocations, Executed, NonEmpty, Handled, ModelCallsUpTo, CostUpTo, AskedUpTo, EntryTells;
    var w := WorkAt(env, k);
    var s1 := Worked(env, k, s, w);
    WorkedSites(env, k, s, w);
    WorkedIs(env, k, s, w);
    WorkEntriesTrue(env, k);
    TrueJoin(env, s.sites, WorkEntries(env, k, w));
    assert s1.says == SaidUpTo(env, k + 1);
    assert QuestionOf(env, k, s1, w) == QuestionAt(env, k);
    var e := AgainMeans(env, k, s1);
    TrueWith(env, s1, Concluded(env, k, s1, w), e);
  }

  lemma HandleTrue(env: Env, k: nat, s: Turn, msgs: seq<Message>, actions: nat)
    requires AllTrue(env, s.sites) && actions == AskedUpTo(env, k)
    requires AskedUpTo(env, k + 1) <= env.caps.maxTotalActions && !Ambiguous(WorkAt(env, k).batch) ==>
      ActsAs(env, k, s, AskedUpTo(env, k + 1))
    requires s.iteration == k
    ensures AllTrue(env, Handle(env, k, s, msgs, actions, WorkAt(env, k)).turn.sites)
  {
    hide Act, Halted, AllTrue, Ambiguous, WorkAt, ActsAs;
    var b := WorkAt(env, k).batch;
    assert AskedUpTo(env, k + 1) == actions + |b.calls|;
    if Ambiguous(b) {
      HaltedTrue(env, s, Fail, ModelOutputAmbiguous, FailAmbiguous, Limit(|b.calls|, |b.asks|));
    } else if actions + |b.calls| > env.caps.maxTotalActions {
      HaltedTrue(env, s, Expire, LoopMaxActions, ExpireActions, Amount(actions + |b.calls|));
    } else {
      ActTrue(env, k, s, msgs, actions + |b.calls|);
    }
  }

  lemma StepTrue(env: Env, k: nat, s: Turn, actions: nat)
    requires AllTrue(env, s.sites) && RunsAs(env, k, s, actions) && After(env, k).Running?
    ensures AllTrue(env, Step(env, k, s, After(env, k).msgs, actions).turn.sites)
  {
    hide Handle, Prepared, NoProgress, CompactedMessages, WorkOf, Halted, AllTrue, After, Continued, SaidUpTo,
      InvokedUpTo, AskedUpTo, EntryTells, Ambiguous;
    var msgs := After(env, k).msgs;
    var c := CompactionMeans(env, k, s);
    PreparedIs(env, k, s, msgs);
    var s1, r := Prepared(env, k, s, msgs), env.world.reply(k);
    TrueWith(env, s, s1, c);
    if NoProgress(env, k, s, msgs) {
      BrokenStreak(env, k, s, msgs);
      HaltedTrue(env, s1, Expire, LoopNoProgress, ExpireNoProgress, Amount(s1.streak));
    } else if r.CallFailed? {
      HaltedTrue(env, s1, Fail, InternalError, FailCall(r.error), NoPayload);
    } else if env.world.iterationMs(k) > env.caps.maxIterationWallclockMs {
      HaltedTrue(env, s1, Fail, IterationDeadlineExceeded, FailDeadline, Amount(env.world.iterationMs(k)));
    } else {
      var s2 := Recorded(s1, k, r);
      assert s2.modelCalls == ModelCallsUpTo(env, k + 1) && s2.costPaise == CostUpTo(env, k + 1);
      HandleTrue(env, k, s2, CompactedMessages(env, k, msgs), actions);
    }
  }

  lemma {:induction false} AfterTrue(env: Env, n: nat)
    ensures AllTrue(env, After(env, n).turn.sites)
  {
    hide Step, AllTrue, RunsAs, EndedAt;
    if n == 0 {
      QuietTrue(env, []);
    } else {
      AfterTrue(env, n - 1);
      var p := After(env, n - 1);
      if p.Running? {
        AfterIs(env, n - 1);
        StepTrue(env, n - 1, p.turn, p.actions);
      }
    }
  }

  /** The journal tells the truth. In every run each entry says what happened at its site: what was
      asked, cleared and refused, how many claims were checked and refuted, which calls and
      sub-agents ran, what the critic held, whether messages were compacted and why the turn stopped
      or went on. Each result comes right after the intent of a side-effecting call that its
      iteration executed, holds what answered that call, and says `ok` if and only if that answer
      was ok. */
  lemma JournalTells(env: Env)
    ensures AllTrue(env, Result(env).sites)
  {
    hide After, AllTrue;
    AfterTrue(env, Rounds(env));
  }
}
