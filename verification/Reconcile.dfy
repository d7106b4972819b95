/** The journal against what was really invoked: the intents of a turn are its side-effecting
    invocations, one for one. */
module Reconcile {
  import opened Text
  import opened Tags
  import opened HarnessState
  import opened SiteSpecs
  import opened LoopSpec
  import opened Transcript
  import opened CallLemmas
  import opened Runs
  import opened Journal

  /** The invocations that the journaled intents announce. */
  function Announced(es: seq<SiteEntry>): seq<Invocation> {
    if es == [] then []
    else
      var rest, last := Announced(es[..|es| - 1]), es[|es| - 1];
      if last.outcome == Intent && last.payload.IntentOf? then rest + [Invocation(last.iteration, last.payload.call)]
      else rest
  }

  /** The invocations of side-effecting calls. */
  function SideEffects(invs: seq<Invocation>): seq<Invocation> {
    if invs == [] then []
    else
      var rest, last := SideEffects(invs[..|invs| - 1]), invs[|invs| - 1];
      if last.call.sideEffect then rest + [last] else rest
  }

  function Names(invs: seq<Invocation>): (r: seq<string>)
    ensures |r| == |invs|
  {
    seq(|invs|, i requires 0 <= i < |invs| => invs[i].call.name)
  }

  lemma {:induction false} AnnouncedJoin(a: seq<SiteEntry>, b: seq<SiteEntry>)
    ensures Announced(a + b) == Announced(a) + Announced(b)
  {
    if b == [] {
      assert a + b == a;
    } else {
      assert (a + b)[..|a + b| - 1] == a + b[..|b| - 1];
      AnnouncedJoin(a, b[..|b| - 1]);
    }
  }

  lemma {:induction false} SideEffectsJoin(a: seq<Invocation>, b: seq<Invocation>)
    ensures SideEffects(a + b) == SideEffects(a) + SideEffects(b)
  {
    if b == [] {
      assert a + b == a;
    } else {
      assert (a + b)[..|a + b| - 1] == a + b[..|b| - 1];
      SideEffectsJoin(a, b[..|b| - 1]);
    }
  }

  lemma {:induction false} IntentNames(es: seq<SiteEntry>)
    ensures Intents(es) == Names(Announced(es))
  {
    if es != [] { IntentNames(es[..|es| - 1]); }
  }

  // ----- the entries of one iteration -----

  lemma NoIntent(e: SiteEntry)
    requires e.outcome != Intent
    ensures Announced([e]) == []
  {
    assert [e][..0] == [];
  }

  lemma {:induction false} ToolEntriesAnnounce(env: Env, k: nat, base: nat, calls: seq<Call>)
    ensures Announced(ToolEntries(env, k, base, calls)) == Invocations(k, calls)
  {
    hide InvokeResult, RecordOf;
    if calls != [] {
      var n := |calls| - 1;
      ToolEntriesAnnounce(env, k, base, calls[..n]);
      var front, es := ToolEntries(env, k, base, calls[..n]), ToolEntries(env, k, base, calls);
      assert es[..|es| - 1] == front + [es[|es| - 2]];
      assert es[..|es| - 1][..|es| - 2] == front;
      assert Invocations(k, calls) == Invocations(k, calls[..n]) + [Invocation(k, calls[n])];
    }
  }

  lemma {:induction false} AllSideEffects(k: nat, calls: seq<Call>, effect: bool)
    requires forall c :: c in calls ==> c.sideEffect == effect
    ensures SideEffects(Invocations(k, calls)) == if effect then Invocations(k, calls) else []
  {
    if calls != [] {
      var n := |calls| - 1;
      AllSideEffects(k, calls[..n], effect);
      assert Invocations(k, calls)[..n] == Invocations(k, calls[..n]);
      assert calls[n] in calls;
    }
  }

  lemma ToolsAnnounce(env: Env, k: nat, calls: seq<Call>, denied: seq<Denied>)
    ensures Announced(ToolsEntries(env, k, calls, denied))
      == SideEffects(Invocations(k, Parallel(calls) + Sequential(calls)))
  {
    hide Announced, SideEffects, Invocations, ToolEntries, CallNames, Splits;
    var par, sq := Parallel(calls), Sequential(calls);
    PartitionIs(calls);
    InvocationsJoin(k, par, sq);
    SideEffectsJoin(Invocations(k, par), Invocations(k, sq));
    AllSideEffects(k, par, false);
    AllSideEffects(k, sq, true);
    var es := ToolsEntries(env, k, calls, denied);
    if !(calls == [] && denied == []) && sq != [] {
      ToolEntriesAnnounce(env, k, |par|, sq);
    } else {
      assert sq == [];
      NoInvocations(k);
      NoIntent(es[0]);
    }
  }

  lemma RunAnnounces(env: Env, k: nat, w: Work)
    ensures Announced(RunEntries(env, k, w)) == SideEffects(Invocations(k, Executed(env, k, w)))
  {
    hide ToolsEntries, Surviving, Denials, Gate, Blocked, Parallel, Sequential;
    if Blocked(env, k, w) {
      NoInvocations(k);
    } else {
      ToolsAnnounce(env, k, Surviving(env, k, w), Denials(env, k, Gate(env, k, w).denied));
    }
  }

  lemma MemoryAnnounces(env: Env, k: nat, w: Work)
    ensures Announced(MemoryEntries(env, k, w)) == []
  {
    hide Gate, Corrections, Claims;
    var es := MemoryEntries(env, k, w);
    if es != [] { NoIntent(es[0]); }
  }

  lemma GateNotIntent(env: Env, k: nat, w: Work)
    ensures GateEntry(env, k, w).outcome != Intent
  {
    hide GateOf, Denials, CallNames;
  }

  lemma WorkAnnounces(env: Env, k: nat, w: Work)
    ensures Announced(WorkEntries(env, k, w)) == SideEffects(Invocations(k, Executed(env, k, w)))
  {
    hide Announced, SideEffects, GateEntry, MemoryEntries, RunEntries, SwarmEntry, CriticEntry, Executed;
    var g, m, r := GateEntry(env, k, w), MemoryEntries(env, k, w), RunEntries(env, k, w);
    var a, b := SwarmEntry(k, w), CriticEntry(env, k, w);
    EntryShapes(env, k, w);
    GateNotIntent(env, k, w);
    NoIntent(g);
    NoIntent(a);
    NoIntent(b);
    MemoryAnnounces(env, k, w);
    RunAnnounces(env, k, w);
    AnnouncedJoin([g], m);
    AnnouncedJoin([g] + m, r);
    AnnouncedJoin([a], [b]);
    AnnouncedJoin([g] + m + r, [a] + [b]);
    assert WorkEntries(env, k, w) == [g] + m + r + ([a] + [b]);
  }

  // ----- whole runs -----

  ghost predicate Tied(t: Turn) {
    Announced(t.sites) == SideEffects(t.invoked)
  }

  lemma TiedWith(s: Turn, t: Turn, e: SiteEntry)
    requires Tied(s) && t.sites == s.sites + [e] && t.invoked == s.invoked && e.outcome != Intent
    ensures Tied(t)
  {
    hide Announced, SideEffects;
    AnnouncedJoin(s.sites, [e]);
    NoIntent(e);
  }

  lemma PreparedTied(env: Env, k: nat, s: Turn, msgs: seq<Message>)
    requires Tied(s)
    ensures Tied(Prepared(env, k, s, msgs)) && Prepared(env, k, s, msgs).iteration == k
  {
    hide Prepared, Tied;
    var c := CompactionEntry(env, k, s, msgs);
    PreparedIs(env, k, s, msgs);
    TiedWith(s, Prepared(env, k, s, msgs), c);
  }

  lemma WorkedTied(env: Env, k: nat, s: Turn, w: Work)
    requires Tied(s) && s.iteration == k
    ensures Tied(Worked(env, k, s, w)) && Worked(env, k, s, w).iteration == k
    ensures Worked(env, k, s, w).code == s.code
  {
    hide Worked, Announced, SideEffects, WorkEntries, Executed, Invocations, NonEmpty;
    WorkedSites(env, k, s, w);
    WorkedIs(env, k, s, w);
    WorkAnnounces(env, k, w);
    AnnouncedJoin(s.sites, WorkEntries(env, k, w));
    SideEffectsJoin(s.invoked, Invocations(k, Executed(env, k, w)));
  }

  lemma ConcludedTied(env: Env, k: nat, s: Turn, w: Work)
    requires Tied(s) && s.iteration == k && s.code == None
    ensures Tied(Concluded(env, k, s, w))
  {
    hide Concluded, Tied, QuestionOf, DecisionOf, Blocked;
    var e := DecidedEntry(env, k, s, w);
    ConcludedIs(env, k, s, w);
    TiedWith(s, Concluded(env, k, s, w), e);
  }

  lemma HaltedTied(s: Turn, outcome: TurnOutcome, code: TerminationCode, entry: SiteOutcome, payload: Payload)
    requires Tied(s) && entry != Intent
    ensures Tied(Halted(s, outcome, code, entry, payload))
  {
    hide Tied;
    TiedWith(s, Halted(s, outcome, code, entry, payload), SiteEntry(OutputSite, s.iteration, entry, payload));
  }

  lemma ActTied(env: Env, k: nat, s: Turn, msgs: seq<Message>, actions: nat, w: Work)
    requires Tied(s) && s.iteration == k && s.code == None
    ensures Tied(Act(env, k, s, msgs, actions, w).turn)
  {
    hide Worked, Concluded, Feedback, NextMessages, DecisionOf, Announced, SideEffects, QuestionOf;
    WorkedTied(env, k, s, w);
    ConcludedTied(env, k, Worked(env, k, s, w), w);
  }

  lemma HandleTied(env: Env, k: nat, s: Turn, msgs: seq<Message>, actions: nat, w: Work)
    requires Tied(s) && s.iteration == k && s.code == None
    ensures Tied(Handle(env, k, s, msgs, actions, w).turn)
  {
    hide Act, Halted, Tied, Ambiguous;
    var b := w.batch;
    if Ambiguous(b) {
      HaltedTied(s, Fail, ModelOutputAmbiguous, FailAmbiguous, Limit(|b.calls|, |b.asks|));
    } else if actions + |b.calls| > env.caps.maxTotalActions {
      HaltedTied(s, Expire, LoopMaxActions, ExpireActions, Amount(actions + |b.calls|));
    } else {
      ActTied(env, k, s, msgs, actions + |b.calls|, w);
    }
  }

  lemma RecordedTied(s: Turn, k: nat, r: Reply)
    requires Tied(s) && r.Replied?
    ensures Tied(Recorded(s, k, r)) && Recorded(s, k, r).iteration == s.iteration && Recorded(s, k, r).code == s.code
  {
    hide Announced, SideEffects;
  }

  lemma StepTied(env: Env, k: nat, s: Turn, msgs: seq<Message>, actions: nat)
    requires Tied(s) && s.code == None
    ensures Tied(Step(env, k, s, msgs, actions).turn)
  {
    hide Handle, Prepared, NoProgress, CompactedMessages, WorkOf, Halted, Recorded, Tied;
    PreparedTied(env, k, s, msgs);
    PreparedIs(env, k, s, msgs);
    var s1, r := Prepared(env, k, s, msgs), env.world.reply(k);
    if NoProgress(env, k, s, msgs) {
      HaltedTied(s1, Expire, LoopNoProgress, ExpireNoProgress, Amount(s1.streak));
    } else if r.CallFailed? {
      HaltedTied(s1, Fail, InternalError, FailCall(r.error), NoPayload);
    } else if env.world.iterationMs(k) > env.caps.maxIterationWallclockMs {
      HaltedTied(s1, Fail, IterationDeadlineExceeded, FailDeadline, Amount(env.world.iterationMs(k)));
    } else {
      RecordedTied(s1, k, r);
      HandleTied(env, k, Recorded(s1, k, r), CompactedMessages(env, k, msgs), actions, WorkOf(env, r.text));
    }
  }

  lemma {:induction false} AfterTied(env: Env, n: nat)
    ensures Tied(After(env, n).turn)
  {
    hide Step, Tied, RunsAs, EndedAt;
    if n == 0 {
      FreshTied();
    } else {
      AfterTied(env, n - 1);
      var p := After(env, n - 1);
      if p.Running? {
        AfterIs(env, n - 1);
        RunningCode(env, n - 1, p.turn, p.actions);
        StepTied(env, n - 1, p.turn, p.msgs, p.actions);
      }
    }
  }

  lemma FreshTied()
    ensures Tied(FRESH_TURN)
  {
  }

  /** The journal reconciles with what happened. In every run the announced calls are the
      side-effecting calls that were invoked, in the same order and iterations and with the same
      arguments, and when the turn is over each has its result. */
  lemma JournalReconciles(env: Env)
    ensures Announced(Result(env).sites) == SideEffects(Result(env).invoked)
    ensures Intents(Result(env).sites) == Names(SideEffects(Result(env).invoked))
    ensures ResultNames(Result(env).sites) == Intents(Result(env).sites)
  {
    hide After, Announced, SideEffects, Intents, ResultNames, Names;
    AfterTied(env, Rounds(env));
    IntentNames(Result(env).sites);
    EveryIntentAnswered(env);
  }

  lemma EveryIntentAnswered(env: Env)
    ensures ResultNames(Result(env).sites) == Intents(Result(env).sites)
  {
    hide Result, TerminalWord, ContinuedWord, Tracked, Intents, ResultNames;
    if env.caps.maxIterations < 1 {
      NoRounds(env);
      NoJournal(Result(env).sites);
    } else {
      JournalGrammar(env);
      var words, last :| JournalOf(words, last, Result(env));
      FlattenTracked(words);
      TerminalTracked(last, Result(env).iteration, Result(env).outcome, Result(env).code);
      TrackedJoin(Idle, Flatten(words), last);
      TrackedMeans(Result(env).sites);
    }
  }
}
