/** The no-progress breaker, exactly: without compaction it fires when the last replies were
    all empty, because any other reply makes the message text strictly longer. */
module NoProgress {
  import opened Text
  import opened Tags
  import opened HarnessState
  import opened SiteSpecs
  import opened LoopSpec
  import opened Transcript
  import opened Runs
  import opened Scripts
  import opened Conversation
  import Parser
  import Patterns
  import RoundTrip

  // ----- the text of the next messages -----

  lemma RenderedNonEmpty(w: World, feedback: seq<Record>)
    requires feedback != []
    ensures Join("\n", Rendered(w, feedback)) != ""
  {
    var blocks := Rendered(w, feedback);
    assert blocks[0] == RenderRecord(w, feedback[0]);
    assert |blocks[0]| > 0;
  }

  /** The digest text grows by the reply and its feedback. */
  lemma NextDigest(w: World, msgs: seq<Message>, text: string, feedback: seq<Record>)
    ensures var next := DigestText(NextMessages(w, msgs, text, feedback));
      && DigestText(msgs) <= next
      && (next == DigestText(msgs) <==> text == "" && feedback == [])
  {
    hide DigestText, Join, Rendered;
    var reply := Message("assistant", Plain(text));
    DigestJoin(msgs, [reply]);
    DigestOne(reply);
    if feedback != [] {
      var block := Message("user", Plain(Join("\n", Rendered(w, feedback))));
      DigestJoin(msgs + [reply], [block]);
      DigestOne(block);
      RenderedNonEmpty(w, feedback);
    }
  }

  // ----- an empty reply does nothing -----

  ghost predicate Idle(w: Work) {
    && w.kept == [] && w.batch == Batch([], [], [], [], [], [], [], false)
  }

  lemma EmptyWork(env: Env, k: nat)
    requires TextAt(env, k) == ""
    ensures Idle(WorkAt(env, k))
  {
    hide Parser.Parse;
    RoundTrip.ParseEmpty(Patterns.Lexicon(env.policy.builtIn, env.letters));
  }

  lemma IdleSites(env: Env, k: nat, w: Work)
    requires Idle(w)
    ensures !Blocked(env, k, w) && Surviving(env, k, w) == [] && Feedback(env, k, w) == []
  {
    hide VerdictOf;
  }

  /** After an empty reply only a cap, or something said before, keeps the turn from going on. */
  lemma EmptyDecision(env: Env, k: nat)
    requires TextAt(env, k) == ""
    ensures DecisionOf(env.caps, QuestionAt(env, k)) == Again
      <==> && k + 1 < env.caps.maxIterations && env.world.elapsedMs(k) < env.caps.maxWallclockMs
           && CostUpTo(env, k + 1) < env.caps.maxCostPaise && SaidUpTo(env, k + 1) == []
  {
    hide WorkAt, SaidUpTo, CostUpTo, Surviving, Blocked, Feedback;
    EmptyWork(env, k);
    IdleSites(env, k, WorkAt(env, k));
  }

  // ----- the streak -----

  /** How many of the replies just before reply `n` were empty. */
  function EmptyRun(env: Env, n: nat): nat {
    if n == 0 || TextAt(env, n - 1) != "" then 0 else 1 + EmptyRun(env, n - 1)
  }

  lemma {:induction false} EmptyRunMeans(env: Env, n: nat, m: nat)
    ensures EmptyRun(env, n) >= m <==> m <= n && forall i :: n - m <= i < n ==> TextAt(env, i) == ""
  {
    if m > 0 && n > 0 {
      EmptyRunMeans(env, n - 1, m - 1);
      if EmptyRun(env, n) >= m {
        forall i | n - m <= i < n ensures TextAt(env, i) == "" {}
      }
    }
  }

  /** No iteration of the run compacts its messages. */
  ghost predicate NeverCompacts(env: Env) {
    forall n: nat :: After(env, n).Running? ==> !NeedsCompaction(After(env, n).msgs)
  }

  /** The progress fields of the turn about to start iteration `n`. */
  ghost predicate ProgressAt(env: Env, n: nat, s: Turn, msgs: seq<Message>) {
    if n == 0 then s.digest == None && s.streak == 0
    else
      && s.streak == EmptyRun(env, n - 1)
      && s.digest.Some? && (s.digest.value == DigestText(msgs) <==> TextAt(env, n - 1) == "")
  }

  lemma PreparedProgress(env: Env, k: nat, s: Turn, msgs: seq<Message>)
    requires ProgressAt(env, k, s, msgs) && !NeedsCompaction(msgs)
    ensures var t := Prepared(env, k, s, msgs);
      && t.streak == EmptyRun(env, k) && t.digest == Some(DigestText(msgs))
      && (NoProgress(env, k, s, msgs) <==> EmptyRun(env, k) >= 1 && EmptyRun(env, k) >= env.caps.maxNoProgress)
  {
    hide DigestText, TextAt, NeedsCompaction;
  }

  lemma Uncompacted(env: Env, k: nat, msgs: seq<Message>)
    requires !NeedsCompaction(msgs)
    ensures CompactedMessages(env, k, msgs) == msgs
  {
    hide NeedsCompaction;
  }

  lemma PlainStep(env: Env, k: nat, s: Turn, msgs: seq<Message>, actions: nat)
    requires !NeedsCompaction(msgs) && Step(env, k, s, msgs, actions).Running?
    ensures var p := Step(env, k, s, msgs, actions);
      && p.msgs == NextMessages(env.world, msgs, TextAt(env, k), Feedback(env, k, WorkAt(env, k)))
      && p.turn.digest == Prepared(env, k, s, msgs).digest && p.turn.streak == Prepared(env, k, s, msgs).streak
  {
    hide Step, Prepared, Feedback, NextMessages, CompactedMessages, NeedsCompaction, WorkAt;
    StepMessages(env, k, s, msgs, actions);
    Uncompacted(env, k, msgs);
  }

  lemma {:induction false} ProgressAfter(env: Env, n: nat)
    requires NeverCompacts(env) && After(env, n).Running?
    ensures ProgressAt(env, n, After(env, n).turn, After(env, n).msgs)
  {
    hide Step, Feedback, NextMessages, DigestText, NeedsCompaction, WorkAt, Prepared;
    if n > 0 {
      var p, k := After(env, n - 1), n - 1;
      ProgressAfter(env, k);
      PreparedProgress(env, k, p.turn, p.msgs);
      PlainStep(env, k, p.turn, p.msgs, p.actions);
      NextDigest(env.world, p.msgs, TextAt(env, k), Feedback(env, k, WorkAt(env, k)));
      if TextAt(env, k) == "" {
        EmptyWork(env, k);
        IdleSites(env, k, WorkAt(env, k));
      }
    }
  }

  // ----- the exact condition -----

  function Threshold(caps: Caps): nat {
    if caps.maxNoProgress >= 1 then caps.maxNoProgress else 1
  }

  /** The last replies are all empty and no other way out was open when the last one arrived. */
  ghost predicate Starved(env: Env, t: Turn) {
    var m := |t.modelCalls|;
    && Threshold(env.caps) <= m
    && (forall i :: m - Threshold(env.caps) <= i < m ==> t.modelCalls[i].text == "")
    && m < env.caps.maxIterations && env.world.elapsedMs(m - 1) < env.caps.maxWallclockMs
    && t.costPaise < env.caps.maxCostPaise && 0 <= env.caps.maxTotalActions
    && t.says == []
  }

  lemma RecordedTexts(env: Env, n: nat)
    requires forall i :: 0 <= i < n ==> env.world.reply(i).Replied?
    ensures |ModelCallsUpTo(env, n)| == n
    ensures forall i :: 0 <= i < n ==> ModelCallsUpTo(env, n)[i].text == TextAt(env, i)
  {
  }

  lemma EndTexts(env: Env, k: nat, e: Ending)
    requires EndsRun(env, k, e)
    ensures var t := Result(env); var n := RepliesOf(k, e);
      && |t.modelCalls| == n && (forall i :: 0 <= i < n ==> t.modelCalls[i].text == TextAt(env, i))
      && t.costPaise == CostUpTo(env, n)
  {
    hide Result, Continued, CostUpTo, ModelCallsUpTo, EndsRun, InvokedUpTo, AskedUpTo;
    EarlierContinued(env, k, e);
    EndFields(env, k, e);
    forall i | 0 <= i < k ensures env.world.reply(i).Replied? { ContinuedMeans(env, i); }
    RecordedTexts(env, RepliesOf(k, e));
  }

  lemma EndSays(env: Env, k: nat, e: Ending)
    requires EndsRun(env, k, e)
    ensures Result(env).says == SaidUpTo(env, if ActedOn(e) then k + 1 else k)
    ensures After(env, k).Running? && e == EndingOf(env, k, After(env, k).turn, After(env, k).msgs)
    ensures e.ByDecision? ==> e.decision == DecisionOf(env.caps, QuestionAt(env, k)) && e.decision != Again
  {
    hide Result, WorkAt, QuestionAt, InvokedUpTo, CostUpTo, AskedUpTo, SaidUpTo, ModelCallsUpTo, After, OutboundOf,
      GateOf, EndingOf, Handled, DecisionOf, EndOutcome, EndCode, EndApproval, EndOutbound;
  }

  lemma SaidKept(env: Env, k: nat)
    requires TextAt(env, k) == ""
    ensures SaidUpTo(env, k + 1) == SaidUpTo(env, k) && AskedUpTo(env, k + 1) == AskedUpTo(env, k)
  {
    hide WorkAt;
    EmptyWork(env, k);
  }

  lemma EmptyHandled(env: Env, k: nat)
    requires TextAt(env, k) == ""
    ensures !Ambiguous(WorkAt(env, k).batch) && WorkAt(env, k).batch.escalations == []
  {
    hide WorkAt;
    EmptyWork(env, k);
  }

  lemma ContinuedDecision(env: Env, k: nat)
    requires Continued(env, k)
    ensures DecisionOf(env.caps, QuestionAt(env, k)) == Again && AskedUpTo(env, k + 1) <= env.caps.maxTotalActions
  {
    hide QuestionAt, WorkAt, AskedUpTo;
  }

  /** The breaker's turn is starved. */
  lemma BrokenStarved(env: Env, k: nat)
    requires NeverCompacts(env) && EndsRun(env, k, ByNoProgress)
    ensures Starved(env, Result(env))
  {
    hide Result, After, EndsRun, NeverCompacts, QuestionAt, DecisionOf, SaidUpTo, CostUpTo, AskedUpTo, Continued,
      TextAt;
    EndSays(env, k, ByNoProgress);
    EndTexts(env, k, ByNoProgress);
    var p := After(env, k);
    assert !NeedsCompaction(p.msgs) by { RunNotCompacted(env, k); }
    ProgressAfter(env, k);
    PreparedProgress(env, k, p.turn, p.msgs);
    assert NoProgress(env, k, p.turn, p.msgs) by { EndingNoProgress(env, k, p.turn, p.msgs); }
    EmptyRunMeans(env, k, Threshold(env.caps));
    assert TextAt(env, k - 1) == "";
    EarlierContinued(env, k, ByNoProgress);
    ContinuedDecision(env, k - 1);
    EmptyDecision(env, k - 1);
    BelowCap(env, k, ByNoProgress);
  }

  lemma RunNotCompacted(env: Env, k: nat)
    requires NeverCompacts(env) && After(env, k).Running?
    ensures !NeedsCompaction(After(env, k).msgs)
  {
    hide After, NeedsCompaction;
  }

  lemma EndingNoProgress(env: Env, k: nat, s: Turn, msgs: seq<Message>)
    ensures EndingOf(env, k, s, msgs) == ByNoProgress <==> NoProgress(env, k, s, msgs)
  {
    hide NoProgress, WorkAt, AskedUpTo, QuestionAt, DecisionOf;
  }

  lemma BelowCap(env: Env, k: nat, e: Ending)
    requires EndsRun(env, k, e)
    ensures k < env.caps.maxIterations
  {
    hide EndedAt;
  }

  lemma AskedWithin(env: Env, k: nat, e: Ending)
    requires EndsRun(env, k, e) && 0 <= env.caps.maxTotalActions
    ensures AskedUpTo(env, k) <= env.caps.maxTotalActions
  {
    hide EndsRun, AskedUpTo, Continued, Result, After, EndedAt, TextAt, WorkAt;
    if k == 0 {
      NothingAsked(env);
    } else {
      EarlierContinued(env, k, e);
      ContinuedDecision(env, k - 1);
    }
  }

  /** A starved turn was ended by the breaker. */
  lemma StarvedBroken(env: Env, k: nat, e: Ending)
    requires NeverCompacts(env) && EndsRun(env, k, e) && Starved(env, Result(env))
    ensures e == ByNoProgress
  {
    hide Result, After, EndsRun, NeverCompacts, QuestionAt, DecisionOf, SaidUpTo, CostUpTo, AskedUpTo, Continued,
      TextAt, WorkAt, NoProgress, Ambiguous;
    EndSays(env, k, e);
    EndTexts(env, k, e);
    AskedWithin(env, k, e);
    var p, n := After(env, k), RepliesOf(k, e);
    EmptyRunMeans(env, n, Threshold(env.caps));
    if n == k {
      RunNotCompacted(env, k);
      ProgressAfter(env, k);
      PreparedProgress(env, k, p.turn, p.msgs);
    } else {
      assert TextAt(env, k) == "";
      EmptyHandled(env, k);
      EmptyDecision(env, k);
      SaidKept(env, k);
    }
  }

  lemma EndCodeIs(env: Env, k: nat, e: Ending)
    requires EndsRun(env, k, e)
    ensures Result(env).code == Some(LoopNoProgress) <==> e == ByNoProgress
  {
    hide Result, WorkAt, QuestionAt, InvokedUpTo, CostUpTo, AskedUpTo, SaidUpTo, ModelCallsUpTo, After, OutboundOf,
      GateOf, EndFits, EndingOf, DecisionOf;
    assert EndsAs(env, k, Result(env), e);
  }

  /** Without compaction a run ends for lack of progress exactly when its turn is starved. */
  lemma NoProgressExact(env: Env)
    requires env.caps.maxIterations >= 1 && NeverCompacts(env)
    ensures Result(env).code == Some(LoopNoProgress) <==> Starved(env, Result(env))
  {
    hide Result, Starved, EndsRun, NeverCompacts;
    EveryRunEnds(env);
    var k, e :| EndsRun(env, k, e);
    EndCodeIs(env, k, e);
    if e == ByNoProgress { BrokenStarved(env, k); }
    if Starved(env, Result(env)) { StarvedBroken(env, k, e); }
  }

  // ----- empty replies alone are not enough -----

  /** The last replies are all empty. */
  ghost predicate LastEmpty(env: Env, t: Turn) {
    var m := |t.modelCalls|;
    Threshold(env.caps) <= m && forall i :: m - Threshold(env.caps) <= i < m ==> t.modelCalls[i].text == ""
  }

  /** A model that always replies with nothing, in a turn of one iteration. */
  function SilentEnv(): Env {
    Env(Caps(1, 100, 100, 100, 6, 32, 1, 20), None, "hi", [], Policy({}, map[], map[], {}, false, {}, None), {},
      StillWorld())
  }

  /** Empty replies do not end a turn for lack of progress when the last of them arrives in the
      last iteration: the output site expires the turn first. */
  lemma EmptyAtTheCap()
    ensures var env := SilentEnv();
      LastEmpty(env, Result(env)) && Result(env).code == Some(LoopMaxIterations)
  {
    hide Result, EndedAt, After, WorkAt;
    var env := SilentEnv();
    EveryRunEnds(env);
    var k, e :| EndsRun(env, k, e);
    assert k == 0;
    EndTexts(env, 0, e);
    EndSays(env, 0, e);
    StartEnding(env, e);
  }

  lemma StartQuestion(env: Env)
    requires env == SilentEnv()
    ensures var q := QuestionAt(env, 0); !q.blocked && q.iteration == 1 && q.elapsedMs == 1 && q.costPaise == 1
    ensures DecisionOf(env.caps, QuestionAt(env, 0)) == CapIterations
    ensures CodeFor(env.caps, QuestionAt(env, 0)) == Some(LoopMaxIterations)
  {
    hide WorkAt, Surviving, Blocked, SaidUpTo, Feedback;
    EmptyWork(env, 0);
    IdleSites(env, 0, WorkAt(env, 0));
    assert CostUpTo(env, 1) == CostUpTo(env, 0) + 1 == 1;
  }

  lemma StartEnding(env: Env, e: Ending)
    requires env == SilentEnv() && EndsRun(env, 0, e)
    ensures e == ByDecision(CapIterations) && Result(env).code == Some(LoopMaxIterations)
  {
    hide WorkAt, DigestText, Result, QuestionAt, EndFits, Prepared, CompactedMessages, DecisionOf, CodeFor,
      EndOutbound, EndApproval, ModelCallsUpTo, CostUpTo, SaidUpTo, InvokedUpTo, Idle;
    EmptyHandled(env, 0);
    NothingAsked(env);
    SaidKept(env, 0);
    StartQuestion(env);
    assert After(env, 0).turn.digest == None;
    assert EndsAs(env, 0, Result(env), e);
  }
}
