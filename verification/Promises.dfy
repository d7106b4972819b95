/** Two things the source says that hold only under a condition: that trimmed calls are answered,
    and that a final ends the turn. For each, exactly when, and a turn in which it fails. */
module Promises {
  import opened Text
  import opened Tags
  import opened HarnessState
  import opened SiteSpecs
  import opened LoopSpec
  import opened Transcript
  import opened CallLemmas
  import opened Runs
  import opened Scripts
  import opened Batches
  import Printer

  // ----- trimmed calls -----

  lemma TrimKeeps(caps: Caps, calls: seq<Call>)
    ensures KeptAfterTrim(caps, calls) == calls <==> |calls| <= caps.maxActionsPerIteration || calls == []
    ensures KeptAfterTrim(caps, calls) != calls ==> |KeptAfterTrim(caps, calls)| < |calls|
  {
  }

  /** In an iteration that does not suspend, every call the reply asked for is answered if and only
      if the per-iteration cap trimmed none; otherwise the trimmed ones are answered by nothing. */
  lemma AnsweredExactly(env: Env, k: nat)
    requires !Blocked(env, k, WorkAt(env, k))
    ensures var w := WorkAt(env, k);
      multiset(Calls(Answers(env, k, w))) == multiset(w.batch.calls)
      <==> |w.batch.calls| <= env.caps.maxActionsPerIteration || w.batch.calls == []
  {
    hide Answers, Calls, Blocked, EventsOf, BatchOf, KeptAfterTrim, Subsequence, Surviving, Gate;
    var w := WorkAt(env, k);
    Conservation(env, k, w);
    TrimKeeps(env.caps, w.batch.calls);
    assert |multiset(w.kept)| == |w.kept| && |multiset(w.batch.calls)| == |w.batch.calls|;
  }

  // ----- the final of the last reply -----

  lemma DecisionCode(caps: Caps, q: Ask7)
    ensures CodeFor(caps, q) == Some(ModelEmittedFinalAnswer)
      <==> q.hasFinal && !q.blocked && q.iteration < caps.maxIterations
           && q.elapsedMs < caps.maxWallclockMs && q.costPaise < caps.maxCostPaise
  {
  }

  /** When the last reply reaches the output decision, the turn is recorded as ended by the model's
      final if and only if the reply has one, nothing waits for approval, it is not the last reply
      allowed, and neither the wall clock nor the cost has reached its cap. */
  lemma FinalExactly(env: Env)
    requires env.caps.maxIterations >= 1
    requires Result(env).code !in HALTING_CODES && Result(env).code != Some(CriticEscalated)
    ensures var t := Result(env); var k := t.iteration; var w := WorkAt(env, k);
      t.code == Some(ModelEmittedFinalAnswer)
      <==> && w.batch.hasFinal && !Blocked(env, k, w)
           && k + 1 < env.caps.maxIterations && env.world.elapsedMs(k) < env.caps.maxWallclockMs
           && t.costPaise < env.caps.maxCostPaise
  {
    hide Result, EndsRun, WorkAt, Surviving, Blocked, CodeFor, SaidUpTo, CostUpTo;
    EveryRunEnds(env);
    var k, e :| EndsRun(env, k, e);
    DecisionEnds(env, k, e);
    DecisionCode(env.caps, QuestionAt(env, k));
  }

  lemma DecisionEnds(env: Env, k: nat, e: Ending)
    requires EndsRun(env, k, e)
    requires Result(env).code !in HALTING_CODES && Result(env).code != Some(CriticEscalated)
    ensures var t := Result(env);
      t.iteration == k && t.code == CodeFor(env.caps, QuestionAt(env, k)) && t.costPaise == CostUpTo(env, k + 1)
  {
    hide Result, EndFits, EndingOf, After, QuestionAt, CodeFor, EndOutbound, EndApproval, ModelCallsUpTo, SaidUpTo,
      InvokedUpTo, CostUpTo, VerdictEntry, EndOutcome;
    assert EndsAs(env, k, Result(env), e);
  }

  // ----- a turn whose second call is trimmed -----

  const FIRST := Call("catalog.search", None, "", false, false)
  const SECOND := Call("template.lookup", None, "", false, false)

  /** Two iterations, one call each. */
  function NarrowEnv(): Env {
    Env(Caps(2, 100, 100, 100, 1, 32, 2, 20), Some("t"), "hi", [],
      Policy({FIRST.name, SECOND.name}, map[FIRST.name := Low, SECOND.name := Low], map[], {}, false, {}, None), {},
      StillWorld())
  }

  lemma FirstCanonical()
    ensures Printer.Canonical(CallEvent(FIRST))
  {
  }

  lemma SecondCanonical()
    ensures Printer.Canonical(CallEvent(SECOND))
  {
  }

  lemma TwoCallsScriptable()
    ensures Scriptable([CallEvent(FIRST), CallEvent(SECOND)])
  {
    hide Printer.Canonical, FIRST, SECOND;
    FirstCanonical();
    SecondCanonical();
  }

  lemma NarrowWork(env: Env, k: nat)
    requires Scriptable([CallEvent(FIRST), CallEvent(SECOND)])
    requires env == Scripted(NarrowEnv(), [CallEvent(FIRST), CallEvent(SECOND)])
    ensures var w := WorkAt(env, k);
      w.batch == Batch([FIRST, SECOND], [], [], [], [], [], [], false) && w.kept == [FIRST]
  {
    hide BatchOf, Script, Scriptable, FIRST, SECOND;
    ScriptWork(NarrowEnv(), [CallEvent(FIRST), CallEvent(SECOND)], k);
    BatchOne(CallEvent(FIRST));
    BatchOne(CallEvent(SECOND));
    BatchJoin([CallEvent(FIRST)], [CallEvent(SECOND)]);
    assert [CallEvent(FIRST)] + [CallEvent(SECOND)] == [CallEvent(FIRST), CallEvent(SECOND)];
    assert [FIRST, SECOND][..1] == [FIRST];
  }

  /** One plain cleared call is the only one executed and answered. */
  lemma OneAnswered(env: Env, k: nat, w: Work, c: Call)
    requires w.kept == [c] && w.batch.approvals == [] && !c.memoryClaim && !c.sideEffect
    requires VerdictOf(env, k, c).Clear?
    ensures !Blocked(env, k, w) && Surviving(env, k, w) == [c]
    ensures Calls(Answers(env, k, w)) == [c]
  {
    OneCleared(env, k, w, c);
    OneConserved(env, k, w, c);
  }

  lemma OneConserved(env: Env, k: nat, w: Work, c: Call)
    requires w.kept == [c] && !Blocked(env, k, w)
    ensures Calls(Answers(env, k, w)) == [c]
  {
    hide Answers, Calls, Blocked, Surviving, Gate, Subsequence;
    Conservation(env, k, w);
    var cs := Calls(Answers(env, k, w));
    assert |multiset(cs)| == |cs| == 1;
    assert cs[0] in multiset(cs);
    assert cs[0] == c;
  }

  /** The model asks for two calls, the second is dropped, and the turn goes on with an answer to
      the first alone. */
  lemma TrimmedCallUnanswered()
    ensures Scriptable([CallEvent(FIRST), CallEvent(SECOND)])
    ensures var env := Scripted(NarrowEnv(), [CallEvent(FIRST), CallEvent(SECOND)]); var w := WorkAt(env, 0);
      && w.batch.calls == [FIRST, SECOND] && Calls(Answers(env, 0, w)) == [FIRST]
      && |Feedback(env, 0, w)| == 1 && Feedback(env, 0, w)[0].call == FIRST.name
      && Result(env).iteration == 1
  {
    hide Result, WorkAt, Answers, Calls, EndsRun, Scripted, Scriptable, Blocked, Surviving, Feedback, NarrowEnv;
    TwoCallsScriptable();
    var env := Scripted(NarrowEnv(), [CallEvent(FIRST), CallEvent(SECOND)]);
    NarrowWork(env, 0);
    NarrowKeeps(env);
    var w := WorkAt(env, 0);
    OneAnswered(env, 0, w, FIRST);
    OnlyAnswers(env, 0, w, FIRST);
    EveryRunEnds(env);
    var k, e :| EndsRun(env, k, e);
    NarrowGoesOn(env);
    if k == 0 { FirstEnds(env, e); }
    EndsAtTwo(env, k, e);
  }

  lemma NarrowKeeps(env: Env)
    requires Scriptable([CallEvent(FIRST), CallEvent(SECOND)])
    requires env == Scripted(NarrowEnv(), [CallEvent(FIRST), CallEvent(SECOND)])
    ensures env.caps == Caps(2, 100, 100, 100, 1, 32, 2, 20) && !env.policy.criticEnabled
    ensures env.world.reply(0).Replied? && CostAt(env, 0) == 0
    ensures env.world.iterationMs(0) == 1 && env.world.elapsedMs(0) == 1
    ensures VerdictOf(env, 0, FIRST) == Clear(Low)
  {
    hide Script, Scriptable;
    assert FIRST.name != SECOND.name;
  }

  lemma EndsAtTwo(env: Env, k: nat, e: Ending)
    requires EndsRun(env, k, e) && env.caps.maxIterations == 2
    ensures k < 2 && Result(env).iteration == k
  {
    hide Result, EndOutcome, EndCode, EndOutbound, EndApproval, EndFits, EndingOf, After;
  }

  /** With nothing recalled, delegated or objected to, the feedback is the answers. */
  lemma OnlyAnswers(env: Env, k: nat, w: Work, c: Call)
    requires !Blocked(env, k, w) && Calls(Answers(env, k, w)) == [c]
    requires w.batch.recalls == [] && w.batch.swarms == [] && !env.policy.criticEnabled
    ensures |Feedback(env, k, w)| == 1 && Feedback(env, k, w)[0].call == c.name
  {
    hide Answers, Blocked, Surviving, Gate, Subsequence, Results, Corrections;
    Conservation(env, k, w);
    Faithful(env, k, w);
    var a := Answers(env, k, w);
    assert a[0] in a && Calls(a)[0] == c;
    assert Feedback(env, k, w) == AnswerRecords(a);
  }

  lemma NarrowGoesOn(env: Env)
    requires env.caps == Caps(2, 100, 100, 100, 1, 32, 2, 20)
    requires env.world.reply(0).Replied? && env.world.iterationMs(0) == 1 && env.world.elapsedMs(0) == 1
    requires CostAt(env, 0) == 0
    requires var w := WorkAt(env, 0);
      && w.batch == Batch([FIRST, SECOND], [], [], [], [], [], [], false)
      && !Blocked(env, 0, w) && Surviving(env, 0, w) == [FIRST]
    ensures Continued(env, 0)
  {
    hide WorkAt, Surviving, Blocked, SaidUpTo, FIRST, SECOND;
    assert AskedUpTo(env, 1) == AskedUpTo(env, 0) + 2;
    assert CostUpTo(env, 1) == CostUpTo(env, 0) + 0;
  }

  /** A first iteration that goes on does not end the turn: it has nothing to stall against. */
  lemma FirstEnds(env: Env, e: Ending)
    requires EndsRun(env, 0, e)
    ensures !Continued(env, 0)
  {
    hide Result, WorkAt, EndsAs, DigestText, CompactedMessages, QuestionAt, DecisionOf, AskedUpTo;
    assert After(env, 0).turn.digest == None;
  }

  // ----- a turn that expires on its final -----

  /** One iteration. */
  function LastReplyEnv(): Env {
    Env(Caps(1, 100, 100, 100, 6, 32, 2, 20), Some("t"), "hi", [], Policy({}, map[], map[], {}, false, {}, None), {},
      StillWorld())
  }

  lemma SayFinalScriptable()
    ensures Scriptable([Say("done"), Final])
  {
  }

  /** The model says what it has to say and emits its final, and the turn expires all the same. */
  lemma FinalExpires()
    ensures Scriptable([Say("done"), Final])
    ensures var env := Scripted(LastReplyEnv(), [Say("done"), Final]);
      && WorkAt(env, 0).batch.hasFinal
      && Result(env).outcome == Expire && Result(env).code == Some(LoopMaxIterations)
      && Result(env).outbound == Some(TextMessage("done"))
  {
    hide Result, WorkAt, EndsRun, Scripted, Scriptable, LastReplyEnv, Gate;
    SayFinalScriptable();
    var env := Scripted(LastReplyEnv(), [Say("done"), Final]);
    LastReplyWork(env);
    EveryRunEnds(env);
    var k, e :| EndsRun(env, k, e);
    LastReplyEnds(env, k, e);
  }

  lemma LastReplyWork(env: Env)
    requires Scriptable([Say("done"), Final]) && env == Scripted(LastReplyEnv(), [Say("done"), Final])
    ensures WorkAt(env, 0).batch == Batch([], ["done"], [], [], [], [], [], true) && WorkAt(env, 0).kept == []
    ensures env.caps == Caps(1, 100, 100, 100, 6, 32, 2, 20)
    ensures env.world.reply(0).Replied? && CostAt(env, 0) == 0
    ensures env.world.iterationMs(0) == 1 && env.world.elapsedMs(0) == 1
  {
    hide BatchOf, Script, Scriptable;
    ScriptWork(LastReplyEnv(), [Say("done"), Final], 0);
    BatchOne(Say("done"));
    BatchOne(Final);
    BatchJoin([Say("done")], [Final]);
    assert [Say("done")] + [Final] == [Say("done"), Final];
  }

  lemma NothingBlocked(env: Env, k: nat, w: Work)
    requires w.kept == [] && w.batch.approvals == []
    ensures !Blocked(env, k, w)
  {
    hide VerdictOf;
  }

  lemma LastReplyEnds(env: Env, k: nat, e: Ending)
    requires EndsRun(env, k, e) && env.caps == Caps(1, 100, 100, 100, 6, 32, 2, 20)
    requires env.world.reply(0).Replied? && env.world.iterationMs(0) == 1 && env.world.elapsedMs(0) == 1
    requires CostAt(env, 0) == 0
    requires WorkAt(env, 0).batch == Batch([], ["done"], [], [], [], [], [], true) && WorkAt(env, 0).kept == []
    ensures Result(env).outcome == Expire && Result(env).code == Some(LoopMaxIterations)
    ensures Result(env).outbound == Some(TextMessage("done"))
  {
    hide Result, WorkAt, DigestText, CompactedMessages, Surviving, Blocked, ModelCallsUpTo, InvokedUpTo;
    assert k == 0;
    NothingBlocked(env, 0, WorkAt(env, 0));
    assert After(env, 0).turn.digest == None;
    assert AskedUpTo(env, 1) == AskedUpTo(env, 0) + 0;
    assert CostUpTo(env, 1) == CostUpTo(env, 0) + 0;
    SaidOnce(env);
    assert DecisionOf(env.caps, QuestionAt(env, 0)) == CapIterations;
  }

  lemma SaidOnce(env: Env)
    requires WorkAt(env, 0).batch.says == ["done"]
    ensures SaidUpTo(env, 1) == ["done"] && NonEmpty(["done"]) == ["done"]
  {
    hide WorkAt;
    assert ["done"][..0] == [];
  }
}
