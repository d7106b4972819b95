/** What happens to the calls of one iteration: who may run, and that each is answered once. */
module CallLemmas {
  import opened Text
  import opened Tags
  import opened HarnessState
  import opened SiteSpecs
  import opened LoopSpec

  // ----- splitting a list keeps its elements -----

  /** `a` and `b` share out the elements of `whole`, each keeping their order. */
  ghost predicate Splits<T>(a: seq<T>, b: seq<T>, whole: seq<T>) {
    multiset(a) + multiset(b) == multiset(whole) && Subsequence(a, whole) && Subsequence(b, whole)
  }

  lemma SplitsSnoc<T>(a: seq<T>, b: seq<T>, whole: seq<T>, last: T)
    requires Splits(a, b, whole)
    ensures Splits(a + [last], b, whole + [last]) && Splits(a, b + [last], whole + [last])
  {
    hide Subsequence;
    SubsequenceSnoc(a, whole, last);
    SubsequenceSnoc(b, whole, last);
  }

  lemma SplitsNothing<T>()
    ensures Splits<T>([], [], [])
  {
  }

  /** The last element goes to one side or the other. */
  lemma SplitsLast<T>(a: seq<T>, b: seq<T>, a': seq<T>, b': seq<T>, whole: seq<T>)
    requires whole != [] && Splits(a, b, whole[..|whole| - 1])
    requires var last := whole[|whole| - 1]; (a' == a + [last] && b' == b) || (a' == a && b' == b + [last])
    ensures Splits(a', b', whole)
  {
    hide Splits;
    SplitsSnoc(a, b, whole[..|whole| - 1], whole[|whole| - 1]);
    assert whole == whole[..|whole| - 1] + [whole[|whole| - 1]];
  }

  lemma {:induction false} PartitionIs(calls: seq<Call>)
    ensures Splits(Parallel(calls), Sequential(calls), calls)
    ensures forall c :: c in Parallel(calls) ==> !c.sideEffect
    ensures forall c :: c in Sequential(calls) ==> c.sideEffect
  {
    hide Splits;
    if calls == [] {
      SplitsNothing<Call>();
    } else {
      var rest := calls[..|calls| - 1];
      PartitionIs(rest);
      SplitsLast(Parallel(rest), Sequential(rest), Parallel(calls), Sequential(calls), calls);
    }
  }

  lemma VerifiedSnoc(env: Env, k: nat, cleared: seq<Call>)
    requires cleared != []
    ensures var n := |cleared| - 1; var rest, last := cleared[..n], cleared[n]; var o := Objection(env, k, n, last);
      && KeptCalls(env, k, cleared) == KeptCalls(env, k, rest) + (if o.None? then [last] else [])
      && RefutedCalls(env, k, cleared) == RefutedCalls(env, k, rest) + (if o.Some? then [last] else [])
      && Corrections(env, k, cleared)
        == Corrections(env, k, rest) + (if o.Some? then [Correction(last, o.value)] else [])
  {
    hide Objection, Correction;
  }

  lemma {:induction false} CorrectionsSpeak(env: Env, k: nat, cleared: seq<Call>)
    ensures |Corrections(env, k, cleared)| == |RefutedCalls(env, k, cleared)|
    ensures forall i :: 0 <= i < |Corrections(env, k, cleared)| ==>
      var c, r := RefutedCalls(env, k, cleared)[i], Corrections(env, k, cleared)[i];
      r.call == c.name && r.id == c.correlationId && !r.ok
  {
    if cleared != [] {
      hide Objection, KeptCalls, RefutedCalls, Corrections;
      CorrectionsSpeak(env, k, cleared[..|cleared| - 1]);
      VerifiedSnoc(env, k, cleared);
    }
  }

  lemma {:induction false} VerifiedIs(env: Env, k: nat, cleared: seq<Call>)
    ensures Splits(KeptCalls(env, k, cleared), RefutedCalls(env, k, cleared), cleared)
  {
    if cleared == [] {
      SplitsNothing<Call>();
    } else {
      hide Splits, Objection, KeptCalls, RefutedCalls, Corrections, Correction;
      var rest := cleared[..|cleared| - 1];
      VerifiedIs(env, k, rest);
      VerifiedSnoc(env, k, cleared);
      SplitsLast(KeptCalls(env, k, rest), RefutedCalls(env, k, rest),
        KeptCalls(env, k, cleared), RefutedCalls(env, k, cleared), cleared);
    }
  }

  lemma GateSnoc(env: Env, k: nat, calls: seq<Call>)
    requires calls != []
    ensures var rest, last := calls[..|calls| - 1], calls[|calls| - 1]; var v := VerdictOf(env, k, last);
      && ClearedOf(env, k, calls) == ClearedOf(env, k, rest) + (if v.Clear? then [last] else [])
      && DeniedCalls(env, k, calls) == DeniedCalls(env, k, rest) + (if IsDenied(v) then [last] else [])
  {
    hide VerdictOf;
  }

  lemma {:induction false} GateSplit(env: Env, k: nat, calls: seq<Call>)
    requires forall i :: 0 <= i < |calls| ==> !VerdictOf(env, k, calls[i]).NeedsApproval?
    ensures Splits(ClearedOf(env, k, calls), DeniedCalls(env, k, calls), calls)
  {
    if calls == [] {
      SplitsNothing<Call>();
    } else {
      hide Splits, VerdictOf, ClearedOf, DeniedCalls;
      var rest := calls[..|calls| - 1];
      GateSplit(env, k, rest);
      GateSnoc(env, k, calls);
      assert !VerdictOf(env, k, calls[|calls| - 1]).NeedsApproval?;
      SplitsLast(ClearedOf(env, k, rest), DeniedCalls(env, k, rest),
        ClearedOf(env, k, calls), DeniedCalls(env, k, calls), calls);
    }
  }

  // ----- conservation -----

  /** A call with the record the model gets for it. */
  datatype Answer = Answer(call: Call, record: Record)

  function Zip(calls: seq<Call>, records: seq<Record>): (r: seq<Answer>)
    requires |calls| == |records|
    ensures |r| == |calls|
  {
    seq(|calls|, i requires 0 <= i < |calls| => Answer(calls[i], records[i]))
  }

  function Calls(answers: seq<Answer>): (r: seq<Call>)
    ensures |r| == |answers|
  {
    seq(|answers|, i requires 0 <= i < |answers| => answers[i].call)
  }

  function AnswerRecords(answers: seq<Answer>): (r: seq<Record>)
    ensures |r| == |answers|
  {
    seq(|answers|, i requires 0 <= i < |answers| => answers[i].record)
  }

  /** The record speaks of the call: it carries its name, and its id unless the gate denied it. */
  predicate Speaks(a: Answer) {
    && a.record.call == a.call.name
    && (a.record.id == a.call.correlationId || (a.record.id == None && !a.record.ok))
  }

  function DeniedAnswers(env: Env, k: nat, w: Work): seq<Answer> {
    var d := Gate(env, k, w).denied;
    Zip(d, DeniedRecords(Denials(env, k, d)))
  }

  function ToolAnswers(env: Env, k: nat, base: nat, calls: seq<Call>): seq<Answer> {
    Zip(calls, Records(env, k, base, calls))
  }

  function RefutedAnswers(env: Env, k: nat, w: Work): seq<Answer> {
    var cleared := Gate(env, k, w).cleared;
    CorrectionsSpeak(env, k, cleared);
    Zip(RefutedCalls(env, k, cleared), Corrections(env, k, cleared))
  }

  /** Denied first, then the parallel calls, then the side-effecting ones, then the refuted. */
  function Answers(env: Env, k: nat, w: Work): seq<Answer> {
    var s := Surviving(env, k, w);
    DeniedAnswers(env, k, w) + ToolAnswers(env, k, 0, Parallel(s))
    + ToolAnswers(env, k, |Parallel(s)|, Sequential(s)) + RefutedAnswers(env, k, w)
  }

  lemma ZipIs(calls: seq<Call>, records: seq<Record>)
    requires |calls| == |records|
    ensures Calls(Zip(calls, records)) == calls && AnswerRecords(Zip(calls, records)) == records
  {
  }

  lemma AnswersJoin(a: seq<Answer>, b: seq<Answer>)
    ensures Calls(a + b) == Calls(a) + Calls(b) && AnswerRecords(a + b) == AnswerRecords(a) + AnswerRecords(b)
  {
  }

  lemma OpenGate(env: Env, k: nat, w: Work)
    requires !Blocked(env, k, w)
    ensures var g := Gate(env, k, w);
      && w.batch.approvals == []
      && g.cleared == ClearedOf(env, k, w.kept) && g.denied == DeniedCalls(env, k, w.kept)
      && forall i :: 0 <= i < |w.kept| ==> !VerdictOf(env, k, w.kept[i]).NeedsApproval?
  {
    hide VerdictOf, ClearedOf, DeniedCalls;
    assert w.kept[..|w.kept|] == w.kept;
  }

  lemma AnswersCalls(env: Env, k: nat, w: Work)
    ensures var g := Gate(env, k, w); var s := Surviving(env, k, w);
      && Calls(Answers(env, k, w)) == g.denied + Parallel(s) + Sequential(s) + RefutedCalls(env, k, g.cleared)
      && AnswerRecords(Answers(env, k, w)) == DeniedRecords(Denials(env, k, g.denied))
        + Records(env, k, 0, Parallel(s)) + Records(env, k, |Parallel(s)|, Sequential(s))
        + Corrections(env, k, g.cleared)
  {
    hide Gate, Surviving, Denials, DeniedRecords, Records, Corrections, RefutedCalls, Zip, Calls, AnswerRecords,
      Parallel, Sequential;
    var g, s := Gate(env, k, w), Surviving(env, k, w);
    CorrectionsSpeak(env, k, g.cleared);
    ZipIs(g.denied, DeniedRecords(Denials(env, k, g.denied)));
    ZipIs(Parallel(s), Records(env, k, 0, Parallel(s)));
    ZipIs(Sequential(s), Records(env, k, |Parallel(s)|, Sequential(s)));
    ZipIs(RefutedCalls(env, k, g.cleared), Corrections(env, k, g.cleared));
    var a, b, c, d := DeniedAnswers(env, k, w), ToolAnswers(env, k, 0, Parallel(s)),
      ToolAnswers(env, k, |Parallel(s)|, Sequential(s)), RefutedAnswers(env, k, w);
    AnswersJoin(a, b);
    AnswersJoin(a + b, c);
    AnswersJoin(a + b + c, d);
  }

  /** In an iteration that does not suspend, every kept call is answered exactly once. */
  lemma Conservation(env: Env, k: nat, w: Work)
    requires !Blocked(env, k, w)
    ensures var g := Gate(env, k, w); var s := Surviving(env, k, w);
      && multiset(Calls(Answers(env, k, w))) == multiset(w.kept)
      && AnswerRecords(Answers(env, k, w)) == Results(env, k, w) + Corrections(env, k, g.cleared)
      && Calls(Answers(env, k, w)) == g.denied + Parallel(s) + Sequential(s) + RefutedCalls(env, k, g.cleared)
      && Subsequence(g.denied, w.kept) && Subsequence(g.cleared, w.kept)
      && Subsequence(s, g.cleared) && Subsequence(RefutedCalls(env, k, g.cleared), g.cleared)
      && Subsequence(Parallel(s), s) && Subsequence(Sequential(s), s)
  {
    hide VerdictOf, Denials, DeniedRecords, Records, Corrections, Answers, Subsequence, Calls, AnswerRecords, GateOf,
      ClearedOf, DeniedCalls, KeptCalls, RefutedCalls, Parallel, Sequential;
    var g, s := Gate(env, k, w), Surviving(env, k, w);
    OpenGate(env, k, w);
    GateSplit(env, k, w.kept);
    VerifiedIs(env, k, g.cleared);
    PartitionIs(s);
    AnswersCalls(env, k, w);
  }

  lemma Faithful(env: Env, k: nat, w: Work)
    ensures forall a :: a in Answers(env, k, w) ==> Speaks(a)
  {
    hide Gate, Surviving, InvokeResult, Corrections, RefutedCalls, Parallel, Sequential, VerdictOf;
    CorrectionsSpeak(env, k, Gate(env, k, w).cleared);
    forall a | a in Answers(env, k, w) ensures Speaks(a) {
      var s := Surviving(env, k, w);
      if a in DeniedAnswers(env, k, w) {
      } else if a in ToolAnswers(env, k, 0, Parallel(s)) {
      } else if a in ToolAnswers(env, k, |Parallel(s)|, Sequential(s)) {
      } else {
        assert a in RefutedAnswers(env, k, w);
      }
    }
  }

  // ----- the gate -----

  lemma ClearedMember(env: Env, k: nat, calls: seq<Call>, c: Call)
    requires c in ClearedOf(env, k, calls)
    ensures c in calls && VerdictOf(env, k, c).Clear?
  {
    hide VerdictOf;
  }

  lemma {:induction false} KeptMember(env: Env, k: nat, cleared: seq<Call>, c: Call) returns (n: nat)
    requires c in KeptCalls(env, k, cleared)
    ensures n < |cleared| && cleared[n] == c && Objection(env, k, n, c) == None
  {
    hide Objection;
    n := |cleared| - 1;
    if c in KeptCalls(env, k, cleared[..n]) {
      n := KeptMember(env, k, cleared[..n], c);
    }
  }

  /** The call may run: the model asked for it and the trim kept it; it is known, and low risk
      or medium risk outside the policy's list; its memory claim, if any, held; and nothing in
      its iteration waits for approval. */
  ghost predicate Admissible(env: Env, k: nat, w: Work, c: Call) {
    && c in w.kept
    && Known(env, k, c.name)
    && (RiskOf(env, k, c.name) == Low
        || (RiskOf(env, k, c.name) == Medium && c.name !in env.policy.requiresApproval))
    && (c.memoryClaim ==>
        exists n :: 0 <= n < |Gate(env, k, w).cleared|
          && Gate(env, k, w).cleared[n] == c && env.world.claim(k, n) == None)
    && w.batch.approvals == []
    && forall i :: 0 <= i < |w.kept| ==> !VerdictOf(env, k, w.kept[i]).NeedsApproval?
  }

  lemma ExecutedAdmissible(env: Env, k: nat, w: Work, c: Call)
    requires c in Executed(env, k, w)
    ensures Admissible(env, k, w, c)
  {
    hide VerdictOf, KeptCalls, ClearedOf, GateOf, Parallel, Sequential, RiskOf, Known;
    OpenGate(env, k, w);
    var s := Surviving(env, k, w);
    PartitionIs(s);
    assert c in multiset(Parallel(s)) + multiset(Sequential(s));
    assert c in s;
    var n := KeptMember(env, k, Gate(env, k, w).cleared, c);
    ClearedMember(env, k, w.kept, c);
    ClearMeans(env, k, c);
  }

  lemma ClearMeans(env: Env, k: nat, c: Call)
    ensures VerdictOf(env, k, c).Clear? <==>
      && Known(env, k, c.name)
      && (RiskOf(env, k, c.name) == Low
          || (RiskOf(env, k, c.name) == Medium && c.name !in env.policy.requiresApproval))
  {
  }

  /** Each executed call is one of the kept ones, so there are no more of them. */
  lemma ExecutedCount(env: Env, k: nat, w: Work)
    ensures |Executed(env, k, w)| <= |w.kept|
  {
    hide VerdictOf, KeptCalls, ClearedOf, DeniedCalls, Parallel, Sequential, RefutedCalls, Corrections, Subsequence;
    if !Blocked(env, k, w) {
      var g, s := Gate(env, k, w), Surviving(env, k, w);
      OpenGate(env, k, w);
      GateSplit(env, k, w.kept);
      VerifiedIs(env, k, g.cleared);
      PartitionIs(s);
      assert |multiset(Parallel(s)) + multiset(Sequential(s))| == |s|;
      SubsequenceLength(s, g.cleared);
      SubsequenceLength(g.cleared, w.kept);
    }
  }

  /** One plain call that the gate clears is executed. */
  lemma OneCleared(env: Env, k: nat, w: Work, c: Call)
    requires w.kept == [c] && w.batch.approvals == [] && !c.memoryClaim && !c.sideEffect
    requires VerdictOf(env, k, c).Clear?
    ensures !Blocked(env, k, w) && Surviving(env, k, w) == [c] && Executed(env, k, w) == [c]
  {
    hide VerdictOf;
    assert [c][..0] == [] && [c][..1] == [c] && [c][1..] == [];
    assert FirstBlocked(env, k, [c]) == 1;
    assert ClearedOf(env, k, [c]) == [c];
    assert KeptCalls(env, k, [c]) == [c];
    assert Parallel([c]) == [c] && Sequential([c]) == [];
  }
}
