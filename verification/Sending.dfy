/** What is sent, character by character: the lines of what was said, or the parts of what was asked. */
module Sending {
  import opened Text
  import opened Tags
  import opened HarnessState
  import opened SiteSpecs
  import opened LoopSpec
  import opened Transcript
  import opened Runs
  import opened Approvals

  // ----- lines -----

  /** Where line `i` starts when each earlier one is followed by a line break. */
  function Offset(lines: seq<string>, i: nat): nat
    requires i <= |lines|
  {
    if i == 0 then 0 else Offset(lines, i - 1) + |lines[i - 1]| + 1
  }

  /** The text is the lines in order, one line break between them and nothing else. */
  ghost predicate Lines(text: string, lines: seq<string>) {
    && lines != [] && |text| + 1 == Offset(lines, |lines|)
    && forall i :: 0 <= i < |lines| ==> LineAt(text, lines, i)
  }

  ghost predicate LineAt(text: string, lines: seq<string>, i: nat)
    requires i < |lines|
  {
    var start := Offset(lines, i); var end := start + |lines[i]|;
    && end <= |text| && text[start..end] == lines[i]
    && (i + 1 < |lines| ==> end < |text| && text[end] == '\n')
  }

  lemma {:induction false} OffsetTail(lines: seq<string>, i: nat)
    requires 1 <= i <= |lines|
    ensures Offset(lines, i) == |lines[0]| + 1 + Offset(lines[1..], i - 1)
  {
    if i > 1 {
      OffsetTail(lines, i - 1);
      assert lines[1..][i - 2] == lines[i - 1];
    }
  }

  lemma {:induction false} OffsetBelow(lines: seq<string>, i: nat)
    requires i < |lines|
    ensures Offset(lines, i) + |lines[i]| + 1 <= Offset(lines, |lines|)
    decreases |lines| - i
  {
    assert Offset(lines, i + 1) == Offset(lines, i) + |lines[i]| + 1;
    if i + 1 < |lines| { OffsetBelow(lines, i + 1); }
  }

  /** Joining with line breaks gives exactly the lines. */
  lemma {:induction false} JoinedLines(lines: seq<string>)
    requires lines != []
    ensures Lines(Join("\n", lines), lines)
  {
    hide Offset;
    var text := Join("\n", lines);
    OffsetTail(lines, |lines|);
    if |lines| == 1 {
      assert Offset(lines[1..], 0) == 0 by { NoOffset(lines[1..]); }
      NoOffset(lines);
      assert LineAt(text, lines, 0);
    } else {
      var rest, tail := lines[1..], Join("\n", lines[1..]);
      JoinedLines(rest);
      assert text == lines[0] + "\n" + tail;
      forall i | 0 <= i < |lines| ensures LineAt(text, lines, i) {
        if i == 0 {
          NoOffset(lines);
          assert text[..|lines[0]|] == lines[0];
        } else {
          OffsetTail(lines, i);
          assert LineAt(tail, rest, i - 1);
          LineShifted(lines, tail, i);
        }
      }
    }
  }

  lemma NoOffset(lines: seq<string>)
    ensures Offset(lines, 0) == 0
  {
  }

  lemma LineShifted(lines: seq<string>, tail: string, i: nat)
    requires 1 <= i < |lines| && LineAt(tail, lines[1..], i - 1)
    requires Offset(lines, i) == |lines[0]| + 1 + Offset(lines[1..], i - 1)
    ensures LineAt(lines[0] + "\n" + tail, lines, i)
  {
    hide Offset;
    var text, head := lines[0] + "\n" + tail, |lines[0]| + 1;
    var start, end := Offset(lines[1..], i - 1), Offset(lines[1..], i - 1) + |lines[i]|;
    assert lines[1..][i - 1] == lines[i];
    assert text[head..] == tail;
    assert text[head + start..head + end] == tail[start..end];
  }

  // ----- what counts as said -----

  lemma NonEmptyOne(text: string)
    ensures NonEmpty([text]) == if text == "" then [] else [text]
  {
    assert [text][..0] == [];
  }

  lemma {:induction false} NonEmptyJoin(a: seq<string>, b: seq<string>)
    ensures NonEmpty(a + b) == NonEmpty(a) + NonEmpty(b)
  {
    if b == [] {
      assert a + b == a;
    } else {
      assert (a + b)[..|a + b| - 1] == a + b[..|b| - 1];
      NonEmptyJoin(a, b[..|b| - 1]);
    }
  }

  /** Of the texts in a reply exactly the empty ones are left out, the others in order. */
  lemma {:induction false} NonEmptyExactly(texts: seq<string>)
    ensures Subsequence(NonEmpty(texts), texts)
    ensures multiset(NonEmpty(texts)) == multiset(texts)["" := 0]
  {
    hide Subsequence, NonEmpty;
    if texts == [] {
      NothingSaid();
    } else {
      var front, last := texts[..|texts| - 1], texts[|texts| - 1];
      NonEmptyExactly(front);
      SubsequenceSnoc(NonEmpty(front), front, last);
      assert texts == front + [last];
      NonEmptyJoin(front, [last]);
      NonEmptyOne(last);
      assert NonEmpty(front) + [] == NonEmpty(front);
      OneLess(multiset(front), NonEmpty(front), last);
    }
  }

  lemma OneLess(m: multiset<string>, said: seq<string>, last: string)
    requires multiset(said) == m["" := 0]
    ensures multiset(said + (if last == "" then [] else [last])) == (m + multiset{last})["" := 0]
  {
    if last == "" { assert said + [] == said; }
  }

  lemma NothingSaid()
    ensures Subsequence(NonEmpty([]), []) && multiset(NonEmpty([])) == multiset{}
  {
    var none: seq<string> := [];
    SubsequencePrefix<string>(none, none);
    assert none + none == none;
  }

  /** What is said up to a later reply begins with what was said up to an earlier one. */
  lemma {:induction false} SaidGrows(env: Env, n: nat, m: nat)
    requires n <= m
    ensures SaidUpTo(env, n) <= SaidUpTo(env, m)
  {
    hide WorkAt;
    if n < m { SaidGrows(env, n, m - 1); }
  }

  /** Each reply adds its own texts, the empty ones left out. */
  lemma SaidAdds(env: Env, n: nat)
    ensures SaidUpTo(env, 0) == []
    ensures SaidUpTo(env, n + 1)[|SaidUpTo(env, n)|..] == NonEmpty(WorkAt(env, n).batch.says)
  {
    hide WorkAt;
  }

  // ----- the message -----

  /** The turn sends what its replies said or asked: it finalized without an escalation, or
      expired at the output decision. */
  ghost predicate Sends(env: Env, t: Turn) {
    Decided(env, t) && t.outcome in {Finalize, Expire}
  }

  /** The list or the buttons of an ask, cut to what the channel takes. */
  ghost predicate ShowsAsk(m: Outbound, a: Ask) {
    if a.items != [] then
      && m.ListMessage? && m.bodyText == a.bodyText && m.buttonText == a.buttonText
      && m.sectionTitle == a.sectionTitle && FitsChannel(m, [a])
    else m.ButtonsMessage? && m.bodyText == a.bodyText && FitsChannel(m, [a])
  }

  lemma MessageShows(said: seq<string>, asks: seq<Ask>)
    ensures asks != [] ==>
      MessageOf(said, asks).Some? && ShowsAsk(MessageOf(said, asks).value, asks[|asks| - 1])
    ensures asks == [] && said == [] ==> MessageOf(said, asks) == None
    ensures asks == [] && said != [] ==>
      exists text :: MessageOf(said, asks) == Some(TextMessage(text)) && Lines(text, said)
  {
    hide Join, Lines;
    if asks == [] && said != [] {
      JoinedLines(said);
      assert MessageOf(said, asks) == Some(TextMessage(Join("\n", said)));
    }
  }

  /** What a turn sends. If its last reply asks something, the last ask with its own texts, never as
      plain text; else every non-empty text of all its replies, in order, one line break between
      them; and nothing when nothing was said. */
  lemma MessageExactly(env: Env)
    requires Sends(env, Result(env))
    ensures var t := Result(env); var asks, said := WorkAt(env, t.iteration).batch.asks, SaidUpTo(env, t.iteration + 1);
      && (asks != [] ==> t.outbound.Some? && ShowsAsk(t.outbound.value, asks[|asks| - 1]))
      && (asks == [] && said != [] ==> exists text :: t.outbound == Some(TextMessage(text)) && Lines(text, said))
      && (asks == [] && said == [] ==> t.outbound == None)
  {
    hide Result, WorkAt, SaidUpTo, MessageOf, ShowsAsk, Lines;
    SentMessage(env);
    OutcomeExact(env);
    ExpiredCodes(env);
    var t := Result(env);
    MessageShows(SaidUpTo(env, t.iteration + 1), WorkAt(env, t.iteration).batch.asks);
  }

  lemma ExpiredCodes(env: Env)
    requires Decided(env, Result(env))
    ensures Result(env).outcome == Expire ==> Result(env).code in SENDING_EXPIRES
  {
    hide Result;
    OutcomeExact(env);
  }

  /** Any other turn sends nothing, unless it is handed to the team: then it sends the blueprint's
      text for that, or the standard one. */
  lemma OtherwiseSent(env: Env)
    requires !Sends(env, Result(env)) && env.caps.maxIterations >= 1
    ensures Result(env).outbound ==
      if Result(env).code != Some(CriticEscalated) then None
      else Some(TextMessage(
        if env.policy.escalationMessage.Some? then env.policy.escalationMessage.value
        else "Let me connect you with our team for this. They'll be with you shortly."))
  {
    hide Result, WorkAt, SaidUpTo, MessageOf;
    SentMessage(env);
    OutcomeExact(env);
  }

  // ----- the draft of an ask -----

  /** The last ask of the last reply so far that asked anything, as it is stored with the turn. */
  function DraftUpTo(env: Env, n: nat): Option<AskDraft> {
    if n == 0 then None
    else
      var asks := WorkAt(env, n - 1).batch.asks;
      if asks == [] then DraftUpTo(env, n - 1)
      else
        var a := asks[|asks| - 1];
        Some(AskDraft(a.bodyText, a.buttons, a.items))
  }

  lemma WorkedAsk(env: Env, k: nat, s: Turn)
    requires s.ask == DraftUpTo(env, k)
    ensures Worked(env, k, s, WorkAt(env, k)).ask == DraftUpTo(env, k + 1)
  {
    hide WorkAt, AfterCritic, NonEmpty;
    AfterCriticAsk(env, k, s, WorkAt(env, k));
  }

  lemma AfterCriticAsk(env: Env, k: nat, s: Turn, w: Work)
    ensures AfterCritic(env, k, s, w).ask == s.ask
  {
    hide AfterMemory, ToolsTurn, Gate, Surviving, Denials, AgentNames, ReadVerdict, Invocations, Blocked;
    AfterMemoryIs(env, k, s, w);
    if !Blocked(env, k, w) {
      ToolsTurnIs(env, k, AfterMemory(env, k, s, w), Surviving(env, k, w), Denials(env, k, Gate(env, k, w).denied));
    }
  }

  lemma ActAsk(env: Env, k: nat, s: Turn, msgs: seq<Message>, actions: nat)
    requires s.ask == DraftUpTo(env, k)
    ensures Act(env, k, s, msgs, actions, WorkAt(env, k)).turn.ask == DraftUpTo(env, k + 1)
  {
    hide WorkAt, Worked, Concluded, QuestionOf, DecisionOf, Feedback, NextMessages, DraftUpTo;
    WorkedAsk(env, k, s);
    ConcludedIs(env, k, Worked(env, k, s, WorkAt(env, k)), WorkAt(env, k));
  }

  lemma StepAsk(env: Env, k: nat, s: Turn, msgs: seq<Message>, actions: nat)
    requires s.ask == DraftUpTo(env, k) && actions == AskedUpTo(env, k)
    ensures Step(env, k, s, msgs, actions).turn.ask
      == DraftUpTo(env, if ActedOn(EndingOf(env, k, s, msgs)) then k + 1 else k)
    ensures Step(env, k, s, msgs, actions).Running? ==> ActedOn(EndingOf(env, k, s, msgs))
  {
    hide WorkOf, Prepared, CompactedMessages, NoProgress, Ambiguous, Act, QuestionAt, DecisionOf, DraftUpTo;
    PreparedIs(env, k, s, msgs);
    var s1, r := Prepared(env, k, s, msgs), env.world.reply(k);
    if r.Replied? {
      assert AskedUpTo(env, k + 1) == actions + |WorkAt(env, k).batch.calls|;
      ActAsk(env, k, Recorded(s1, k, r), CompactedMessages(env, k, msgs), AskedUpTo(env, k + 1));
    }
  }

  lemma {:induction false} AfterAsk(env: Env, n: nat)
    ensures var p := After(env, n);
      && (p.Running? ==> p.turn.ask == DraftUpTo(env, n))
      && (p.Stopped? ==> exists k, e ::
            0 <= k < n && EndedAt(env, k, p.turn, e) && p.turn.ask == DraftUpTo(env, if ActedOn(e) then k + 1 else k))
  {
    hide Step, EndsAs, EndFits, DraftUpTo, EndingOf, WorkAt, SaidUpTo, CostUpTo, InvokedUpTo, ModelCallsUpTo;
    if n == 0 {
      NoDraft(env);
    } else {
      var k := n - 1;
      AfterAsk(env, k);
      AfterIs(env, k);
      var p := After(env, k);
      if p.Running? {
        var e := EndingOf(env, k, p.turn, p.msgs);
        StepAsk(env, k, p.turn, p.msgs, p.actions);
        StepIs(env, k, p.turn, p.msgs, p.actions);
        if After(env, n).Stopped? { assert EndedAt(env, k, After(env, n).turn, e); }
      }
    }
  }

  lemma NoDraft(env: Env)
    ensures DraftUpTo(env, 0) == None
  {
  }

  /** The draft stored with an ended turn is the last ask of the last reply it acted on that asked
      anything, cut by nothing, whatever was sent. */
  lemma DraftExactly(env: Env)
    requires env.caps.maxIterations >= 1
    ensures exists k: nat, e ::
      EndedAt(env, k, Result(env), e) && Result(env).ask == DraftUpTo(env, if ActedOn(e) then k + 1 else k)
  {
    hide After, EndedAt, DraftUpTo, RunsAs, Continued, Result;
    var n := Rounds(env);
    AfterAsk(env, n);
    AfterIs(env, n);
    ResultIs(env);
    if After(env, n).Running? {
      RunsContinued(env, n, After(env, n).turn, After(env, n).actions);
      NotAgainAtCap(env, n - 1);
      assert false;
    }
  }
}
