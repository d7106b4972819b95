/** What the model is given: the end of the history, every reply with the results it led to, and a
    summary in place of what went before when that grows too long. */
module Conversation {
  import opened Text
  import opened Tags
  import opened HarnessState
  import opened SiteSpecs
  import opened LoopSpec
  import opened Transcript
  import opened Sending

  // ----- the start -----

  function UserMessage(env: Env): Message { Message("user", Plain(env.userText)) }

  /** How many of `n` messages of the history are kept: the last ones up to the cap; all of them for
      a cap of zero; and for a negative cap, all but as many of the first. */
  function KeptHistory(n: nat, cap: int): nat {
    if cap == 0 || n < cap then n else if cap > 0 then cap else if n + cap > 0 then n + cap else 0
  }

  lemma StartExactly(env: Env)
    ensures exists dropped, kept ::
      && env.history == dropped + kept && |kept| == KeptHistory(|env.history|, env.caps.maxHistory)
      && InitialMessages(env) == kept + [UserMessage(env)]
  {
    var h := env.history;
    var n := |h| - KeptHistory(|h|, env.caps.maxHistory);
    assert h == h[..n] + h[n..];
    assert InitialMessages(env) == h[n..] + [UserMessage(env)];
  }

  // ----- the text that is measured -----

  lemma {:induction false} DigestJoin(a: seq<Message>, b: seq<Message>)
    ensures DigestText(a + b) == DigestText(a) + DigestText(b)
  {
    hide ContentText;
    if b == [] {
      assert a + b == a;
    } else {
      assert (a + b)[..|a + b| - 1] == a + b[..|b| - 1];
      DigestJoin(a, b[..|b| - 1]);
    }
  }

  lemma DigestOne(m: Message)
    ensures DigestText([m]) == ContentText(m.content)
  {
    assert [m][..0] == [];
  }

  /** The first texts of a list of parts, and those of the rest. */
  lemma {:induction false} PartsJoin(a: seq<Option<string>>, b: seq<Option<string>>)
    ensures PartsText(a + b) == PartsText(a) + PartsText(b)
    ensures Texts(a + b) == Texts(a) + Texts(b)
  {
    if b == [] {
      assert a + b == a;
    } else {
      assert (a + b)[..|a + b| - 1] == a + b[..|b| - 1];
      PartsJoin(a, b[..|b| - 1]);
    }
  }

  lemma PartsOne(p: Option<string>)
    ensures PartsText([p]) == if p.Some? then p.value else ""
    ensures Texts([p]) == if p.Some? then [p.value] else []
  {
    assert [p][..0] == [];
  }

  /** What the digest and the estimate see: of a plain message its text, of a message in parts each
      part's text in turn, of several messages one after the other, and nothing else. */
  lemma MeasuredExactly(role: string, text: string, p: Option<string>, ps: seq<Option<string>>, a: seq<Message>,
                        b: seq<Message>)
    ensures DigestText([Message(role, Plain(text))]) == text
    ensures DigestText([Message(role, Other)]) == DigestText([Message(role, Parts([]))]) == DigestText([]) == ""
    ensures DigestText([Message(role, Parts([p] + ps))])
      == (if p.Some? then p.value else "") + DigestText([Message(role, Parts(ps))])
    ensures DigestText(a + b) == DigestText(a) + DigestText(b)
  {
    hide DigestText, PartsText;
    DigestJoin(a, b);
    DigestOne(Message(role, Plain(text)));
    DigestOne(Message(role, Other));
    DigestOne(Message(role, Parts([])));
    DigestOne(Message(role, Parts(ps)));
    DigestOne(Message(role, Parts([p] + ps)));
    PartsJoin([p], ps);
    PartsOne(p);
    NothingMeasured();
  }

  lemma NothingMeasured()
    ensures DigestText([]) == "" && PartsText([]) == ""
  {
  }

  // ----- compaction -----

  /** One line of the summarised transcript; none for a message without text in its parts. */
  ghost predicate SummaryLine(m: Message, line: Option<string>) {
    match m.content
    case Plain(t) => line == Some(m.role + ": " + t)
    case Parts(ps) =>
      var text := Join(" ", Texts(ps));
      if text == "" then line == None else line == Some(m.role + ": " + text)
    case Other => line == None
  }

  lemma {:induction false} LinesJoin(a: seq<Message>, b: seq<Message>)
    ensures TranscriptLines(a + b) == TranscriptLines(a) + TranscriptLines(b)
  {
    hide TranscriptLine;
    if b == [] {
      assert a + b == a;
    } else {
      assert (a + b)[..|a + b| - 1] == a + b[..|b| - 1];
      LinesJoin(a, b[..|b| - 1]);
    }
  }

  /** The transcript to summarise: its lines, one of each message that has text, in order. */
  lemma SummarisedExactly(m: Message, ms: seq<Message>)
    ensures TranscriptLines([]) == []
    ensures exists line ::
      SummaryLine(m, line)
      && TranscriptLines([m] + ms) == (if line.Some? then [line.value] else []) + TranscriptLines(ms)
  {
    hide Join, Texts;
    LinesJoin([m], ms);
    assert [m][..0] == [];
    assert SummaryLine(m, TranscriptLine(m));
  }

  /** The summary's text was asked for with at most 24,000 characters, the first ones of the lines. */
  ghost predicate AskedFor(head: seq<Message>, input: string) {
    var lines := TranscriptLines(head);
    if lines == [] then input == ""
    else exists text :: Lines(text, lines) && input <= text && |input| == if |text| < 24000 then |text| else 24000
  }

  lemma SummaryInputIs(msgs: seq<Message>)
    requires |msgs| >= 4
    ensures AskedFor(msgs[..|msgs| - 4], SummaryInput(msgs))
  {
    hide Join, Lines, TranscriptLines;
    var lines := TranscriptLines(msgs[..|msgs| - 4]);
    if lines == [] { JoinNothing(); } else { JoinedLines(lines); }
  }

  lemma JoinNothing()
    ensures Join("\n", []) == ""
  {
  }

  /** The messages of an iteration are compacted exactly when they have six messages and 320,000
      characters or more; then one message with the summary of the others comes before the last
      four, which stay as they are. */
  lemma CompactedExactly(env: Env, k: nat, msgs: seq<Message>)
    ensures var r := CompactedMessages(env, k, msgs);
      if |msgs| < 6 || |DigestText(msgs)| < 320000 then r == msgs
      else
        exists head, tail, input ::
          && msgs == head + tail && |tail| == 4 && AskedFor(head, input)
          && r == [Message("user", Plain("<conversation_summary>\n" + Strip(env.world.summary(k, input))
                    + "\n</conversation_summary>"))] + tail
  {
    hide DigestText, Strip, AskedFor, SummaryInput;
    if NeedsCompaction(msgs) {
      SummaryInputIs(msgs);
      var n := |msgs| - 4;
      assert msgs == msgs[..n] + msgs[n..];
    }
  }

  // ----- the exchange of one iteration -----

  /** What one continued iteration adds: the reply, and its results if there are any. */
  function Exchange(env: Env, k: nat): seq<Message> {
    NextMessages(env.world, [], TextAt(env, k), Feedback(env, k, WorkAt(env, k)))
  }

  ghost predicate Quotes(env: Env, text: string, feedback: seq<Record>) {
    exists blocks ::
      && Lines(text, blocks) && |blocks| == |feedback|
      && forall i :: 0 <= i < |blocks| ==>
           blocks[i] == "<tool_result>\n" + env.world.dumps(feedback[i]) + "\n</tool_result>"
  }

  lemma ExchangeExactly(env: Env, k: nat)
    ensures var es, feedback := Exchange(env, k), Feedback(env, k, WorkAt(env, k));
      && |es| == (if feedback == [] then 1 else 2)
      && es[0] == Message("assistant", Plain(TextAt(env, k)))
      && (feedback != [] ==> exists text :: es[1] == Message("user", Plain(text)) && Quotes(env, text, feedback))
  {
    hide Feedback, WorkAt, TextAt, Join, Lines;
    var es, feedback := Exchange(env, k), Feedback(env, k, WorkAt(env, k));
    if feedback != [] {
      var blocks := Rendered(env.world, feedback);
      var text := Join("\n", blocks);
      JoinedLines(blocks);
      assert Quotes(env, text, feedback);
      assert es[1] == Message("user", Plain(text));
    }
  }

  lemma Appended(w: World, msgs: seq<Message>, text: string, feedback: seq<Record>)
    ensures NextMessages(w, msgs, text, feedback) == msgs + NextMessages(w, [], text, feedback)
  {
    hide Join, Rendered;
  }

  // ----- whole runs -----

  /** The messages that the model is given in iteration `k`. */
  function Given(env: Env, k: nat): seq<Message>
    requires After(env, k).Running?
  {
    CompactedMessages(env, k, After(env, k).msgs)
  }

  lemma WorkText(env: Env, k: nat)
    ensures WorkAt(env, k).text == TextAt(env, k)
  {
    hide EventsOf, BatchOf;
  }

  lemma StepMessages(env: Env, k: nat, s: Turn, msgs: seq<Message>, actions: nat)
    requires Step(env, k, s, msgs, actions).Running?
    ensures var p := Step(env, k, s, msgs, actions); var feedback := Feedback(env, k, WorkAt(env, k));
      && p.msgs == NextMessages(env.world, CompactedMessages(env, k, msgs), TextAt(env, k), feedback)
      && p.turn.digest == Prepared(env, k, s, msgs).digest && p.turn.streak == Prepared(env, k, s, msgs).streak
  {
    hide Prepared, NoProgress, Feedback, NextMessages, Worked, Concluded, WorkOf, DecisionOf, Ambiguous,
      CompactedMessages;
    var s2, w := Recorded(Prepared(env, k, s, msgs), k, env.world.reply(k)), WorkAt(env, k);
    assert w.text == TextAt(env, k) by { WorkText(env, k); }
    WorkedIs(env, k, s2, w);
    ConcludedIs(env, k, Worked(env, k, s2, w), w);
  }

  /** Each iteration continues from what the one before was given, with that one's reply and
      results. */
  lemma Continues(env: Env, k: nat)
    requires After(env, k + 1).Running?
    ensures After(env, k).Running? && After(env, k + 1).msgs == Given(env, k) + Exchange(env, k)
  {
    hide Step, CompactedMessages, NextMessages, Feedback, WorkAt, TextAt;
    var p := After(env, k);
    StepMessages(env, k, p.turn, p.msgs, p.actions);
    Appended(env.world, CompactedMessages(env, k, p.msgs), TextAt(env, k), Feedback(env, k, WorkAt(env, k)));
  }

  ghost predicate EndsWith(msgs: seq<Message>, tail: seq<Message>) {
    |tail| <= |msgs| && msgs[|msgs| - |tail|..] == tail
  }

  lemma LastFourStay(env: Env, k: nat, msgs: seq<Message>, tail: seq<Message>)
    requires EndsWith(msgs, tail) && |tail| <= 4
    ensures EndsWith(CompactedMessages(env, k, msgs), tail)
  {
    hide NeedsCompaction, SummaryInput;
    var r := CompactedMessages(env, k, msgs);
    if NeedsCompaction(msgs) {
      assert |msgs| >= 6 by { Sixth(msgs); }
      assert r[1..] == msgs[|msgs| - 4..];
      assert r[5 - |tail|..] == r[1..][4 - |tail|..] == msgs[|msgs| - |tail|..];
    }
  }

  lemma Sixth(msgs: seq<Message>)
    requires NeedsCompaction(msgs)
    ensures |msgs| >= 6
  {
  }

  lemma EndsWithMore(a: seq<Message>, tail: seq<Message>, more: seq<Message>)
    requires EndsWith(a, tail)
    ensures EndsWith(a + more, tail + more)
  {
  }

  /** Whatever was compacted, the model always sees its last two replies and their results word for
      word, and before its second reply the customer's message too. */
  lemma LastExchangesGiven(env: Env, k: nat)
    requires After(env, k).Running?
    ensures k == 0 ==> EndsWith(Given(env, k), [UserMessage(env)])
    ensures k == 1 ==> EndsWith(Given(env, k), [UserMessage(env)] + Exchange(env, 0))
    ensures k >= 2 ==> EndsWith(Given(env, k), Exchange(env, k - 2) + Exchange(env, k - 1))
  {
    hide CompactedMessages, Exchange, After, Given;
    StartGiven(env);
    if k == 1 {
      ExchangeGiven(env, 0, [UserMessage(env)]);
    } else if k >= 2 {
      Continues(env, k - 1);
      Continues(env, k - 2);
      ExchangeSize(env, k - 2);
      ExchangeGiven(env, k - 1, Exchange(env, k - 2));
    }
  }

  lemma ExchangeSize(env: Env, k: nat)
    ensures 1 <= |Exchange(env, k)| <= 2
  {
    ExchangeExactly(env, k);
  }

  lemma ExchangeGiven(env: Env, k: nat, before: seq<Message>)
    requires After(env, k + 1).Running? && After(env, k).Running?
    requires EndsWith(After(env, k).msgs, before) && |before| <= 2
    ensures EndsWith(Given(env, k + 1), before + Exchange(env, k))
  {
    hide CompactedMessages, Exchange, After, Given;
    Continues(env, k);
    ExchangeSize(env, k);
    GivenEnds(env, k, before);
    EndsWithMore(Given(env, k), before, Exchange(env, k));
    GivenEnds(env, k + 1, before + Exchange(env, k));
  }

  lemma GivenEnds(env: Env, k: nat, tail: seq<Message>)
    requires After(env, k).Running? && EndsWith(After(env, k).msgs, tail) && |tail| <= 4
    ensures EndsWith(Given(env, k), tail)
  {
    hide CompactedMessages, After;
    LastFourStay(env, k, After(env, k).msgs, tail);
  }

  lemma StartGiven(env: Env)
    ensures After(env, 0).Running? && EndsWith(After(env, 0).msgs, [UserMessage(env)])
    ensures EndsWith(Given(env, 0), [UserMessage(env)])
  {
    hide CompactedMessages;
    StartExactly(env);
    assert After(env, 0).msgs == InitialMessages(env);
    LastFourStay(env, 0, InitialMessages(env), [UserMessage(env)]);
  }

  /** The exchanges of the first `n` iterations, in order. */
  function Dialogue(env: Env, n: nat): seq<Message> {
    if n == 0 then [] else Dialogue(env, n - 1) + Exchange(env, n - 1)
  }

  /** Until a first compaction the model is given the whole conversation. */
  lemma {:induction false} WholeConversation(env: Env, k: nat)
    requires After(env, k).Running?
    requires forall i: nat :: i < k && After(env, i).Running? ==> !NeedsCompaction(After(env, i).msgs)
    ensures After(env, k).msgs == InitialMessages(env) + Dialogue(env, k)
  {
    hide Exchange, Step, InitialMessages, NeedsCompaction;
    if k == 0 {
      assert InitialMessages(env) + [] == InitialMessages(env);
    } else {
      Continues(env, k - 1);
      WholeConversation(env, k - 1);
    }
  }
}
