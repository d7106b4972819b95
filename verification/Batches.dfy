/** How the events of a reply are sorted by kind: each kind in order, each event once. */
module Batches {
  import opened Text
  import opened Tags
  import opened HarnessState
  import opened SiteSpecs
  import opened LoopSpec
  import opened Transcript
  import Parser
  import Patterns
  import RoundTrip

  lemma PickOne<T>(e: Event, f: Event -> Option<T>)
    ensures Pick([e], f) == match f(e) case None => [] case Some(x) => [x]
  {
    assert [e][..0] == [];
  }

  lemma {:induction false} PickJoin<T>(a: seq<Event>, b: seq<Event>, f: Event -> Option<T>)
    ensures Pick(a + b, f) == Pick(a, f) + Pick(b, f)
  {
    if b == [] {
      assert a + b == a;
    } else {
      assert (a + b)[..|a + b| - 1] == a + b[..|b| - 1];
      PickJoin(a, b[..|b| - 1], f);
    }
  }

  /** The first thing picked is what the first fitting event carries. */
  lemma {:induction false} PickFirst<T>(es: seq<Event>, f: Event -> Option<T>)
    ensures Pick(es, f) == [] <==> forall e :: e in es ==> f(e) == None
    ensures Pick(es, f) != [] ==>
      exists i :: 0 <= i < |es| && f(es[i]) == Some(Pick(es, f)[0]) && forall j :: 0 <= j < i ==> f(es[j]) == None
  {
    if es != [] {
      var front, last := es[..|es| - 1], es[|es| - 1];
      PickFirst(front, f);
      assert es == front + [last];
      if Pick(front, f) != [] {
        var i :| 0 <= i < |front| && f(front[i]) == Some(Pick(front, f)[0])
          && forall j :: 0 <= j < i ==> f(front[j]) == None;
        assert f(es[i]) == Some(Pick(es, f)[0]);
        assert es[i] in es;
      } else {
        forall j | 0 <= j < |front| ensures f(es[j]) == None { assert es[j] == front[j] && front[j] in front; }
        if f(last).Some? { assert f(es[|es| - 1]) == Some(Pick(es, f)[0]) && last in es; }
      }
    }
  }

  const NO_EVENTS: Batch := Batch([], [], [], [], [], [], [], false)

  /** What one event adds, kind by kind. */
  lemma BatchOne(e: Event)
    ensures BatchOf([e]) ==
      match e
      case CallEvent(c) => NO_EVENTS.(calls := [c])
      case Say(text) => NO_EVENTS.(says := [text])
      case AskEvent(a) => NO_EVENTS.(asks := [a])
      case Recall(key, _) => NO_EVENTS.(recalls := [key])
      case RequestApproval(actionLabel, capability, payload) =>
        NO_EVENTS.(approvals := [Approval(ExplicitRequest, capability, actionLabel, payload, None)])
      case SwarmEvent(s) => NO_EVENTS.(swarms := [s])
      case Escalate(_, _) => NO_EVENTS.(escalations := [e])
      case Final => NO_EVENTS.(hasFinal := true)
      case Thinking(_) => NO_EVENTS
      case Plan(_) => NO_EVENTS
      case Remember(_, _, _) => NO_EVENTS
  {
    hide Pick;
    PickOne(e, AsCall);
    PickOne(e, AsSay);
    PickOne(e, AsAsk);
    PickOne(e, AsRecall);
    PickOne(e, AsApproval);
    PickOne(e, AsSwarm);
    PickOne(e, AsEscalation);
  }

  /** Two stretches of a reply are sorted as one, each kind in order. */
  lemma BatchJoin(a: seq<Event>, b: seq<Event>)
    ensures var x, y := BatchOf(a), BatchOf(b);
      BatchOf(a + b) == Batch(x.calls + y.calls, x.says + y.says, x.asks + y.asks, x.recalls + y.recalls,
        x.approvals + y.approvals, x.swarms + y.swarms, x.escalations + y.escalations, x.hasFinal || y.hasFinal)
  {
    hide Pick;
    PickJoin(a, b, AsCall);
    PickJoin(a, b, AsSay);
    PickJoin(a, b, AsAsk);
    PickJoin(a, b, AsRecall);
    PickJoin(a, b, AsApproval);
    PickJoin(a, b, AsSwarm);
    PickJoin(a, b, AsEscalation);
  }

  // ----- ambiguous replies -----

  /** The tags of reply `k`, before recovery. */
  function TagsAt(env: Env, k: nat): seq<Event> {
    Parser.Tagged(Patterns.Lexicon(env.policy.builtIn, env.letters), TextAt(env, k))
  }

  function EventsAt(env: Env, k: nat): seq<Event> {
    EventsOf(env, TextAt(env, k))
  }

  predicate Directs(e: Event) { e.CallEvent? || e.AskEvent? || e.SwarmEvent? }

  lemma BatchDirects(es: seq<Event>)
    ensures var b := BatchOf(es);
      b.hasFinal && (b.calls != [] || b.asks != [] || b.swarms != [])
      <==> Final in es && exists e :: e in es && Directs(e)
  {
    hide Pick;
    PickFirst(es, AsCall);
    PickFirst(es, AsAsk);
    PickFirst(es, AsSwarm);
  }

  /** A reply is ambiguous exactly when its tags hold a final and a call, an ask or a swarm. Text
      beside the tags never makes it so. */
  lemma AmbiguousExactly(env: Env, k: nat)
    ensures Ambiguous(WorkAt(env, k).batch)
      <==> Final in TagsAt(env, k) && exists e :: e in TagsAt(env, k) && Directs(e)
  {
    hide Parser.Parse, Parser.Tagged, Parser.Leftover, BatchOf;
    var lx, raw := Patterns.Lexicon(env.policy.builtIn, env.letters), TextAt(env, k);
    RoundTrip.RecoveryExactly(lx, raw);
    BatchDirects(EventsOf(env, raw));
    var tags, es := TagsAt(env, k), EventsOf(env, raw);
    if es != tags {
      forall e ensures e in es && Directs(e) <==> e in tags && Directs(e) {
        if e in es && e !in tags { assert e == Final || e.Say?; }
        if e in tags { assert e in es; }
      }
      forall e | e in tags ensures !Directs(e) { assert !RoundTrip.Speaks(e); }
    }
  }

  // ----- the trim -----

  /** Of more calls than the cap allows the first ones stay, as many as the cap; a negative cap
      drops as many from the end. */
  lemma TrimExactly(caps: Caps, calls: seq<Call>)
    ensures var kept, cap := KeptAfterTrim(caps, calls), caps.maxActionsPerIteration;
      && calls == kept + calls[|kept|..]
      && |kept| ==
         if |calls| <= cap then |calls| else if cap >= 0 then cap else if |calls| + cap >= 0 then |calls| + cap else 0
  {
  }
}
