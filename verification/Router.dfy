/** The model router: the order in which providers are tried, and the daily budget as a
    check-then-record protocol over a counter with an expiry. */
module Router {
  import opened Text

  // ----- providers -----

  datatype Provider = OpenAi | Anthropic | AzureOpenAi | Sarvam | Mock

  const GLOBAL_FALLBACKS := [OpenAi, Anthropic, AzureOpenAi, Mock]

  /** The first occurrences, in order. */
  function Dedupe(ps: seq<Provider>): (r: seq<Provider>)
    ensures forall p :: p in r <==> p in ps
  {
    if ps == [] then []
    else
      var front, last := ps[..|ps| - 1], ps[|ps| - 1];
      assert ps == front + [last];
      if last in Dedupe(front) then Dedupe(front) else Dedupe(front) + [last]
  }

  function ChainOf(default: Provider, fallbacks: seq<Provider>): seq<Provider> {
    Dedupe([default] + fallbacks + GLOBAL_FALLBACKS)
  }

  lemma DedupeJoin(a: seq<Provider>, p: Provider)
    ensures Dedupe(a + [p]) == if p in a then Dedupe(a) else Dedupe(a) + [p]
  {
    assert (a + [p])[..|a|] == a;
  }

  method AppendMissing(chain: seq<Provider>, more: seq<Provider>, ghost seen: seq<Provider>) returns (r: seq<Provider>)
    requires chain == Dedupe(seen)
    ensures r == Dedupe(seen + more)
  {
    r := chain;
    assert seen + more[..0] == seen;
    for i := 0 to |more|
      invariant r == Dedupe(seen + more[..i])
    {
      assert seen + more[..i + 1] == (seen + more[..i]) + [more[i]];
      DedupeJoin(seen + more[..i], more[i]);
      if more[i] !in r { r := r + [more[i]]; }
    }
    assert more[..|more|] == more;
  }

  method ProviderChain(default: Provider, fallbacks: seq<Provider>) returns (chain: seq<Provider>)
    ensures chain == ChainOf(default, fallbacks)
  {
    hide Dedupe;
    assert Dedupe([default]) == [default] by { DedupeOne(default); }
    chain := AppendMissing([default], fallbacks, [default]);
    chain := AppendMissing(chain, GLOBAL_FALLBACKS, [default] + fallbacks);
  }

  lemma DedupeOne(p: Provider)
    ensures Dedupe([p]) == [p]
  {
    assert [p][..0] == [];
  }

  lemma {:induction false} DedupeShape(ps: seq<Provider>)
    ensures var d := Dedupe(ps);
      && (forall i, j :: 0 <= i < j < |d| ==> d[i] != d[j])
      && (ps != [] ==> d != [] && d[0] == ps[0])
  {
    if ps != [] { DedupeShape(ps[..|ps| - 1]); }
  }

  /** Where a provider is first named. */
  function FirstAt(p: Provider, ps: seq<Provider>): (n: nat)
    ensures n <= |ps|
    ensures p in ps ==> n < |ps| && ps[n] == p
    ensures p !in ps[..n]
  {
    if ps == [] || ps[0] == p then 0 else 1 + FirstAt(p, ps[1..])
  }

  lemma {:induction false} FirstAtKept(p: Provider, front: seq<Provider>, last: Provider)
    ensures p in front ==> FirstAt(p, front + [last]) == FirstAt(p, front) < |front|
    ensures p == last && p !in front ==> FirstAt(p, front + [last]) == |front|
  {
    if front != [] && front[0] != p {
      assert (front + [last])[1..] == front[1..] + [last];
      FirstAtKept(p, front[1..], last);
    }
  }

  /** The providers follow each other as they are first named in `ps`. */
  predicate InOrder(d: seq<Provider>, ps: seq<Provider>) {
    forall i, j :: 0 <= i < j < |d| ==> FirstAt(d[i], ps) < FirstAt(d[j], ps)
  }

  lemma {:induction false} DedupeOrder(ps: seq<Provider>)
    ensures InOrder(Dedupe(ps), ps)
  {
    hide FirstAt;
    if ps != [] {
      var front, last := ps[..|ps| - 1], ps[|ps| - 1];
      assert ps == front + [last];
      DedupeOrder(front);
      var d, e := Dedupe(ps), Dedupe(front);
      forall i, j | 0 <= i < j < |d| ensures FirstAt(d[i], ps) < FirstAt(d[j], ps) {
        assert d[i] == e[i] && e[i] in front;
        FirstAtKept(d[i], front, last);
        FirstAtKept(d[j], front, last);
        if j < |e| {
          assert d[j] == e[j] && e[j] in front;
        } else {
          assert d[j] == last && last !in front;
        }
      }
    }
  }

  datatype Attempt = Success | Retryable | Fatal

  /** A provider answers within its two attempts, the second only after a timeout or a lost connection. */
  predicate Answers(available: set<Provider>, attempt: (Provider, nat) -> Attempt, p: Provider) {
    p in available && (attempt(p, 0) == Success || (attempt(p, 0) == Retryable && attempt(p, 1) == Success))
  }

  predicate FirstAnswer(chain: seq<Provider>, available: set<Provider>, attempt: (Provider, nat) -> Attempt, i: nat) {
    && i < |chain| && Answers(available, attempt, chain[i])
    && forall j :: 0 <= j < i ==> !Answers(available, attempt, chain[j])
  }

  /** The provider loop of `complete`, after the budget check. */
  method TryProviders(chain: seq<Provider>, available: set<Provider>, attempt: (Provider, nat) -> Attempt)
    returns (r: Option<Provider>)
    ensures r.Some? <==> exists p :: p in chain && Answers(available, attempt, p)
    ensures r.Some? ==> exists i: nat :: FirstAnswer(chain, available, attempt, i) && chain[i] == r.value
  {
    for i := 0 to |chain|
      invariant forall j :: 0 <= j < i ==> !Answers(available, attempt, chain[j])
    {
      if chain[i] in available {
        var n := 0;
        while n < 2
          invariant 0 <= n <= 2
          invariant n >= 1 ==> attempt(chain[i], 0) == Retryable
          invariant n >= 2 ==> attempt(chain[i], 1) != Success
        {
          var outcome := attempt(chain[i], n);
          if outcome == Success {
            assert FirstAnswer(chain, available, attempt, i);
            return Some(chain[i]);
          }
          if outcome == Fatal { break; }
          n := n + 1;
        }
      }
    }
    r := None;
  }

  /** Whatever the route, the chain starts with the default, tries no provider twice, keeps to the
      order of the default, the route's fallbacks and the global ones, and ends up with every global
      fallback in it, so a call fails only if the mock provider does too. */
  lemma ChainShape(default: Provider, fallbacks: seq<Provider>)
    ensures var c := ChainOf(default, fallbacks);
      && c != [] && c[0] == default
      && (forall i, j :: 0 <= i < j < |c| ==> c[i] != c[j])
      && (forall p :: p in c <==> p == default || p in fallbacks || p in GLOBAL_FALLBACKS)
      && InOrder(c, [default] + fallbacks + [OpenAi, Anthropic, AzureOpenAi, Mock])
  {
    DedupeShape([default] + fallbacks + GLOBAL_FALLBACKS);
    DedupeOrder([default] + fallbacks + GLOBAL_FALLBACKS);
  }

  // ----- the daily counter -----

  const DAY := 86_400
  const DAILY_BUDGET := 500_000

  datatype Counter = Counter(value: int, expires: nat)

  /** The clock in seconds and one tenant's daily counters in the key store. */
  datatype Ledger = Ledger(now: nat, counters: map<nat, Counter>)

  function Today(l: Ledger): nat { l.now / DAY }

  /** A live key's value; an expired or missing key reads as zero. */
  function Used(l: Ledger, day: nat): int {
    if day in l.counters && l.now < l.counters[day].expires then l.counters[day].value else 0
  }

  predicate Admits(l: Ledger, estimate: nat) {
    Used(l, Today(l)) + estimate <= DAILY_BUDGET
  }

  function Incremented(l: Ledger, cost: nat): Ledger {
    var day := Today(l);
    l.(counters := l.counters[day := Counter(Used(l, day) + cost, l.now + 2 * DAY)])
  }

  class BudgetStore {
    var now: nat
    var counters: map<nat, Counter>

    function Value(): Ledger
      reads this
    {
      Ledger(now, counters)
    }

    constructor ()
      ensures Value() == Ledger(0, map[])
    {
      now, counters := 0, map[];
    }

    /** Work without a tenant is never refused, and charged to nobody. */
    method CheckBudget(hasTenant: bool, estimate: nat) returns (ok: bool)
      ensures ok <==> !hasTenant || Admits(Value(), estimate)
    {
      if !hasTenant { return true; }
      var day := now / DAY;
      var used := if day in counters && now < counters[day].expires then counters[day].value else 0;
      ok := used + estimate <= DAILY_BUDGET;
    }

    method RecordUsage(hasTenant: bool, cost: nat)
      modifies this`counters
      ensures Value() == if hasTenant then Incremented(old(Value()), cost) else old(Value())
    {
      if !hasTenant { return; }
      var day := now / DAY;
      var current := if day in counters && now < counters[day].expires then counters[day].value else 0;
      counters := counters[day := Counter(current + cost, now + 2 * DAY)];
    }
  }

  // ----- concurrent callers -----

  /** `guarded` is false for embeddings, which are recorded without a check. */
  datatype Entry = Entry(day: nat, cost: nat, guarded: bool)

  datatype System = System(ledger: Ledger, inFlight: set<nat>, recorded: seq<Entry>)

  datatype Action =
    | Tick(seconds: nat)
    | Check(id: nat, estimate: nat)
    | Record(id: nat, cost: nat)
    | Abandon(id: nat)
    | Embed(cost: nat)

  /** At most `k` calls in flight, each costing at most `c`. */
  ghost predicate Allowed(s: System, a: Action, k: nat, c: nat) {
    match a
    case Tick(_) => true
    case Check(id, _) => id !in s.inFlight && |s.inFlight| < k
    case Record(id, cost) => id in s.inFlight && cost <= c
    case Abandon(id) => id in s.inFlight
    case Embed(_) => true
  }

  function Apply(s: System, a: Action): System {
    match a
    case Tick(seconds) => s.(ledger := s.ledger.(now := s.ledger.now + seconds))
    case Check(id, estimate) => if Admits(s.ledger, estimate) then s.(inFlight := s.inFlight + {id}) else s
    case Record(id, cost) =>
      System(Incremented(s.ledger, cost), s.inFlight - {id}, s.recorded + [Entry(Today(s.ledger), cost, true)])
    case Abandon(id) => s.(inFlight := s.inFlight - {id})
    case Embed(cost) =>
      s.(ledger := Incremented(s.ledger, cost), recorded := s.recorded + [Entry(Today(s.ledger), cost, false)])
  }

  const START := System(Ledger(0, map[]), {}, [])

  ghost predicate Valid(actions: seq<Action>, k: nat, c: nat) {
    actions == [] ||
      (Valid(actions[..|actions| - 1], k, c)
       && Allowed(RunOf(actions[..|actions| - 1]), actions[|actions| - 1], k, c))
  }

  function RunOf(actions: seq<Action>): System {
    if actions == [] then START else Apply(RunOf(actions[..|actions| - 1]), actions[|actions| - 1])
  }

  /** All costs recorded on a day, and those recorded without a check. */
  function Spent(es: seq<Entry>, day: nat): nat {
    if es == [] then 0
    else Spent(es[..|es| - 1], day) + (if es[|es| - 1].day == day then es[|es| - 1].cost else 0)
  }

  function Unguarded(es: seq<Entry>, day: nat): nat {
    if es == [] then 0
    else
      var e := es[|es| - 1];
      Unguarded(es[..|es| - 1], day) + (if e.day == day && !e.guarded then e.cost else 0)
  }

  /** The counter of each day, while its key lives, is the sum of that day's costs. */
  ghost predicate Counted(s: System) {
    && (forall d :: d in s.ledger.counters ==>
        && d <= Today(s.ledger) && s.ledger.counters[d].expires >= (d + 2) * DAY
        && s.ledger.counters[d].value == Spent(s.recorded, d))
    && (forall d: nat :: d !in s.ledger.counters ==> Spent(s.recorded, d) == 0)
  }

  ghost predicate Bounded(s: System, k: nat, c: nat) {
    && |s.inFlight| <= k
    && Spent(s.recorded, Today(s.ledger)) + |s.inFlight| * c
      <= DAILY_BUDGET + k * c + Unguarded(s.recorded, Today(s.ledger))
    && forall d: nat :: d != Today(s.ledger) ==> Spent(s.recorded, d) <= DAILY_BUDGET + k * c + Unguarded(s.recorded, d)
  }

  lemma SpentSnoc(es: seq<Entry>, e: Entry, day: nat)
    ensures Spent(es + [e], day) == Spent(es, day) + (if e.day == day then e.cost else 0)
    ensures Unguarded(es + [e], day) == Unguarded(es, day) + (if e.day == day && !e.guarded then e.cost else 0)
  {
    assert (es + [e])[..|es|] == es;
  }

  lemma UsedToday(s: System)
    requires Counted(s)
    ensures Used(s.ledger, Today(s.ledger)) == Spent(s.recorded, Today(s.ledger))
  {
  }

  lemma CountedAfter(s: System, a: Action)
    requires Counted(s)
    ensures Counted(Apply(s, a))
  {
    hide Spent;
    UsedToday(s);
    if a.Record? || a.Embed? {
      var e := Entry(Today(s.ledger), a.cost, a.Record?);
      forall d: nat ensures Spent(s.recorded + [e], d) == Spent(s.recorded, d) + (if e.day == d then e.cost else 0) {
        SpentSnoc(s.recorded, e, d);
      }
    }
  }

  lemma NextProduct(n: nat, c: nat)
    ensures (n + 1) * c == n * c + c
  {
  }

  lemma {:induction false} NotMore(n: nat, k: nat, c: nat)
    requires n <= k
    ensures n * c <= k * c
    decreases k - n
  {
    if n < k {
      NextProduct(n, c);
      NotMore(n + 1, k, c);
    }
  }

  lemma OneMore(n: nat, k: nat, c: nat)
    ensures (n + 1) * c == n * c + c
    ensures n < k ==> (n + 1) * c <= k * c
  {
    NextProduct(n, c);
    if n < k { NotMore(n + 1, k, c); }
  }

  lemma FutureUnspent(s: System, d: nat)
    requires Counted(s) && d > Today(s.ledger)
    ensures Spent(s.recorded, d) == 0
  {
  }

  lemma BoundedTick(s: System, seconds: nat, k: nat, c: nat)
    requires Counted(s) && Bounded(s, k, c)
    ensures Bounded(Apply(s, Tick(seconds)), k, c)
  {
    hide Spent, Unguarded;
    var s' := Apply(s, Tick(seconds));
    NotMore(|s.inFlight|, k, c);
    if Today(s'.ledger) > Today(s.ledger) { FutureUnspent(s, Today(s'.ledger)); }
  }

  lemma BoundedCheck(s: System, id: nat, estimate: nat, k: nat, c: nat)
    requires Counted(s) && Bounded(s, k, c) && Allowed(s, Check(id, estimate), k, c)
    ensures Bounded(Apply(s, Check(id, estimate)), k, c)
  {
    hide Spent, Unguarded, Counted;
    UsedToday(s);
    OneMore(|s.inFlight|, k, c);
  }

  lemma BoundedSpend(s: System, a: Action, k: nat, c: nat)
    requires Counted(s) && Bounded(s, k, c) && Allowed(s, a, k, c) && (a.Record? || a.Embed?)
    ensures Bounded(Apply(s, a), k, c)
  {
    hide Spent, Unguarded, Counted, Incremented;
    var e := Entry(Today(s.ledger), a.cost, a.Record?);
    var s' := Apply(s, a);
    assert Today(s'.ledger) == Today(s.ledger) by { IncrementedClock(s.ledger, a.cost); }
    forall d: nat
      ensures Spent(s'.recorded, d) == Spent(s.recorded, d) + (if e.day == d then e.cost else 0)
      ensures Unguarded(s'.recorded, d) == Unguarded(s.recorded, d) + (if e.day == d && !e.guarded then e.cost else 0)
    {
      SpentSnoc(s.recorded, e, d);
    }
    if a.Record? {
      assert |s'.inFlight| == |s.inFlight| - 1;
      OneMore(|s'.inFlight|, k, c);
    }
  }

  lemma IncrementedClock(l: Ledger, cost: nat)
    ensures Incremented(l, cost).now == l.now
  {
  }

  lemma BoundedAbandon(s: System, id: nat, k: nat, c: nat)
    requires Bounded(s, k, c) && id in s.inFlight
    ensures Bounded(Apply(s, Abandon(id)), k, c)
  {
    hide Spent, Unguarded;
    var s' := Apply(s, Abandon(id));
    assert |s'.inFlight| == |s.inFlight| - 1;
    OneMore(|s'.inFlight|, k, c);
  }

  /** In every interleaving, also across midnight: the counters are the sums of what was
      recorded, and no day's spending, together with what is in flight today, exceeds the
      budget by more than k·c and the unchecked embeddings of that day. */
  lemma {:induction false} BudgetBound(actions: seq<Action>, k: nat, c: nat)
    requires Valid(actions, k, c)
    ensures Counted(RunOf(actions)) && Bounded(RunOf(actions), k, c)
  {
    hide Counted, Bounded, Apply;
    if actions == [] {
      StartBounded(k, c);
    } else {
      var before, a := actions[..|actions| - 1], actions[|actions| - 1];
      BudgetBound(before, k, c);
      var s := RunOf(before);
      CountedAfter(s, a);
      match a
      case Tick(seconds) => BoundedTick(s, seconds, k, c);
      case Check(id, estimate) => BoundedCheck(s, id, estimate, k, c);
      case Record(_, _) => BoundedSpend(s, a, k, c);
      case Abandon(id) => BoundedAbandon(s, id, k, c);
      case Embed(_) => BoundedSpend(s, a, k, c);
    }
  }

  lemma StartBounded(k: nat, c: nat)
    ensures Counted(START) && Bounded(START, k, c)
  {
    assert 0 <= k * c;
  }

  /** A day without embeddings keeps within the budget and the k calls that may be in flight. */
  lemma PlainDay(actions: seq<Action>, k: nat, c: nat, day: nat)
    requires Valid(actions, k, c) && Unguarded(RunOf(actions).recorded, day) == 0
    ensures var s := RunOf(actions);
      Spent(s.recorded, day) + (if day == Today(s.ledger) then |s.inFlight| * c else 0) <= DAILY_BUDGET + k * c
  {
    hide RunOf, Valid, Counted;
    BudgetBound(actions, k, c);
  }

  // ----- how far the bound is reached -----

  lemma StepValid(actions: seq<Action>, a: Action, k: nat, c: nat)
    requires Valid(actions, k, c) && Allowed(RunOf(actions), a, k, c)
    ensures Valid(actions + [a], k, c) && RunOf(actions + [a]) == Apply(RunOf(actions), a)
  {
    hide Apply, Allowed;
    assert (actions + [a])[..|actions|] == actions;
  }

  /** The whole history lies in day 0, spent `total`, and has the calls `ids` in flight. */
  ghost predicate FirstDay(s: System, total: nat, ids: set<nat>) {
    && s.ledger.now == 0 && Used(s.ledger, 0) == total && s.inFlight == ids
    && Spent(s.recorded, 0) == total && forall d: nat :: Unguarded(s.recorded, d) == 0
  }

  lemma ChecksIn(s: System, total: nat, ids: set<nat>, id: nat)
    requires FirstDay(s, total, ids) && total <= DAILY_BUDGET
    ensures FirstDay(Apply(s, Check(id, 0)), total, ids + {id})
  {
    hide Spent, Unguarded;
  }

  lemma Records(s: System, total: nat, ids: set<nat>, id: nat, cost: nat)
    requires FirstDay(s, total, ids) && id in ids
    ensures FirstDay(Apply(s, Record(id, cost)), total + cost, ids - {id})
  {
    hide Spent, Unguarded;
    var e := Entry(0, cost, true);
    forall d: nat ensures Unguarded(s.recorded + [e], d) == Unguarded(s.recorded, d) { SpentSnoc(s.recorded, e, d); }
    SpentSnoc(s.recorded, e, 0);
  }

  /** One call after the other, each costing one paisa. */
  lemma {:induction false} Fill(n: nat, k: nat, c: nat) returns (actions: seq<Action>)
    requires k >= 1 && c >= 1 && n <= DAILY_BUDGET
    ensures Valid(actions, k, c) && FirstDay(RunOf(actions), n, {})
  {
    hide Valid, RunOf, FirstDay, Apply;
    if n == 0 {
      actions := [];
      NothingSpent(k, c);
    } else {
      actions := Fill(n - 1, k, c);
      var s := RunOf(actions);
      assert s.inFlight == {} by { InFlightIs(s, n - 1, {}); }
      StepValid(actions, Check(0, 0), k, c);
      ChecksIn(s, n - 1, {}, 0);
      var s1 := Apply(s, Check(0, 0));
      assert {} + {0} == {0};
      assert s1.inFlight == {0} by { InFlightIs(s1, n - 1, {0}); }
      StepValid(actions + [Check(0, 0)], Record(0, 1), k, c);
      Records(s1, n - 1, {0}, 0, 1);
      assert {0} - {0} == {};
      actions := actions + [Check(0, 0)] + [Record(0, 1)];
    }
  }

  lemma InFlightIs(s: System, total: nat, ids: set<nat>)
    requires FirstDay(s, total, ids)
    ensures s.inFlight == ids
  {
    hide Spent, Unguarded;
  }

  lemma NothingSpent(k: nat, c: nat)
    ensures Valid([], k, c) && FirstDay(RunOf([]), 0, {})
  {
  }

  function Below(n: nat): (ids: set<nat>)
    ensures |ids| == n && forall i: nat :: i in ids <==> i < n
  {
    if n == 0 then {} else Below(n - 1) + {n - 1}
  }

  /** The budget is spent, and `n` calls were still let in. */
  lemma {:induction false} LetIn(n: nat, k: nat, c: nat) returns (actions: seq<Action>)
    requires 1 <= k && 1 <= c && n <= k
    ensures Valid(actions, k, c) && FirstDay(RunOf(actions), DAILY_BUDGET, Below(n))
  {
    hide Valid, RunOf, FirstDay, Apply;
    if n == 0 {
      actions := Fill(DAILY_BUDGET, k, c);
      assert Below(0) == {};
    } else {
      actions := LetIn(n - 1, k, c);
      var s := RunOf(actions);
      assert s.inFlight == Below(n - 1) by { InFlightIs(s, DAILY_BUDGET, Below(n - 1)); }
      StepValid(actions, Check(n - 1, 0), k, c);
      ChecksIn(s, DAILY_BUDGET, Below(n - 1), n - 1);
      assert Below(n) == Below(n - 1) + {n - 1};
      actions := actions + [Check(n - 1, 0)];
    }
  }

  /** What is spent once all but `n` of the `k` calls have recorded their cost. */
  function Landing(n: nat, k: nat, c: nat): nat
    requires n <= k
  {
    DAILY_BUDGET + (k - n) * c
  }

  lemma LandingIs(n: nat, k: nat, c: nat)
    requires n <= k
    ensures Landing(k, k, c) == DAILY_BUDGET && Landing(0, k, c) == DAILY_BUDGET + k * c
    ensures n < k ==> Landing(n, k, c) == Landing(n + 1, k, c) + c
  {
    if n < k { NextProduct(k - (n + 1), c); }
  }

  /** Then they record what they cost, the last one let in first. */
  lemma {:induction false} Landed(n: nat, k: nat, c: nat) returns (actions: seq<Action>)
    requires 1 <= k && 1 <= c && n <= k
    ensures Valid(actions, k, c) && FirstDay(RunOf(actions), Landing(n, k, c), Below(n))
    decreases k - n
  {
    hide Valid, RunOf, FirstDay, Apply, Landing, Below;
    LandingIs(n, k, c);
    if n == k {
      actions := LetIn(n, k, c);
    } else {
      actions := Landed(n + 1, k, c);
      var s := RunOf(actions);
      InFlightIs(s, Landing(n + 1, k, c), Below(n + 1));
      StepValid(actions, Record(n, c), k, c);
      Records(s, Landing(n + 1, k, c), Below(n + 1), n, c);
      assert Below(n + 1) - {n} == Below(n);
      actions := actions + [Record(n, c)];
    }
  }

  /** The bound is reached: with calls that cost anything, some day without any embedding is
      overspent by exactly k·c. */
  lemma BoundAttained(k: nat, c: nat) returns (actions: seq<Action>)
    requires k >= 1 && c >= 1
    ensures Valid(actions, k, c)
    ensures var s := RunOf(actions); Spent(s.recorded, 0) == DAILY_BUDGET + k * c && Unguarded(s.recorded, 0) == 0
    ensures FirstDay(RunOf(actions), DAILY_BUDGET + k * c, {})
  {
    hide Valid, RunOf, Spent, Unguarded;
    actions := Landed(0, k, c);
    LandingIs(0, k, c);
    assert Below(0) == {};
  }

  /** An embedding alone can overspend a day by any amount. */
  lemma EmbeddingOverspends(k: nat, c: nat, extra: nat)
    ensures var actions := [Embed(DAILY_BUDGET + k * c + extra)];
      Valid(actions, k, c) && Spent(RunOf(actions).recorded, 0) == DAILY_BUDGET + k * c + extra
  {
    var a := Embed(DAILY_BUDGET + k * c + extra);
    NothingSpent(k, c);
    StepValid([], a, k, c);
    assert [] + [a] == [a];
    SpentSnoc([], Entry(0, a.cost, false), 0);
    assert Spent([], 0) == 0;
  }

  /** Every day of the history keeps within the budget and k·c. */
  ghost predicate WithinPlain(s: System, k: nat, c: nat) {
    forall d: nat :: Spent(s.recorded, d) <= DAILY_BUDGET + k * c
  }

  ghost predicate EmbedsAtMost(s: System, u: nat) {
    forall d: nat :: Unguarded(s.recorded, d) <= u
  }

  /** Without calls in flight, or with calls that cost nothing, only embeddings are charged. */
  lemma {:induction false} OnlyEmbeddings(actions: seq<Action>, k: nat, c: nat, d: nat)
    requires Valid(actions, k, c) && (k == 0 || c == 0)
    ensures Spent(RunOf(actions).recorded, d) == Unguarded(RunOf(actions).recorded, d)
    ensures k == 0 ==> RunOf(actions).inFlight == {}
  {
    hide Spent, Unguarded, Incremented, Admits;
    if actions == [] {
      NothingSpent(k, c);
      assert Spent([], d) == Unguarded([], d) by { NoEntries(d); }
    } else {
      var before, a := actions[..|actions| - 1], actions[|actions| - 1];
      OnlyEmbeddings(before, k, c, d);
      var s := RunOf(before);
      if a.Record? || a.Embed? { SpentSnoc(s.recorded, Entry(Today(s.ledger), a.cost, a.Record?), d); }
    }
  }

  lemma NoEntries(d: nat)
    ensures Spent([], d) == 0 && Unguarded([], d) == 0
  {
  }

  /** When budget + k·c holds without the embeddings: over all histories that embed for at most
      `u` a day, exactly when u is zero, or when no call can cost anything and u fits the budget. */
  lemma PlainBoundExactly(k: nat, c: nat, u: nat)
    ensures (forall actions ::
        Valid(actions, k, c) && EmbedsAtMost(RunOf(actions), u) ==> WithinPlain(RunOf(actions), k, c))
      <==> u == 0 || ((k == 0 || c == 0) && u <= DAILY_BUDGET)
  {
    hide Valid, RunOf, Spent, Unguarded;
    if u == 0 {
      forall actions | Valid(actions, k, c) && EmbedsAtMost(RunOf(actions), u)
        ensures WithinPlain(RunOf(actions), k, c)
      {
        forall d: nat ensures Spent(RunOf(actions).recorded, d) <= DAILY_BUDGET + k * c { PlainDay(actions, k, c, d); }
      }
    } else if k == 0 || c == 0 {
      assert k * c == 0;
      forall actions | Valid(actions, k, c) && EmbedsAtMost(RunOf(actions), u)
        ensures u <= DAILY_BUDGET ==> WithinPlain(RunOf(actions), k, c)
      {
        forall d: nat ensures Spent(RunOf(actions).recorded, d) <= u { OnlyEmbeddings(actions, k, c, d); }
      }
      if u > DAILY_BUDGET {
        NothingSpent(k, c);
        EmbedMore([], k, c, 0, u);
      }
    } else {
      var actions := BoundAttained(k, c);
      assert RunOf(actions).inFlight == {} by { InFlightIs(RunOf(actions), DAILY_BUDGET + k * c, {}); }
      EmbedMore(actions, k, c, DAILY_BUDGET + k * c, u);
    }
  }

  lemma EmbedMore(actions: seq<Action>, k: nat, c: nat, total: nat, u: nat)
    requires Valid(actions, k, c) && FirstDay(RunOf(actions), total, RunOf(actions).inFlight)
    requires total + u > DAILY_BUDGET + k * c
    ensures exists more :: Valid(more, k, c) && EmbedsAtMost(RunOf(more), u) && !WithinPlain(RunOf(more), k, c)
  {
    hide Valid, RunOf, Spent, Unguarded;
    var s, more := RunOf(actions), actions + [Embed(u)];
    StepValid(actions, Embed(u), k, c);
    forall d: nat ensures Unguarded(RunOf(more).recorded, d) <= u { SpentSnoc(s.recorded, Entry(0, u, false), d); }
    SpentSnoc(s.recorded, Entry(0, u, false), 0);
    assert !WithinPlain(RunOf(more), k, c);
  }
}
