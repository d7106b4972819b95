/** The lock that keeps the proactive runs of one tenant apart. Times are in milliseconds. */
module Lease {
  import opened Text

  const TTL := 600_000

  /** The lock's value is the same constant for everyone; `setBy` is a history variable. */
  datatype Lock = Lock(setBy: nat, expires: nat)

  /** `active` holds the runs between taking the lock and deleting it, with their start. */
  datatype System = System(now: nat, lock: Option<Lock>, active: map<nat, nat>)

  datatype Action = Tick(ms: nat) | Start(run: nat) | Finish(run: nat) | Die(run: nat)

  predicate Held(s: System) { s.lock.Some? && s.now < s.lock.value.expires }

  predicate Enabled(s: System, a: Action) {
    match a
    case Tick(_) => true
    case Start(run) => run !in s.active
    case Finish(run) => run in s.active
    case Die(run) => run in s.active
  }

  /** `Start` is SET NX EX: a run that finds the lock taken returns at once; `Finish` deletes
      the lock unconditionally; a process that dies leaves its lock to expire. */
  function Apply(s: System, a: Action): System {
    match a
    case Tick(ms) => s.(now := s.now + ms)
    case Start(run) =>
      if Held(s) then s else s.(lock := Some(Lock(run, s.now + TTL)), active := s.active[run := s.now])
    case Finish(run) => s.(lock := None, active := s.active - {run})
    case Die(run) => s.(active := s.active - {run})
  }

  const START := System(0, None, map[])

  function RunOf(actions: seq<Action>): System {
    if actions == [] then START else Apply(RunOf(actions[..|actions| - 1]), actions[|actions| - 1])
  }

  ghost predicate Valid(actions: seq<Action>) {
    forall n :: 0 <= n < |actions| ==> Enabled(RunOf(actions[..n]), actions[n])
  }

  /** No run has outlived its lock. */
  ghost predicate Brief(s: System) {
    forall run :: run in s.active ==> s.now < s.active[run] + TTL
  }

  ghost predicate AlwaysBrief(actions: seq<Action>) {
    forall n :: 0 <= n <= |actions| ==> Brief(RunOf(actions[..n]))
  }

  // ----- one run -----

  datatype Outcome = Skipped | Done(proposals: nat) | Raised

  /** The proposals of all jobs, Raised when one of them raises. */
  function Tally(jobs: seq<Option<nat>>): Outcome {
    if jobs == [] then Done(0)
    else if jobs[0].None? then Raised
    else
      match Tally(jobs[1..])
      case Done(rest) => Done(jobs[0].value + rest)
      case other => other
  }

  class Daemon {
    var lock: Option<Lock>

    /** A run that nothing interleaves with: it counts the proposals up to the first job that
        raises, and leaves no lock behind either way. */
    method RunForTenant(now: nat, run: nat, jobs: seq<Option<nat>>) returns (outcome: Outcome)
      modifies this
      ensures outcome.Skipped? <==> old(lock).Some? && now < old(lock).value.expires
      ensures outcome.Skipped? ==> lock == old(lock)
      ensures !outcome.Skipped? ==> lock == None && outcome == Tally(jobs)
    {
      if lock.Some? && now < lock.value.expires { return Skipped; }
      lock := Some(Lock(run, now + TTL));
      var proposals, i := 0, 0;
      while i < |jobs| && jobs[i].Some?
        invariant 0 <= i <= |jobs|
        invariant lock.Some?
        invariant Tally(jobs) == Plus(proposals, Tally(jobs[i..]))
      {
        proposals := proposals + jobs[i].value;
        i := i + 1;
      }
      lock := None;
      return if i < |jobs| then Raised else Done(proposals);
    }
  }

  function Plus(proposals: nat, rest: Outcome): Outcome {
    match rest case Done(n) => Done(proposals + n) case other => other
  }

  /** A run counts what all its jobs proposed, one after the other, unless one of them raises. */
  lemma {:induction false} TallyExactly(jobs: seq<Option<nat>>, more: seq<Option<nat>>)
    ensures Tally(jobs) == Raised <==> None in jobs
    ensures None !in jobs ==> Tally(jobs).Done? && Tally(jobs + more) == Plus(Tally(jobs).proposals, Tally(more))
    ensures |jobs| == 1 && jobs[0].Some? ==> Tally(jobs) == Done(jobs[0].value)
  {
    if jobs == [] {
      assert jobs + more == more;
    } else {
      assert (jobs + more)[1..] == jobs[1..] + more;
      TallyExactly(jobs[1..], more);
    }
  }

  // ----- exclusion -----

  predicate AtMostOne(s: System) {
    forall a, b :: a in s.active && b in s.active ==> a == b
  }

  /** Whoever is active set the lock that stands. */
  ghost predicate Owned(s: System) {
    forall run :: run in s.active ==> s.lock == Some(Lock(run, s.active[run] + TTL))
  }

  lemma OwnedAfter(s: System, a: Action)
    requires Owned(s) && Brief(s) && Enabled(s, a)
    ensures Owned(Apply(s, a))
  {
    assert forall run :: run in s.active ==> Held(s);
  }

  lemma {:induction false} OwnedAlways(actions: seq<Action>)
    requires Valid(actions)
    requires forall n :: 0 <= n < |actions| ==> Brief(RunOf(actions[..n]))
    ensures Owned(RunOf(actions))
  {
    hide Owned, Brief, Apply, Enabled;
    if actions == [] {
      StartOwned();
    } else {
      var before := actions[..|actions| - 1];
      forall n | 0 <= n < |before| ensures before[..n] == actions[..n] && before[n] == actions[n] {}
      OwnedAlways(before);
      OwnedAfter(RunOf(before), actions[|actions| - 1]);
    }
  }

  lemma StartOwned()
    ensures Owned(START)
  {
  }

  /** When every run is over before its lock expires, at most one run is active at any time, the
      last moment included, and the run that finishes deletes a lock that is its own and still
      stands. */
  lemma Exclusion(actions: seq<Action>, n: nat)
    requires Valid(actions) && AlwaysBrief(actions) && n <= |actions|
    ensures AtMostOne(RunOf(actions[..n]))
    ensures n < |actions| && actions[n].Finish? ==>
      var s := RunOf(actions[..n]); Held(s) && s.lock.value.setBy == actions[n].run
  {
    hide Apply;
    var before := actions[..n];
    forall k | 0 <= k < |before| ensures before[..k] == actions[..k] && before[k] == actions[k] {}
    OwnedAlways(before);
    assert Brief(RunOf(before));
    assert n < |actions| ==> Enabled(RunOf(before), actions[n]);
  }

  /** The next run that asks for the lock is never let in beside another. */
  ghost predicate Excludes(s: System) {
    forall run :: run !in s.active ==> AtMostOne(Apply(s, Start(run)))
  }

  /** Where the active run owns the lock, the lock excludes others exactly while it is brief. */
  lemma ExcludesExactly(s: System)
    requires Owned(s)
    ensures Excludes(s) <==> Brief(s)
  {
    if Brief(s) {
      forall run | run !in s.active ensures AtMostOne(Apply(s, Start(run))) {
        OwnedAfter(s, Start(run));
        var s' := Apply(s, Start(run));
        forall a, b | a in s'.active && b in s'.active ensures a == b {
          assert s'.lock.value.setBy == a;
        }
      }
    } else {
      var late :| late in s.active && s.now >= s.active[late] + TTL;
      var run := FreshNat(s.active.Keys);
      var s' := Apply(s, Start(run));
      assert late in s'.active && run in s'.active;
    }
  }

  /** Over a whole history: the lock excludes at every moment if and only if no run ever outlives it. */
  lemma ExclusionExact(actions: seq<Action>)
    requires Valid(actions)
    ensures AlwaysBrief(actions) <==> forall n :: 0 <= n <= |actions| ==> Excludes(RunOf(actions[..n]))
  {
    hide Excludes, Brief;
    if AlwaysBrief(actions) {
      forall n | 0 <= n <= |actions| ensures Excludes(RunOf(actions[..n])) { PrefixOwned(actions, n); }
    }
    if forall n :: 0 <= n <= |actions| ==> Excludes(RunOf(actions[..n])) {
      forall n | 0 <= n <= |actions| ensures Brief(RunOf(actions[..n])) { BriefUpTo(actions, n); }
    }
  }

  lemma PrefixOwned(actions: seq<Action>, n: nat)
    requires Valid(actions) && n <= |actions|
    requires forall k :: 0 <= k < n ==> Brief(RunOf(actions[..k]))
    ensures Excludes(RunOf(actions[..n])) <==> Brief(RunOf(actions[..n]))
  {
    hide Excludes, Brief, Apply, Owned;
    var before := actions[..n];
    forall k | 0 <= k < |before| ensures before[..k] == actions[..k] && before[k] == actions[k] {}
    OwnedAlways(before);
    ExcludesExactly(RunOf(before));
  }

  lemma {:induction false} BriefUpTo(actions: seq<Action>, n: nat)
    requires Valid(actions) && n <= |actions|
    requires forall k :: 0 <= k <= |actions| ==> Excludes(RunOf(actions[..k]))
    ensures forall k :: 0 <= k <= n ==> Brief(RunOf(actions[..k]))
  {
    hide Excludes, Brief, Valid, RunOf;
    if n > 0 { BriefUpTo(actions, n - 1); }
    PrefixOwned(actions, n);
  }

  /** What an overrun costs: a second run gets in, and the first one's delete then takes the
      second one's lock, so that a third can follow. */
  lemma OverrunDeletesAnother(s: System, late: nat, second: nat, third: nat)
    requires Owned(s) && late in s.active && s.now >= s.active[late] + TTL
    requires second !in s.active && third !in s.active && second != third
    ensures var s1 := Apply(s, Start(second)); var s2 := Apply(s1, Finish(late)); var s3 := Apply(s2, Start(third));
      && s1.active.Keys == s.active.Keys + {second} && s1.lock.value.setBy == second
      && second in s2.active && s2.lock == None
      && second in s3.active && third in s3.active
  {
  }

  lemma RunSnoc(actions: seq<Action>, a: Action)
    requires Valid(actions) && Enabled(RunOf(actions), a)
    ensures Valid(actions + [a]) && RunOf(actions + [a]) == Apply(RunOf(actions), a)
  {
    hide Apply, Enabled;
    var more := actions + [a];
    assert more[..|actions|] == actions;
    forall n | 0 <= n < |more| ensures Enabled(RunOf(more[..n]), more[n]) {
      if n < |actions| { assert more[..n] == actions[..n]; }
    }
  }

  /** An overrun is a valid history: the first run is still active when its lock expires, and what
      `OverrunDeletesAnother` says happens next. */
  lemma OverrunHappens()
    ensures var actions := [Start(0), Tick(TTL), Start(1), Finish(0), Start(2)];
      && Valid(actions)
      && Owned(RunOf(actions[..2])) && !Brief(RunOf(actions[..2]))
      && RunOf(actions[..3]).active.Keys == {0, 1}
      && RunOf(actions[..4]).lock == None && RunOf(actions[..4]).active.Keys == {1}
      && RunOf(actions).active.Keys == {1, 2}
  {
    hide Valid, RunOf;
    var h := [Start(0), Tick(TTL), Start(1), Finish(0), Start(2)];
    assert Valid([]) && RunOf([]) == START by { EmptyRun(); }
    RunSnoc([], h[0]);
    assert [] + [h[0]] == h[..1];
    RunSnoc(h[..1], h[1]);
    assert h[..1] + [h[1]] == h[..2];
    RunSnoc(h[..2], h[2]);
    assert h[..2] + [h[2]] == h[..3];
    RunSnoc(h[..3], h[3]);
    assert h[..3] + [h[3]] == h[..4];
    RunSnoc(h[..4], h[4]);
    assert h[..4] + [h[4]] == h;
  }

  lemma EmptyRun()
    ensures Valid([]) && RunOf([]) == START
  {
  }
}
