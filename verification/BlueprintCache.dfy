/** The read-through cache of the current blueprint, with loads whose read of the database and
    write of the cache are separate steps, and commits whose cache delete comes later. */
module BlueprintCache {
  import opened Text

  const TTL := 300

  /** A commit of version number `i` is the i-th entry: when it was made. */
  datatype Cached = Cached(version: nat, readAt: nat, expires: nat)

  /** A load between its database read and its cache write. */
  datatype Reader = Reader(version: nat, readAt: nat)

  datatype System = System(now: nat, commits: seq<nat>, cache: Option<Cached>, readers: map<nat, Reader>)

  datatype Action =
    | Tick(seconds: nat)
    | Commit
    | Delete
    | Get(id: nat)
    | Write(id: nat)
    | Abandon(id: nat)

  /** The first commit is version 0; a tenant without one has no blueprint to load. */
  function Current(s: System): nat
    requires s.commits != []
  {
    |s.commits| - 1
  }

  predicate Hit(s: System) { s.cache.Some? && s.now < s.cache.value.expires }

  /** Every load writes its cache entry within `d` of its read, or raises by then. */
  ghost predicate Allowed(s: System, a: Action, d: nat) {
    match a
    case Tick(seconds) => forall id :: id in s.readers ==> s.now + seconds <= s.readers[id].readAt + d
    case Commit => true
    case Delete => true
    case Get(id) => id !in s.readers && s.commits != []
    case Write(id) => id in s.readers
    case Abandon(id) => id in s.readers
  }

  function Apply(s: System, a: Action): System {
    match a
    case Tick(seconds) => s.(now := s.now + seconds)
    case Commit => s.(commits := s.commits + [s.now])
    case Delete => s.(cache := None)
    case Get(id) =>
      if Hit(s) || s.commits == [] then s else s.(readers := s.readers[id := Reader(Current(s), s.now)])
    case Write(id) =>
      if id in s.readers then
        var r := s.readers[id];
        s.(cache := Some(Cached(r.version, r.readAt, s.now + TTL)), readers := s.readers - {id})
      else s
    case Abandon(id) => s.(readers := s.readers - {id})
  }

  /** The version an action hands to its caller. */
  function Serves(s: System, a: Action): Option<nat> {
    match a
    case Get(_) => if Hit(s) then Some(s.cache.value.version) else None
    case Write(id) => if id in s.readers then Some(s.readers[id].version) else None
    case _ => None
  }

  const START := System(0, [], None, map[])

  function RunOf(actions: seq<Action>): System {
    if actions == [] then START else Apply(RunOf(actions[..|actions| - 1]), actions[|actions| - 1])
  }

  ghost predicate Valid(actions: seq<Action>, d: nat) {
    actions == [] ||
      (Valid(actions[..|actions| - 1], d)
       && Allowed(RunOf(actions[..|actions| - 1]), actions[|actions| - 1], d))
  }

  // ----- staleness -----

  /** Version `v` was current at the instant `t`. */
  predicate CurrentAt(s: System, v: nat, t: nat) {
    v < |s.commits| && s.commits[v] <= t <= s.now && (v + 1 < |s.commits| ==> t <= s.commits[v + 1])
  }

  ghost predicate Inv(s: System, d: nat) {
    && (forall i :: 0 <= i < |s.commits| ==> s.commits[i] <= s.now)
    && (forall i, j :: 0 <= i < j < |s.commits| ==> s.commits[i] <= s.commits[j])
    && (forall id :: id in s.readers ==>
        CurrentAt(s, s.readers[id].version, s.readers[id].readAt) && s.now <= s.readers[id].readAt + d)
    && (s.cache.Some? ==>
        var c := s.cache.value; CurrentAt(s, c.version, c.readAt) && c.expires <= c.readAt + d + TTL)
  }

  /** What was current stays so in the longer history. */
  lemma CurrentKept(s: System, a: Action, v: nat, t: nat)
    requires CurrentAt(s, v, t)
    ensures CurrentAt(Apply(s, a), v, t)
  {
  }

  lemma CommitsKept(s: System, a: Action, d: nat)
    requires Inv(s, d)
    ensures var s' := Apply(s, a);
      && (forall i :: 0 <= i < |s'.commits| ==> s'.commits[i] <= s'.now)
      && (forall i, j :: 0 <= i < j < |s'.commits| ==> s'.commits[i] <= s'.commits[j])
  {
    hide CurrentAt, Hit;
  }

  lemma ReadersKept(s: System, a: Action, d: nat)
    requires Inv(s, d) && Allowed(s, a, d)
    ensures var s' := Apply(s, a);
      forall id :: id in s'.readers ==>
        CurrentAt(s', s'.readers[id].version, s'.readers[id].readAt) && s'.now <= s'.readers[id].readAt + d
  {
    var s' := Apply(s, a);
    forall id | id in s'.readers
      ensures CurrentAt(s', s'.readers[id].version, s'.readers[id].readAt) && s'.now <= s'.readers[id].readAt + d
    {
      if id in s.readers && s'.readers[id] == s.readers[id] {
        CurrentKept(s, a, s.readers[id].version, s.readers[id].readAt);
      }
    }
  }

  lemma CacheKept(s: System, a: Action, d: nat)
    requires Inv(s, d) && Allowed(s, a, d)
    ensures var s' := Apply(s, a); s'.cache.Some? ==>
      CurrentAt(s', s'.cache.value.version, s'.cache.value.readAt)
      && s'.cache.value.expires <= s'.cache.value.readAt + d + TTL
  {
    if s.cache.Some? { CurrentKept(s, a, s.cache.value.version, s.cache.value.readAt); }
    if a.Write? { CurrentKept(s, a, s.readers[a.id].version, s.readers[a.id].readAt); }
  }

  lemma InvAfter(s: System, a: Action, d: nat)
    requires Inv(s, d) && Allowed(s, a, d)
    ensures Inv(Apply(s, a), d)
  {
    hide Apply, Allowed, CurrentAt;
    CommitsKept(s, a, d);
    ReadersKept(s, a, d);
    CacheKept(s, a, d);
  }

  lemma {:induction false} InvAlways(actions: seq<Action>, d: nat)
    requires Valid(actions, d)
    ensures Inv(RunOf(actions), d)
  {
    hide Inv, Allowed, Apply;
    if actions == [] {
      StartInv(d);
    } else {
      InvAlways(actions[..|actions| - 1], d);
      InvAfter(RunOf(actions[..|actions| - 1]), actions[|actions| - 1], d);
    }
  }

  lemma StartInv(d: nat)
    ensures Inv(START, d)
  {
  }

  /** Whatever the interleaving, a version served at time t was current at some instant of
      [t - 300 - d, t]. */
  lemma Staleness(actions: seq<Action>, a: Action, d: nat)
    requires Valid(actions, d) && Allowed(RunOf(actions), a, d) && Serves(RunOf(actions), a).Some?
    ensures var s := RunOf(actions);
      exists t: nat :: s.now <= t + TTL + d && t <= s.now && CurrentAt(s, Serves(s, a).value, t)
  {
    InvAlways(actions, d);
    var s := RunOf(actions);
    var t := if a.Get? then s.cache.value.readAt else s.readers[a.id].readAt;
    assert CurrentAt(s, Serves(s, a).value, t);
  }

  // ----- freshness after a delete -----

  /** Nothing stale is cached and no load holds a stale read. */
  ghost predicate Fresh(s: System) {
    && s.commits != []
    && (s.cache.Some? ==> s.cache.value.version == Current(s))
    && forall id :: id in s.readers ==> s.readers[id].version == Current(s)
  }

  ghost predicate NoCommit(actions: seq<Action>) {
    forall i :: 0 <= i < |actions| ==> !actions[i].Commit?
  }

  /** Every version served along the actions is the current one. */
  ghost predicate ServesCurrent(s: System, actions: seq<Action>)
    decreases |actions|
  {
    s.commits != [] && (actions == [] ||
      (Serves(s, actions[0]) in {None, Some(Current(s))} && ServesCurrent(Apply(s, actions[0]), actions[1..])))
  }

  lemma FreshAfter(s: System, a: Action)
    requires Fresh(s) && !a.Commit?
    ensures Fresh(Apply(s, a)) && Current(Apply(s, a)) == Current(s) && Serves(s, a) in {None, Some(Current(s))}
  {
  }

  lemma {:induction false} FreshServes(s: System, actions: seq<Action>)
    requires Fresh(s) && NoCommit(actions)
    ensures ServesCurrent(s, actions)
    decreases |actions|
  {
    hide Fresh, Apply, Serves, Current;
    if actions == [] {
      FreshCommitted(s);
    } else {
      FreshCommitted(s);
      FreshAfter(s, actions[0]);
      FreshServes(Apply(s, actions[0]), actions[1..]);
    }
  }

  lemma FreshCommitted(s: System)
    requires Fresh(s)
    ensures s.commits != []
  {
  }

  /** After a delete, every load serves the current version until the next commit if and only if
      no load that read an earlier version has yet to write its cache entry: such a load's write
      makes the loads after it serve the earlier version. */
  lemma DeleteExact(s: System)
    requires s.commits != []
    ensures var s' := Apply(s, Delete);
      (forall actions :: NoCommit(actions) ==> ServesCurrent(s', actions))
      <==> forall id :: id in s.readers ==> s.readers[id].version == Current(s)
  {
    var s' := Apply(s, Delete);
    if forall id :: id in s.readers ==> s.readers[id].version == Current(s) {
      assert Fresh(s');
      forall actions | NoCommit(actions) ensures ServesCurrent(s', actions) { FreshServes(s', actions); }
    } else {
      var id :| id in s.readers && s.readers[id].version != Current(s);
      StaleWrite(s', id);
    }
  }

  lemma StaleWrite(s: System, id: nat)
    requires s.commits != [] && id in s.readers && s.readers[id].version != Current(s)
    ensures exists actions :: NoCommit(actions) && !ServesCurrent(s, actions)
  {
    var next := FreshNat(Apply(s, Write(id)).readers.Keys);
    var actions := [Write(id), Get(next)];
    assert actions[1..] == [Get(next)];
    assert NoCommit(actions) && !ServesCurrent(s, actions);
  }

  /** The history of a load that reads before a commit and writes after the commit's delete. */
  const LATE_WRITE: seq<Action> := [Commit, Get(0), Commit, Delete, Write(0)]

  lemma RunSnoc(actions: seq<Action>, a: Action, d: nat)
    requires Valid(actions, d) && Allowed(RunOf(actions), a, d)
    ensures Valid(actions + [a], d) && RunOf(actions + [a]) == Apply(RunOf(actions), a)
  {
    hide Apply, Allowed;
    assert (actions + [a])[..|actions|] == actions;
  }

  /** Such histories exist, for every `d`: just before the delete a stale load is pending, and
      after its write another load is served version 0 while version 1 is current. */
  lemma LateWriteHappens(d: nat)
    ensures Valid(LATE_WRITE, d)
    ensures var s := RunOf(LATE_WRITE[..3]);
      s.commits != [] && Current(s) == 1 && 0 in s.readers && s.readers[0].version == 0
    ensures var s := RunOf(LATE_WRITE);
      s.commits != [] && Current(s) == 1 && Allowed(s, Get(1), d) && Serves(s, Get(1)) == Some(0)
  {
    hide Valid, RunOf;
    var h := LATE_WRITE;
    assert Valid([], d) && RunOf([]) == START by { EmptyRun(d); }
    RunSnoc([], Commit, d);
    assert [] + [Commit] == h[..1];
    RunSnoc(h[..1], Get(0), d);
    assert h[..1] + [Get(0)] == h[..2];
    RunSnoc(h[..2], Commit, d);
    assert h[..2] + [Commit] == h[..3];
    RunSnoc(h[..3], Delete, d);
    assert h[..3] + [Delete] == h[..4];
    RunSnoc(h[..4], Write(0), d);
    assert h[..4] + [Write(0)] == h;
  }

  lemma EmptyRun(d: nat)
    ensures Valid([], d) && RunOf([]) == START
  {
  }

  /** It is the loads after the write, not only the stale load itself, that get the old version. */
  lemma StaleWriteServesLater(s: System, id: nat, later: nat)
    requires s.commits != [] && id in s.readers && s.readers[id].version != Current(s)
    ensures var s' := Apply(s, Write(id)); Serves(s', Get(later)) == Some(s.readers[id].version)
  {
  }
}
