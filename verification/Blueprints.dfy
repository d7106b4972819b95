/** Versioned blueprints of one tenant: full creates, patches, and the events they publish. */
module Blueprints {
  import opened Text

  /** A version row; `diff` is the patch it was made by, None for a full create. */
  datatype Row<C, P> = Row(version: nat, isCurrent: bool, content: C, diff: Option<P>)

  datatype Event<C, P> = Event(versionFrom: nat, versionTo: nat, full: C, diff: Option<P>)

  datatype Request<C, P> = Create(content: C) | Mutate(patch: P)

  datatype Response = Version(version: nat) | NotFound | PatchFailed

  datatype Tenant<C, P> = Tenant(rows: seq<Row<C, P>>, events: seq<Event<C, P>>)

  // ----- one request -----

  function MaxVersion<C, P>(rows: seq<Row<C, P>>): nat {
    if rows == [] then 0
    else
      var m, v := MaxVersion(rows[..|rows| - 1]), rows[|rows| - 1].version;
      if v > m then v else m
  }

  /** `UPDATE ... SET is_current = FALSE WHERE is_current = TRUE` */
  function Retired<C, P>(rows: seq<Row<C, P>>): (r: seq<Row<C, P>>)
    ensures |r| == |rows|
  {
    seq(|rows|, i requires 0 <= i < |rows| => rows[i].(isCurrent := false))
  }

  /** The first row marked current, or the number of rows. */
  function CurrentIndex<C, P>(rows: seq<Row<C, P>>): (n: nat)
    ensures n <= |rows|
    ensures n < |rows| ==> rows[n].isCurrent
    ensures forall i :: 0 <= i < n ==> !rows[i].isCurrent
  {
    if rows == [] || rows[0].isCurrent then 0 else 1 + CurrentIndex(rows[1..])
  }

  function Created<C, P>(t: Tenant<C, P>, content: C): Tenant<C, P> {
    var v := MaxVersion(t.rows) + 1;
    Tenant(Retired(t.rows) + [Row(v, true, content, None)], t.events + [Event(v - 1, v, content, None)])
  }

  function Mutated<C, P>(t: Tenant<C, P>, apply: (P, C) -> Option<C>, patch: P): Tenant<C, P> {
    var n := CurrentIndex(t.rows);
    if n == |t.rows| then t
    else
      match apply(patch, t.rows[n].content)
      case None => t
      case Some(content) =>
        var v := t.rows[n].version;
        Tenant(Retired(t.rows) + [Row(v + 1, true, content, Some(patch))],
          t.events + [Event(v, v + 1, content, Some(patch))])
  }

  function Served<C, P>(t: Tenant<C, P>, apply: (P, C) -> Option<C>, q: Request<C, P>): Tenant<C, P> {
    match q case Create(content) => Created(t, content) case Mutate(patch) => Mutated(t, apply, patch)
  }

  class Service<C, P> {
    var rows: seq<Row<C, P>>
    var events: seq<Event<C, P>>

    function Value(): Tenant<C, P>
      reads this
    {
      Tenant(rows, events)
    }

    constructor ()
      ensures Value() == Tenant([], [])
    {
      rows, events := [], [];
    }

    method RetireCurrent()
      modifies this`rows
      ensures rows == Retired(old(rows))
    {
      var i := 0;
      while i < |rows|
        invariant 0 <= i <= |rows| == |old(rows)|
        invariant forall j :: 0 <= j < i ==> rows[j] == old(rows)[j].(isCurrent := false)
        invariant forall j :: i <= j < |rows| ==> rows[j] == old(rows)[j]
      {
        rows := rows[i := rows[i].(isCurrent := false)];
        i := i + 1;
      }
    }

    method CreateBlueprint(content: C) returns (response: Response)
      modifies this
      ensures Value() == Created(old(Value()), content)
      ensures response == Version(MaxVersion(old(rows)) + 1)
    {
      hide MaxVersion;
      var version := MaxVersion(rows) + 1;
      RetireCurrent();
      rows := rows + [Row(version, true, content, None)];
      events := events + [Event(version - 1, version, content, None)];
      return Version(version);
    }

    method MutateBlueprint(apply: (P, C) -> Option<C>, patch: P) returns (response: Response)
      modifies this
      ensures Value() == Mutated(old(Value()), apply, patch)
      ensures response.NotFound? <==> CurrentIndex(old(rows)) == |old(rows)|
      ensures !response.Version? ==> Value() == old(Value())
      ensures response.Version? ==> |rows| == |old(rows)| + 1 && rows[|rows| - 1].version == response.version
    {
      hide CurrentIndex;
      var n := CurrentIndex(rows);
      if n == |rows| { return NotFound; }
      var prior := rows[n];
      var content := apply(patch, prior.content);
      if content.None? { return PatchFailed; }
      RetireCurrent();
      rows := rows + [Row(prior.version + 1, true, content.value, Some(patch))];
      events := events + [Event(prior.version, prior.version + 1, content.value, Some(patch))];
      return Version(prior.version + 1);
    }
  }

  // ----- every serial history -----

  function History<C, P>(apply: (P, C) -> Option<C>, qs: seq<Request<C, P>>): Tenant<C, P> {
    if qs == [] then Tenant([], []) else Served(History(apply, qs[..|qs| - 1]), apply, qs[|qs| - 1])
  }

  /** The content of the version at `n`, rebuilt from the latest full create by its diffs. */
  function Replay<C, P>(apply: (P, C) -> Option<C>, rows: seq<Row<C, P>>, n: nat): Option<C>
    requires n < |rows|
  {
    match rows[n].diff
    case None => Some(rows[n].content)
    case Some(patch) =>
      if n == 0 then None
      else
        match Replay(apply, rows, n - 1)
        case None => None
        case Some(before) => apply(patch, before)
  }

  ghost predicate Numbered<C, P>(rows: seq<Row<C, P>>) {
    forall i :: 0 <= i < |rows| ==> rows[i].version == i + 1 && (rows[i].isCurrent <==> i == |rows| - 1)
  }

  /** What the event at `i` must start from: where the one before it ended. */
  function Before<C, P>(events: seq<Event<C, P>>, i: nat): nat
    requires i <= |events|
  {
    if i == 0 then 0 else events[i - 1].versionTo
  }

  ghost predicate Chained<C, P>(t: Tenant<C, P>) {
    && |t.events| == |t.rows|
    && forall i :: 0 <= i < |t.events| ==>
        && t.events[i].versionTo == t.rows[i].version && t.events[i].full == t.rows[i].content
        && t.events[i].diff == t.rows[i].diff
        && t.events[i].versionFrom == Before(t.events, i)
  }

  ghost predicate Replayable<C, P>(apply: (P, C) -> Option<C>, rows: seq<Row<C, P>>) {
    forall n :: 0 <= n < |rows| ==> Replay(apply, rows, n) == Some(rows[n].content)
  }

  lemma MaxNumbered<C, P>(rows: seq<Row<C, P>>)
    requires forall i :: 0 <= i < |rows| ==> rows[i].version == i + 1
    ensures MaxVersion(rows) == |rows|
  {
  }

  lemma CurrentIsLast<C, P>(rows: seq<Row<C, P>>)
    requires forall i :: 0 <= i < |rows| ==> (rows[i].isCurrent <==> i == |rows| - 1)
    ensures rows != [] ==> CurrentIndex(rows) == |rows| - 1
  {
    if rows != [] { assert rows[|rows| - 1].isCurrent; }
  }

  /** Replay looks only at the contents and diffs of the rows up to its own. */
  lemma {:induction false} ReplayPrefix<C, P>(apply: (P, C) -> Option<C>, a: seq<Row<C, P>>, b: seq<Row<C, P>>, n: nat)
    requires n < |a| && n < |b|
    requires forall i :: 0 <= i <= n ==> a[i].content == b[i].content && a[i].diff == b[i].diff
    ensures Replay(apply, a, n) == Replay(apply, b, n)
  {
    if a[n].diff.Some? && n > 0 { ReplayPrefix(apply, a, b, n - 1); }
  }

  lemma Extended<C, P>(apply: (P, C) -> Option<C>, t: Tenant<C, P>, last: Row<C, P>, e: Event<C, P>)
    requires Numbered(t.rows) && Chained(t) && Replayable(apply, t.rows)
    requires last.version == |t.rows| + 1 && last.isCurrent
    requires e == Event(|t.rows|, last.version, last.content, last.diff)
    requires last.diff.Some? ==>
      t.rows != [] && apply(last.diff.value, t.rows[|t.rows| - 1].content) == Some(last.content)
    ensures var t' := Tenant(Retired(t.rows) + [last], t.events + [e]);
      Numbered(t'.rows) && Chained(t') && Replayable(apply, t'.rows)
  {
    hide Replay, Replayable, Chained;
    ExtendedReplay(apply, t.rows, last);
    ExtendedChain(t, last, e);
  }

  lemma ExtendedChain<C, P>(t: Tenant<C, P>, last: Row<C, P>, e: Event<C, P>)
    requires Numbered(t.rows) && Chained(t)
    requires last.version == |t.rows| + 1
    requires e == Event(|t.rows|, last.version, last.content, last.diff)
    ensures Chained(Tenant(Retired(t.rows) + [last], t.events + [e]))
  {
    var n, rows, events := |t.rows|, Retired(t.rows) + [last], t.events + [e];
    forall i | 0 <= i < |events|
      ensures events[i].versionTo == rows[i].version && events[i].full == rows[i].content
      ensures events[i].diff == rows[i].diff
      ensures events[i].versionFrom == Before(events, i)
    {
      if i < n {
        assert events[i] == t.events[i];
        assert Before(events, i) == Before(t.events, i);
      } else {
        assert events[i] == e && rows[i] == last;
        assert n > 0 ==> t.events[n - 1].versionTo == t.rows[n - 1].version;
      }
    }
  }

  lemma ExtendedReplay<C, P>(apply: (P, C) -> Option<C>, before: seq<Row<C, P>>, last: Row<C, P>)
    requires Replayable(apply, before)
    requires last.diff.Some? ==>
      before != [] && apply(last.diff.value, before[|before| - 1].content) == Some(last.content)
    ensures Replayable(apply, Retired(before) + [last])
  {
    var rows := Retired(before) + [last];
    forall n | 0 <= n < |rows| ensures Replay(apply, rows, n) == Some(rows[n].content) {
      if n < |before| {
        ReplayPrefix(apply, rows, before, n);
      } else if last.diff.Some? {
        ReplayPrefix(apply, rows, before, n - 1);
      }
    }
  }

  /** Under serial requests the versions are exactly 1..n with only n current, the events chain
      and carry the rows, and every content is rebuilt from the latest full create. */
  lemma {:induction false} HistoryIs<C, P>(apply: (P, C) -> Option<C>, qs: seq<Request<C, P>>)
    ensures var t := History(apply, qs); Numbered(t.rows) && Chained(t) && Replayable(apply, t.rows)
  {
    hide Numbered, Chained, Replayable, Retired;
    if qs == [] {
      EmptyHistory(apply);
    } else {
      var before, q := qs[..|qs| - 1], qs[|qs| - 1];
      HistoryIs(apply, before);
      var t := History(apply, before);
      LastRow(t.rows);
      match q
      case Create(content) =>
        Extended(apply, t, Row(|t.rows| + 1, true, content, None), Event(|t.rows|, |t.rows| + 1, content, None));
      case Mutate(patch) =>
        if t.rows != [] {
          var made := apply(patch, t.rows[|t.rows| - 1].content);
          if made.Some? {
            Extended(apply, t, Row(|t.rows| + 1, true, made.value, Some(patch)),
              Event(|t.rows|, |t.rows| + 1, made.value, Some(patch)));
          }
        }
    }
  }

  lemma LastRow<C, P>(rows: seq<Row<C, P>>)
    requires Numbered(rows)
    ensures MaxVersion(rows) == |rows|
    ensures rows != [] ==> CurrentIndex(rows) == |rows| - 1 && rows[|rows| - 1].version == |rows|
    ensures rows == [] ==> CurrentIndex(rows) == |rows|
  {
    MaxNumbered(rows);
    CurrentIsLast(rows);
  }

  lemma EmptyHistory<C, P>(apply: (P, C) -> Option<C>)
    ensures var t: Tenant<C, P> := Tenant([], []); Numbered(t.rows) && Chained(t) && Replayable(apply, t.rows)
  {
  }

  // ----- what the requests come to -----

  /** What a tenant's blueprint should be after the requests: the last created content with the
      patches since, those that fail left out; nothing before the first create. */
  function Wanted<C, P>(apply: (P, C) -> Option<C>, qs: seq<Request<C, P>>): Option<C> {
    if qs == [] then None
    else
      var before := Wanted(apply, qs[..|qs| - 1]);
      match qs[|qs| - 1]
      case Create(content) => Some(content)
      case Mutate(patch) =>
        if before.Some? && apply(patch, before.value).Some? then apply(patch, before.value) else before
  }

  /** The row differs at most in no longer being the current one. */
  ghost predicate KeepsRows<C, P>(before: seq<Row<C, P>>, after: seq<Row<C, P>>) {
    |before| <= |after| && forall i :: 0 <= i < |before| ==> after[i].(isCurrent := before[i].isCurrent) == before[i]
  }

  /** What one request does to a tenant whose last row is current and has the content `was`. */
  ghost predicate Does<C, P>(apply: (P, C) -> Option<C>, was: Option<C>, t: Tenant<C, P>, q: Request<C, P>,
                             t': Tenant<C, P>, now: Option<C>)
  {
    if q.Create? || (was.Some? && apply(q.patch, was.value).Some?) then
      && |t'.rows| == |t.rows| + 1 && KeepsRows(t.rows, t'.rows) && t.events <= t'.events
      && Some(t'.rows[|t.rows|].content) == now
      && t'.rows[|t.rows|].diff == (if q.Mutate? then Some(q.patch) else None)
    else t' == t
  }

  function LastContent<C, P>(t: Tenant<C, P>): Option<C> {
    if t.rows == [] then None else Some(t.rows[|t.rows| - 1].content)
  }

  lemma ServedDoes<C, P>(apply: (P, C) -> Option<C>, t: Tenant<C, P>, q: Request<C, P>)
    requires t.rows != [] ==> CurrentIndex(t.rows) == |t.rows| - 1
    requires t.rows == [] ==> CurrentIndex(t.rows) == |t.rows|
    ensures var t' := Served(t, apply, q); Does(apply, LastContent(t), t, q, t', LastContent(t'))
    ensures q.Create? ==> LastContent(Served(t, apply, q)) == Some(q.content)
    ensures var was := LastContent(t);
      q.Mutate? && was.Some? && apply(q.patch, was.value).Some? ==>
        LastContent(Served(t, apply, q)) == apply(q.patch, was.value)
  {
    hide CurrentIndex, MaxVersion;
  }

  /** The last row is always the wanted blueprint. A request that does anything adds one row, with
      its patch if it was one, and one event, and changes no content, version or diff of an earlier
      row and no earlier event; a patch without a blueprint, or one that fails, changes nothing. */
  lemma {:induction false} RequestExactly<C, P>(apply: (P, C) -> Option<C>, qs: seq<Request<C, P>>, q: Request<C, P>)
    ensures LastContent(History(apply, qs)) == Wanted(apply, qs)
    ensures Does(apply, Wanted(apply, qs), History(apply, qs), q, History(apply, qs + [q]), Wanted(apply, qs + [q]))
  {
    hide Numbered, Chained, Replayable, Served, Does;
    assert (qs + [q])[..|qs|] == qs;
    if qs == [] {
      StartsEmpty(apply);
    } else {
      assert qs[..|qs| - 1] + [qs[|qs| - 1]] == qs;
      RequestExactly(apply, qs[..|qs| - 1], qs[|qs| - 1]);
      WantedAfter(apply, qs[..|qs| - 1], qs[|qs| - 1]);
    }
    WantedAfter(apply, qs, q);
  }

  lemma StartsEmpty<C, P>(apply: (P, C) -> Option<C>)
    ensures LastContent(History(apply, [])) == Wanted(apply, [])
  {
  }

  lemma WantedAfter<C, P>(apply: (P, C) -> Option<C>, qs: seq<Request<C, P>>, q: Request<C, P>)
    requires LastContent(History(apply, qs)) == Wanted(apply, qs)
    ensures LastContent(History(apply, qs + [q])) == Wanted(apply, qs + [q])
    ensures Does(apply, Wanted(apply, qs), History(apply, qs), q, History(apply, qs + [q]), Wanted(apply, qs + [q]))
  {
    hide Numbered, Chained, Replayable, Served, Does, CurrentIndex;
    assert (qs + [q])[..|qs|] == qs;
    HistoryIs(apply, qs);
    LastRow(History(apply, qs).rows);
    ServedDoes(apply, History(apply, qs), q);
    var was := Wanted(apply, qs);
    if q.Mutate? && (was.None? || apply(q.patch, was.value).None?) { Unchanged(apply, History(apply, qs), q); }
  }

  lemma Unchanged<C, P>(apply: (P, C) -> Option<C>, t: Tenant<C, P>, q: Request<C, P>)
    requires t.rows != [] ==> CurrentIndex(t.rows) == |t.rows| - 1
    requires t.rows == [] ==> CurrentIndex(t.rows) == |t.rows|
    requires q.Mutate? && (LastContent(t).None? || apply(q.patch, LastContent(t).value).None?)
    ensures Served(t, apply, q) == t
  {
    hide CurrentIndex;
  }
}
