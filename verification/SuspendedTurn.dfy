/** Saving a suspended turn and loading it again for its thread. */
module SuspendedTurn {
  import opened Text
  import opened HarnessState
  import opened LoopSpec
  import Runs

  // ----- the stored document -----

  datatype Meta =
    Meta(turnId: string, tenant: Option<string>, thread: Option<string>, principal: string, startedAt: int)

  /** A journal entry as stored: the site by its text. */
  datatype StoredEntry = StoredEntry(site: string, iteration: nat, outcome: SiteOutcome, payload: Payload)

  /** The document, key by key. */
  datatype Doc = Doc(
    turnId: string,
    tenantId: Option<string>,
    threadId: Option<string>,
    principalId: string,
    startedAt: int,
    iteration: nat,
    outcome: string,
    terminationCode: Option<TerminationCode>,
    modelCalls: seq<ModelCall>,
    sites: seq<StoredEntry>,
    accumulatedSay: seq<string>,
    accumulatedAsk: Option<AskDraft>,
    pendingApproval: Option<Approval>,
    finalOutbound: Option<Outbound>,
    totalCostPaise: int,
    totalWallclockMs: int,
    lastContextDigest: Option<string>,
    noProgressStreak: nat)

  /** A turn with the identifiers it is stored under. */
  datatype Suspended = Suspended(meta: Meta, turn: Turn)

  function SiteText(s: SiteName): string {
    match s
    case PermissionSite => "site1_permission"
    case ToolsSite => "site2_tools"
    case MemorySite => "site3_memory_verify"
    case CriticSite => "site4_critic"
    case CompactionSite => "site5_compaction"
    case SwarmSite => "site6_swarm"
    case OutputSite => "site7_output"
  }

  function ParseSite(t: string): SiteName {
    if t == "site1_permission" then PermissionSite
    else if t == "site2_tools" then ToolsSite
    else if t == "site3_memory_verify" then MemorySite
    else if t == "site4_critic" then CriticSite
    else if t == "site5_compaction" then CompactionSite
    else if t == "site6_swarm" then SwarmSite
    else OutputSite
  }

  function OutcomeText(o: TurnOutcome): string {
    match o
    case Pending => "pending"
    case Iterate => "iterate"
    case Finalize => "finalize"
    case Fail => "fail"
    case Cancel => "cancel"
    case Expire => "expire"
    case SuspendPermission => "suspended_at_permission"
    case SuspendExternal => "suspended_at_external"
    case SuspendSwarm => "suspended_at_swarm"
    case SuspendCritic => "suspended_at_critic"
  }

  function ParseOutcome(t: string): TurnOutcome {
    if t == "pending" then Pending
    else if t == "iterate" then Iterate
    else if t == "finalize" then Finalize
    else if t == "fail" then Fail
    else if t == "cancel" then Cancel
    else if t == "expire" then Expire
    else if t == "suspended_at_permission" then SuspendPermission
    else if t == "suspended_at_external" then SuspendExternal
    else if t == "suspended_at_swarm" then SuspendSwarm
    else SuspendCritic
  }

  const SUSPENDED := ["suspended_at_permission", "suspended_at_external", "suspended_at_swarm", "suspended_at_critic"]

  function StoreEntry(e: SiteEntry): StoredEntry { StoredEntry(SiteText(e.site), e.iteration, e.outcome, e.payload) }

  function LoadEntry(e: StoredEntry): SiteEntry { SiteEntry(ParseSite(e.site), e.iteration, e.outcome, e.payload) }

  function StoreEntries(es: seq<SiteEntry>): (r: seq<StoredEntry>)
    ensures |r| == |es|
  {
    seq(|es|, i requires 0 <= i < |es| => StoreEntry(es[i]))
  }

  function LoadEntries(es: seq<StoredEntry>): (r: seq<SiteEntry>)
    ensures |r| == |es|
  {
    seq(|es|, i requires 0 <= i < |es| => LoadEntry(es[i]))
  }

  /** The document before its outcome and its sites are turned into texts; the invocation
      history is not stored. */
  function DocWith(meta: Meta, t: Turn, sites: seq<StoredEntry>): Doc {
    Doc(meta.turnId, meta.tenant, meta.thread, meta.principal, meta.startedAt, t.iteration, OutcomeText(t.outcome),
      t.code, t.modelCalls, sites, t.says, t.ask, t.approval, t.outbound, t.costPaise, t.wallclockMs,
      t.digest, t.streak)
  }

  function DocOf(meta: Meta, t: Turn): Doc {
    DocWith(meta, t, StoreEntries(t.sites))
  }

  /** The turn built from a document: the termination code, the progress digest and the
      streak are not read and stay at their defaults. */
  function Restore(d: Doc): Suspended {
    Suspended(
      Meta(d.turnId, d.tenantId, d.threadId, d.principalId, d.startedAt),
      FRESH_TURN.(
        iteration := d.iteration,
        outcome := ParseOutcome(d.outcome),
        modelCalls := d.modelCalls,
        sites := LoadEntries(d.sites),
        says := d.accumulatedSay,
        ask := d.accumulatedAsk,
        approval := d.pendingApproval,
        outbound := d.finalOutbound,
        costPaise := d.totalCostPaise,
        wallclockMs := d.totalWallclockMs))
  }

  // ----- the store -----

  predicate Pends(d: Doc, thread: string) {
    d.threadId == Some(thread) && d.outcome in SUSPENDED
  }

  /** What `find_one` sorted by start, newest first, may return. */
  ghost predicate MayLoad(docs: map<string, Doc>, thread: string, r: Option<Doc>) {
    match r
    case None => forall id :: id in docs ==> !Pends(docs[id], thread)
    case Some(d) =>
      && (exists id :: id in docs && docs[id] == d)
      && Pends(d, thread)
      && forall id :: id in docs && Pends(docs[id], thread) ==> docs[id].startedAt <= d.startedAt
  }

  class Store {
    var docs: map<string, Doc>

    constructor ()
      ensures docs == map[]
    {
      docs := map[];
    }

    /** `save_state`: an upsert by turn id. */
    method Save(meta: Meta, t: Turn)
      modifies this
      ensures docs == old(docs)[meta.turnId := DocOf(meta, t)]
    {
      var sites: seq<StoredEntry> := [];
      for i := 0 to |t.sites|
        invariant sites == StoreEntries(t.sites)[..i]
        invariant docs == old(docs)
      {
        sites := sites + [StoreEntry(t.sites[i])];
      }
      assert sites == StoreEntries(t.sites);
      docs := docs[meta.turnId := DocWith(meta, t, sites)];
    }
  }

  /** What is stored but not read back: how the turn ended and how far it was from stalling. */
  lemma StoredNotLoaded(meta: Meta, t: Turn)
    ensures var d := DocOf(meta, t);
      && d.terminationCode == t.code && d.lastContextDigest == t.digest && d.noProgressStreak == t.streak
      && Restore(d).turn.code == None && Restore(d).turn.digest == None && Restore(d).turn.streak == 0
  {
    hide ParseSite, SiteText, OutcomeText, ParseOutcome, LoadEntries, StoreEntries;
  }

  // ----- the round trip -----

  lemma TextsParse(o: TurnOutcome, s: SiteName)
    ensures ParseOutcome(OutcomeText(o)) == o && ParseSite(SiteText(s)) == s
  {
  }

  lemma EntriesBack(es: seq<SiteEntry>)
    ensures LoadEntries(StoreEntries(es)) == es
  {
    hide ParseSite, SiteText, OutcomeText, ParseOutcome;
    forall i | 0 <= i < |es| ensures LoadEntry(StoreEntry(es[i])) == es[i] {
      TextsParse(Pending, es[i].site);
    }
  }

  lemma RestoreIs(meta: Meta, t: Turn)
    ensures Restore(DocOf(meta, t)) == Suspended(meta, t.(code := None, digest := None, streak := 0, invoked := []))
  {
    hide ParseSite, SiteText, OutcomeText, ParseOutcome, LoadEntries, StoreEntries;
    TextsParse(t.outcome, OutputSite);
    EntriesBack(t.sites);
  }

  /** Strictly newer than every other suspended turn of the thread. */
  ghost predicate Newest(docs: map<string, Doc>, meta: Meta, thread: string) {
    forall id :: id in docs && id != meta.turnId && Pends(docs[id], thread) ==> docs[id].startedAt < meta.startedAt
  }

  /** Documents are stored under their own turn id. */
  ghost predicate Keyed(docs: map<string, Doc>) {
    forall id :: id in docs ==> docs[id].turnId == id
  }

  lemma SuspendedPends(meta: Meta, t: Turn, thread: string)
    requires t.outcome == SuspendPermission
    ensures Pends(DocOf(meta, t), thread) <==> meta.thread == Some(thread)
  {
    hide StoreEntries;
    assert SUSPENDED[0] == "suspended_at_permission";
  }

  /** A suspended turn of a run comes back with everything but the progress counters, and
      every load finds it exactly when it is the newest suspended turn of its thread. */
  lemma SuspendedRoundTrip(env: Env, docs: map<string, Doc>, meta: Meta, thread: string)
    requires Result(env).outcome == SuspendPermission && meta.thread == Some(thread) && Keyed(docs)
    ensures var saved := docs[meta.turnId := DocOf(meta, Result(env))];
      && Restore(DocOf(meta, Result(env)))
        == Suspended(meta, Result(env).(digest := None, streak := 0, invoked := []))
      && ((forall r :: MayLoad(saved, thread, r) ==> r == Some(DocOf(meta, Result(env))))
        <==> Newest(docs, meta, thread))
  {
    hide Result, DocOf, Restore;
    Runs.OutcomeExact(env);
    RestoreIs(meta, Result(env));
    SuspendedPends(meta, Result(env), thread);
    DocMeta(meta, Result(env));
    var doc := DocOf(meta, Result(env));
    LoadsExactly(docs, meta, doc, thread);
  }

  lemma DocMeta(meta: Meta, t: Turn)
    ensures DocOf(meta, t).turnId == meta.turnId && DocOf(meta, t).startedAt == meta.startedAt
  {
    hide StoreEntries, OutcomeText;
  }

  /** A finite nonempty set of suspended documents has a newest one. */
  lemma {:induction false} NewestExists(docs: map<string, Doc>, ids: set<string>, thread: string) returns (best: string)
    requires ids != {} && forall id :: id in ids ==> id in docs && Pends(docs[id], thread)
    ensures best in ids && forall id :: id in ids ==> docs[id].startedAt <= docs[best].startedAt
  {
    best :| best in ids;
    if ids != {best} {
      var rest := NewestExists(docs, ids - {best}, thread);
      if docs[rest].startedAt > docs[best].startedAt { best := rest; }
    }
  }

  lemma LoadsExactly(docs: map<string, Doc>, meta: Meta, doc: Doc, thread: string)
    requires doc.turnId == meta.turnId && doc.startedAt == meta.startedAt && Pends(doc, thread) && Keyed(docs)
    ensures var saved := docs[meta.turnId := doc];
      (forall r :: MayLoad(saved, thread, r) ==> r == Some(doc)) <==> Newest(docs, meta, thread)
  {
    hide Pends;
    var saved := docs[meta.turnId := doc];
    assert saved[meta.turnId] == doc;
    if Newest(docs, meta, thread) {
      forall r | MayLoad(saved, thread, r) ensures r == Some(doc) {
        if r.Some? {
          var id :| id in saved && saved[id] == r.value;
          assert id == meta.turnId;
        }
      }
    } else {
      var id :| id in docs && id != meta.turnId && Pends(docs[id], thread) && docs[id].startedAt >= meta.startedAt;
      var others := set i | i in docs && i != meta.turnId && Pends(docs[i], thread);
      assert id in others;
      var best := NewestExists(docs, others, thread);
      assert saved[best] == docs[best] && best in saved;
      assert MayLoad(saved, thread, Some(saved[best]));
      assert saved[best].turnId == best;
    }
  }
}
