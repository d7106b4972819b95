/** The durable state of one turn, its journal, and what a turn is given. */
module HarnessState {
  import opened Text
  import opened Tags

  datatype SiteName = PermissionSite | ToolsSite | MemorySite | CriticSite | CompactionSite | SwarmSite | OutputSite

  datatype TurnOutcome =
    | Pending | Iterate | Finalize | Fail | Cancel | Expire
    | SuspendPermission | SuspendExternal | SuspendSwarm | SuspendCritic

  datatype TerminationCode =
    | ModelEmittedFinalAnswer | IterationBudgetReachedWithAnswer
    | CriticEscalated | InternalError | IterationDeadlineExceeded | ModelOutputAmbiguous
    | LoopMaxIterations | LoopMaxActions | LoopNoProgress | TaskDeadlineExceeded | BudgetExceeded

  /** The `outcome` text of a journal entry. */
  datatype SiteOutcome =
    | Skip | Ok | OkWithCorrections | Intent | ToolError | Revise
    | SuspendExplicit | SuspendHighRisk | SuspendPolicy
    | Forced(outcome: TurnOutcome)
    | ExpireIterations | ExpireWallclock | ExpireCost | ExpireNoProgress | ExpireActions
    | FailCall(error: string) | FailDeadline | FailAmbiguous
    | FinalizeExplicit | FinalizeImplicit | Iterated

  /** A tool result as fed back to the model. */
  datatype Record = Record(call: string, id: Option<string>, ok: bool, output: Option<string>, error: Option<string>)

  datatype Denied = Denied(call: string, reason: string)

  datatype Payload =
    | NoPayload
    | Amount(amount: int)
    | Limit(value: int, limit: int)
    | Capability(capability: string)
    | Gated(cleared: seq<string>, denied: seq<Denied>)
    | Verified(verified: nat, corrected: nat, recalls: nat)
    | IntentOf(call: Call)
    | ResultOf(resultCapability: string, record: Record)
    | CallsOf(calls: seq<string>, results: nat)
    | Reason(reason: string)

  datatype SiteEntry = SiteEntry(site: SiteName, iteration: nat, outcome: SiteOutcome, payload: Payload)

  datatype ModelCall = ModelCall(iteration: nat, model: string, tokens: int, costPaise: int, text: string)

  datatype ApprovalKind = ExplicitRequest | HighRiskCapability | PolicyRequired

  datatype Approval =
    Approval(
      kind: ApprovalKind, capability: string, actionLabel: string, payload: string, correlationId: Option<string>)

  /** `accumulated_ask`: it is written but never read by the loop. */
  datatype AskDraft = AskDraft(bodyText: string, buttons: seq<Button>, items: seq<ListItem>)

  datatype Outbound =
    | TextMessage(text: string)
    | ListMessage(bodyText: string, buttonText: string, sectionTitle: string, items: seq<ListItem>)
    | ButtonsMessage(bodyText: string, buttons: seq<Button>)

  /** A call that was handed to `_invoke`, and in which iteration. */
  datatype Invocation = Invocation(iteration: nat, call: Call)

  /** The value of a turn's state. `invoked` is a history the source does not store. */
  datatype Turn = Turn(
    iteration: nat,
    outcome: TurnOutcome,
    code: Option<TerminationCode>,
    modelCalls: seq<ModelCall>,
    sites: seq<SiteEntry>,
    says: seq<string>,
    ask: Option<AskDraft>,
    approval: Option<Approval>,
    outbound: Option<Outbound>,
    costPaise: int,
    wallclockMs: int,
    digest: Option<string>,
    streak: nat,
    invoked: seq<Invocation>)

  const FRESH_TURN: Turn := Turn(0, Pending, None, [], [], [], None, None, None, 0, 0, None, 0, [])

  // ----- what a turn is given -----

  datatype Content = Plain(text: string) | Parts(parts: seq<Option<string>>) | Other

  datatype Message = Message(role: string, content: Content)

  datatype Caps = Caps(
    maxIterations: int, maxWallclockMs: int, maxIterationWallclockMs: int, maxCostPaise: int,
    maxActionsPerIteration: int, maxTotalActions: int, maxNoProgress: int, maxHistory: int)

  datatype Risk = Low | Medium | High | Deny

  datatype HttpMethod = Get | Post | Put | Patch | Delete

  datatype DynamicTool = DynamicTool(riskOverride: Option<Risk>, sideEffect: bool, verb: HttpMethod)

  /** The capability tables and the blueprint's policies. */
  datatype Policy = Policy(
    builtIn: set<string>,
    defaultRisk: map<string, Risk>,
    riskOverrides: map<string, string>,
    requiresApproval: set<string>,
    criticEnabled: bool,
    agents: set<string>,
    escalationMessage: Option<string>)

  datatype ToolResult = ToolResult(ok: bool, output: Option<string>, error: Option<string>)

  datatype Reply = CallFailed(error: string) | Replied(text: string, model: string, tokens: int, costPaise: int)

  /** Everything outside the harness, as arbitrary total answers: by iteration, and by
      position within the iteration where a site asks more than once. */
  datatype World = World(
    reply: nat -> Reply,
    iterationMs: nat -> int,
    elapsedMs: nat -> int,
    tools: nat -> map<string, DynamicTool>,
    apiLocked: nat -> bool,
    claim: (nat, nat) -> Option<string>,
    memory: (nat, nat) -> Option<string>,
    registry: (nat, nat) -> ToolResult,
    endpoint: (nat, nat) -> ToolResult,
    agent: (nat, nat) -> ToolResult,
    critic: nat -> string,
    summary: (nat, string) -> string,
    labelFor: Call -> string,
    dumps: Record -> string)

  datatype Env = Env(
    caps: Caps,
    tenant: Option<string>,
    userText: string,
    history: seq<Message>,
    policy: Policy,
    letters: set<char>,
    world: World)

  /** Python truth of an optional identifier. */
  predicate HasTenant(env: Env) {
    env.tenant.Some? && env.tenant.value != ""
  }

  // ----- the mutable object -----

  class State {
    var iteration: nat
    var outcome: TurnOutcome
    var code: Option<TerminationCode>
    var modelCalls: seq<ModelCall>
    var sites: seq<SiteEntry>
    var says: seq<string>
    var ask: Option<AskDraft>
    var approval: Option<Approval>
    var outbound: Option<Outbound>
    var costPaise: int
    var wallclockMs: int
    var digest: Option<string>
    var streak: nat
    ghost var invoked: seq<Invocation>

    ghost function Snapshot(): Turn
      reads this
    {
      Turn(iteration, outcome, code, modelCalls, sites, says, ask, approval, outbound, costPaise, wallclockMs,
        digest, streak, invoked)
    }

    constructor ()
      ensures Snapshot() == FRESH_TURN
    {
      iteration, outcome, code := 0, Pending, None;
      modelCalls, sites, says := [], [], [];
      ask, approval, outbound := None, None, None;
      costPaise, wallclockMs, digest, streak := 0, 0, None, 0;
      invoked := [];
    }

    method AppendSite(site: SiteName, entryOutcome: SiteOutcome, payload: Payload)
      modifies this`sites
      ensures Snapshot() == Journaled(old(Snapshot()), site, entryOutcome, payload)
    {
      sites := sites + [SiteEntry(site, iteration, entryOutcome, payload)];
    }

    method Terminate(final: TurnOutcome, reason: TerminationCode)
      modifies this`outcome, this`code
      ensures Snapshot() == old(Snapshot()).(outcome := final, code := Some(reason))
    {
      outcome := final;
      code := Some(reason);
    }
  }

  /** The turn with one more journal entry, stamped with the turn's iteration. */
  function Journaled(s: Turn, site: SiteName, outcome: SiteOutcome, payload: Payload): Turn {
    s.(sites := s.sites + [SiteEntry(site, s.iteration, outcome, payload)])
  }
}
