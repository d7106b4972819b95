/** What each site of one iteration does, as functions of the turn and the outside answers. */
module SiteSpecs {
  import opened Text
  import opened Tags
  import opened HarnessState

  // ----- sorting the events of a reply -----

  /** The images of the events on which `f` answers, in order. */
  function Pick<T>(es: seq<Event>, f: Event -> Option<T>): (r: seq<T>) {
    if es == [] then []
    else
      var rest := Pick(es[..|es| - 1], f);
      match f(es[|es| - 1]) case None => rest case Some(x) => rest + [x]
  }

  function AsCall(e: Event): Option<Call> { if e.CallEvent? then Some(e.call) else None }

  function AsSay(e: Event): Option<string> { if e.Say? then Some(e.text) else None }

  function AsAsk(e: Event): Option<Ask> { if e.AskEvent? then Some(e.ask) else None }

  function AsRecall(e: Event): Option<string> { if e.Recall? then Some(e.key) else None }

  function AsApproval(e: Event): Option<Approval> {
    if e.RequestApproval? then Some(Approval(ExplicitRequest, e.capability, e.actionLabel, e.payload, None)) else None
  }

  function AsSwarm(e: Event): Option<Swarm> { if e.SwarmEvent? then Some(e.swarm) else None }

  function AsEscalation(e: Event): Option<Event> { if e.Escalate? then Some(e) else None }

  /** A reply's events by kind. */
  datatype Batch = Batch(
    calls: seq<Call>, says: seq<string>, asks: seq<Ask>, recalls: seq<string>, approvals: seq<Approval>,
    swarms: seq<Swarm>, escalations: seq<Event>, hasFinal: bool)

  function BatchOf(es: seq<Event>): Batch {
    Batch(Pick(es, AsCall), Pick(es, AsSay), Pick(es, AsAsk), Pick(es, AsRecall), Pick(es, AsApproval),
      Pick(es, AsSwarm), Pick(es, AsEscalation), Final in es)
  }

  // ----- compaction and the progress digest -----

  const TOKEN_BUDGET := 80_000

  function PartsText(parts: seq<Option<string>>): string {
    if parts == [] then ""
    else PartsText(parts[..|parts| - 1]) + (match parts[|parts| - 1] case None => "" case Some(t) => t)
  }

  /** The text the digest and the estimate see of one message. */
  function ContentText(c: Content): string {
    match c
    case Plain(t) => t
    case Parts(ps) => PartsText(ps)
    case Other => ""
  }

  /** The text that `_context_digest` hashes. */
  function DigestText(msgs: seq<Message>): string {
    if msgs == [] then "" else DigestText(msgs[..|msgs| - 1]) + ContentText(msgs[|msgs| - 1].content)
  }

  function EstimateTokens(msgs: seq<Message>): nat {
    |DigestText(msgs)| / 4
  }

  predicate NeedsCompaction(msgs: seq<Message>) {
    EstimateTokens(msgs) >= TOKEN_BUDGET && |msgs| >= 6
  }

  function SummaryMessage(summary: string): Message {
    Message("user", Plain("<conversation_summary>\n" + Strip(summary) + "\n</conversation_summary>"))
  }

  function Texts(parts: seq<Option<string>>): seq<string> {
    if parts == [] then []
    else Texts(parts[..|parts| - 1]) + (match parts[|parts| - 1] case None => [] case Some(t) => [t])
  }

  /** What the summary is told of one message; nothing if it has no text. */
  function TranscriptLine(m: Message): Option<string> {
    match m.content
    case Plain(t) => Some(m.role + ": " + t)
    case Parts(ps) => if Join(" ", Texts(ps)) == "" then None else Some(m.role + ": " + Join(" ", Texts(ps)))
    case Other => None
  }

  function TranscriptLines(msgs: seq<Message>): seq<string> {
    if msgs == [] then []
    else
      var rest := TranscriptLines(msgs[..|msgs| - 1]);
      match TranscriptLine(msgs[|msgs| - 1]) case None => rest case Some(line) => rest + [line]
  }

  const SUMMARY_INPUT := 24_000

  /** The text that is summarised: all but the last four messages, cut to the model's share. */
  function SummaryInput(msgs: seq<Message>): string
    requires |msgs| >= 4
  {
    Take(Join("\n", TranscriptLines(msgs[..|msgs| - 4])), SUMMARY_INPUT)
  }

  function CompactedMessages(env: Env, k: nat, msgs: seq<Message>): seq<Message> {
    if NeedsCompaction(msgs) then [SummaryMessage(env.world.summary(k, SummaryInput(msgs)))] + msgs[|msgs| - 4..]
    else msgs
  }

  function CompactedTurn(s: Turn, msgs: seq<Message>): Turn {
    if NeedsCompaction(msgs) then Journaled(s, CompactionSite, Ok, Limit(|msgs| - 4, EstimateTokens(msgs)))
    else Journaled(s, CompactionSite, Skip, Amount(EstimateTokens(msgs)))
  }

  // ----- site 1: permission -----

  function ParseRisk(s: string): Option<Risk> {
    if s == "low" then Some(Low) else if s == "medium" then Some(Medium)
    else if s == "high" then Some(High) else if s == "deny" then Some(Deny) else None
  }

  /** Risk of a capability id: the blueprint's valid override, else the table, else medium. */
  function Classify(p: Policy, capability: string): Risk {
    var base := if capability in p.defaultRisk then p.defaultRisk[capability] else Medium;
    if capability in p.riskOverrides && ParseRisk(p.riskOverrides[capability]).Some?
    then ParseRisk(p.riskOverrides[capability]).value else base
  }

  function ClassifyDynamic(t: DynamicTool): Risk {
    match t.riskOverride
    case Some(r) => r
    case None => if t.sideEffect then High else match t.verb case Get => Low case Delete => High case _ => Medium
  }

  predicate KnownCapability(p: Policy, capability: string) {
    capability in p.defaultRisk || capability in p.builtIn
  }

  /** The tenant's callable tools: none without a tenant or a locked connection. */
  function ActiveTools(env: Env, k: nat): map<string, DynamicTool> {
    if HasTenant(env) && env.world.apiLocked(k) then env.world.tools(k) else map[]
  }

  datatype Verdict = Unknown | Disabled | NeedsApproval(kind: ApprovalKind) | Clear(risk: Risk)

  function RiskOf(env: Env, k: nat, name: string): Risk {
    if name in ActiveTools(env, k) then ClassifyDynamic(ActiveTools(env, k)[name]) else Classify(env.policy, name)
  }

  predicate Known(env: Env, k: nat, name: string) {
    KnownCapability(env.policy, name) || name in ActiveTools(env, k)
  }

  function VerdictOf(env: Env, k: nat, c: Call): Verdict {
    if !Known(env, k, c.name) then Unknown
    else
      match RiskOf(env, k, c.name)
      case Deny => Disabled
      case High => NeedsApproval(HighRiskCapability)
      case Medium => if c.name in env.policy.requiresApproval then NeedsApproval(PolicyRequired) else Clear(Medium)
      case Low => Clear(Low)
  }

  /** The index of the first call that needs approval, or the number of calls. */
  function FirstBlocked(env: Env, k: nat, calls: seq<Call>): (n: nat)
    ensures n <= |calls|
    ensures n < |calls| ==> VerdictOf(env, k, calls[n]).NeedsApproval?
    ensures forall i :: 0 <= i < n ==> !VerdictOf(env, k, calls[i]).NeedsApproval?
  {
    if calls == [] || VerdictOf(env, k, calls[0]).NeedsApproval? then 0 else 1 + FirstBlocked(env, k, calls[1..])
  }

  function ClearedOf(env: Env, k: nat, calls: seq<Call>): seq<Call> {
    if calls == [] then []
    else
      var rest, last := ClearedOf(env, k, calls[..|calls| - 1]), calls[|calls| - 1];
      if VerdictOf(env, k, last).Clear? then rest + [last] else rest
  }

  predicate IsDenied(v: Verdict) { v.Unknown? || v.Disabled? }

  /** The calls the gate answers with a denial. */
  function DeniedCalls(env: Env, k: nat, calls: seq<Call>): seq<Call> {
    if calls == [] then []
    else
      var rest, last := DeniedCalls(env, k, calls[..|calls| - 1]), calls[|calls| - 1];
      if IsDenied(VerdictOf(env, k, last)) then rest + [last] else rest
  }

  function DenialOf(env: Env, k: nat, c: Call): Denied {
    Denied(c.name,
      if VerdictOf(env, k, c).Unknown? then "unknown capability: " + c.name else "capability is disabled in v1")
  }

  function Denials(env: Env, k: nat, calls: seq<Call>): (ds: seq<Denied>)
    ensures |ds| == |calls|
  {
    seq(|calls|, i requires 0 <= i < |calls| => DenialOf(env, k, calls[i]))
  }

  datatype GateResult = GateResult(cleared: seq<Call>, denied: seq<Call>, block: Option<Approval>)

  function ApprovalFor(env: Env, kind: ApprovalKind, c: Call): Approval {
    Approval(kind, c.name, env.world.labelFor(c), c.args, c.correlationId)
  }

  /** An explicit request blocks before any call is looked at; otherwise the first call that
      needs approval blocks, after the calls before it were cleared or denied. */
  function GateOf(env: Env, k: nat, calls: seq<Call>, approvals: seq<Approval>): GateResult {
    if approvals != [] then GateResult([], [], Some(approvals[0]))
    else
      var n := FirstBlocked(env, k, calls);
      GateResult(ClearedOf(env, k, calls[..n]), DeniedCalls(env, k, calls[..n]),
        if n < |calls| then Some(ApprovalFor(env, VerdictOf(env, k, calls[n]).kind, calls[n])) else None)
  }

  function SuspendOutcome(kind: ApprovalKind): SiteOutcome {
    match kind
    case ExplicitRequest => SuspendExplicit
    case HighRiskCapability => SuspendHighRisk
    case PolicyRequired => SuspendPolicy
  }

  function CallNames(calls: seq<Call>): (ns: seq<string>)
    ensures |ns| == |calls|
  {
    seq(|calls|, i requires 0 <= i < |calls| => calls[i].name)
  }

  function GatedTurn(env: Env, k: nat, s: Turn, g: GateResult): Turn {
    match g.block
    case Some(a) => Journaled(s.(approval := Some(a)), PermissionSite, SuspendOutcome(a.kind), Capability(a.capability))
    case None => Journaled(s, PermissionSite, Ok, Gated(CallNames(g.cleared), Denials(env, k, g.denied)))
  }

  // ----- site 3: memory verification -----

  /** The answer to the memory claim of the n-th cleared call: None when the call may stay. */
  function Objection(env: Env, k: nat, n: nat, c: Call): Option<string> {
    if c.memoryClaim then env.world.claim(k, n) else None
  }

  function KeptCalls(env: Env, k: nat, cleared: seq<Call>): seq<Call> {
    if cleared == [] then []
    else
      var n := |cleared| - 1;
      var rest := KeptCalls(env, k, cleared[..n]);
      if Objection(env, k, n, cleared[n]).None? then rest + [cleared[n]] else rest
  }

  function RefutedCalls(env: Env, k: nat, cleared: seq<Call>): seq<Call> {
    if cleared == [] then []
    else
      var n := |cleared| - 1;
      var rest := RefutedCalls(env, k, cleared[..n]);
      if Objection(env, k, n, cleared[n]).Some? then rest + [cleared[n]] else rest
  }

  function Correction(c: Call, note: string): Record {
    Record(c.name, c.correlationId, false, None, Some("memory verification failed: " + note))
  }

  function Corrections(env: Env, k: nat, cleared: seq<Call>): seq<Record> {
    if cleared == [] then []
    else
      var n := |cleared| - 1;
      var rest := Corrections(env, k, cleared[..n]);
      match Objection(env, k, n, cleared[n])
      case None => rest
      case Some(note) => rest + [Correction(cleared[n], note)]
  }

  function RecallRecord(env: Env, k: nat, n: nat, key: string): Record {
    Record("recall", Some(key), true, env.world.memory(k, n), None)
  }

  function RecallRecords(env: Env, k: nat, keys: seq<string>): (rs: seq<Record>)
    ensures |rs| == |keys|
  {
    seq(|keys|, i requires 0 <= i < |keys| => RecallRecord(env, k, i, keys[i]))
  }

  function Claims(calls: seq<Call>): nat {
    if calls == [] then 0 else Claims(calls[..|calls| - 1]) + (if calls[|calls| - 1].memoryClaim then 1 else 0)
  }

  /** Whether the site runs at all. */
  predicate Verifies(cleared: seq<Call>, recalls: seq<string>) {
    cleared != [] || recalls != []
  }

  function MemoryTurn(env: Env, k: nat, s: Turn, cleared: seq<Call>, recalls: seq<string>): Turn {
    var corrections := Corrections(env, k, cleared);
    Journaled(s, MemorySite, if corrections == [] then Ok else OkWithCorrections,
      Verified(Claims(cleared), |corrections|, |recalls|))
  }

  // ----- site 2: tools -----

  /** What `_invoke` does with a name: it looks at the built-in capabilities first. */
  datatype Route = TenantMissing | BuiltInCapability | TenantTool | NoSuchTool | NotConfigured

  function RouteOf(env: Env, k: nat, name: string): Route {
    if !HasTenant(env) then TenantMissing
    else if name in env.policy.builtIn then BuiltInCapability
    else if name !in ActiveTools(env, k) then NoSuchTool
    else if !env.world.apiLocked(k) then NotConfigured
    else TenantTool
  }

  /** `_invoke`: the j-th invocation of the iteration. */
  function InvokeResult(env: Env, k: nat, j: nat, c: Call): ToolResult {
    match RouteOf(env, k, c.name)
    case TenantMissing => ToolResult(false, None, Some("capability calls require tenant_id; you are in Veda mode"))
    case BuiltInCapability => env.world.registry(k, j)
    case NoSuchTool => ToolResult(false, None, Some("no such capability or registered tool: " + c.name))
    case NotConfigured => ToolResult(false, None, Some("tenant has no locked api_config \U{2014} tool can't run"))
    case TenantTool =>
      var raw := env.world.endpoint(k, j);
      ToolResult(raw.ok, raw.output, if raw.ok then None else raw.error)
  }

  function RecordOf(c: Call, r: ToolResult): Record {
    Record(c.name, c.correlationId, r.ok, r.output, r.error)
  }

  function DeniedRecord(d: Denied): Record {
    Record(d.call, None, false, None, Some(d.reason))
  }

  function DeniedRecords(ds: seq<Denied>): (rs: seq<Record>)
    ensures |rs| == |ds|
  {
    seq(|ds|, i requires 0 <= i < |ds| => DeniedRecord(ds[i]))
  }

  function Parallel(calls: seq<Call>): seq<Call> {
    if calls == [] then []
    else
      var rest, last := Parallel(calls[..|calls| - 1]), calls[|calls| - 1];
      if last.sideEffect then rest else rest + [last]
  }

  function Sequential(calls: seq<Call>): seq<Call> {
    if calls == [] then []
    else
      var rest, last := Sequential(calls[..|calls| - 1]), calls[|calls| - 1];
      if last.sideEffect then rest + [last] else rest
  }

  function Records(env: Env, k: nat, base: nat, calls: seq<Call>): (rs: seq<Record>)
    ensures |rs| == |calls|
  {
    seq(|calls|, i requires 0 <= i < |calls| => RecordOf(calls[i], InvokeResult(env, k, base + i, calls[i])))
  }

  /** Every side-effecting call is journaled before and after. */
  function ToolEntries(env: Env, k: nat, base: nat, calls: seq<Call>): seq<SiteEntry> {
    if calls == [] then []
    else
      var n := |calls| - 1;
      var r := RecordOf(calls[n], InvokeResult(env, k, base + n, calls[n]));
      ToolEntries(env, k, base, calls[..n])
      + [SiteEntry(ToolsSite, k, Intent, IntentOf(calls[n])),
         SiteEntry(ToolsSite, k, if r.ok then Ok else ToolError, ResultOf(calls[n].name, r))]
  }

  function Invocations(k: nat, calls: seq<Call>): (r: seq<Invocation>)
    ensures |r| == |calls|
  {
    seq(|calls|, i requires 0 <= i < |calls| => Invocation(k, calls[i]))
  }

  function ToolResults(env: Env, k: nat, calls: seq<Call>, denied: seq<Denied>): seq<Record> {
    DeniedRecords(denied) + Records(env, k, 0, Parallel(calls))
    + Records(env, k, |Parallel(calls)|, Sequential(calls))
  }

  function ToolsTurn(env: Env, k: nat, s: Turn, calls: seq<Call>, denied: seq<Denied>): Turn {
    if calls == [] && denied == [] then Journaled(s, ToolsSite, Skip, NoPayload)
    else
      var par, sq := Parallel(calls), Sequential(calls);
      var s1 := s.(
        invoked := s.invoked + Invocations(k, par) + Invocations(k, sq),
        sites := s.sites + ToolEntries(env, k, |par|, sq));
      if sq != [] then s1
      else Journaled(s1, ToolsSite, Ok, CallsOf(CallNames(calls), |denied| + |par|))
  }

  // ----- site 6: swarm -----

  function SwarmRecord(env: Env, k: nat, n: nat, sw: Swarm): Record {
    if sw.agent !in env.policy.agents then
      Record("swarm", Some(sw.agent), false, None, Some("unknown sub-agent: " + sw.agent))
    else
      var r := env.world.agent(k, n);
      Record("swarm", Some(sw.agent), r.ok, r.output, r.error)
  }

  function SwarmRecords(env: Env, k: nat, swarms: seq<Swarm>): (rs: seq<Record>)
    ensures |rs| == |swarms|
  {
    seq(|swarms|, i requires 0 <= i < |swarms| => SwarmRecord(env, k, i, swarms[i]))
  }

  function AgentNames(swarms: seq<Swarm>): (ns: seq<string>)
    ensures |ns| == |swarms|
  {
    seq(|swarms|, i requires 0 <= i < |swarms| => swarms[i].agent)
  }

  function SwarmTurn(s: Turn, swarms: seq<Swarm>): Turn {
    if swarms == [] then Journaled(s, SwarmSite, Skip, NoPayload)
    else Journaled(s, SwarmSite, Ok, CallsOf(AgentNames(swarms), |swarms|))
  }

  // ----- site 4: critic -----

  /** The separators of `str.splitlines`. */
  predicate IsLineBreak(c: char) {
    '\n' <= c <= '\r' || '\U{1c}' <= c <= '\U{1e}' || c == '\U{85}' || c == '\U{2028}' || c == '\U{2029}'
  }

  function FirstLine(s: string): (r: string)
    ensures r <= s
    ensures forall i :: 0 <= i < |r| ==> !IsLineBreak(r[i])
    ensures |r| < |s| ==> IsLineBreak(s[|r|])
  {
    if s == "" || IsLineBreak(s[0]) then "" else [s[0]] + FirstLine(s[1..])
  }

  /** The upper case of a character, as far as comparison with `REVISE` can tell. */
  function UpperOf(c: char): char {
    if 'a' <= c <= 'z' then (c as int - 32) as char
    else if c == '\U{131}' then 'I'
    else if c == '\U{17f}' then 'S'
    else c
  }

  predicate SaysRevise(line: string) {
    |line| >= 6 && forall i :: 0 <= i < 6 ==> UpperOf(line[i]) == "REVISE"[i]
  }

  /** The objection in the reviewing model's answer: only its first line counts. */
  function ReadVerdict(answer: string): Option<string> {
    var line := FirstLine(Strip(answer));
    if !SaysRevise(line) then None
    else
      var n := IndexOf(':', line);
      Some(if n < |line| then Strip(line[n + 1..]) else "unspecified")
  }

  /** The critic's objection to this iteration's draft, if it is asked and has one. */
  function CriticNote(env: Env, k: nat, b: Batch): Option<string> {
    if !env.policy.criticEnabled || (b.says == [] && b.asks == []) then None
    else ReadVerdict(env.world.critic(k))
  }

  function CriticTurn(env: Env, k: nat, s: Turn, b: Batch): Turn {
    if !env.policy.criticEnabled || (b.says == [] && b.asks == []) then Journaled(s, CriticSite, Skip, NoPayload)
    else
      match ReadVerdict(env.world.critic(k))
      case Some(reason) => Journaled(s, CriticSite, Revise, Reason(reason))
      case None => Journaled(s, CriticSite, Ok, NoPayload)
  }

  function CriticRecords(note: Option<string>): seq<Record> {
    match note
    case None => []
    case Some(reason) =>
      [Record("critic", None, false, None, Some("reviewer flagged this draft: " + reason + ". Revise or escalate."))]
  }

  // ----- accumulation -----

  function NonEmpty(texts: seq<string>): seq<string> {
    if texts == [] then []
    else
      var rest, last := NonEmpty(texts[..|texts| - 1]), texts[|texts| - 1];
      if last != "" then rest + [last] else rest
  }

  function Accumulated(s: Turn, b: Batch): Turn {
    var s1 := s.(says := s.says + NonEmpty(b.says));
    if b.asks == [] then s1
    else
      var a := b.asks[|b.asks| - 1];
      s1.(ask := Some(AskDraft(a.bodyText, a.buttons, a.items)))
  }

  // ----- site 7: output -----

  function ClipItem(it: ListItem): ListItem { it.(title := Take(it.title, 24)) }

  function ClipButton(b: Button): Button { b.(title := Take(b.title, 20)) }

  function ClipItems(items: seq<ListItem>): (r: seq<ListItem>)
    ensures |r| == |items|
  {
    seq(|items|, i requires 0 <= i < |items| => ClipItem(items[i]))
  }

  function ClipButtons(bs: seq<Button>): (r: seq<Button>)
    ensures |r| == |bs|
  {
    seq(|bs|, i requires 0 <= i < |bs| => ClipButton(bs[i]))
  }

  /** The message for what was said and asked: the last ask if there is one, else what was
      said, one line each, else nothing. */
  function MessageOf(said: seq<string>, asks: seq<Ask>): Option<Outbound> {
    if asks != [] then
      var a := asks[|asks| - 1];
      if a.items != [] then Some(ListMessage(a.bodyText, a.buttonText, a.sectionTitle, ClipItems(Take(a.items, 10))))
      else Some(ButtonsMessage(a.bodyText, ClipButtons(Take(a.buttons, 3))))
    else if said == [] then None else Some(TextMessage(Join("\n", said)))
  }

  /** `_build_outbound`: empty texts do not count as said. */
  function OutboundOf(says: seq<string>, asks: seq<Ask>): Option<Outbound> {
    MessageOf(NonEmpty(says), asks)
  }

  datatype Ask7 = Ask7(
    says: seq<string>, asks: seq<Ask>, hasFinal: bool, cleared: seq<Call>, swarms: seq<Swarm>, blocked: bool,
    iteration: int, elapsedMs: int, costPaise: int)

  /** Which way the output site goes. */
  datatype Decision = Suspend | CapIterations | CapWallclock | CapCost | Explicit | Implicit | Again

  function DecisionOf(caps: Caps, q: Ask7): Decision {
    if q.blocked then Suspend
    else if q.iteration >= caps.maxIterations then CapIterations
    else if q.elapsedMs >= caps.maxWallclockMs then CapWallclock
    else if q.costPaise >= caps.maxCostPaise then CapCost
    else if q.hasFinal then Explicit
    else if q.cleared == [] && q.swarms == [] && (q.says != [] || q.asks != []) then Implicit
    else Again
  }

  function DecidedOutcome(d: Decision): TurnOutcome {
    match d
    case Suspend => SuspendPermission
    case CapIterations => Expire
    case CapWallclock => Expire
    case CapCost => Expire
    case Explicit => Finalize
    case Implicit => Finalize
    case Again => Iterate
  }

  function DecidedTurn(caps: Caps, s: Turn, q: Ask7): Turn {
    var sent := s.(outbound := OutboundOf(q.says, q.asks));
    match DecisionOf(caps, q)
    case Suspend => Journaled(s.(outcome := SuspendPermission), OutputSite, Forced(SuspendPermission), NoPayload)
    case CapIterations =>
      Journaled(sent.(outcome := Expire), OutputSite, ExpireIterations, Limit(q.iteration, caps.maxIterations))
    case CapWallclock =>
      Journaled(sent.(outcome := Expire), OutputSite, ExpireWallclock, Limit(q.elapsedMs, caps.maxWallclockMs))
    case CapCost =>
      Journaled(sent.(outcome := Expire), OutputSite, ExpireCost, Limit(q.costPaise, caps.maxCostPaise))
    case Explicit => Journaled(sent.(outcome := Finalize), OutputSite, FinalizeExplicit, Amount(|q.says|))
    case Implicit => Journaled(sent.(outcome := Finalize), OutputSite, FinalizeImplicit, Amount(|q.says|))
    case Again =>
      Journaled(s.(outcome := Iterate), OutputSite, Iterated, CallsOf(CallNames(q.cleared), |q.swarms|))
  }

  // ----- feedback -----

  function RenderRecord(w: World, r: Record): string {
    "<tool_result>\n" + w.dumps(r) + "\n</tool_result>"
  }

  function Rendered(w: World, rs: seq<Record>): (blocks: seq<string>)
    ensures |blocks| == |rs|
  {
    seq(|rs|, i requires 0 <= i < |rs| => RenderRecord(w, rs[i]))
  }

  /** The messages of the next iteration. */
  function NextMessages(w: World, msgs: seq<Message>, text: string, feedback: seq<Record>): seq<Message> {
    var m1 := msgs + [Message("assistant", Plain(text))];
    if feedback == [] then m1 else m1 + [Message("user", Plain(Join("\n", Rendered(w, feedback))))]
  }
}
