/** The 24-hour window of a WhatsApp customer: an expiring key refreshed by inbound messages,
    consulted before each free-form send. Times are in milliseconds. */
module Window {
  import opened Text

  const DAY := 86_400_000

  /** A customer's phone number, as one project of one tenant sees it. */
  datatype Customer = Customer(tenant: string, project: string, phone: string)

  datatype Message = Message(sender: string, phone: string)

  /** A webhook notification; an absent topic is the empty one. */
  datatype Note = Note(id: string, topic: string, hasData: bool, message: Option<Message>)

  /** The credentials a lookup found for the notification's project or the message's tenant. */
  datatype Creds = Creds(tenant: string, project: string)

  datatype Content = Template(text: string) | FreeForm(text: string)

  /** An outbound message; an absent tenant is the empty one. */
  datatype Outbound = Outbound(tenant: string, target: string, content: Content, requiresWindowCheck: bool)

  /** One processed inbound message. */
  datatype Inbound = Inbound(id: string, customer: Customer, at: nat)

  /** One message handed to the adapter: what the sender was asked to send, and what it handed over. */
  datatype Handed = Handed(msg: Outbound, creds: Option<Creds>, content: Content, at: nat)

  datatype System = System(now: nat, keys: map<string, nat>, log: seq<Inbound>, handed: seq<Handed>)

  /** `tenant` and `creds` are what the credential lookups returned, `translated` whether the
      content was understood, `template` the approved template with its values filled in. */
  datatype Action =
    | Tick(ms: nat)
    | Receive(note: Note, tenant: Option<Creds>, translated: bool)
    | Send(msg: Outbound, creds: Option<Creds>, template: Option<string>)

  // ----- keys -----

  function TenantKey(tenant: string, parts: seq<string>): string {
    Join(":", ["tenant", tenant] + parts)
  }

  function WindowKey(c: Customer): string {
    TenantKey(c.tenant, ["window", c.project, c.phone])
  }

  function ClaimKey(id: string): string { "global:idempotency:aisensy:" + id }

  predicate ColonFree(s: string) { ':' !in s }

  lemma JoinCons(part: string, parts: seq<string>)
    requires parts != []
    ensures Join(":", [part] + parts) == part + ":" + Join(":", parts)
  {
    assert ([part] + parts)[1..] == parts;
  }

  lemma JoinOne(part: string)
    ensures Join(":", [part]) == part
  {
  }

  lemma WindowKeyIs(c: Customer)
    ensures WindowKey(c) == "tenant:" + (c.tenant + ":" + ("window:" + (c.project + ":" + c.phone)))
  {
    hide Join;
    assert ["tenant", c.tenant] + ["window", c.project, c.phone]
      == ["tenant"] + ([c.tenant] + (["window"] + ([c.project] + [c.phone])));
    JoinCons("tenant", [c.tenant] + (["window"] + ([c.project] + [c.phone])));
    JoinCons(c.tenant, ["window"] + ([c.project] + [c.phone]));
    JoinCons("window", [c.project] + [c.phone]);
    JoinCons(c.project, [c.phone]);
    JoinOne(c.phone);
    assert "window" + ":" == "window:" && "tenant" + ":" == "tenant:";
  }

  /** A colon-free text is recovered from what it was joined with. */
  lemma CutAtColon(a: string, x: string, b: string, y: string)
    requires ColonFree(a) && ColonFree(b) && a + ":" + x == b + ":" + y
    ensures a == b && x == y
  {
    var s, t := a + ":" + x, b + ":" + y;
    assert s[|a|] == ':' && t[|b|] == ':';
    assert |a| == |b|;
    assert a == s[..|a|] && b == t[..|b|] && x == s[|a| + 1..] && y == t[|b| + 1..];
  }

  lemma SamePrefix(p: string, x: string, y: string)
    requires p + x == p + y
    ensures x == y
  {
    assert x == (p + x)[|p|..] && y == (p + y)[|p|..];
  }

  /** A colon-free text is recovered from the end of what it was joined with. */
  lemma CutAtLastColon(x: string, a: string, y: string, b: string)
    requires ColonFree(a) && ColonFree(b) && x + ":" + a == y + ":" + b
    ensures a == b && x == y
  {
    var s, t := x + ":" + a, y + ":" + b;
    assert s[|x|] == ':' && t[|y|] == ':';
    assert |x| == |y|;
    assert x == s[..|x|] && y == t[..|y|] && a == s[|x| + 1..] && b == t[|y| + 1..];
  }

  /** The window key up to the phone number. */
  function Header(tenant: string, project: string): string {
    "tenant:" + (tenant + ":" + ("window:" + (project + ":")))
  }

  lemma KeyFromHeader(c: Customer)
    ensures WindowKey(c) == Header(c.tenant, c.project) + c.phone
  {
    WindowKeyIs(c);
  }

  /** Two accounts can share a window key, for some phone numbers, if and only if the header of one
      begins with the header of the other. */
  lemma HeadersMeet(t: string, p: string, t': string, p': string)
    ensures (exists x, y :: WindowKey(Customer(t, p, x)) == WindowKey(Customer(t', p', y)))
      <==> Header(t, p) <= Header(t', p') || Header(t', p') <= Header(t, p)
  {
    hide WindowKey, Header;
    var h, h' := Header(t, p), Header(t', p');
    forall x, y
      ensures WindowKey(Customer(t, p, x)) == h + x && WindowKey(Customer(t', p', y)) == h' + y
    {
      KeyFromHeader(Customer(t, p, x));
      KeyFromHeader(Customer(t', p', y));
    }
    if x, y :| WindowKey(Customer(t, p, x)) == WindowKey(Customer(t', p', y)) {
      assert h + x == h' + y;
      if |h| <= |h'| { assert h == (h' + y)[..|h|] == h'[..|h|]; } else { assert h' == (h + x)[..|h'|] == h[..|h'|]; }
    }
    if h <= h' {
      assert h + h'[|h|..] == h' + "";
      assert WindowKey(Customer(t, p, h'[|h|..])) == WindowKey(Customer(t', p', ""));
    }
    if h' <= h {
      assert h' + h[|h'|..] == h + "";
      assert WindowKey(Customer(t, p, "")) == WindowKey(Customer(t', p', h[|h'|..]));
    }
  }

  /** The customers of the accounts whose ids hold no colon, whatever is in the phone numbers. */
  ghost const PLAIN_PROJECTS: iset<Customer> := iset c: Customer | ColonFree(c.tenant) && ColonFree(c.project)

  /** The customers whose phone numbers hold no colon, whatever is in the project ids. */
  ghost const PLAIN_PHONES: iset<Customer> := iset c: Customer | ColonFree(c.tenant) && ColonFree(c.phone)

  lemma TenantsAgree(a: Customer, b: Customer)
    requires ColonFree(a.tenant) && ColonFree(b.tenant) && WindowKey(a) == WindowKey(b)
    ensures a.tenant == b.tenant && a.project + ":" + a.phone == b.project + ":" + b.phone
  {
    hide Join, TenantKey, WindowKey;
    WindowKeyIs(a);
    WindowKeyIs(b);
    var x, y := "window:" + (a.project + ":" + a.phone), "window:" + (b.project + ":" + b.phone);
    SamePrefix("tenant:", a.tenant + ":" + x, b.tenant + ":" + y);
    CutAtColon(a.tenant, x, b.tenant, y);
    SamePrefix("window:", a.project + ":" + a.phone, b.project + ":" + b.phone);
  }

  /** No two customers of the set share a key. */
  ghost predicate Apart(customers: iset<Customer>) {
    forall a, b :: a in customers && b in customers && WindowKey(a) == WindowKey(b) ==> a == b
  }

  /** Keys tell customers apart when tenant ids hold no colon and either no project id does or no
      phone number does. */
  lemma KeysApart()
    ensures Apart(PLAIN_PROJECTS) && Apart(PLAIN_PHONES)
  {
    hide WindowKey, ColonFree;
    forall a, b | WindowKey(a) == WindowKey(b) && ColonFree(a.tenant) && ColonFree(b.tenant)
      ensures ColonFree(a.project) && ColonFree(b.project) ==> a == b
      ensures ColonFree(a.phone) && ColonFree(b.phone) ==> a == b
    {
      TenantsAgree(a, b);
      if ColonFree(a.project) && ColonFree(b.project) { CutAtColon(a.project, a.phone, b.project, b.phone); }
      if ColonFree(a.phone) && ColonFree(b.phone) { CutAtLastColon(a.project, a.phone, b.project, b.phone); }
    }
  }

  const TALKER := Customer("t", "p:q", "r")
  const STRANGER := Customer("t", "p", "q:r")

  /** It is not enough that each customer has a plain project id or a plain phone number. */
  lemma KeysCollide()
    ensures TALKER != STRANGER && WindowKey(TALKER) == WindowKey(STRANGER)
    ensures TALKER in PLAIN_PHONES && STRANGER in PLAIN_PROJECTS
  {
    WindowKeyIs(TALKER);
    WindowKeyIs(STRANGER);
    assert TALKER.project + ":" + TALKER.phone == "p:q:r" == STRANGER.project + ":" + STRANGER.phone;
  }

  lemma ClaimsApart(i: string, j: string, c: Customer)
    ensures ClaimKey(i) == ClaimKey(j) ==> i == j
    ensures ClaimKey(i) != WindowKey(c)
  {
    WindowKeyIs(c);
    assert ClaimKey(i)[0] == 'g' && WindowKey(c)[0] == 't';
    if ClaimKey(i) == ClaimKey(j) { SamePrefix("global:idempotency:aisensy:", i, j); }
  }

  // ----- one step -----

  predicate Live(s: System, key: string) { key in s.keys && s.now < s.keys[key] }

  /** `SET key 1 EX 86400` */
  function Set(s: System, key: string): System { s.(keys := s.keys[key := s.now + DAY]) }

  /** The state after a message from `c` is logged. */
  function Noted(s: System, c: Customer, id: string): System {
    Set(s, WindowKey(c)).(log := s.log + [Inbound(id, c, s.now)])
  }

  /** The customer whose window a notification refreshes, once its id is claimed. */
  function Refreshes(note: Note, tenant: Option<Creds>, translated: bool): Option<Customer> {
    if note.topic != "message.sender.user" && note.topic != "message.created" then None
    else if note.message.None? || note.message.value.sender != "USER" then None
    else if tenant.None? || !translated then None
    else Some(Customer(tenant.value.tenant, tenant.value.project, note.message.value.phone))
  }

  function Received(s: System, note: Note, tenant: Option<Creds>, translated: bool): System {
    if note.topic == "" || !note.hasData || Live(s, ClaimKey(note.id)) then s
    else
      var s1 := Set(s, ClaimKey(note.id));
      match Refreshes(note, tenant, translated)
      case None => s1
      case Some(c) => Noted(s1, c, note.id)
  }

  function CanSendFreeform(s: System, msg: Outbound, creds: Option<Creds>): bool {
    !msg.requiresWindowCheck
    || (msg.tenant != "" && creds.Some? && Live(s, WindowKey(Customer(msg.tenant, creds.value.project, msg.target))))
  }

  /** What the sender hands to the adapter, None when it drops the message. */
  function Handing(s: System, msg: Outbound, creds: Option<Creds>, template: Option<string>): Option<Content> {
    if msg.content.Template? || CanSendFreeform(s, msg, creds) then Some(msg.content)
    else if msg.tenant == "" || template.None? then None
    else Some(Template(template.value))
  }

  function Sent(s: System, msg: Outbound, creds: Option<Creds>, template: Option<string>): System {
    match Handing(s, msg, creds, template)
    case None => s
    case Some(content) => s.(handed := s.handed + [Handed(msg, creds, content, s.now)])
  }

  function Apply(s: System, a: Action): System {
    match a
    case Tick(ms) => s.(now := s.now + ms)
    case Receive(note, tenant, translated) => Received(s, note, tenant, translated)
    case Send(msg, creds, template) => Sent(s, msg, creds, template)
  }

  const START := System(0, map[], [], [])

  function RunOf(actions: seq<Action>): System {
    if actions == [] then START else Apply(RunOf(actions[..|actions| - 1]), actions[|actions| - 1])
  }

  /** The customer an action is about. */
  function About(a: Action): Option<Customer> {
    match a
    case Tick(_) => None
    case Receive(note, tenant, translated) => Refreshes(note, tenant, translated)
    case Send(msg, creds, _) => if creds.Some? then Some(Recipient(msg, creds.value)) else None
  }

  function Recipient(msg: Outbound, creds: Creds): Customer {
    Customer(msg.tenant, creds.project, msg.target)
  }

  /** The run is about these customers only. */
  ghost predicate Within(actions: seq<Action>, customers: iset<Customer>) {
    forall k :: 0 <= k < |actions| ==> About(actions[k]).Some? ==> About(actions[k]).value in customers
  }

  class Edge {
    var keys: map<string, nat>
    ghost var log: seq<Inbound>
    ghost var handed: seq<Handed>

    ghost function Value(now: nat): System
      reads this
    {
      System(now, keys, log, handed)
    }

    method IsIdempotentlyNew(now: nat, key: string) returns (isNew: bool)
      modifies this`keys
      ensures isNew <==> !Live(old(Value(now)), key)
      ensures Value(now) == if isNew then Set(old(Value(now)), key) else old(Value(now))
    {
      isNew := !(key in keys && now < keys[key]);
      if isNew { keys := keys[key := now + DAY]; }
    }

    method ReceiveNote(now: nat, note: Note, tenant: Option<Creds>, translated: bool) returns (out: Option<Customer>)
      modifies this
      ensures Value(now) == Received(old(Value(now)), note, tenant, translated)
      ensures out.Some? <==> log != old(log)
      ensures out.Some? ==> log == old(log) + [Inbound(note.id, out.value, now)]
    {
      hide WindowKey;
      if note.topic == "" || !note.hasData { return None; }
      var isNew := IsIdempotentlyNew(now, ClaimKey(note.id));
      if !isNew { return None; }
      if note.topic != "message.sender.user" && note.topic != "message.created" { return None; }
      if note.message.None? || note.message.value.sender != "USER" { return None; }
      if tenant.None? { return None; }
      if !translated { return None; }
      var c := Customer(tenant.value.tenant, tenant.value.project, note.message.value.phone);
      keys := keys[WindowKey(c) := now + DAY];
      log := log + [Inbound(note.id, c, now)];
      return Some(c);
    }

    method SendOnce(now: nat, msg: Outbound, creds: Option<Creds>, template: Option<string>)
      returns (out: Option<Content>)
      modifies this`handed
      ensures Value(now) == Sent(old(Value(now)), msg, creds, template)
      ensures out == Handing(old(Value(now)), msg, creds, template)
    {
      hide WindowKey;
      var content := msg.content;
      if !content.Template? {
        var open := !msg.requiresWindowCheck;
        if !open && msg.tenant != "" && creds.Some? {
          var key := WindowKey(Customer(msg.tenant, creds.value.project, msg.target));
          open := key in keys && now < keys[key];
        }
        if !open {
          if msg.tenant == "" { return None; }
          if template.None? { return None; }
          content := Template(template.value);
        }
      }
      handed := handed + [Handed(msg, creds, content, now)];
      return Some(content);
    }
  }

  // ----- what every run keeps -----

  /** A processed inbound from this customer, less than 24 hours before `t` and not after it. */
  ghost predicate Recent(log: seq<Inbound>, c: Customer, t: nat) {
    exists i :: 0 <= i < |log| && log[i].customer == c && log[i].at <= t < log[i].at + DAY
  }

  /** The same for anyone who shares the window key. */
  ghost predicate RecentKey(log: seq<Inbound>, key: string, t: nat) {
    exists i :: 0 <= i < |log| && WindowKey(log[i].customer) == key && log[i].at <= t < log[i].at + DAY
  }

  /** Every logged message left its window key, good for a day. */
  ghost predicate Logged(s: System) {
    forall i :: 0 <= i < |s.log| ==>
      && s.log[i].at <= s.now
      && WindowKey(s.log[i].customer) in s.keys && s.log[i].at + DAY <= s.keys[WindowKey(s.log[i].customer)]
  }

  /** A logged message left a key that expires at `expires`. */
  ghost predicate Left(log: seq<Inbound>, key: string, expires: nat) {
    exists i :: 0 <= i < |log| && WindowKey(log[i].customer) == key && log[i].at + DAY == expires
  }

  /** Every window key was left by a logged message. */
  ghost predicate Keyed(s: System) {
    forall c :: WindowKey(c) in s.keys ==> Left(s.log, WindowKey(c), s.keys[WindowKey(c)])
  }

  /** Every logged message left its claim, and no id is logged twice within a day. */
  ghost predicate Claimed(s: System) {
    && (forall i :: 0 <= i < |s.log| ==>
        ClaimKey(s.log[i].id) in s.keys && s.log[i].at + DAY <= s.keys[ClaimKey(s.log[i].id)])
    && (forall i, j :: 0 <= i < j < |s.log| && s.log[i].id == s.log[j].id ==> s.log[i].at + DAY <= s.log[j].at)
  }

  /** A message handed over free-form after a check had a recent inbound under its key at that moment. */
  ghost predicate Covered(s: System) {
    forall k :: 0 <= k < |s.handed| ==>
      var h := s.handed[k];
      h.msg.requiresWindowCheck && h.content.FreeForm? ==>
        h.creds.Some? && RecentKey(s.log, WindowKey(Recipient(h.msg, h.creds.value)), h.at)
  }

  ghost predicate Inv(s: System) { Logged(s) && Keyed(s) && Claimed(s) && Covered(s) }

  /** The key store answers exactly what the full inbound log would, key by key. */
  lemma OpenExactly(s: System, c: Customer)
    requires Logged(s) && Keyed(s)
    ensures Live(s, WindowKey(c)) <==> RecentKey(s.log, WindowKey(c), s.now)
  {
    hide WindowKey;
  }

  /** No message of this id was logged less than a day before `now`. */
  ghost predicate NotSince(log: seq<Inbound>, id: string, now: nat) {
    forall i :: 0 <= i < |log| && log[i].id == id ==> log[i].at + DAY <= now
  }

  lemma LeftKept(log: seq<Inbound>, m: Inbound, key: string, expires: nat)
    requires Left(log, key, expires)
    ensures Left(log + [m], key, expires)
  {
    hide WindowKey;
    var i :| 0 <= i < |log| && WindowKey(log[i].customer) == key && log[i].at + DAY == expires;
    assert (log + [m])[i] == log[i];
  }

  lemma NotedKeyed(s: System, c: Customer, id: string)
    requires Keyed(s)
    ensures Keyed(Noted(s, c, id))
  {
    hide WindowKey, ClaimKey;
    var s' := Noted(s, c, id);
    forall d | WindowKey(d) in s'.keys ensures Left(s'.log, WindowKey(d), s'.keys[WindowKey(d)]) {
      if WindowKey(d) == WindowKey(c) {
        assert s'.log[|s.log|].customer == c;
      } else {
        LeftKept(s.log, Inbound(id, c, s.now), WindowKey(d), s.keys[WindowKey(d)]);
      }
    }
  }

  lemma NotedLogged(s: System, c: Customer, id: string)
    requires Logged(s)
    ensures Logged(Noted(s, c, id))
  {
    hide WindowKey, ClaimKey;
  }

  lemma NotedClaimed(s: System, c: Customer, id: string)
    requires Claimed(s) && NotSince(s.log, id, s.now)
    requires ClaimKey(id) in s.keys && s.now + DAY <= s.keys[ClaimKey(id)]
    ensures Claimed(Noted(s, c, id))
  {
    hide WindowKey, ClaimKey;
    var s' := Noted(s, c, id);
    forall i | 0 <= i < |s'.log|
      ensures ClaimKey(s'.log[i].id) in s'.keys && s'.log[i].at + DAY <= s'.keys[ClaimKey(s'.log[i].id)]
    {
      ClaimsApart(s'.log[i].id, id, c);
    }
  }

  lemma SetClaim(s: System, id: string)
    requires Logged(s) && Keyed(s) && Claimed(s) && !Live(s, ClaimKey(id))
    ensures var s' := Set(s, ClaimKey(id)); Logged(s') && Keyed(s') && Claimed(s')
    ensures NotSince(s.log, id, s.now)
  {
    hide WindowKey, ClaimKey, Left;
    forall c ensures WindowKey(c) != ClaimKey(id) { ClaimsApart(id, id, c); }
  }

  lemma RecentKept(log: seq<Inbound>, more: seq<Inbound>, key: string, t: nat)
    requires RecentKey(log, key, t)
    ensures RecentKey(log + more, key, t)
  {
    hide WindowKey;
    var i :| 0 <= i < |log| && WindowKey(log[i].customer) == key && log[i].at <= t < log[i].at + DAY;
    assert (log + more)[i] == log[i];
  }

  lemma ReceivedInv(s: System, note: Note, tenant: Option<Creds>, translated: bool)
    requires Inv(s)
    ensures Inv(Received(s, note, tenant, translated))
  {
    hide WindowKey, ClaimKey, Logged, Keyed, Claimed, RecentKey;
    var s' := Received(s, note, tenant, translated);
    if !(note.topic == "" || !note.hasData || Live(s, ClaimKey(note.id))) {
      SetClaim(s, note.id);
      var c := Refreshes(note, tenant, translated);
      if c.Some? {
        var s1 := Set(s, ClaimKey(note.id));
        NotedKeyed(s1, c.value, note.id);
        NotedLogged(s1, c.value, note.id);
        NotedClaimed(s1, c.value, note.id);
      }
    }
    var more := s'.log[|s.log|..];
    assert s'.log == s.log + more;
    forall k | 0 <= k < |s'.handed| && s'.handed[k].msg.requiresWindowCheck && s'.handed[k].content.FreeForm?
      ensures s'.handed[k].creds.Some?
      ensures var h := s'.handed[k]; RecentKey(s'.log, WindowKey(Recipient(h.msg, h.creds.value)), h.at)
    {
      var h := s.handed[k];
      RecentKept(s.log, more, WindowKey(Recipient(h.msg, h.creds.value)), h.at);
    }
  }

  lemma SentInv(s: System, msg: Outbound, creds: Option<Creds>, template: Option<string>)
    requires Inv(s)
    ensures Inv(Sent(s, msg, creds, template))
  {
    hide WindowKey, ClaimKey, RecentKey;
    if creds.Some? { OpenExactly(s, Recipient(msg, creds.value)); }
    var s' := Sent(s, msg, creds, template);
    assert Logged(s') && Keyed(s') && Claimed(s');
  }

  lemma TickInv(s: System, ms: nat)
    requires Inv(s)
    ensures Inv(s.(now := s.now + ms))
  {
    hide WindowKey, ClaimKey, Left, RecentKey;
  }

  lemma ApplyInv(s: System, a: Action)
    requires Inv(s)
    ensures Inv(Apply(s, a))
  {
    hide Inv, Received, Sent;
    match a
    case Tick(ms) => TickInv(s, ms);
    case Receive(note, tenant, translated) => ReceivedInv(s, note, tenant, translated);
    case Send(msg, creds, template) => SentInv(s, msg, creds, template);
  }

  lemma {:induction false} InvAlways(actions: seq<Action>)
    ensures Inv(RunOf(actions))
  {
    hide Apply, Logged, Keyed, Claimed, Covered;
    if actions == [] {
      StartInv();
    } else {
      InvAlways(actions[..|actions| - 1]);
      ApplyInv(RunOf(actions[..|actions| - 1]), actions[|actions| - 1]);
    }
  }

  lemma StartInv()
    ensures Inv(START)
  {
  }

  // ----- what the key store says about keys -----

  /** In every run, with any ids at all, a window key exists exactly when a message of someone with
      that key was processed less than 24 hours before; and no notification is processed twice
      within 24 hours. */
  lemma StoreByKey(actions: seq<Action>, c: Customer)
    ensures var s := RunOf(actions); Live(s, WindowKey(c)) <==> RecentKey(s.log, WindowKey(c), s.now)
    ensures var log := RunOf(actions).log;
      forall i, j :: 0 <= i < j < |log| && log[i].id == log[j].id ==> log[i].at + DAY <= log[j].at
  {
    hide WindowKey, Live, RecentKey, Logged, Keyed;
    InvAlways(actions);
    OpenExactly(RunOf(actions), c);
  }

  // ----- which notifications are processed -----

  /** Any notification with a topic and data claims its id, whatever it holds, unless the id was
      claimed less than a day before; the time of the last claim. */
  function LastClaim(actions: seq<Action>, id: string): Option<nat> {
    if actions == [] then None
    else
      var before, a := actions[..|actions| - 1], actions[|actions| - 1];
      var last, now := LastClaim(before, id), RunOf(before).now;
      if a.Receive? && a.note.id == id && a.note.topic != "" && a.note.hasData
         && (last == None || last.value + DAY <= now)
      then Some(now) else last
  }

  predicate ClaimedWithin(actions: seq<Action>, id: string) {
    LastClaim(actions, id).Some? && RunOf(actions).now < LastClaim(actions, id).value + DAY
  }

  /** The claim keys after one more action. */
  lemma ClaimAfter(s: System, a: Action, id: string)
    ensures var s', key := Apply(s, a), ClaimKey(id);
      if a.Receive? && a.note.id == id && a.note.topic != "" && a.note.hasData && !Live(s, key)
      then key in s'.keys && s'.keys[key] == s.now + DAY
      else (key in s'.keys <==> key in s.keys) && (key in s.keys ==> s'.keys[key] == s.keys[key])
  {
    hide WindowKey, ClaimKey, Handing;
    if a.Receive? {
      ClaimsApart(id, a.note.id, Customer("", "", ""));
      var c := Refreshes(a.note, a.tenant, a.translated);
      if c.Some? { ClaimsApart(id, id, c.value); }
    }
  }

  lemma {:induction false} ClaimKeys(actions: seq<Action>, id: string)
    ensures var s, last := RunOf(actions), LastClaim(actions, id);
      && (ClaimKey(id) in s.keys <==> last.Some?)
      && (last.Some? ==> s.keys[ClaimKey(id)] == last.value + DAY)
  {
    hide ClaimKey, Apply;
    if actions != [] {
      var before, a := actions[..|actions| - 1], actions[|actions| - 1];
      ClaimKeys(before, id);
      ClaimAfter(RunOf(before), a, id);
    }
  }

  /** After any run a notification is processed exactly when it is a user's message under one of the
      two topics, its tenant is known and its content understood, and no notification with its id
      claimed it within a day; and then the window of that user opens. */
  lemma ProcessedExactly(actions: seq<Action>, note: Note, tenant: Option<Creds>, translated: bool)
    ensures var s := RunOf(actions); var s' := RunOf(actions + [Receive(note, tenant, translated)]);
      if note.topic in {"message.sender.user", "message.created"} && note.hasData
         && note.message.Some? && note.message.value.sender == "USER" && tenant.Some? && translated
         && !ClaimedWithin(actions, note.id)
      then
        var c := Customer(tenant.value.tenant, tenant.value.project, note.message.value.phone);
        s'.log == s.log + [Inbound(note.id, c, s.now)] && Live(s', WindowKey(c))
      else s'.log == s.log
  {
    hide WindowKey, ClaimKey, LastClaim;
    assert (actions + [Receive(note, tenant, translated)])[..|actions|] == actions;
    ClaimKeys(actions, note.id);
  }

  // ----- what it says about customers -----

  /** Whoever is logged is one the run is about. */
  lemma {:induction false} LoggedWithin(actions: seq<Action>, customers: iset<Customer>)
    requires Within(actions, customers)
    ensures forall i :: 0 <= i < |RunOf(actions).log| ==> RunOf(actions).log[i].customer in customers
  {
    hide WindowKey, ClaimKey, Live, Handing, Refreshes;
    if actions != [] {
      var before, a := actions[..|actions| - 1], actions[|actions| - 1];
      assert Within(before, customers);
      LoggedWithin(before, customers);
      assert About(a).Some? ==> About(a).value in customers;
    }
  }

  lemma HandedAbout(actions: seq<Action>, customers: iset<Customer>, k: nat)
    requires Within(actions, customers) && k < |RunOf(actions).handed|
    ensures var h := RunOf(actions).handed[k]; h.creds.Some? ==> Recipient(h.msg, h.creds.value) in customers
  {
    hide WindowKey, ClaimKey, Live, Received;
    var before, a := actions[..|actions| - 1], actions[|actions| - 1];
    assert Within(before, customers);
    assert About(a).Some? ==> About(a).value in customers;
    if k < |RunOf(before).handed| {
      HandedAbout(before, customers, k);
      HandedKept(RunOf(before), a, k);
    } else {
      HandedNow(RunOf(before), a, k);
    }
  }

  lemma HandedKept(s: System, a: Action, k: nat)
    requires k < |s.handed|
    ensures k < |Apply(s, a).handed| && Apply(s, a).handed[k] == s.handed[k]
  {
    hide WindowKey, ClaimKey, Live, Handing;
  }

  lemma HandedNow(s: System, a: Action, k: nat)
    requires |s.handed| <= k < |Apply(s, a).handed|
    ensures a.Send? && Apply(s, a).handed[k].msg == a.msg && Apply(s, a).handed[k].creds == a.creds
  {
    hide WindowKey, ClaimKey, Live, Handing;
  }

  lemma RecentOf(log: seq<Inbound>, customers: iset<Customer>, c: Customer, t: nat)
    requires Apart(customers) && c in customers
    requires forall i :: 0 <= i < |log| ==> log[i].customer in customers
    ensures RecentKey(log, WindowKey(c), t) <==> Recent(log, c, t)
  {
    hide WindowKey;
  }

  ghost predicate Refines(s: System, c: Customer) {
    Live(s, WindowKey(c)) <==> Recent(s.log, c, s.now)
  }

  /** Each free-form message handed over under the check had at that moment an inbound from its
      customer less than 24 hours old. */
  ghost predicate Safe(s: System) {
    forall k :: 0 <= k < |s.handed| ==>
      var h := s.handed[k];
      h.msg.requiresWindowCheck && h.content.FreeForm? ==>
        h.creds.Some? && Recent(s.log, Recipient(h.msg, h.creds.value), h.at)
  }

  /** In every run about customers with keys of their own, a customer's key exists exactly when a
      message of that customer was processed less than 24 hours before. */
  lemma StoreRefinesLog(actions: seq<Action>, customers: iset<Customer>, c: Customer)
    requires Apart(customers) && Within(actions, customers) && c in customers
    ensures Refines(RunOf(actions), c)
  {
    hide WindowKey, Live, Recent, RecentKey, Apart, Within, RunOf;
    StoreByKey(actions, c);
    LoggedWithin(actions, customers);
    RecentOf(RunOf(actions).log, customers, c, RunOf(actions).now);
  }

  /** And every free-form message handed over under the check was within its window. */
  lemma WindowSafety(actions: seq<Action>, customers: iset<Customer>)
    requires Apart(customers) && Within(actions, customers)
    ensures Safe(RunOf(actions))
  {
    hide WindowKey, Safe, Within, RunOf;
    SafeWhenNamed(actions, customers);
  }

  /** After such a run, a free-form message under the check goes out as it is exactly when its
      tenant is known and its customer wrote within 24 hours; else as a template when there is one. */
  lemma SendExactly(actions: seq<Action>, customers: iset<Customer>, msg: Outbound, creds: Option<Creds>,
                    template: Option<string>)
    requires Apart(customers) && Within(actions, customers)
    requires creds.Some? ==> Recipient(msg, creds.value) in customers
    requires msg.content.FreeForm? && msg.requiresWindowCheck
    ensures var s := RunOf(actions); var out := Handing(s, msg, creds, template);
      && (out == Some(msg.content) <==>
          msg.tenant != "" && creds.Some? && Recent(s.log, Recipient(msg, creds.value), s.now))
      && (out == None <==> out != Some(msg.content) && (msg.tenant == "" || template == None))
      && (out.Some? && out.value.Template? ==> template == Some(out.value.text))
  {
    hide WindowKey, Recent, Live, Apart, Within, RunOf;
    if creds.Some? { StoreRefinesLog(actions, customers, Recipient(msg, creds.value)); }
  }

  /** A template, or a message that asks for no check, goes out as it is. */
  lemma UncheckedSent(s: System, msg: Outbound, creds: Option<Creds>, template: Option<string>)
    requires msg.content.Template? || !msg.requiresWindowCheck
    ensures Apply(s, Send(msg, creds, template)) == s.(handed := s.handed + [Handed(msg, creds, msg.content, s.now)])
  {
    hide WindowKey, Live;
  }

  // ----- exactly which customers -----

  /** A message from `a` and at once a free-form message to `b`. */
  function Exchange(a: Customer, b: Customer): seq<Action> {
    [Receive(Note("1", "message.created", true, Some(Message("USER", a.phone))),
       Some(Creds(a.tenant, a.project)), true),
     Send(Outbound(b.tenant, b.phone, FreeForm("hello"), true), Some(Creds(b.tenant, b.project)), None)]
  }

  lemma ExchangeRuns(a: Customer, b: Customer)
    ensures var x := Exchange(a, b);
      && RunOf(x[..1]) == Apply(START, x[0]) && RunOf(x) == Apply(Apply(START, x[0]), x[1])
      && About(x[0]) == Some(a) && About(x[1]) == Some(b)
  {
    hide WindowKey, Received, Sent;
    var x := Exchange(a, b);
    assert x[..1][..0] == [] && x[..1][0] == x[0] && x[..|x| - 1] == x[..1];
  }

  /** After the message from `a`, the key of anyone with the same key exists, and only `a` wrote. */
  lemma FirstMessage(a: Customer, b: Customer)
    requires WindowKey(a) == WindowKey(b) && a != b
    ensures var s := Apply(START, Exchange(a, b)[0]);
      Live(s, WindowKey(b)) && !Recent(s.log, b, s.now) && s.now == 0 && s.handed == []
      && |s.log| == 1 && s.log[0].customer == a
  {
    hide WindowKey;
    ClaimsApart("1", "1", a);
  }

  lemma StrangerReached(a: Customer, b: Customer)
    requires WindowKey(a) == WindowKey(b) && a != b
    ensures !Refines(RunOf(Exchange(a, b)[..1]), b)
    ensures b.tenant != "" ==> !Safe(RunOf(Exchange(a, b)))
  {
    hide WindowKey, Live, Received;
    ExchangeRuns(a, b);
    FirstMessage(a, b);
    var s1 := Apply(START, Exchange(a, b)[0]);
    var s := Apply(s1, Exchange(a, b)[1]);
    if b.tenant != "" {
      assert s.handed[0].content == FreeForm("hello") && Recipient(s.handed[0].msg, s.handed[0].creds.value) == b;
    }
  }

  /** No customer who can be written to shares a key with another. */
  ghost predicate NamedApart(customers: iset<Customer>) {
    forall a, b :: a in customers && b in customers && b.tenant != "" && WindowKey(a) == WindowKey(b) ==> a == b
  }

  /** The key store refines the log in all runs about some customers if and only if no two of them
      share a key. */
  lemma RefinesExactly(customers: iset<Customer>)
    ensures (forall actions, c :: Within(actions, customers) && c in customers ==> Refines(RunOf(actions), c))
      <==> Apart(customers)
  {
    hide WindowKey, RunOf, Refines;
    if Apart(customers) {
      forall actions, c | Within(actions, customers) && c in customers ensures Refines(RunOf(actions), c) {
        StoreRefinesLog(actions, customers, c);
      }
    } else {
      var a, b :| a in customers && b in customers && WindowKey(a) == WindowKey(b) && a != b;
      ExchangeRuns(a, b);
      StrangerReached(a, b);
      assert Within(Exchange(a, b)[..1], customers);
    }
  }

  /** Every free-form message is within its window, in all runs about some customers, if and only if
      none that can be written to shares a key with another. */
  lemma SafeExactly(customers: iset<Customer>)
    ensures (forall actions :: Within(actions, customers) ==> Safe(RunOf(actions)))
      <==> NamedApart(customers)
  {
    hide WindowKey, RunOf, Safe;
    if NamedApart(customers) {
      forall actions | Within(actions, customers) ensures Safe(RunOf(actions)) {
        SafeWhenNamed(actions, customers);
      }
    } else {
      var a, b :| a in customers && b in customers && b.tenant != "" && WindowKey(a) == WindowKey(b) && a != b;
      ExchangeRuns(a, b);
      StrangerReached(a, b);
      assert Within(Exchange(a, b), customers);
    }
  }

  /** Only messages of a known tenant go out free-form under the check. */
  lemma {:induction false} FreeFormNamed(actions: seq<Action>, k: nat)
    requires k < |RunOf(actions).handed|
    ensures var h := RunOf(actions).handed[k];
      h.msg.requiresWindowCheck && h.content.FreeForm? ==> h.msg.tenant != ""
  {
    hide WindowKey, ClaimKey, Live, Received;
    var before, a := actions[..|actions| - 1], actions[|actions| - 1];
    if k < |RunOf(before).handed| {
      FreeFormNamed(before, k);
      HandedKept(RunOf(before), a, k);
    } else {
      HandedNow(RunOf(before), a, k);
    }
  }

  lemma RecentNamed(log: seq<Inbound>, customers: iset<Customer>, c: Customer, t: nat)
    requires forall a :: a in customers && WindowKey(a) == WindowKey(c) ==> a == c
    requires forall i :: 0 <= i < |log| ==> log[i].customer in customers
    ensures RecentKey(log, WindowKey(c), t) ==> Recent(log, c, t)
  {
    hide WindowKey;
  }

  lemma SafeWhenNamed(actions: seq<Action>, customers: iset<Customer>)
    requires Within(actions, customers)
    requires NamedApart(customers)
    ensures Safe(RunOf(actions))
  {
    hide WindowKey, Recent, RecentKey, Within, RunOf, Logged, Keyed, Claimed;
    InvAlways(actions);
    LoggedWithin(actions, customers);
    var s := RunOf(actions);
    forall k | 0 <= k < |s.handed| && s.handed[k].msg.requiresWindowCheck && s.handed[k].content.FreeForm?
      ensures s.handed[k].creds.Some?
      ensures Recent(s.log, Recipient(s.handed[k].msg, s.handed[k].creds.value), s.handed[k].at)
    {
      var h := s.handed[k];
      HandedAbout(actions, customers, k);
      FreeFormNamed(actions, k);
      RecentNamed(s.log, customers, Recipient(h.msg, h.creds.value), h.at);
    }
  }

  /** A tenant whose project id holds a colon: a customer who never wrote gets a free-form message. */
  lemma StrangerWrittenTo()
    ensures var s := RunOf(Exchange(TALKER, STRANGER));
      && |s.log| == 1 && s.log[0].customer == TALKER
      && |s.handed| == 1 && s.handed[0].content.FreeForm? && s.handed[0].msg.requiresWindowCheck
      && s.handed[0].creds.Some? && Recipient(s.handed[0].msg, s.handed[0].creds.value) == STRANGER
  {
    hide WindowKey, Live, Received, RunOf;
    KeysCollide();
    ExchangeRuns(TALKER, STRANGER);
    FirstMessage(TALKER, STRANGER);
  }
}
