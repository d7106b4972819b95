/** The lenient tag extractor: three scans merged by position, then a recovery of untagged text. */
module Parser {
  import opened Text
  import opened Tags
  import opened Patterns

  type Attrs = map<string, string>

  /** A tag as found in the text, before it is turned into an event. */
  datatype RawTag = RawTag(pos: nat, name: string, attrs: Attrs, body: string)

  // ----- attributes -----

  /** The dictionary of the attribute matches; a later match of the same key wins. */
  function Collect(fs: seq<Found>): Attrs {
    if fs == [] then map[]
    else
      var last := fs[|fs| - 1].hit;
      Collect(fs[..|fs| - 1])[Lower(last.name) := last.body]
  }

  function AttrsOf(lx: Lexicon, blob: string): Attrs {
    Collect(Scan(lx, Attr, blob, 0))
  }

  function Get(attrs: Attrs, key: string, default: string): string {
    if key in attrs then attrs[key] else default
  }

  function Lookup(attrs: Attrs, key: string): Option<string> {
    if key in attrs then Some(attrs[key]) else None
  }

  /** `a or b` on strings. */
  function Or(a: string, b: string): string {
    if a != "" then a else b
  }

  // ----- building one event -----

  function ScopeOf(s: string): Scope {
    if s == "thread" then Thread else if s == "tenant" then Tenant else Principal
  }

  function TargetOf(s: string): Target {
    if s == "owner" then Owner else if s == "admin" then Admin else Operator
  }

  function ButtonOf(lx: Lexicon, f: Found): Button {
    Button(Get(AttrsOf(lx, f.hit.attrs), "id", ""), Strip(f.hit.body))
  }

  function ItemOf(lx: Lexicon, f: Found): ListItem {
    var a := AttrsOf(lx, f.hit.attrs);
    ListItem(Get(a, "id", ""), Strip(f.hit.body),
      if Get(a, "desc", "") != "" then Some(a["desc"]) else Lookup(a, "description"))
  }

  function Buttons(lx: Lexicon, fs: seq<Found>): (bs: seq<Button>)
    ensures |bs| == |fs|
  {
    seq(|fs|, i requires 0 <= i < |fs| => ButtonOf(lx, fs[i]))
  }

  function Items(lx: Lexicon, fs: seq<Found>): (items: seq<ListItem>)
    ensures |items| == |fs|
  {
    seq(|fs|, i requires 0 <= i < |fs| => ItemOf(lx, fs[i]))
  }

  /** The body of an ask without its nested tags. */
  function StripInner(lx: Lexicon, body: string): string {
    Strip(Remove(lx, Inner, body))
  }

  function BuildAsk(lx: Lexicon, attrs: Attrs, body: string): Ask {
    Ask(
      Or(StripInner(lx, body), Or(Strip(Get(attrs, "body_text", "")), Strip(Get(attrs, "body", "")))),
      Buttons(lx, Scan(lx, ButtonTag, body, 0)),
      Items(lx, Scan(lx, ItemTag, body, 0)),
      Get(attrs, "button_text", "Choose"),
      Get(attrs, "section_title", "Options"))
  }

  function BuildCall(attrs: Attrs, body: string): Option<Event> {
    var name := Or(Get(attrs, "name", ""), Get(attrs, "capability", ""));
    if name == "" then None
    else
      Some(CallEvent(Call(name, Lookup(attrs, "id"), Strip(body),
        Lower(Get(attrs, "memory_claim", "")) == "true",
        Lower(Get(attrs, "side_effect", "")) == "true")))
  }

  /** The event of one tag, None when the tag is dropped. */
  function Build(lx: Lexicon, name: string, attrs: Attrs, body: string): Option<Event> {
    if name == "thinking" then Some(Thinking(Strip(body)))
    else if name == "plan" then Some(Plan(Strip(body)))
    else if name == "say" then Some(Say(Strip(body)))
    else if name == "final" then Some(Final)
    else if name == "call" then BuildCall(attrs, body)
    else if name == "ask" then Some(AskEvent(BuildAsk(lx, attrs, body)))
    else if name == "remember" || name == "recall" then
      var scope := ScopeOf(Lower(Get(attrs, "scope", "principal")));
      var key := Strip(Get(attrs, "key", ""));
      if key == "" then None
      else if name == "remember" then Some(Remember(key, Strip(body), scope)) else Some(Recall(key, scope))
    else if name == "escalate" then
      Some(Escalate(
        Or(Get(attrs, "reason", ""), Or(Strip(body), "unspecified")),
        TargetOf(Lower(Get(attrs, "to", "operator")))))
    else if name == "request_approval" then
      var capability := Get(attrs, "capability", "");
      Some(RequestApproval(
        Or(Get(attrs, "label", ""), Or(Get(attrs, "action", ""), capability)), capability, Strip(body)))
    else if name == "swarm" then
      Some(SwarmEvent(Swarm(
        Or(Get(attrs, "name", ""), Or(Get(attrs, "agent", ""), "subagent")),
        Or(Get(attrs, "objective", ""), Or(Strip(body), "unspecified")),
        Get(attrs, "context", ""))))
    else None
  }

  function BuildTag(lx: Lexicon, t: RawTag): Option<Event> {
    Build(lx, t.name, t.attrs, t.body)
  }

  function BuildAll(lx: Lexicon, ts: seq<RawTag>): seq<Event> {
    if ts == [] then []
    else
      var rest := BuildAll(lx, ts[..|ts| - 1]);
      match BuildTag(lx, ts[|ts| - 1])
      case None => rest
      case Some(e) => rest + [e]
  }

  // ----- collecting and ordering the tags -----

  function PlainTag(lx: Lexicon, f: Found): RawTag {
    RawTag(f.pos, Lower(f.hit.name), AttrsOf(lx, f.hit.attrs), f.hit.body)
  }

  function PlainTags(lx: Lexicon, fs: seq<Found>): (ts: seq<RawTag>)
    ensures |ts| == |fs|
  {
    seq(|fs|, i requires 0 <= i < |fs| => PlainTag(lx, fs[i]))
  }

  /** A capability id used as the tag name stands for a call of that capability. */
  function ShorthandTag(lx: Lexicon, f: Found): RawTag {
    RawTag(f.pos, "call", AttrsOf(lx, f.hit.attrs)["name" := Lower(f.hit.name)], f.hit.body)
  }

  /** The shorthand tags whose name is a registered capability. */
  function ShorthandTags(lx: Lexicon, fs: seq<Found>): seq<RawTag> {
    if fs == [] then []
    else
      var rest := ShorthandTags(lx, fs[..|fs| - 1]);
      var last := fs[|fs| - 1];
      if Lower(last.hit.name) in lx.capabilities then rest + [ShorthandTag(lx, last)] else rest
  }

  /** Puts a tag after every tag of `ts` at or before its position. */
  function Insert(ts: seq<RawTag>, t: RawTag): (r: seq<RawTag>)
    ensures multiset(r) == multiset(ts) + multiset{t}
  {
    if ts == [] || ts[|ts| - 1].pos <= t.pos then ts + [t]
    else
      assert ts == ts[..|ts| - 1] + [ts[|ts| - 1]];
      Insert(ts[..|ts| - 1], t) + [ts[|ts| - 1]]
  }

  /** The stable sort by position. */
  function Sorted(ts: seq<RawTag>): (r: seq<RawTag>)
    ensures multiset(r) == multiset(ts)
  {
    if ts == [] then []
    else
      assert ts == ts[..|ts| - 1] + [ts[|ts| - 1]];
      Insert(Sorted(ts[..|ts| - 1]), ts[|ts| - 1])
  }

  function TagsOf(lx: Lexicon, raw: string): seq<RawTag> {
    Sorted(PlainTags(lx, Scan(lx, Outer, raw, 0)) + PlainTags(lx, Scan(lx, SelfClosing, raw, 0))
      + ShorthandTags(lx, Scan(lx, Shorthand, raw, 0)))
  }

  /** The events of the tags, before recovery. */
  function Tagged(lx: Lexicon, raw: string): seq<Event> {
    BuildAll(lx, TagsOf(lx, raw))
  }

  // ----- recovery -----

  predicate IsActionable(e: Event) {
    e.CallEvent? || e.AskEvent? || e.SwarmEvent? || e.Remember? || e.Recall? || e.RequestApproval?
  }

  predicate HasSay(es: seq<Event>) { exists e :: e in es && e.Say? }

  predicate HasActionable(es: seq<Event>) { exists e :: e in es && IsActionable(e) }

  predicate HasFinal(es: seq<Event>) { Final in es }

  function WithoutTags(lx: Lexicon, raw: string): string {
    Remove(lx, Shorthand, Remove(lx, SelfClosing, Remove(lx, Outer, raw)))
  }

  /** The text left over outside every tag. */
  function Leftover(lx: Lexicon, raw: string): string {
    Strip(WithoutTags(lx, raw))
  }

  function Parse(lx: Lexicon, raw: string): seq<Event> {
    var es := Tagged(lx, raw);
    if HasSay(es) || HasActionable(es) || |Leftover(lx, raw)| < 4 then es
    else es + [Say(Leftover(lx, raw))] + (if HasFinal(es) then [] else [Final])
  }

  // ----- the source's own loops -----

  method BuildAskTag(lx: Lexicon, attrs: Attrs, body: string) returns (ask: Ask)
    ensures ask == BuildAsk(lx, attrs, body)
  {
    hide ButtonOf, ItemOf, StripInner, Scan, Strip;
    var buttons: seq<Button> := [];
    var found := Scan(lx, ButtonTag, body, 0);
    for i := 0 to |found|
      invariant buttons == Buttons(lx, found)[..i]
    {
      buttons := buttons + [ButtonOf(lx, found[i])];
    }
    var items: seq<ListItem> := [];
    var foundItems := Scan(lx, ItemTag, body, 0);
    for i := 0 to |foundItems|
      invariant items == Items(lx, foundItems)[..i]
    {
      items := items + [ItemOf(lx, foundItems[i])];
    }
    var bodyText := Or(StripInner(lx, body), Or(Strip(Get(attrs, "body_text", "")), Strip(Get(attrs, "body", ""))));
    ask := Ask(bodyText, buttons, items, Get(attrs, "button_text", "Choose"), Get(attrs, "section_title", "Options"));
  }

  method StripAllTags(lx: Lexicon, raw: string) returns (cleaned: string)
    ensures cleaned == WithoutTags(lx, raw)
  {
    cleaned := Remove(lx, Outer, raw);
    cleaned := Remove(lx, SelfClosing, cleaned);
    cleaned := Remove(lx, Shorthand, cleaned);
  }

  method CollectPlain(lx: Lexicon, found: seq<Found>) returns (tags: seq<RawTag>)
    ensures tags == PlainTags(lx, found)
  {
    tags := [];
    for i := 0 to |found|
      invariant tags == PlainTags(lx, found)[..i]
    {
      tags := tags + [PlainTag(lx, found[i])];
    }
  }

  method CollectShorthand(lx: Lexicon, found: seq<Found>) returns (tags: seq<RawTag>)
    ensures tags == ShorthandTags(lx, found)
  {
    tags := [];
    for i := 0 to |found|
      invariant tags == ShorthandTags(lx, found[..i])
    {
      assert found[..i + 1][..i] == found[..i];
      if Lower(found[i].hit.name) in lx.capabilities {
        tags := tags + [ShorthandTag(lx, found[i])];
      }
    }
    assert found[..|found|] == found;
  }

  method BuildOne(lx: Lexicon, t: RawTag) returns (ev: Option<Event>)
    ensures ev == BuildTag(lx, t)
  {
    if t.name == "ask" {
      var ask := BuildAskTag(lx, t.attrs, t.body);
      ev := Some(AskEvent(ask));
    } else {
      ev := BuildTag(lx, t);
    }
  }

  method BuildEvents(lx: Lexicon, tags: seq<RawTag>) returns (events: seq<Event>)
    ensures events == BuildAll(lx, tags)
  {
    events := [];
    for i := 0 to |tags|
      invariant events == BuildAll(lx, tags[..i])
    {
      assert tags[..i + 1][..i] == tags[..i];
      var ev := BuildOne(lx, tags[i]);
      if ev.Some? {
        events := events + [ev.value];
      }
    }
    assert tags[..|tags|] == tags;
  }

  method ParseReply(lx: Lexicon, raw: string) returns (events: seq<Event>)
    ensures events == Parse(lx, raw)
  {
    hide Scan, Remove, Sorted, PlainTags, ShorthandTags, BuildAll, Strip, HasSay, HasActionable, HasFinal;
    var outer := CollectPlain(lx, Scan(lx, Outer, raw, 0));
    var single := CollectPlain(lx, Scan(lx, SelfClosing, raw, 0));
    var short := CollectShorthand(lx, Scan(lx, Shorthand, raw, 0));
    var matches := Sorted(outer + single + short);
    events := BuildEvents(lx, matches);
    var hasFinal := HasFinal(events);
    if !HasSay(events) && !HasActionable(events) {
      var stripped := StripAllTags(lx, raw);
      var leftover := Strip(stripped);
      if |leftover| >= 4 {
        events := events + [Say(leftover)];
        if !hasFinal {
          events := events + [Final];
        }
      }
    }
  }
}
