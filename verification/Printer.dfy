/** The documented tag syntax: how an event is written down by the model. */
module Printer {
  import opened Text
  import opened Tags

  /** A written tag: paired `<name attrs>body</name>`, or self-closing `<name attrs/>`. */
  datatype Form =
    | Pair(name: string, attrs: seq<(string, string)>, body: string)
    | Single(name: string, attrs: seq<(string, string)>)

  function PrintAttr(kv: (string, string)): string {
    " " + kv.0 + "=\"" + kv.1 + "\""
  }

  function PrintAttrs(kvs: seq<(string, string)>): string {
    if kvs == [] then "" else PrintAttr(kvs[0]) + PrintAttrs(kvs[1..])
  }

  function PrintHead(f: Form): string {
    "<" + f.name + PrintAttrs(f.attrs)
  }

  function PrintClose(name: string): string {
    "</" + name + ">"
  }

  function PrintForm(f: Form): string {
    match f
    case Pair(name, _, body) => PrintHead(f) + ">" + body + PrintClose(name)
    case Single(_, _) => PrintHead(f) + "/>"
  }

  /** Every form followed by its own separator. */
  function PrintForms(seps: seq<string>, fs: seq<Form>): string
    requires |seps| == |fs|
  {
    if fs == [] then "" else PrintForm(fs[0]) + seps[0] + PrintForms(seps[1..], fs[1..])
  }

  function BoolText(b: bool): string { if b then "true" else "false" }

  function ScopeText(s: Scope): string {
    match s case Thread => "thread" case Principal => "principal" case Tenant => "tenant"
  }

  function TargetText(t: Target): string {
    match t case Owner => "owner" case Admin => "admin" case Operator => "operator"
  }

  function ButtonForm(b: Button): Form {
    Pair("button", [("id", b.id)], b.title)
  }

  function ItemForm(it: ListItem): Form {
    Pair("item", [("id", it.id)] + (if it.description.Some? then [("desc", it.description.value)] else []), it.title)
  }

  function ButtonForms(bs: seq<Button>): (fs: seq<Form>)
    ensures |fs| == |bs|
  {
    seq(|bs|, i requires 0 <= i < |bs| => ButtonForm(bs[i]))
  }

  function ItemForms(items: seq<ListItem>): (fs: seq<Form>)
    ensures |fs| == |items|
  {
    seq(|items|, i requires 0 <= i < |items| => ItemForm(items[i]))
  }

  function ChildForms(a: Ask): seq<Form> {
    ButtonForms(a.buttons) + ItemForms(a.items)
  }

  function CallAttrs(c: Call): seq<(string, string)> {
    [("name", c.name)] + (if c.correlationId.Some? then [("id", c.correlationId.value)] else [])
    + [("memory_claim", BoolText(c.memoryClaim)), ("side_effect", BoolText(c.sideEffect))]
  }

  /** The whitespace around one event: what follows its tag and, inside an ask, what stands before
      the first nested tag and after each of them. */
  datatype Layout = Layout(lead: string, gaps: seq<string>, after: string)

  predicate Fits(lay: Layout, e: Event) {
    e.AskEvent? ==> |lay.gaps| == |ChildForms(e.ask)|
  }

  function FormOf(lay: Layout, e: Event): Form
    requires Fits(lay, e)
  {
    match e
    case Thinking(text) => Pair("thinking", [], text)
    case Plan(text) => Pair("plan", [], text)
    case Say(text) => Pair("say", [], text)
    case CallEvent(c) => Pair("call", CallAttrs(c), c.args)
    case AskEvent(a) =>
      Pair("ask", [("body_text", a.bodyText), ("button_text", a.buttonText), ("section_title", a.sectionTitle)],
        lay.lead + PrintForms(lay.gaps, ChildForms(a)))
    case Remember(key, value, scope) => Pair("remember", [("key", key), ("scope", ScopeText(scope))], value)
    case Recall(key, scope) => Single("recall", [("key", key), ("scope", ScopeText(scope))])
    case Escalate(reason, target) => Single("escalate", [("to", TargetText(target)), ("reason", reason)])
    case RequestApproval(text, capability, payload) =>
      Pair("request_approval", [("capability", capability), ("label", text)], payload)
    case SwarmEvent(s) => Pair("swarm", [("name", s.agent), ("objective", s.objective)], s.context)
    case Final => Single("final", [])
  }

  predicate FitAll(lays: seq<Layout>, es: seq<Event>) {
    |lays| == |es| && forall i :: 0 <= i < |es| ==> Fits(lays[i], es[i])
  }

  function FormsOf(lays: seq<Layout>, es: seq<Event>): (fs: seq<Form>)
    requires FitAll(lays, es)
    ensures |fs| == |es|
  {
    seq(|es|, i requires 0 <= i < |es| => FormOf(lays[i], es[i]))
  }

  function Afters(lays: seq<Layout>): (seps: seq<string>)
    ensures |seps| == |lays|
  {
    seq(|lays|, i requires 0 <= i < |lays| => lays[i].after)
  }

  /** A reply that carries the given events, laid out as wanted after some leading text. */
  function PrintReply(lead: string, lays: seq<Layout>, es: seq<Event>): string
    requires FitAll(lays, es)
  {
    lead + PrintForms(Afters(lays), FormsOf(lays, es))
  }

  /** Nothing but whitespace between the tags, but any whitespace in every place. */
  predicate LaidOut(lead: string, lays: seq<Layout>, es: seq<Event>) {
    && AllSpace(lead) && FitAll(lays, es)
    && forall i :: 0 <= i < |lays| ==> Spaced(lays[i])
  }

  predicate Spaced(lay: Layout) {
    Inside(lay) && AllSpace(lay.after)
  }

  /** Whitespace between the nested tags of an ask. */
  predicate Inside(lay: Layout) {
    AllSpace(lay.lead) && AllSpaces(lay.gaps)
  }

  /** Any text without `<` before, between and after the tags. */
  predicate Interleaved(lead: string, lays: seq<Layout>, es: seq<Event>) {
    && '<' !in lead && FitAll(lays, es)
    && forall i :: 0 <= i < |lays| ==> Inside(lays[i]) && '<' !in lays[i].after
  }

  /** The text outside the tags. */
  function TextBetween(lead: string, lays: seq<Layout>): string {
    lead + Concat(Afters(lays))
  }

  // ----- which events can be written down -----

  predicate PlainBody(s: string) { Trimmed(s) && '<' !in s }

  predicate AttrValue(s: string) { '"' !in s && '<' !in s && '>' !in s }

  predicate CanonicalAsk(a: Ask) {
    && AttrValue(a.bodyText) && Trimmed(a.bodyText) && AttrValue(a.buttonText) && AttrValue(a.sectionTitle)
    && (forall b :: b in a.buttons ==> AttrValue(b.id) && PlainBody(b.title))
    && (forall it :: it in a.items ==>
        && AttrValue(it.id) && PlainBody(it.title)
        && (it.description.Some? ==> it.description.value != "" && AttrValue(it.description.value)))
  }

  predicate Canonical(e: Event) {
    match e
    case Thinking(text) => PlainBody(text)
    case Plan(text) => PlainBody(text)
    case Say(text) => PlainBody(text)
    case CallEvent(c) =>
      && c.name != "" && AttrValue(c.name) && PlainBody(c.args)
      && (c.correlationId.Some? ==> AttrValue(c.correlationId.value))
    case AskEvent(a) => CanonicalAsk(a)
    case Remember(key, value, _) => key != "" && Trimmed(key) && AttrValue(key) && PlainBody(value)
    case Recall(key, _) => key != "" && Trimmed(key) && AttrValue(key)
    case Escalate(reason, _) => reason != "" && AttrValue(reason)
    case RequestApproval(text, capability, payload) =>
      AttrValue(text) && AttrValue(capability) && PlainBody(payload) && (text == "" ==> capability == "")
    case SwarmEvent(s) =>
      s.agent != "" && s.objective != "" && AttrValue(s.agent) && AttrValue(s.objective) && PlainBody(s.context)
    case Final => true
  }

  /** What survives the round trip: the documented body of a swarm tag, its context,
      is not read back; the parser takes the context from an attribute. */
  function ReadBack(e: Event): Event {
    if e.SwarmEvent? then SwarmEvent(e.swarm.(context := "")) else e
  }

  function ReadBackAll(es: seq<Event>): (r: seq<Event>)
    ensures |r| == |es|
  {
    seq(|es|, i requires 0 <= i < |es| => ReadBack(es[i]))
  }
}
