/** The main results about the parser: it inverts the printer, and it never leaves
    untagged text unanswered. */
module RoundTrip {
  import opened Text
  import opened Tags
  import opened Patterns
  import opened Printer
  import opened Parser
  import opened TagLemmas
  import opened FormLemmas
  import opened ChildLemmas
  import opened PrintParse

  // ----- a written event is a well-formed tag -----

  lemma ShortKey(k: string)
    requires k in ["name", "id", "key", "scope", "to"]
    ensures Key(k)
  {
  }

  lemma MediumKey(k: string)
    requires k in ["reason", "capability", "label", "objective", "body_text"]
    ensures Key(k)
  {
  }

  lemma FlagKey(k: string)
    requires k in ["memory_claim", "side_effect"]
    ensures Key(k)
  {
  }

  lemma AskKey(k: string)
    requires k in ["button_text", "section_title"]
    ensures Key(k)
  {
  }

  predicate IsShort(k: string) { k in ["name", "id", "key", "scope", "to"] }

  predicate IsMedium(k: string) { k in ["reason", "capability", "label", "objective", "body_text"] }

  predicate IsLong(k: string) { k in ["memory_claim", "side_effect", "button_text", "section_title"] }

  lemma WrittenKey(k: string)
    requires IsShort(k) || IsMedium(k) || IsLong(k)
    ensures Key(k)
  {
    hide Key;
    if IsShort(k) {
      ShortKey(k);
    } else if IsMedium(k) {
      MediumKey(k);
    } else if k in ["memory_claim", "side_effect"] {
      FlagKey(k);
    } else {
      AskKey(k);
    }
  }

  lemma WrittenTexts(c: Call, s: Scope, t: Target)
    ensures AttrValue(BoolText(c.memoryClaim)) && AttrValue(BoolText(c.sideEffect))
    ensures AttrValue(ScopeText(s)) && AttrValue(TargetText(t))
  {
  }

  lemma AttrsOkOf(kvs: seq<(string, string)>)
    requires forall kv :: kv in kvs ==> Key(kv.0) && AttrValue(kv.1)
    ensures AttrsOk(kvs)
  {
    hide Key, AttrValue;
  }

  lemma FormAttrsOk(lay: Layout, e: Event)
    requires Canonical(e) && Fits(lay, e)
    ensures AttrsOk(FormOf(lay, e).attrs)
  {
    hide Key, AttrValue, PrintForms, Trimmed, ScopeText, TargetText, BoolText;
    var kvs := FormOf(lay, e).attrs;
    forall kv | kv in kvs ensures Key(kv.0) && AttrValue(kv.1) {
      WrittenKey(kv.0);
      if e.CallEvent? { WrittenTexts(e.call, Thread, Owner); }
      if e.Remember? || e.Recall? { WrittenTexts(Call("", None, "", false, false), e.scope, Owner); }
      if e.Escalate? { WrittenTexts(Call("", None, "", false, false), Thread, e.target); }
    }
    AttrsOkOf(kvs);
  }

  lemma FormIsTop(lx: Lexicon, lay: Layout, e: Event)
    requires Fits(lay, e) && Inside(lay) && Canonical(e)
    ensures TopForm(lx, FormOf(lay, e))
  {
    hide Quiet, PrintForms, AllSpace, AllSpaces, AttrsOk, CanonicalAsk, ChildForms, AttrValue, Trimmed, Clean;
    var f := FormOf(lay, e);
    FormAttrsOk(lay, e);
    if e.AskEvent? {
      QuietAsk(lx, lay, e.ask);
    } else if f.Pair? {
      QuietPlain(lx, f.body);
    }
  }

  lemma QuietAsk(lx: Lexicon, lay: Layout, a: Ask)
    requires Fits(lay, AskEvent(a)) && Inside(lay) && CanonicalAsk(a)
    ensures Quiet(lx, lay.lead + PrintForms(lay.gaps, ChildForms(a)))
  {
    hide Quiet, PrintForms, AllSpace, AllSpaces, CanonicalAsk, ChildForms, ChildForm, Clean;
    SpaceClean(lay.lead);
    SpacesClean(lay.gaps);
    ChildrenOk(a);
    QuietPlain(lx, lay.lead);
    QuietChildren(lx, lay.gaps, ChildForms(a));
    QuietJoin(lx, lay.lead, PrintForms(lay.gaps, ChildForms(a)));
  }

  lemma ChildrenOk(a: Ask)
    requires CanonicalAsk(a)
    ensures forall f :: f in ButtonForms(a.buttons) ==> ChildForm(f) && f.name == "button"
    ensures forall f :: f in ItemForms(a.items) ==> ChildForm(f) && f.name == "item"
    ensures forall f :: f in ChildForms(a) ==> ChildForm(f)
  {
    forall f | f in ButtonForms(a.buttons) ensures ChildForm(f) && f.name == "button" {
      var i :| 0 <= i < |a.buttons| && f == ButtonForm(a.buttons[i]);
      assert a.buttons[i] in a.buttons;
    }
    forall f | f in ItemForms(a.items) ensures ChildForm(f) && f.name == "item" {
      var i :| 0 <= i < |a.items| && f == ItemForm(a.items[i]);
      assert a.items[i] in a.items;
    }
  }

  // ----- and is built back into the event -----

  lemma FromPairsSnoc(kvs: seq<(string, string)>, k: string, v: string)
    ensures FromPairs(kvs + [(k, v)]) == FromPairs(kvs)[k := v]
  {
    assert (kvs + [(k, v)])[..|kvs|] == kvs;
  }

  lemma FromPairs2(a: string, u: string, b: string, v: string)
    ensures FromPairs([(a, u), (b, v)]) == map[a := u][b := v]
  {
    FromPairsSnoc([], a, u);
    FromPairsSnoc([(a, u)], b, v);
    assert [] + [(a, u)] == [(a, u)];
    assert [(a, u)] + [(b, v)] == [(a, u), (b, v)];
  }

  lemma BuildCallIs(c: Call)
    requires Canonical(CallEvent(c))
    ensures BuildCall(FromPairs(CallAttrs(c)), c.args) == Some(CallEvent(c))
  {
    hide Strip, AttrValue, Trimmed, Lower;
    var id := if c.correlationId.Some? then [("id", c.correlationId.value)] else [];
    var kvs := [("name", c.name)] + id;
    var m, s := ("memory_claim", BoolText(c.memoryClaim)), ("side_effect", BoolText(c.sideEffect));
    assert CallAttrs(c) == (kvs + [m]) + [s];
    FromPairsSnoc([], "name", c.name);
    assert [] + [("name", c.name)] == [("name", c.name)];
    if c.correlationId.Some? {
      FromPairsSnoc([("name", c.name)], "id", c.correlationId.value);
    } else {
      assert kvs == [("name", c.name)];
    }
    FromPairsSnoc(kvs, m.0, m.1);
    FromPairsSnoc(kvs + [m], s.0, s.1);
    StripTrimmed(c.args);
    LowerFixed("true");
    LowerFixed("false");
  }

  lemma ButtonsIs(lx: Lexicon, seps: seq<string>, bs: seq<Button>, pos: nat)
    requires |seps| == |bs|
    requires forall b :: b in bs ==> AttrValue(b.id) && PlainBody(b.title)
    ensures Buttons(lx, Hits(seps, ButtonForms(bs), pos)) == bs
  {
    hide Strip, AttrValue, Trimmed, PrintForm, AttrsOf, PrintAttrs;
    var fs := Hits(seps, ButtonForms(bs), pos);
    forall i | 0 <= i < |bs| ensures ButtonOf(lx, fs[i]) == bs[i] {
      assert bs[i] in bs;
      var kvs := [("id", bs[i].id)];
      AttrsOfIs(lx, kvs);
      FromPairsSnoc([], "id", bs[i].id);
      assert [] + kvs == kvs;
      StripTrimmed(bs[i].title);
      assert fs[i].hit == HitOf(ButtonForm(bs[i]));
    }
  }

  lemma ItemIs(lx: Lexicon, it: ListItem, f: Found)
    requires AttrValue(it.id) && PlainBody(it.title) && f.hit == HitOf(ItemForm(it))
    requires it.description.Some? ==> it.description.value != "" && AttrValue(it.description.value)
    ensures ItemOf(lx, f) == it
  {
    hide Strip, AttrValue, Trimmed, PrintForm, AttrsOf, PrintAttrs;
    AttrsOfIs(lx, ItemForm(it).attrs);
    StripTrimmed(it.title);
    FromPairsSnoc([], "id", it.id);
    assert [] + [("id", it.id)] == [("id", it.id)];
    if it.description.Some? {
      FromPairs2("id", it.id, "desc", it.description.value);
      assert ItemForm(it).attrs == [("id", it.id), ("desc", it.description.value)];
    } else {
      assert ItemForm(it).attrs == [("id", it.id)];
    }
  }

  lemma ItemsIs(lx: Lexicon, seps: seq<string>, items: seq<ListItem>, pos: nat)
    requires |seps| == |items|
    requires forall it :: it in items ==>
      && AttrValue(it.id) && PlainBody(it.title)
      && (it.description.Some? ==> it.description.value != "" && AttrValue(it.description.value))
    ensures Items(lx, Hits(seps, ItemForms(items), pos)) == items
  {
    hide PrintForm, AttrValue, PlainBody, ItemOf;
    var fs := Hits(seps, ItemForms(items), pos);
    forall i | 0 <= i < |items| ensures ItemOf(lx, fs[i]) == items[i] {
      assert items[i] in items;
      assert fs[i].hit == HitOf(ItemForms(items)[i]);
      ItemIs(lx, items[i], fs[i]);
    }
  }

  lemma {:induction false} PrintFormsJoin(ss: seq<string>, a: seq<Form>, ts: seq<string>, b: seq<Form>)
    requires |ss| == |a| && |ts| == |b|
    ensures PrintForms(ss + ts, a + b) == PrintForms(ss, a) + PrintForms(ts, b)
  {
    hide PrintForm;
    if a == [] {
      assert a + b == b && ss + ts == ts;
    } else {
      assert (a + b)[1..] == a[1..] + b && (ss + ts)[1..] == ss[1..] + ts;
      PrintFormsJoin(ss[1..], a[1..], ts, b);
    }
  }

  lemma FormsMember(fs: seq<Form>, name: string)
    requires forall f :: f in fs ==> ChildForm(f) && f.name == name
    ensures forall i :: 0 <= i < |fs| ==> ChildForm(fs[i]) && fs[i].name == name
  {
    hide ChildForm;
  }

  /** The separators after the buttons and those after the items. */
  function ButtonGaps(lay: Layout, a: Ask): seq<string>
    requires Fits(lay, AskEvent(a))
  {
    lay.gaps[..|a.buttons|]
  }

  function ItemGaps(lay: Layout, a: Ask): seq<string>
    requires Fits(lay, AskEvent(a))
  {
    lay.gaps[|a.buttons|..]
  }

  lemma GapsSplit(lay: Layout, a: Ask)
    requires Fits(lay, AskEvent(a)) && Inside(lay)
    ensures |ButtonGaps(lay, a)| == |ButtonForms(a.buttons)| && |ItemGaps(lay, a)| == |ItemForms(a.items)|
    ensures Clean(ButtonGaps(lay, a)) && Clean(ItemGaps(lay, a))
    ensures PrintForms(lay.gaps, ChildForms(a))
      == PrintForms(ButtonGaps(lay, a), ButtonForms(a.buttons)) + PrintForms(ItemGaps(lay, a), ItemForms(a.items))
  {
    hide PrintForms, ButtonForms, ItemForms, AllSpace;
    forall i | 0 <= i < |lay.gaps| ensures '<' !in lay.gaps[i] { SpaceClean(lay.gaps[i]); }
    PrintFormsJoin(ButtonGaps(lay, a), ButtonForms(a.buttons), ItemGaps(lay, a), ItemForms(a.items));
    assert lay.gaps == ButtonGaps(lay, a) + ItemGaps(lay, a);
  }

  lemma ScanButtonsItems(lx: Lexicon, lead: string, ss: seq<string>, bs: seq<Form>, ts: seq<string>, its: seq<Form>)
    requires |ss| == |bs| && |ts| == |its| && '<' !in lead && Clean(ss) && Clean(ts)
    requires forall i :: 0 <= i < |bs| ==> ChildForm(bs[i]) && bs[i].name == "button"
    requires forall i :: 0 <= i < |its| ==> ChildForm(its[i]) && its[i].name == "item"
    ensures var b, i := PrintForms(ss, bs), PrintForms(ts, its);
      && Scan(lx, ButtonTag, lead + (b + i), 0) == Hits(ss, bs, |lead|)
      && Scan(lx, ItemTag, lead + (b + i), 0) == Hits(ts, its, |lead| + |b|)
  {
    hide ChildForm, PrintForms, MatchAt, Hits, Silent, Clean, Scan;
    var b, i := PrintForms(ss, bs), PrintForms(ts, its);
    assert i + "" == i && b + i + "" == b + i;
    LeadSkipped(lx, ButtonTag, lead, b + i);
    LeadSkipped(lx, ItemTag, lead, b + i);
    ScanMine(lx, "button", ss, bs, i, |lead|);
    SilentOthers(lx, "button", ts, its, "");
    ScanSkip(lx, ButtonTag, i, "", |lead| + |b|);
    SilentOthers(lx, "item", ss, bs, i);
    ScanSkip(lx, ItemTag, b, i, |lead|);
    ScanMine(lx, "item", ts, its, "", |lead| + |b|);
    NothingScanned(lx, |lead| + |b| + |i|);
  }

  lemma NothingScanned(lx: Lexicon, pos: nat)
    ensures Scan(lx, ButtonTag, "", pos) == [] && Scan(lx, ItemTag, "", pos) == []
  {
  }

  /** The two scans of an ask's body find its buttons and its items. */
  lemma ScanAsk(lx: Lexicon, lay: Layout, a: Ask)
    requires Fits(lay, AskEvent(a)) && Inside(lay) && CanonicalAsk(a)
    ensures |ButtonGaps(lay, a)| == |ButtonForms(a.buttons)| && |ItemGaps(lay, a)| == |ItemForms(a.items)|
    ensures var body := lay.lead + PrintForms(lay.gaps, ChildForms(a));
      var start := |lay.lead| + |PrintForms(ButtonGaps(lay, a), ButtonForms(a.buttons))|;
      && Scan(lx, ButtonTag, body, 0) == Hits(ButtonGaps(lay, a), ButtonForms(a.buttons), |lay.lead|)
      && Scan(lx, ItemTag, body, 0) == Hits(ItemGaps(lay, a), ItemForms(a.items), start)
  {
    hide CanonicalAsk, ChildForm, PrintForms, MatchAt, Hits, ButtonForms, ItemForms, AllSpace, AllSpaces, Clean, Scan,
      ButtonGaps, ItemGaps;
    ChildrenOk(a);
    SpaceClean(lay.lead);
    GapsSplit(lay, a);
    FormsMember(ButtonForms(a.buttons), "button");
    FormsMember(ItemForms(a.items), "item");
    ScanButtonsItems(lx, lay.lead, ButtonGaps(lay, a), ButtonForms(a.buttons), ItemGaps(lay, a), ItemForms(a.items));
  }

  lemma AskBodyEmpty(lx: Lexicon, lay: Layout, a: Ask)
    requires Fits(lay, AskEvent(a)) && Inside(lay) && CanonicalAsk(a)
    ensures StripInner(lx, lay.lead + PrintForms(lay.gaps, ChildForms(a))) == ""
  {
    hide CanonicalAsk, ChildForm, PrintForms, Remove, ChildForms, Strip, Concat, Clean, Silent;
    ChildrenOk(a);
    SpaceClean(lay.lead);
    SpacesClean(lay.gaps);
    var text := PrintForms(lay.gaps, ChildForms(a));
    SilentPlain(lx, Inner, lay.lead, text);
    ScanSkip(lx, Inner, lay.lead, text, 0);
    RemoveChildren(lx, lay.gaps, ChildForms(a));
    ConcatSpace(lay.gaps);
    StripSpace(lay.lead + Concat(lay.gaps));
  }

  lemma AskAttrs(lay: Layout, a: Ask)
    requires Fits(lay, AskEvent(a))
    ensures FromPairs(FormOf(lay, AskEvent(a)).attrs)
      == map["body_text" := a.bodyText]["button_text" := a.buttonText]["section_title" := a.sectionTitle]
  {
    hide PrintForms;
    FromPairs2("body_text", a.bodyText, "button_text", a.buttonText);
    FromPairsSnoc([("body_text", a.bodyText), ("button_text", a.buttonText)], "section_title", a.sectionTitle);
    assert FormOf(lay, AskEvent(a)).attrs
      == [("body_text", a.bodyText), ("button_text", a.buttonText)] + [("section_title", a.sectionTitle)];
  }

  lemma BuildAskIs(lx: Lexicon, lay: Layout, a: Ask)
    requires Fits(lay, AskEvent(a)) && Inside(lay) && CanonicalAsk(a)
    ensures var f := FormOf(lay, AskEvent(a)); BuildAsk(lx, FromPairs(f.attrs), f.body) == a
  {
    hide PrintForms, Scan, StripInner, Strip, Hits, Buttons, Items, AttrValue, PlainBody, FromPairs, ChildForms,
      AllSpace, AllSpaces, ButtonGaps, ItemGaps;
    ScanAsk(lx, lay, a);
    AskBodyEmpty(lx, lay, a);
    AskAttrs(lay, a);
    ButtonsIs(lx, ButtonGaps(lay, a), a.buttons, |lay.lead|);
    ItemsIs(lx, ItemGaps(lay, a), a.items, |lay.lead| + |PrintForms(ButtonGaps(lay, a), ButtonForms(a.buttons))|);
    StripTrimmed(a.bodyText);
    StripTrimmed("");
  }

  lemma ScopeIs(s: Scope)
    ensures ScopeOf(Lower(ScopeText(s))) == s
  {
    LowerFixed(ScopeText(s));
  }

  lemma TargetIs(t: Target)
    ensures TargetOf(Lower(TargetText(t))) == t
  {
    LowerFixed(TargetText(t));
  }

  lemma BuildText(lx: Lexicon, lay: Layout, e: Event)
    requires Fits(lay, e) && Canonical(e) && (e.Thinking? || e.Plan? || e.Say? || e.Final?)
    ensures var f := FormOf(lay, e);
      Build(lx, f.name, FromPairs(f.attrs), if f.Pair? then f.body else "") == Some(ReadBack(e))
  {
    hide Strip, Lower, AttrValue, Trimmed, BuildAsk, BuildCall, FromPairs, ScopeOf, TargetOf;
    if !e.Final? { StripTrimmed(e.text); }
  }

  lemma BuildMemory(lx: Lexicon, lay: Layout, e: Event)
    requires Fits(lay, e) && Canonical(e) && (e.Remember? || e.Recall?)
    ensures var f := FormOf(lay, e);
      Build(lx, f.name, FromPairs(f.attrs), if f.Pair? then f.body else "") == Some(ReadBack(e))
  {
    hide Strip, Lower, AttrValue, Trimmed, BuildAsk, BuildCall, FromPairs, ScopeOf, TargetOf;
    FromPairs2("key", e.key, "scope", ScopeText(e.scope));
    StripTrimmed(e.key);
    if e.Remember? { StripTrimmed(e.value); }
    ScopeIs(e.scope);
  }

  lemma BuildOther(lx: Lexicon, lay: Layout, e: Event)
    requires Fits(lay, e) && Canonical(e) && !e.AskEvent? && !e.CallEvent?
    ensures var f := FormOf(lay, e);
      Build(lx, f.name, FromPairs(f.attrs), if f.Pair? then f.body else "") == Some(ReadBack(e))
  {
    hide Strip, Lower, AttrValue, Trimmed, BuildAsk, BuildCall, FromPairs, ScopeOf, TargetOf;
    if e.Thinking? || e.Plan? || e.Say? || e.Final? {
      BuildText(lx, lay, e);
    } else if e.Remember? || e.Recall? {
      BuildMemory(lx, lay, e);
    } else if e.Escalate? {
      FromPairs2("to", TargetText(e.target), "reason", e.reason);
      TargetIs(e.target);
    } else if e.RequestApproval? {
      FromPairs2("capability", e.capability, "label", e.actionLabel);
      StripTrimmed(e.payload);
    } else {
      FromPairs2("name", e.swarm.agent, "objective", e.swarm.objective);
    }
  }

  lemma BuildIs(lx: Lexicon, lay: Layout, e: Event, pos: nat)
    requires Fits(lay, e) && Inside(lay) && Canonical(e)
    ensures BuildTag(lx, TagOf(FormOf(lay, e), pos)) == Some(ReadBack(e))
  {
    hide BuildAsk, BuildCall, FromPairs, Inside, CanonicalAsk;
    match e
    case CallEvent(c) => BuildCallIs(c);
    case AskEvent(a) => BuildAskIs(lx, lay, a);
    case _ => BuildOther(lx, lay, e);
  }

  // ----- written replies -----

  lemma WrittenForms(lx: Lexicon, lead: string, lays: seq<Layout>, es: seq<Event>)
    requires Interleaved(lead, lays, es) && forall e :: e in es ==> Canonical(e)
    ensures TopForms(lx, FormsOf(lays, es)) && Clean(Afters(lays))
  {
    hide TopForm, FormOf, Canonical, Fits, Inside;
    forall i | 0 <= i < |es| ensures TopForm(lx, FormsOf(lays, es)[i]) {
      assert es[i] in es;
      FormIsTop(lx, lays[i], es[i]);
    }
    forall i, j | 0 <= i < j < |es| && FormsOf(lays, es)[i].Single? && FormsOf(lays, es)[j].Pair?
      ensures FormsOf(lays, es)[i].name != FormsOf(lays, es)[j].name
    {
      SinglesApart(lays[i], es[i], lays[j], es[j]);
    }
  }

  lemma SinglesApart(lay: Layout, e: Event, lay': Layout, e': Event)
    requires Fits(lay, e) && Fits(lay', e') && FormOf(lay, e).Single? && FormOf(lay', e').Pair?
    ensures FormOf(lay, e).name != FormOf(lay', e').name
  {
    hide PrintForms, ChildForms, CallAttrs, ScopeText, TargetText;
  }

  /** Before recovery, the tags of a written reply give its events in order, whatever text stands
      between them. */
  lemma TaggedOfPrinted(lx: Lexicon, lead: string, lays: seq<Layout>, es: seq<Event>)
    requires Interleaved(lead, lays, es) && forall e :: e in es ==> Canonical(e)
    ensures Tagged(lx, PrintReply(lead, lays, es)) == ReadBackAll(es)
  {
    hide TopForm, TopForms, FormOf, Canonical, TagsOf, PrintForms, BuildTag, TagOf, ReadBack, Ascending, AllTags,
      BuildAll, Fits, Inside, Clean;
    var fs := FormsOf(lays, es);
    WrittenForms(lx, lead, lays, es);
    TagsOfPrinted(lx, lead, Afters(lays), fs);
    var ts := AllTags(Afters(lays), fs, |lead|);
    AllTagsShape(Afters(lays), fs, |lead|);
    forall i | 0 <= i < |ts| ensures BuildTag(lx, ts[i]) == Some(ReadBackAll(es)[i]) {
      assert es[i] in es;
      BuildIs(lx, lays[i], es[i], ts[i].pos);
    }
    BuildAllIs(lx, ts, ReadBackAll(es));
  }

  lemma LeftoverOfReply(lx: Lexicon, lead: string, lays: seq<Layout>, es: seq<Event>)
    requires Interleaved(lead, lays, es) && forall e :: e in es ==> Canonical(e)
    ensures Leftover(lx, PrintReply(lead, lays, es)) == Strip(TextBetween(lead, lays))
  {
    hide TopForms, FormsOf, Canonical, Leftover, PrintForms, Strip, Fits, Inside, Clean;
    WrittenForms(lx, lead, lays, es);
    LeftoverOfPrinted(lx, lead, Afters(lays), FormsOf(lays, es));
  }

  // ----- recovery -----

  /** The kinds of events that keep the text beside them from being sent. */
  predicate Speaks(e: Event) {
    || e.Say? || e.CallEvent? || e.AskEvent? || e.SwarmEvent? || e.Remember? || e.Recall? || e.RequestApproval?
  }

  /** A reply is exactly its tags when one of them speaks or less than four characters are left
      outside; otherwise the text outside becomes one say, and the reply ends with a final. */
  lemma RecoveryExactly(lx: Lexicon, raw: string)
    ensures var tags, text := Tagged(lx, raw), Leftover(lx, raw);
      Parse(lx, raw) ==
        if (exists e :: e in tags && Speaks(e)) || |text| < 4 then tags
        else if Final in tags then tags + [Say(text)] else tags + [Say(text), Final]
  {
    hide Tagged, Leftover;
    var tags, text := Tagged(lx, raw), Leftover(lx, raw);
    assert (exists e :: e in tags && Speaks(e)) <==> HasSay(tags) || HasActionable(tags);
    assert tags + [Say(text)] + [Final] == tags + [Say(text), Final];
    assert tags + [Say(text)] + [] == tags + [Say(text)];
  }

  lemma ReadBackSpeaks(es: seq<Event>)
    ensures (exists e :: e in ReadBackAll(es) && Speaks(e)) <==> exists e :: e in es && Speaks(e)
    ensures Final in ReadBackAll(es) <==> Final in es
  {
    var rs := ReadBackAll(es);
    forall i | 0 <= i < |es| ensures Speaks(rs[i]) <==> Speaks(es[i]) && (rs[i] == Final <==> es[i] == Final) {}
    if e :| e in es && Speaks(e) {
      var i :| 0 <= i < |es| && es[i] == e;
      assert rs[i] in rs && Speaks(rs[i]);
    }
    if e :| e in rs && Speaks(e) {
      var i :| 0 <= i < |es| && rs[i] == e;
      assert es[i] in es && Speaks(es[i]);
    }
    if Final in es {
      var i :| 0 <= i < |es| && es[i] == Final;
      assert rs[i] == Final;
    }
    if Final in rs {
      var i :| 0 <= i < |es| && rs[i] == Final;
      assert es[i] == Final;
    }
  }

  /** Events with any text between their tags: the events alone when one of them speaks or the text
      is short, otherwise the text as well, and the end of the turn. */
  lemma ParseOfMixed(lx: Lexicon, lead: string, lays: seq<Layout>, es: seq<Event>)
    requires Interleaved(lead, lays, es) && forall e :: e in es ==> Canonical(e)
    ensures var text := Strip(TextBetween(lead, lays));
      Parse(lx, PrintReply(lead, lays, es)) ==
        if (exists e :: e in es && Speaks(e)) || |text| < 4 then ReadBackAll(es)
        else if Final in es then ReadBackAll(es) + [Say(text)] else ReadBackAll(es) + [Say(text), Final]
  {
    hide Tagged, Leftover, Parse, PrintReply, ReadBackAll, Speaks, Strip, Canonical, Fits, Inside;
    TaggedOfPrinted(lx, lead, lays, es);
    LeftoverOfReply(lx, lead, lays, es);
    RecoveryExactly(lx, PrintReply(lead, lays, es));
    ReadBackSpeaks(es);
  }

  // ----- the round trip -----

  lemma SpacesInterleave(lead: string, lays: seq<Layout>, es: seq<Event>)
    requires LaidOut(lead, lays, es)
    ensures Interleaved(lead, lays, es) && Strip(TextBetween(lead, lays)) == ""
  {
    hide Fits, Strip, Concat, AllSpace;
    SpaceClean(lead);
    forall i | 0 <= i < |lays| ensures '<' !in lays[i].after { SpaceClean(lays[i].after); }
    ConcatSpace(Afters(lays));
    SpacesJoin(lead, Concat(Afters(lays)));
    StripSpace(TextBetween(lead, lays));
  }

  lemma SpacesJoin(a: string, b: string)
    requires AllSpace(a) && AllSpace(b)
    ensures AllSpace(a + b)
  {
    hide IsSpace;
  }

  /** Parsing a written reply returns its events in order, up to the context of swarms, whatever
      whitespace stands before, between and after the tags. */
  lemma ParseOfPrint(lx: Lexicon, lead: string, lays: seq<Layout>, es: seq<Event>)
    requires LaidOut(lead, lays, es) && forall e :: e in es ==> Canonical(e)
    ensures Parse(lx, PrintReply(lead, lays, es)) == ReadBackAll(es)
  {
    hide Parse, PrintReply, ReadBackAll, LaidOut, Interleaved, Canonical, Strip, TextBetween, Speaks;
    SpacesInterleave(lead, lays, es);
    ParseOfMixed(lx, lead, lays, es);
  }

  /** Exactly the replies without swarm contexts make the round trip unchanged. */
  lemma RoundTripExact(lx: Lexicon, lead: string, lays: seq<Layout>, es: seq<Event>)
    requires LaidOut(lead, lays, es) && forall e :: e in es ==> Canonical(e)
    ensures Parse(lx, PrintReply(lead, lays, es)) == es
      <==> forall i :: 0 <= i < |es| && es[i].SwarmEvent? ==> es[i].swarm.context == ""
  {
    hide Parse, PrintReply, Canonical, AllSpace, AllSpaces, Fits;
    ParseOfPrint(lx, lead, lays, es);
    if ReadBackAll(es) == es {
      forall i | 0 <= i < |es| && es[i].SwarmEvent? ensures es[i].swarm.context == "" {
        assert ReadBackAll(es)[i] == es[i];
      }
    }
  }

  // ----- what recovery sends -----

  lemma {:induction false} RemoveSubsequence(lx: Lexicon, p: Pattern, s: string)
    ensures Subsequence(Remove(lx, p, s), s)
    decreases |s|
  {
    hide MatchAt, Subsequence;
    if s == "" {
      SubsequencePrefix("", s);
      assert "" + s == s;
    } else {
      var h := MatchAt(lx, p, s);
      if h.Some? {
        RemoveSubsequence(lx, p, s[h.value.len..]);
        SubsequenceSuffix(s[..h.value.len], Remove(lx, p, s[h.value.len..]), s[h.value.len..]);
        assert s == s[..h.value.len] + s[h.value.len..];
      } else {
        RemoveSubsequence(lx, p, s[1..]);
        SubsequenceCons(s[0], Remove(lx, p, s[1..]), s[1..]);
        assert s == [s[0]] + s[1..];
      }
    }
  }

  /** What recovery sends is made of the reply's own characters in their order, and a reply
      without tags is sent whole, trimmed. */
  lemma RecoveredText(lx: Lexicon, raw: string)
    ensures Subsequence(Leftover(lx, raw), raw)
    ensures '<' !in raw ==> Leftover(lx, raw) == Strip(raw)
  {
    hide Remove, Subsequence, Strip;
    var a := Remove(lx, Outer, raw);
    var b := Remove(lx, SelfClosing, a);
    var c := Remove(lx, Shorthand, b);
    RemoveSubsequence(lx, Outer, raw);
    RemoveSubsequence(lx, SelfClosing, a);
    RemoveSubsequence(lx, Shorthand, b);
    StripSubsequence(c);
    SubsequenceTrans(Strip(c), c, b);
    SubsequenceTrans(Strip(c), b, a);
    SubsequenceTrans(Strip(c), a, raw);
    if '<' !in raw {
      RemovePlain(lx, Outer, raw);
      RemovePlain(lx, SelfClosing, raw);
      RemovePlain(lx, Shorthand, raw);
    }
  }

  /** Untagged text of at least four characters, in a reply that neither says nor asks for
      anything, becomes one message, and the reply ends the turn. */
  lemma RecoveredReply(lx: Lexicon, raw: string)
    requires !HasSay(Tagged(lx, raw)) && !HasActionable(Tagged(lx, raw)) && |Leftover(lx, raw)| >= 4
    ensures var es := Parse(lx, raw);
      && HasFinal(es) && !HasActionable(es)
      && (forall i :: 0 <= i < |es| && es[i].Say? ==> i == |Tagged(lx, raw)| && es[i].text == Leftover(lx, raw))
      && |es| > |Tagged(lx, raw)| && es[|Tagged(lx, raw)|] == Say(Leftover(lx, raw))
      && Tagged(lx, raw) <= es
  {
    hide Tagged, Leftover;
    var base := Tagged(lx, raw);
    var es := Parse(lx, raw);
    forall e | e in es && e !in base ensures e == Say(Leftover(lx, raw)) || e == Final {}
    assert forall i :: 0 <= i < |base| ==> es[i] == base[i] && es[i] in base;
    assert es[|es| - 1] in es;
    if HasFinal(base) { assert Final in es; }
  }

  /** A reply that is not recovered is exactly its tags. */
  lemma ParseEmpty(lx: Lexicon)
    ensures Parse(lx, "") == []
  {
    assert TagsOf(lx, "") == [];
    assert Strip("") == "";
  }
}
