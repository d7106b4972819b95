/** Every way a tag may be spelled: which attributes stand in for each other, what is taken when
    they are missing, and which tags are dropped. */
module Spellings {
  import opened Text
  import opened Tags
  import opened Patterns
  import opened Printer
  import opened Parser
  import opened TagLemmas
  import opened FormLemmas
  import opened ChildLemmas
  import opened PrintParse
  import opened RoundTrip

  // ----- attributes as written -----

  /** What the last attribute of that name says. */
  function Value(kvs: seq<(string, string)>, key: string): Option<string> {
    if kvs == [] then None
    else if kvs[|kvs| - 1].0 == key then Some(kvs[|kvs| - 1].1)
    else Value(kvs[..|kvs| - 1], key)
  }

  function Said(kvs: seq<(string, string)>, key: string): string {
    match Value(kvs, key) case Some(v) => v case None => ""
  }

  /** The first text that is not empty. */
  function First(texts: seq<string>): string {
    if texts == [] then "" else if texts[0] != "" then texts[0] else First(texts[1..])
  }

  /** A word in any mix of capital and small letters. */
  predicate AnyCase(t: string, word: string) {
    |t| == |word| && forall i :: 0 <= i < |t| ==> t[i] == word[i] || (t[i] as int) + 32 == word[i] as int
  }

  predicate Word(s: string) { forall i :: 0 <= i < |s| ==> 'a' <= s[i] <= 'z' && s[i] != 'k' }

  lemma {:induction false} ValueIs(kvs: seq<(string, string)>, key: string)
    ensures Lookup(FromPairs(kvs), key) == Value(kvs, key)
  {
    if kvs != [] { ValueIs(kvs[..|kvs| - 1], key); }
  }

  lemma GetIs(kvs: seq<(string, string)>, key: string, default: string)
    ensures Get(FromPairs(kvs), key, default) == if Value(kvs, key).Some? then Value(kvs, key).value else default
  {
    hide FromPairs, Value;
    ValueIs(kvs, key);
  }

  lemma AnyCaseIs(t: string, word: string)
    requires Word(word)
    ensures Lower(t) == word <==> AnyCase(t, word)
  {
    if Lower(t) == word {
      forall i | 0 <= i < |t| ensures t[i] == word[i] || (t[i] as int) + 32 == word[i] as int {
        assert Lower(t)[i] == word[i];
      }
    }
    if AnyCase(t, word) {
      forall i | 0 <= i < |t| ensures Lower(t)[i] == word[i] {}
    }
  }

  // ----- what a tag is read as -----

  function Body(f: Form): string { if f.Pair? then f.body else "" }

  function ScopeSaid(t: string): Scope {
    if AnyCase(t, "thread") then Thread else if AnyCase(t, "tenant") then Tenant else Principal
  }

  function TargetSaid(t: string): Target {
    if AnyCase(t, "owner") then Owner else if AnyCase(t, "admin") then Admin else Operator
  }

  /** A call needs a name, under either attribute; an empty one is none. */
  predicate ReadsCall(f: Form, e: Option<Event>) {
    var name := First([Said(f.attrs, "name"), Said(f.attrs, "capability")]);
    if name == "" then e == None
    else
      e == Some(CallEvent(Call(name, Value(f.attrs, "id"), Strip(Body(f)),
        AnyCase(Said(f.attrs, "memory_claim"), "true"), AnyCase(Said(f.attrs, "side_effect"), "true"))))
  }

  /** A memory tag needs a key; a scope that is missing or not one of the three is the principal's. */
  predicate ReadsMemory(f: Form, e: Option<Event>) {
    var key, scope := Strip(Said(f.attrs, "key")), ScopeSaid(Said(f.attrs, "scope"));
    if key == "" then e == None
    else if f.name == "remember" then e == Some(Remember(key, Strip(Body(f)), scope))
    else e == Some(Recall(key, scope))
  }

  predicate ReadsEscalation(f: Form, e: Option<Event>) {
    e == Some(Escalate(
      First([Said(f.attrs, "reason"), Strip(Body(f)), "unspecified"]), TargetSaid(Said(f.attrs, "to"))))
  }

  predicate ReadsRequest(f: Form, e: Option<Event>) {
    var capability := Said(f.attrs, "capability");
    e == Some(RequestApproval(
      First([Said(f.attrs, "label"), Said(f.attrs, "action"), capability]), capability, Strip(Body(f))))
  }

  predicate ReadsSwarm(f: Form, e: Option<Event>) {
    e == Some(SwarmEvent(Swarm(
      First([Said(f.attrs, "name"), Said(f.attrs, "agent"), "subagent"]),
      First([Said(f.attrs, "objective"), Strip(Body(f)), "unspecified"]),
      Said(f.attrs, "context"))))
  }

  /** The nested tags of one name, in order. */
  function Named(fs: seq<Form>, name: string): seq<Form> {
    if fs == [] then []
    else if fs[0].name == name then [fs[0]] + Named(fs[1..], name) else Named(fs[1..], name)
  }

  predicate ReadsButtons(fs: seq<Form>, bs: seq<Button>) {
    |bs| == |fs| && forall i :: 0 <= i < |fs| ==> bs[i] == Button(Said(fs[i].attrs, "id"), Strip(Body(fs[i])))
  }

  /** A description may be spelled out; an empty short one counts as none. */
  predicate ReadsItems(fs: seq<Form>, items: seq<ListItem>) {
    |items| == |fs| && forall i :: 0 <= i < |fs| ==>
      items[i] == ListItem(Said(fs[i].attrs, "id"), Strip(Body(fs[i])),
        if Said(fs[i].attrs, "desc") != "" then Value(fs[i].attrs, "desc") else Value(fs[i].attrs, "description"))
  }

  function Default(v: Option<string>, default: string): string {
    match v case Some(t) => t case None => default
  }

  /** Nested tags in any order with any text between them: that text is what is asked, and only if
      it is empty, what the attributes say. */
  ghost predicate ReadsAskAs(f: Form, a: Ask, lead: string, gaps: seq<string>, cs: seq<Form>) {
    && |gaps| == |cs| && '<' !in lead && Clean(gaps) && (forall i :: 0 <= i < |cs| ==> ChildForm(cs[i]))
    && Body(f) == lead + PrintForms(gaps, cs)
    && a.bodyText
      == First([Strip(lead + Concat(gaps)), Strip(Said(f.attrs, "body_text")), Strip(Said(f.attrs, "body"))])
    && ReadsButtons(Named(cs, "button"), a.buttons) && ReadsItems(Named(cs, "item"), a.items)
    && a.buttonText == Default(Value(f.attrs, "button_text"), "Choose")
    && a.sectionTitle == Default(Value(f.attrs, "section_title"), "Options")
  }

  ghost predicate ReadsAsk(f: Form, e: Option<Event>) {
    e.Some? && e.value.AskEvent? && exists lead, gaps, cs :: ReadsAskAs(f, e.value.ask, lead, gaps, cs)
  }

  /** What a written tag is read as, None when it is dropped. */
  ghost predicate Reads(f: Form, e: Option<Event>) {
    if f.name == "thinking" then e == Some(Thinking(Strip(Body(f))))
    else if f.name == "plan" then e == Some(Plan(Strip(Body(f))))
    else if f.name == "say" then e == Some(Say(Strip(Body(f))))
    else if f.name == "final" then e == Some(Final)
    else if f.name == "call" then ReadsCall(f, e)
    else if f.name == "ask" then ReadsAsk(f, e)
    else if f.name == "remember" || f.name == "recall" then ReadsMemory(f, e)
    else if f.name == "escalate" then ReadsEscalation(f, e)
    else if f.name == "request_approval" then ReadsRequest(f, e)
    else f.name == "swarm" && ReadsSwarm(f, e)
  }

  /** Any attributes, and a body without nested tags but in an ask; five kinds may be self-closing. */
  predicate Spelled(f: Form) {
    && AttrsOk(f.attrs)
    && if f.Single? then f.name in SINGLE_NAMES else f.name in OUTER_NAMES && (f.name == "ask" || '<' !in f.body)
  }

  // ----- and why -----

  lemma FirstIs(a: string, b: string, c: string)
    ensures First([a, b]) == Or(a, b) && First([a, b, c]) == Or(a, Or(b, c))
  {
    FirstCons(a, [b]);
    FirstCons(a, [b, c]);
    FirstCons(b, [c]);
    FirstCons(b, []);
    FirstCons(c, []);
    assert [b] + [] == [b] && [c] + [] == [c] && [a] + [b] == [a, b] && [b] + [c] == [b, c];
    assert [a] + [b, c] == [a, b, c];
  }

  lemma FirstCons(text: string, rest: seq<string>)
    ensures First([text] + rest) == if text != "" then text else First(rest)
    ensures First([]) == ""
  {
    assert ([text] + rest)[1..] == rest;
  }

  lemma CallRead(f: Form, e: Option<Event>)
    requires ReadsCall(f, e)
    ensures BuildCall(FromPairs(f.attrs), Body(f)) == e
  {
    hide Strip, FromPairs, Value, First, Lower, AnyCase, Body;
    GetIs(f.attrs, "name", "");
    GetIs(f.attrs, "capability", "");
    ValueIs(f.attrs, "id");
    GetIs(f.attrs, "memory_claim", "");
    GetIs(f.attrs, "side_effect", "");
    FirstIs(Said(f.attrs, "name"), Said(f.attrs, "capability"), "");
    AnyCaseIs(Said(f.attrs, "memory_claim"), "true");
    AnyCaseIs(Said(f.attrs, "side_effect"), "true");
  }

  lemma ScopeRead(kvs: seq<(string, string)>)
    ensures ScopeOf(Lower(Get(FromPairs(kvs), "scope", "principal"))) == ScopeSaid(Said(kvs, "scope"))
  {
    hide FromPairs, Value, Lower, AnyCase;
    GetIs(kvs, "scope", "principal");
    var t := Said(kvs, "scope");
    AnyCaseIs(t, "thread");
    AnyCaseIs(t, "tenant");
    LowerFixed("principal");
    NoWord();
  }

  lemma NoWord()
    ensures !AnyCase("", "thread") && !AnyCase("", "tenant") && !AnyCase("", "owner") && !AnyCase("", "admin")
  {
  }

  lemma TargetRead(kvs: seq<(string, string)>)
    ensures TargetOf(Lower(Get(FromPairs(kvs), "to", "operator"))) == TargetSaid(Said(kvs, "to"))
  {
    hide FromPairs, Value, Lower, AnyCase;
    GetIs(kvs, "to", "operator");
    var t := Said(kvs, "to");
    AnyCaseIs(t, "owner");
    AnyCaseIs(t, "admin");
    LowerFixed("operator");
    NoWord();
  }

  lemma MemoryRead(lx: Lexicon, f: Form, e: Option<Event>)
    requires (f.name == "remember" || f.name == "recall") && ReadsMemory(f, e)
    ensures Build(lx, f.name, FromPairs(f.attrs), Body(f)) == e
  {
    hide Strip, FromPairs, Value, Lower, ScopeOf, ScopeSaid, BuildAsk, BuildCall, Body;
    GetIs(f.attrs, "key", "");
    ScopeRead(f.attrs);
  }

  lemma OtherRead(lx: Lexicon, f: Form, e: Option<Event>)
    requires f.name == "escalate" || f.name == "request_approval" || f.name == "swarm"
    requires Reads(f, e)
    ensures Build(lx, f.name, FromPairs(f.attrs), Body(f)) == e
  {
    hide Strip, FromPairs, Value, First, Lower, TargetOf, TargetSaid, BuildAsk, BuildCall, Body;
    var kvs, body := f.attrs, Strip(Body(f));
    if f.name == "escalate" {
      GetIs(kvs, "reason", "");
      FirstIs(Said(kvs, "reason"), body, "unspecified");
      TargetRead(kvs);
    } else if f.name == "request_approval" {
      GetIs(kvs, "capability", "");
      GetIs(kvs, "label", "");
      GetIs(kvs, "action", "");
      FirstIs(Said(kvs, "label"), Said(kvs, "action"), Said(kvs, "capability"));
    } else {
      GetIs(kvs, "name", "");
      GetIs(kvs, "agent", "");
      GetIs(kvs, "objective", "");
      GetIs(kvs, "context", "");
      FirstIs(Said(kvs, "name"), Said(kvs, "agent"), "subagent");
      FirstIs(Said(kvs, "objective"), body, "unspecified");
    }
  }

  // ----- asks -----

  /** The scan for one kind of nested tag finds those of its name, in order. */
  lemma {:induction false} ScanNamed(lx: Lexicon, name: string, gaps: seq<string>, cs: seq<Form>, pos: nat)
    requires |gaps| == |cs| && ChildName(name) && Clean(gaps) && forall i :: 0 <= i < |cs| ==> ChildForm(cs[i])
    ensures var found := Scan(lx, PatternFor(name), PrintForms(gaps, cs), pos);
      |found| == |Named(cs, name)| && forall i :: 0 <= i < |found| ==> found[i].hit == HitOf(Named(cs, name)[i])
  {
    hide MatchAt, PrintForm, PatternFor, HitOf, Scan, ChildForm, ChildName, Silent;
    if cs == [] {
      NothingNamed(lx, name, pos);
    } else {
      var more, next := PrintForms(gaps[1..], cs[1..]), pos + |PrintForm(cs[0])| + |gaps[0]|;
      assert PrintForms(gaps, cs) == PrintForm(cs[0]) + (gaps[0] + more);
      ScanNamed(lx, name, gaps[1..], cs[1..], next);
      if cs[0].name == name {
        ScanOne(lx, gaps[0], cs[0], more, pos);
      } else {
        PatternForChild(name);
        ChildMiss(lx, name, cs[0], gaps[0] + more);
        ScanSkip(lx, PatternFor(name), PrintForm(cs[0]), gaps[0] + more, pos);
        SepSilent(lx, PatternFor(name), gaps[0], more);
        ScanSkip(lx, PatternFor(name), gaps[0], more, pos + |PrintForm(cs[0])|);
      }
    }
  }

  lemma NothingNamed(lx: Lexicon, name: string, pos: nat)
    ensures Scan(lx, PatternFor(name), PrintForms([], []), pos) == []
  {
  }

  lemma {:induction false} NamedOnly(cs: seq<Form>, name: string)
    requires forall i :: 0 <= i < |cs| ==> ChildForm(cs[i])
    ensures forall i :: 0 <= i < |Named(cs, name)| ==> ChildForm(Named(cs, name)[i])
  {
    hide ChildForm;
    if cs != [] { NamedOnly(cs[1..], name); }
  }

  lemma ButtonsRead(lx: Lexicon, found: seq<Found>, fs: seq<Form>, bs: seq<Button>)
    requires |found| == |fs| && forall i :: 0 <= i < |fs| ==> ChildForm(fs[i]) && found[i].hit == HitOf(fs[i])
    requires ReadsButtons(fs, bs)
    ensures Buttons(lx, found) == bs
  {
    hide Strip, AttrsOf, PrintAttrs, FromPairs, Value, PrintForm;
    forall i | 0 <= i < |fs| ensures ButtonOf(lx, found[i]) == bs[i] {
      AttrsOfIs(lx, fs[i].attrs);
      GetIs(fs[i].attrs, "id", "");
    }
  }

  lemma ItemsRead(lx: Lexicon, found: seq<Found>, fs: seq<Form>, items: seq<ListItem>)
    requires |found| == |fs| && forall i :: 0 <= i < |fs| ==> ChildForm(fs[i]) && found[i].hit == HitOf(fs[i])
    requires ReadsItems(fs, items)
    ensures Items(lx, found) == items
  {
    hide Strip, AttrsOf, PrintAttrs, FromPairs, Value, PrintForm;
    forall i | 0 <= i < |fs| ensures ItemOf(lx, found[i]) == items[i] {
      AttrsOfIs(lx, fs[i].attrs);
      GetIs(fs[i].attrs, "id", "");
      GetIs(fs[i].attrs, "desc", "");
      ValueIs(fs[i].attrs, "desc");
      ValueIs(fs[i].attrs, "description");
    }
  }

  lemma NestedScanned(lx: Lexicon, name: string, lead: string, gaps: seq<string>, cs: seq<Form>)
    requires |gaps| == |cs| && ChildName(name) && '<' !in lead && Clean(gaps)
    requires forall i :: 0 <= i < |cs| ==> ChildForm(cs[i])
    ensures var found := Scan(lx, PatternFor(name), lead + PrintForms(gaps, cs), 0); var fs := Named(cs, name);
      |found| == |fs| && forall i :: 0 <= i < |fs| ==> ChildForm(fs[i]) && found[i].hit == HitOf(fs[i])
  {
    hide PrintForms, PatternFor, HitOf, Scan, ChildForm, Clean;
    PatternForChild(name);
    LeadSkipped(lx, PatternFor(name), lead, PrintForms(gaps, cs));
    ScanNamed(lx, name, gaps, cs, |lead|);
    NamedOnly(cs, name);
  }

  lemma TextAround(lx: Lexicon, lead: string, gaps: seq<string>, cs: seq<Form>)
    requires |gaps| == |cs| && '<' !in lead && Clean(gaps) && forall i :: 0 <= i < |cs| ==> ChildForm(cs[i])
    ensures StripInner(lx, lead + PrintForms(gaps, cs)) == Strip(lead + Concat(gaps))
  {
    hide ChildForm, PrintForms, Remove, Strip, Concat, Clean, Silent;
    SilentPlain(lx, Inner, lead, PrintForms(gaps, cs));
    ScanSkip(lx, Inner, lead, PrintForms(gaps, cs), 0);
    RemoveChildren(lx, gaps, cs);
  }

  lemma AskRead(lx: Lexicon, f: Form, a: Ask, lead: string, gaps: seq<string>, cs: seq<Form>)
    requires ReadsAskAs(f, a, lead, gaps, cs)
    ensures BuildAsk(lx, FromPairs(f.attrs), Body(f)) == a && Quiet(lx, Body(f))
  {
    hide Strip, Scan, PrintForms, FromPairs, Value, First, Concat, ChildForm, Clean, Named, Quiet, StripInner, Buttons,
      Items, ReadsButtons, ReadsItems, HitOf, Body;
    NestedScanned(lx, "button", lead, gaps, cs);
    NestedScanned(lx, "item", lead, gaps, cs);
    ButtonsRead(lx, Scan(lx, ButtonTag, Body(f), 0), Named(cs, "button"), a.buttons);
    ItemsRead(lx, Scan(lx, ItemTag, Body(f), 0), Named(cs, "item"), a.items);
    TextAround(lx, lead, gaps, cs);
    AskTexts(f, lead, gaps);
    QuietPlain(lx, lead);
    QuietChildren(lx, gaps, cs);
    QuietJoin(lx, lead, PrintForms(gaps, cs));
  }

  lemma AskTexts(f: Form, lead: string, gaps: seq<string>)
    ensures var kvs, attrs, text := f.attrs, FromPairs(f.attrs), Strip(lead + Concat(gaps));
      && First([text, Strip(Said(kvs, "body_text")), Strip(Said(kvs, "body"))])
        == Or(text, Or(Strip(Get(attrs, "body_text", "")), Strip(Get(attrs, "body", ""))))
      && Get(attrs, "button_text", "Choose") == Default(Value(kvs, "button_text"), "Choose")
      && Get(attrs, "section_title", "Options") == Default(Value(kvs, "section_title"), "Options")
  {
    hide Strip, FromPairs, Value, First, Concat;
    var kvs := f.attrs;
    GetIs(kvs, "body_text", "");
    GetIs(kvs, "body", "");
    GetIs(kvs, "button_text", "Choose");
    GetIs(kvs, "section_title", "Options");
    FirstIs(Strip(lead + Concat(gaps)), Strip(Said(kvs, "body_text")), Strip(Said(kvs, "body")));
  }

  // ----- spelled replies -----

  lemma BuiltAsRead(lx: Lexicon, f: Form, e: Option<Event>, pos: nat)
    requires Spelled(f) && Reads(f, e)
    ensures TopForm(lx, f) && BuildTag(lx, TagOf(f, pos)) == e
  {
    hide Strip, FromPairs, BuildAsk, BuildCall, ReadsCall, ReadsMemory, ReadsEscalation, ReadsRequest, ReadsSwarm,
      ReadsAskAs, Quiet, AttrsOk;
    SinglesAreOuter();
    if f.name == "ask" {
      var lead, gaps, cs :| ReadsAskAs(f, e.value.ask, lead, gaps, cs);
      AskRead(lx, f, e.value.ask, lead, gaps, cs);
    } else {
      if f.Pair? { QuietPlain(lx, f.body); }
      if f.name == "call" {
        CallRead(f, e);
      } else if f.name == "remember" || f.name == "recall" {
        MemoryRead(lx, f, e);
      } else if f.name == "escalate" || f.name == "request_approval" || f.name == "swarm" {
        OtherRead(lx, f, e);
      }
    }
  }

  /** The events that were not dropped, in order. */
  function Present(es: seq<Option<Event>>): seq<Event> {
    if es == [] then []
    else Present(es[..|es| - 1]) + (match es[|es| - 1] case Some(e) => [e] case None => [])
  }

  lemma {:induction false} BuildAllPresent(lx: Lexicon, ts: seq<RawTag>, es: seq<Option<Event>>)
    requires |ts| == |es| && forall i :: 0 <= i < |ts| ==> BuildTag(lx, ts[i]) == es[i]
    ensures BuildAll(lx, ts) == Present(es)
  {
    hide BuildTag;
    if ts != [] { BuildAllPresent(lx, ts[..|ts| - 1], es[..|es| - 1]); }
  }

  ghost predicate AllRead(fs: seq<Form>, es: seq<Option<Event>>) {
    |es| == |fs| && Unmixed(fs) && forall i :: 0 <= i < |fs| ==> Spelled(fs[i]) && Reads(fs[i], es[i])
  }

  lemma SpelledForms(lx: Lexicon, fs: seq<Form>, es: seq<Option<Event>>)
    requires AllRead(fs, es)
    ensures TopForms(lx, fs)
  {
    hide Spelled, Reads, TopForm, Unmixed;
    forall i | 0 <= i < |fs| ensures TopForm(lx, fs[i]) { BuiltAsRead(lx, fs[i], es[i], 0); }
  }

  lemma TaggedAsRead(lx: Lexicon, lead: string, seps: seq<string>, fs: seq<Form>, es: seq<Option<Event>>)
    requires |seps| == |fs| && '<' !in lead && Clean(seps) && AllRead(fs, es)
    ensures Tagged(lx, lead + PrintForms(seps, fs)) == Present(es)
  {
    hide Spelled, Reads, TopForm, TopForms, TagsOf, PrintForms, BuildTag, TagOf, Ascending, AllTags, BuildAll, Clean,
      Unmixed;
    SpelledForms(lx, fs, es);
    TagsOfPrinted(lx, lead, seps, fs);
    var ts := AllTags(seps, fs, |lead|);
    AllTagsShape(seps, fs, |lead|);
    forall i | 0 <= i < |ts| ensures BuildTag(lx, ts[i]) == es[i] { BuiltAsRead(lx, fs[i], es[i], ts[i].pos); }
    BuildAllPresent(lx, ts, es);
  }

  /** Whatever tags a reply is made of and however they are spelled, its events are what each of
      them is read as, in order; the text between them counts only when none of these speaks. */
  lemma ParseAsRead(lx: Lexicon, lead: string, seps: seq<string>, fs: seq<Form>, es: seq<Option<Event>>)
    requires |seps| == |fs| && '<' !in lead && Clean(seps) && AllRead(fs, es)
    ensures var tags, text := Present(es), Strip(lead + Concat(seps));
      Parse(lx, lead + PrintForms(seps, fs)) ==
        if (exists e :: e in tags && Speaks(e)) || |text| < 4 then tags
        else if Final in tags then tags + [Say(text)] else tags + [Say(text), Final]
  {
    hide Tagged, Leftover, Parse, PrintForms, Speaks, Strip, Clean, Concat, Present, AllRead, TopForms;
    SpelledForms(lx, fs, es);
    TaggedAsRead(lx, lead, seps, fs, es);
    LeftoverOfPrinted(lx, lead, seps, fs);
    RecoveryExactly(lx, lead + PrintForms(seps, fs));
  }
}
