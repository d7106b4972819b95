/** Parsing a written reply gives back its events. */
module PrintParse {
  import opened Text
  import opened Tags
  import opened Patterns
  import opened Printer
  import opened Parser
  import opened TagLemmas
  import opened FormLemmas
  import opened ChildLemmas

  // ----- the three scans -----

  function OuterFound(seps: seq<string>, fs: seq<Form>, pos: nat): seq<Found>
    requires |seps| == |fs|
  {
    if fs == [] then []
    else
      var rest := OuterFound(seps[1..], fs[1..], pos + |PrintForm(fs[0])| + |seps[0]|);
      if fs[0].Pair? then [Found(pos, HitOf(fs[0]))] + rest else rest
  }

  function SingleFound(seps: seq<string>, fs: seq<Form>, pos: nat): seq<Found>
    requires |seps| == |fs|
  {
    if fs == [] then []
    else
      var rest := SingleFound(seps[1..], fs[1..], pos + |PrintForm(fs[0])| + |seps[0]|);
      if fs[0].Single? then [Found(pos, HitOf(fs[0]))] + rest else rest
  }

  /** What is left of the forms once the paired ones are removed. */
  function Residue(seps: seq<string>, fs: seq<Form>): string
    requires |seps| == |fs|
  {
    if fs == [] then ""
    else
      var rest := seps[0] + Residue(seps[1..], fs[1..]);
      if fs[0].Pair? then rest else PrintForm(fs[0]) + rest
  }

  lemma {:induction false} NeverClosed(lx: Lexicon, n: string, seps: seq<string>, fs: seq<Form>)
    requires |seps| == |fs|
    requires n in OUTER_NAMES && Clean(seps) && TopForms(lx, fs)
    requires forall i :: 0 <= i < |fs| && fs[i].Pair? ==> fs[i].name != n
    ensures FindClose(BackReference, n, PrintForms(seps, fs)) == None
  {
    hide CloseTag, NoClose, PrintForm, TopForm, TopForms;
    if fs != [] {
      var one, more := PrintForm(fs[0]), PrintForms(seps[1..], fs[1..]);
      TopFormsHead(lx, fs);
      NoCloseForm(lx, n, fs[0], seps[0] + more);
      NeverClosed(lx, n, seps[1..], fs[1..]);
      NoClosePlain(BackReference, n, seps[0], more);
      FindCloseSkip(BackReference, n, seps[0], more);
      FindCloseSkip(BackReference, n, one, seps[0] + more);
      assert PrintForms(seps, fs) == one + (seps[0] + more);
    }
  }

  lemma SilentPlain(lx: Lexicon, p: Pattern, a: string, b: string)
    requires '<' !in a
    ensures Silent(lx, p, a, b)
  {
    hide MatchAt;
  }

  lemma TopFormsHead(lx: Lexicon, fs: seq<Form>)
    requires fs != [] && TopForms(lx, fs)
    ensures TopForm(lx, fs[0]) && TopForms(lx, fs[1..])
    ensures fs[0].name in OUTER_NAMES
    ensures fs[0].Single? ==> forall i :: 0 <= i < |fs[1..]| && fs[1..][i].Pair? ==> fs[1..][i].name != fs[0].name
  {
    hide Quiet, AttrsOk;
  }

  lemma OuterStepPair(lx: Lexicon, sep: string, f: Form, more: string, pos: nat)
    requires f.Pair? && '<' !in sep && TopForm(lx, f)
    ensures var text := PrintForm(f) + (sep + more);
      && Scan(lx, Outer, text, pos) == [Found(pos, HitOf(f))] + Scan(lx, Outer, more, pos + |PrintForm(f)| + |sep|)
      && Remove(lx, Outer, text) == sep + Remove(lx, Outer, more)
  {
    hide MatchAt, PrintForm, Silent, HitOf, Scan, Remove, TopForm;
    SilentPlain(lx, Outer, sep, more);
    ScanSkip(lx, Outer, sep, more, pos + |PrintForm(f)|);
    OuterPair(lx, f, sep + more);
    FormNonEmpty(f);
    ScanHit(lx, Outer, PrintForm(f), sep + more, HitOf(f), pos);
  }

  lemma OuterStepSingle(lx: Lexicon, sep: string, f: Form, more: string, pos: nat)
    requires f.Single? && '<' !in sep && TopForm(lx, f) && FindClose(BackReference, f.name, more) == None
    ensures var text := PrintForm(f) + (sep + more);
      && Scan(lx, Outer, text, pos) == Scan(lx, Outer, more, pos + |PrintForm(f)| + |sep|)
      && Remove(lx, Outer, text) == PrintForm(f) + (sep + Remove(lx, Outer, more))
  {
    hide MatchAt, PrintForm, Silent, Scan, Remove, TopForm, FindClose, NoClose;
    SilentPlain(lx, Outer, sep, more);
    ScanSkip(lx, Outer, sep, more, pos + |PrintForm(f)|);
    NoClosePlain(BackReference, f.name, sep, more);
    FindCloseSkip(BackReference, f.name, sep, more);
    OuterSingle(lx, f, sep + more);
    ScanSkip(lx, Outer, PrintForm(f), sep + more, pos);
  }

  lemma EmptyText(lx: Lexicon, p: Pattern, pos: nat)
    ensures Scan(lx, p, "", pos) == [] && Remove(lx, p, "") == ""
  {
  }

  lemma CleanHead(seps: seq<string>)
    requires Clean(seps) && seps != []
    ensures '<' !in seps[0] && Clean(seps[1..])
  {
  }

  lemma SingleStepPair(lx: Lexicon, sep: string, f: Form, more: string, pos: nat)
    requires f.Pair? && '<' !in sep && TopForm(lx, f)
    ensures Scan(lx, SelfClosing, PrintForm(f) + (sep + more), pos)
      == Scan(lx, SelfClosing, more, pos + |PrintForm(f)| + |sep|)
  {
    hide MatchAt, PrintForm, Silent, Scan, TopForm;
    SilentPlain(lx, SelfClosing, sep, more);
    ScanSkip(lx, SelfClosing, sep, more, pos + |PrintForm(f)|);
    SinglePair(lx, f, sep + more);
    ScanSkip(lx, SelfClosing, PrintForm(f), sep + more, pos);
  }

  lemma SingleStepSingle(lx: Lexicon, sep: string, f: Form, more: string, pos: nat)
    requires f.Single? && '<' !in sep && TopForm(lx, f)
    ensures Scan(lx, SelfClosing, PrintForm(f) + (sep + more), pos)
      == [Found(pos, HitOf(f))] + Scan(lx, SelfClosing, more, pos + |PrintForm(f)| + |sep|)
  {
    hide MatchAt, PrintForm, Silent, HitOf, Scan, TopForm;
    SilentPlain(lx, SelfClosing, sep, more);
    ScanSkip(lx, SelfClosing, sep, more, pos + |PrintForm(f)|);
    SingleSingle(lx, f, sep + more);
    FormNonEmpty(f);
    ScanHit(lx, SelfClosing, PrintForm(f), sep + more, HitOf(f), pos);
  }

  lemma {:induction false} ScanOuter(lx: Lexicon, seps: seq<string>, fs: seq<Form>, pos: nat)
    requires |seps| == |fs|
    requires Clean(seps) && TopForms(lx, fs)
    ensures Scan(lx, Outer, PrintForms(seps, fs), pos) == OuterFound(seps, fs, pos)
    ensures Remove(lx, Outer, PrintForms(seps, fs)) == Residue(seps, fs)
  {
    hide MatchAt, PrintForm, HitOf, TopForm, TopForms, Scan, Remove, Clean;
    if fs == [] {
      EmptyText(lx, Outer, pos);
    } else {
      var one, more := PrintForm(fs[0]), PrintForms(seps[1..], fs[1..]);
      assert PrintForms(seps, fs) == one + (seps[0] + more);
      TopFormsHead(lx, fs);
      CleanHead(seps);
      if fs[0].Pair? {
        OuterStepPair(lx, seps[0], fs[0], more, pos);
      } else {
        NeverClosed(lx, fs[0].name, seps[1..], fs[1..]);
        OuterStepSingle(lx, seps[0], fs[0], more, pos);
      }
      ScanOuter(lx, seps[1..], fs[1..], pos + |one| + |seps[0]|);
    }
  }

  lemma {:induction false} ScanSingle(lx: Lexicon, seps: seq<string>, fs: seq<Form>, pos: nat)
    requires |seps| == |fs|
    requires Clean(seps) && TopForms(lx, fs)
    ensures Scan(lx, SelfClosing, PrintForms(seps, fs), pos) == SingleFound(seps, fs, pos)
  {
    hide MatchAt, PrintForm, HitOf, TopForm, TopForms, Scan, Clean;
    if fs == [] {
      EmptyText(lx, SelfClosing, pos);
    } else {
      var one, more := PrintForm(fs[0]), PrintForms(seps[1..], fs[1..]);
      assert PrintForms(seps, fs) == one + (seps[0] + more);
      TopFormsHead(lx, fs);
      CleanHead(seps);
      if fs[0].Pair? {
        SingleStepPair(lx, seps[0], fs[0], more, pos);
      } else {
        SingleStepSingle(lx, seps[0], fs[0], more, pos);
      }
      ScanSingle(lx, seps[1..], fs[1..], pos + |one| + |seps[0]|);
    }
  }

  lemma {:induction false} RemoveSingle(lx: Lexicon, seps: seq<string>, fs: seq<Form>)
    requires |seps| == |fs|
    requires Clean(seps) && TopForms(lx, fs)
    ensures Remove(lx, SelfClosing, Residue(seps, fs)) == Concat(seps)
  {
    hide MatchAt, PrintForm, HitOf, Silent, TopForm, TopForms;
    if fs != [] {
      var f, one, more := fs[0], PrintForm(fs[0]), Residue(seps[1..], fs[1..]);
      TopFormsHead(lx, fs);
      SilentPlain(lx, SelfClosing, seps[0], more);
      ScanSkip(lx, SelfClosing, seps[0], more, 0);
      RemoveSingle(lx, seps[1..], fs[1..]);
      if f.Pair? {
        assert Residue(seps, fs) == seps[0] + more;
      } else {
        assert Residue(seps, fs) == one + (seps[0] + more);
        SingleSingle(lx, f, seps[0] + more);
        FormNonEmpty(f);
        ScanHit(lx, SelfClosing, one, seps[0] + more, HitOf(f), 0);
      }
    }
  }

  lemma {:induction false} ScanShort(lx: Lexicon, seps: seq<string>, fs: seq<Form>, pos: nat)
    requires |seps| == |fs|
    requires Clean(seps) && TopForms(lx, fs)
    ensures Scan(lx, Shorthand, PrintForms(seps, fs), pos) == []
  {
    hide MatchAt, PrintForm, Silent, TopForm, TopForms;
    if fs != [] {
      var f, one, more := fs[0], PrintForm(fs[0]), PrintForms(seps[1..], fs[1..]);
      TopFormsHead(lx, fs);
      assert PrintForms(seps, fs) == one + (seps[0] + more);
      SilentPlain(lx, Shorthand, seps[0], more);
      ScanSkip(lx, Shorthand, seps[0], more, pos + |one|);
      ShortForm(lx, f, seps[0] + more);
      ScanSkip(lx, Shorthand, one, seps[0] + more, pos);
      ScanShort(lx, seps[1..], fs[1..], pos + |one| + |seps[0]|);
    }
  }

  lemma RemovePlain(lx: Lexicon, p: Pattern, a: string)
    requires !p.Attr? && '<' !in a
    ensures Remove(lx, p, a) == a
  {
    hide MatchAt, Silent;
    SilentPlain(lx, p, a, "");
    ScanSkip(lx, p, a, "", 0);
    assert a + "" == a;
  }

  lemma {:induction false} ConcatPlain(seps: seq<string>)
    requires Clean(seps)
    ensures '<' !in Concat(seps)
  {
    if seps != [] { ConcatPlain(seps[1..]); }
  }

  lemma SpacesClean(seps: seq<string>)
    requires AllSpaces(seps)
    ensures Clean(seps)
  {
  }

  /** What is left outside the tags of a written reply is the text that was put there. */
  lemma LeftoverOfPrinted(lx: Lexicon, lead: string, seps: seq<string>, fs: seq<Form>)
    requires |seps| == |fs| && '<' !in lead && Clean(seps) && TopForms(lx, fs)
    ensures Leftover(lx, lead + PrintForms(seps, fs)) == Strip(lead + Concat(seps))
  {
    hide TopForms, Remove, Strip, Silent, Concat, Clean;
    ScanOuter(lx, seps, fs, 0);
    RemoveSingle(lx, seps, fs);
    SilentPlain(lx, Outer, lead, PrintForms(seps, fs));
    ScanSkip(lx, Outer, lead, PrintForms(seps, fs), 0);
    SilentPlain(lx, SelfClosing, lead, Residue(seps, fs));
    ScanSkip(lx, SelfClosing, lead, Residue(seps, fs), 0);
    ConcatPlain(seps);
    RemovePlain(lx, Shorthand, lead + Concat(seps));
  }

  /** No text is left outside the tags of a reply that has only whitespace there. */
  lemma NothingLeftOver(lx: Lexicon, lead: string, seps: seq<string>, fs: seq<Form>)
    requires |seps| == |fs| && AllSpace(lead) && AllSpaces(seps) && TopForms(lx, fs)
    ensures Leftover(lx, lead + PrintForms(seps, fs)) == ""
  {
    hide TopForms, Leftover, Strip, Concat, Clean;
    SpaceClean(lead);
    SpacesClean(seps);
    LeftoverOfPrinted(lx, lead, seps, fs);
    ConcatSpace(seps);
    StripSpace(lead + Concat(seps));
  }

  // ----- from matches to tags -----

  function FromPairs(kvs: seq<(string, string)>): Attrs {
    if kvs == [] then map[] else FromPairs(kvs[..|kvs| - 1])[kvs[|kvs| - 1].0 := kvs[|kvs| - 1].1]
  }

  lemma {:induction false} CollectIs(fs: seq<Found>, kvs: seq<(string, string)>)
    requires |fs| == |kvs| && AttrsOk(kvs)
    requires forall i :: 0 <= i < |kvs| ==> fs[i].hit.name == kvs[i].0 && fs[i].hit.body == kvs[i].1
    ensures Collect(fs) == FromPairs(kvs)
  {
    if fs != [] {
      LowerFixed(kvs[|kvs| - 1].0);
      CollectIs(fs[..|fs| - 1], kvs[..|kvs| - 1]);
    }
  }

  lemma AttrsOfIs(lx: Lexicon, kvs: seq<(string, string)>)
    requires AttrsOk(kvs)
    ensures AttrsOf(lx, PrintAttrs(kvs)) == FromPairs(kvs)
  {
    hide Scan, PrintAttrs;
    ScanAttrs(lx, kvs, 0);
    CollectIs(Scan(lx, Attr, PrintAttrs(kvs), 0), kvs);
  }

  function TagOf(f: Form, pos: nat): RawTag {
    RawTag(pos, f.name, FromPairs(f.attrs), if f.Pair? then f.body else "")
  }

  function AllTags(seps: seq<string>, fs: seq<Form>, pos: nat): (ts: seq<RawTag>)
    requires |seps| == |fs|
  {
    if fs == [] then [] else [TagOf(fs[0], pos)] + AllTags(seps[1..], fs[1..], pos + |PrintForm(fs[0])| + |seps[0]|)
  }

  lemma {:induction false} AllTagsShape(seps: seq<string>, fs: seq<Form>, pos: nat)
    requires |seps| == |fs|
    ensures var ts := AllTags(seps, fs, pos);
      && |ts| == |fs| && Ascending(ts)
      && forall i :: 0 <= i < |ts| ==> ts[i].pos >= pos && ts[i] == TagOf(fs[i], ts[i].pos)
  {
    hide PrintForm, FromPairs;
    if fs != [] {
      FormNonEmpty(fs[0]);
      AllTagsShape(seps[1..], fs[1..], pos + |PrintForm(fs[0])| + |seps[0]|);
    }
  }

  predicate Ascending(ts: seq<RawTag>) {
    forall i, j :: 0 <= i < j < |ts| ==> ts[i].pos < ts[j].pos
  }

  predicate Ordered(ts: seq<RawTag>) {
    forall i, j :: 0 <= i < j < |ts| ==> ts[i].pos <= ts[j].pos
  }

  lemma PlainTagIs(lx: Lexicon, f: Form, pos: nat)
    requires TopForm(lx, f)
    ensures PlainTag(lx, Found(pos, HitOf(f))) == TagOf(f, pos)
  {
    hide PrintAttrs, FromPairs, AttrsOf, PrintForm, Quiet;
    AttrsOfIs(lx, f.attrs);
    OuterNamesPlain(f.name);
    LowerFixed(f.name);
  }

  lemma PlainTagsCons(lx: Lexicon, f: Found, fs: seq<Found>)
    ensures PlainTags(lx, [f] + fs) == [PlainTag(lx, f)] + PlainTags(lx, fs)
  {
    hide PlainTag;
  }

  /** The tags of the scans of `fs`, from those of the tail. */
  lemma TagsFoundCons(lx: Lexicon, seps: seq<string>, fs: seq<Form>, pos: nat)
    requires |seps| == |fs|
    requires fs != [] && TopForm(lx, fs[0])
    ensures var next, tag := pos + |PrintForm(fs[0])| + |seps[0]|, TagOf(fs[0], pos);
      && AllTags(seps, fs, pos) == [tag] + AllTags(seps[1..], fs[1..], next)
      && var outer, single :=
           PlainTags(lx, OuterFound(seps[1..], fs[1..], next)), PlainTags(lx, SingleFound(seps[1..], fs[1..], next));
         && PlainTags(lx, OuterFound(seps, fs, pos)) == (if fs[0].Pair? then [tag] + outer else outer)
         && PlainTags(lx, SingleFound(seps, fs, pos)) == (if fs[0].Single? then [tag] + single else single)
  {
    hide PrintForm, TopForm, TagOf, HitOf, PlainTag, PlainTags;
    var next := pos + |PrintForm(fs[0])| + |seps[0]|;
    PlainTagIs(lx, fs[0], pos);
    if fs[0].Pair? {
      PlainTagsCons(lx, Found(pos, HitOf(fs[0])), OuterFound(seps[1..], fs[1..], next));
    } else {
      PlainTagsCons(lx, Found(pos, HitOf(fs[0])), SingleFound(seps[1..], fs[1..], next));
    }
  }

  lemma OneMoreTag(tag: RawTag, outer: seq<RawTag>, single: seq<RawTag>, all: seq<RawTag>)
    requires multiset(outer) + multiset(single) == multiset(all)
    ensures multiset([tag] + outer) + multiset(single) == multiset([tag] + all)
    ensures multiset(outer) + multiset([tag] + single) == multiset([tag] + all)
  {
    MultisetCons(tag, all);
    MultisetCons(tag, outer);
    MultisetCons(tag, single);
  }

  lemma NothingFound(lx: Lexicon, pos: nat)
    ensures PlainTags(lx, OuterFound([], [], pos)) == [] && PlainTags(lx, SingleFound([], [], pos)) == []
    ensures AllTags([], [], pos) == []
  {
  }

  /** Together the scans find every tag once. */
  lemma {:induction false} TagsFound(lx: Lexicon, seps: seq<string>, fs: seq<Form>, pos: nat)
    requires |seps| == |fs|
    requires TopForms(lx, fs)
    ensures multiset(PlainTags(lx, OuterFound(seps, fs, pos))) + multiset(PlainTags(lx, SingleFound(seps, fs, pos)))
      == multiset(AllTags(seps, fs, pos))
  {
    hide PrintForm, TopForm, TopForms, TagOf, PlainTags, OuterFound, SingleFound, AllTags;
    if fs == [] {
      NothingFound(lx, pos);
    } else {
      var next, tag := pos + |PrintForm(fs[0])| + |seps[0]|, TagOf(fs[0], pos);
      TopFormsHead(lx, fs);
      TagsFoundCons(lx, seps, fs, pos);
      TagsFound(lx, seps[1..], fs[1..], next);
      OneMoreTag(tag, PlainTags(lx, OuterFound(seps[1..], fs[1..], next)),
        PlainTags(lx, SingleFound(seps[1..], fs[1..], next)),
        AllTags(seps[1..], fs[1..], next));
    }
  }

  // ----- sorting -----

  lemma {:induction false} InsertOrdered(ts: seq<RawTag>, t: RawTag)
    requires Ordered(ts)
    ensures Ordered(Insert(ts, t))
  {
    if ts != [] && ts[|ts| - 1].pos > t.pos {
      var front, last := ts[..|ts| - 1], ts[|ts| - 1];
      InsertOrdered(front, t);
      var r := Insert(front, t);
      forall i | 0 <= i < |r| ensures r[i].pos <= last.pos {
        assert r[i] in multiset(r);
        if r[i] != t { assert r[i] in multiset(front); assert r[i] in front; }
      }
    }
  }

  lemma {:induction false} SortedOrdered(ts: seq<RawTag>)
    ensures Ordered(Sorted(ts))
  {
    if ts != [] {
      SortedOrdered(ts[..|ts| - 1]);
      InsertOrdered(Sorted(ts[..|ts| - 1]), ts[|ts| - 1]);
    }
  }

  lemma LastSame(a: seq<RawTag>, b: seq<RawTag>)
    requires a != [] && b != [] && Ordered(a) && Ascending(b) && multiset(a) == multiset(b)
    ensures a[|a| - 1] == b[|b| - 1]
  {
    var x, y := a[|a| - 1], b[|b| - 1];
    assert y in multiset(b);
    assert y in a;
    assert x in multiset(a);
    assert x in b;
  }

  lemma OrderedFront(a: seq<RawTag>, b: seq<RawTag>)
    requires a != [] && b != [] && Ordered(a) && Ascending(b)
    ensures Ordered(a[..|a| - 1]) && Ascending(b[..|b| - 1])
  {
  }

  lemma {:induction false} OrderedUnique(a: seq<RawTag>, b: seq<RawTag>)
    requires Ordered(a) && Ascending(b) && multiset(a) == multiset(b)
    ensures a == b
  {
    hide Ordered, Ascending;
    assert |a| == |multiset(a)| == |b|;
    if b != [] {
      LastSame(a, b);
      var a', b', x := a[..|a| - 1], b[..|b| - 1], a[|a| - 1];
      MultisetSnoc(a);
      MultisetSnoc(b);
      OrderedFront(a, b);
      OrderedUnique(a', b');
    }
  }

  lemma LeadSkipped(lx: Lexicon, p: Pattern, lead: string, text: string)
    requires !p.Attr? && '<' !in lead
    ensures Scan(lx, p, lead + text, 0) == Scan(lx, p, text, |lead|)
  {
    hide Scan, Silent;
    SilentPlain(lx, p, lead, text);
    ScanSkip(lx, p, lead, text, 0);
  }

  lemma SpaceClean(sep: string)
    requires AllSpace(sep)
    ensures '<' !in sep
  {
  }

  /** The three scans of a written reply. */
  lemma ScansOfPrinted(lx: Lexicon, lead: string, seps: seq<string>, fs: seq<Form>)
    requires |seps| == |fs| && '<' !in lead && Clean(seps) && TopForms(lx, fs)
    ensures var raw := lead + PrintForms(seps, fs);
      && Scan(lx, Outer, raw, 0) == OuterFound(seps, fs, |lead|)
      && Scan(lx, SelfClosing, raw, 0) == SingleFound(seps, fs, |lead|)
      && Scan(lx, Shorthand, raw, 0) == []
  {
    hide TopForms, Scan, PrintForms, OuterFound, SingleFound, Clean;
    var text := PrintForms(seps, fs);
    LeadSkipped(lx, Outer, lead, text);
    LeadSkipped(lx, SelfClosing, lead, text);
    LeadSkipped(lx, Shorthand, lead, text);
    ScanOuter(lx, seps, fs, |lead|);
    ScanSingle(lx, seps, fs, |lead|);
    ScanShort(lx, seps, fs, |lead|);
  }

  lemma TagsOfPrinted(lx: Lexicon, lead: string, seps: seq<string>, fs: seq<Form>)
    requires |seps| == |fs| && '<' !in lead && Clean(seps) && TopForms(lx, fs)
    ensures TagsOf(lx, lead + PrintForms(seps, fs)) == AllTags(seps, fs, |lead|)
  {
    hide TopForms, Scan, PrintForms, OuterFound, SingleFound, PlainTags, Ordered, Ascending, AllTags, Insert;
    ScansOfPrinted(lx, lead, seps, fs);
    TagsFound(lx, seps, fs, |lead|);
    var outer, single := PlainTags(lx, OuterFound(seps, fs, |lead|)), PlainTags(lx, SingleFound(seps, fs, |lead|));
    assert outer + single + [] == outer + single;
    AllTagsShape(seps, fs, |lead|);
    SortedOrdered(outer + single);
    OrderedUnique(Sorted(outer + single), AllTags(seps, fs, |lead|));
  }

  lemma {:induction false} BuildAllIs(lx: Lexicon, ts: seq<RawTag>, es: seq<Event>)
    requires |ts| == |es| && forall i :: 0 <= i < |ts| ==> BuildTag(lx, ts[i]) == Some(es[i])
    ensures BuildAll(lx, ts) == es
  {
    hide BuildTag;
    if ts != [] {
      BuildAllIs(lx, ts[..|ts| - 1], es[..|es| - 1]);
      assert es == es[..|es| - 1] + [es[|es| - 1]];
    }
  }
}
