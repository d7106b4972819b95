/** A capability id used as the tag name: any dotted name, with any attributes. */
module Shorthands {
  import opened Text
  import opened Tags
  import opened Patterns
  import opened Printer
  import opened Parser
  import opened TagLemmas
  import opened FormLemmas
  import opened ChildLemmas
  import opened PrintParse
  import opened RoundTrip
  import opened Spellings

  // ----- dotted names -----

  predicate Segment(s: string) {
    s != "" && 'a' <= s[0] <= 'z' && forall i :: 0 <= i < |s| ==> IsNameChar(s[i])
  }

  predicate Segments(parts: seq<string>) {
    forall i :: 0 <= i < |parts| ==> Segment(parts[i])
  }

  /** Two or more segments; the first is none of the tag names, so that the tag is no other tag. */
  predicate Dotted(name: string, parts: seq<string>) {
    |parts| >= 2 && Segments(parts) && parts[0] !in OUTER_NAMES && name == Join(".", parts)
  }

  /** What may follow a name in a shorthand. */
  predicate Ends(r: string) { r != "" && (r[0] == ' ' || r[0] == '>') }

  lemma SegmentRunIs(s: string, r: string)
    requires Segment(s) && r != "" && !IsNameChar(r[0])
    ensures SegmentRun(s + r) == |s|
  {
    assert (s + r)[1..] == s[1..] + r;
    RunIs(s[1..], r);
  }

  lemma {:induction false} RunIs(a: string, r: string)
    requires (forall i :: 0 <= i < |a| ==> IsNameChar(a[i])) && r != "" && !IsNameChar(r[0])
    ensures NameRun(a + r) == |a|
  {
    hide IsNameChar;
    if a == "" {
      assert a + r == r;
    } else {
      assert (a + r)[1..] == a[1..] + r;
      RunIs(a[1..], r);
    }
  }

  lemma JoinParts(parts: seq<string>)
    requires parts != []
    ensures Join(".", parts) == parts[0] + (if |parts| == 1 then "" else "." + Join(".", parts[1..]))
  {
  }

  /** The longest candidate end of a dotted name is its own end. */
  lemma {:induction false} LongestFirst(lx: Lexicon, s: string, at: nat, parts: seq<string>, r: string)
    requires parts != [] && Segments(parts) && Ends(r) && at <= |s| && s[at..] == "." + Join(".", parts) + r
    ensures var ends := DottedEnds(lx, s, at); ends != [] && ends[0] == at + 1 + |Join(".", parts)|
    decreases |parts|
  {
    hide Segment, SegmentRun, IsNameChar, IsWord, Join;
    JoinParts(parts);
    var more := if |parts| == 1 then "" else "." + Join(".", parts[1..]);
    assert s[at] == '.' && s[at + 1..] == parts[0] + (more + r);
    EndsName(r);
    assert (more + r) != "" && !IsNameChar((more + r)[0]) by { DotEndsName(more, r); }
    SegmentRunIs(parts[0], more + r);
    SegmentNonEmpty(parts[0]);
    var e := at + 1 + |parts[0]|;
    assert s[e..] == more + r;
    if |parts| == 1 {
      assert s[e] == r[0];
      LastEnd(lx, s, at, r);
    } else {
      assert s[e..] == "." + Join(".", parts[1..]) + r;
      LongestFirst(lx, s, e, parts[1..], r);
      NextEnd(lx, s, at);
    }
  }

  lemma SegmentNonEmpty(s: string)
    requires Segment(s)
    ensures s != ""
  {
  }

  lemma EndsName(r: string)
    requires Ends(r)
    ensures !IsNameChar(r[0]) && r[0] != '.'
  {
  }

  lemma DotEndsName(more: string, r: string)
    requires Ends(r) && (more == "" || more[0] == '.')
    ensures more + r != "" && !IsNameChar((more + r)[0])
  {
  }

  lemma LastEnd(lx: Lexicon, s: string, at: nat, r: string)
    requires at < |s| && s[at] == '.' && SegmentRun(s[at + 1..]) > 0 && Ends(r)
    requires var e := at + 1 + SegmentRun(s[at + 1..]); e < |s| && s[e] == r[0]
    ensures DottedEnds(lx, s, at) == [at + 1 + SegmentRun(s[at + 1..])]
  {
    hide SegmentRun;
    var e := at + 1 + SegmentRun(s[at + 1..]);
    assert DottedEnds(lx, s, e) == [];
  }

  lemma NextEnd(lx: Lexicon, s: string, at: nat)
    requires at < |s| && s[at] == '.' && SegmentRun(s[at + 1..]) > 0
    requires DottedEnds(lx, s, at + 1 + SegmentRun(s[at + 1..])) != []
    ensures DottedEnds(lx, s, at) != []
    ensures DottedEnds(lx, s, at)[0] == DottedEnds(lx, s, at + 1 + SegmentRun(s[at + 1..]))[0]
  {
    hide SegmentRun, Boundary;
  }

  // ----- the shorthand pattern hits -----

  /** A written shorthand. */
  predicate ShorthandForm(f: Form, parts: seq<string>) {
    f.Pair? && Dotted(f.name, parts) && AttrsOk(f.attrs) && '<' !in f.body
  }

  predicate Solid(name: string) {
    name != "" && !IsSpace(name[0]) && name[0] != '/' && '<' !in name && '>' !in name
  }

  lemma {:induction false} DottedSolid(parts: seq<string>)
    requires parts != [] && Segments(parts)
    ensures Solid(Join(".", parts)) && LowerAscii(Join(".", parts)) && Join(".", parts)[0] == parts[0][0]
  {
    if |parts| > 1 { DottedSolid(parts[1..]); }
  }

  lemma ExactCloseIs(name: string, r: string)
    requires Solid(name)
    ensures CloseTag(Exact, name, PrintClose(name) + r) == |name| + 3
  {
    var s := PrintClose(name) + r;
    assert s[1] == '/' && s[2..] == name + (">" + r);
    assert SpaceRun(s[1..]) == 0 && SpaceRun(s[2..]) == 0;
    assert s[2 + |name|] == '>' && SpaceRun(s[2 + |name|..]) == 0;
  }

  lemma ExactPaired(name: string, attrs: string, body: string, rest: string)
    requires Solid(name) && '>' !in attrs && '<' !in body
    ensures Paired(Exact, name, 1 + |name|, "<" + name + attrs + ">" + body + PrintClose(name) + rest)
      == Some(Hit(1 + |name| + |attrs| + 1 + |body| + |name| + 3, name, attrs, body))
  {
    hide FindClose, CloseTag, NoClose, IndexOf, PrintClose, Solid;
    var s := "<" + name + attrs + ">" + body + PrintClose(name) + rest;
    var tail := body + (PrintClose(name) + rest);
    var g := 1 + |name| + |attrs|;
    assert s[1 + |name|..] == attrs + (['>'] + tail);
    IndexOfIs('>', attrs, tail);
    assert s[g + 1..] == tail;
    NoClosePlain(Exact, name, body, PrintClose(name) + rest);
    FindCloseSkip(Exact, name, body, PrintClose(name) + rest);
    ExactCloseIs(name, rest);
    CloseHere(Exact, name, PrintClose(name) + rest, |name| + 3);
    assert s[1 + |name|..g] == attrs;
    assert s[g + 1..g + 1 + |body|] == body;
  }

  lemma CloseHere(mode: Mode, name: string, s: string, n: nat)
    requires n > 0 && CloseTag(mode, name, s) == n
    ensures FindClose(mode, name, s) == Some(Close(0, n))
  {
    hide CloseTag;
  }

  lemma ShorthandMatch(lx: Lexicon, s: string, n: nat, first: nat, h: Hit)
    requires 0 < n < |s| && s[0] == '<' && SpaceRun(s[1..]) == 0 && SegmentRun(s[1..]) == first > 0
    requires DottedEnds(lx, s, 1 + first) != [] && DottedEnds(lx, s, 1 + first)[0] == n
    requires Paired(Exact, s[1..n], n, s) == Some(h)
    ensures MatchShorthand(lx, s) == Some(h)
  {
    hide Paired, SpaceRun, SegmentRun, DottedEnds;
    var ends := DottedEnds(lx, s, 1 + first);
    assert ends[0] in ends;
  }

  /** The text of a dotted name, cut after its first segment. */
  lemma NameCut(s: string, name: string, parts: seq<string>, r: string)
    requires Dotted(name, parts) && s == "<" + name + r
    ensures var more := "." + Join(".", parts[1..]);
      && s[1..] == parts[0] + (more + r) && s[1 + |parts[0]|..] == more + r
      && |s| == 1 + |name| + |r| && |name| == |parts[0]| + |more|
  {
    hide Join, Segment, OUTER_NAMES;
    JoinParts(parts);
  }

  lemma NameEnds(lx: Lexicon, s: string, name: string, parts: seq<string>, r: string)
    requires Dotted(name, parts) && Ends(r) && s == "<" + name + r
    ensures |parts[0]| < |s|
    ensures var ends := DottedEnds(lx, s, 1 + |parts[0]|); ends != [] && ends[0] == 1 + |name|
  {
    hide DottedEnds, Join, Segment, OUTER_NAMES, Ends;
    NameCut(s, name, parts, r);
    LongestFirst(lx, s, 1 + |parts[0]|, parts[1..], r);
  }

  /** The candidate ends of the name of a shorthand. */
  lemma NameFound(lx: Lexicon, s: string, name: string, parts: seq<string>, r: string)
    requires Dotted(name, parts) && Ends(r) && s == "<" + name + r
    ensures |s| > 1 + |name| && SpaceRun(s[1..]) == 0 && SegmentRun(s[1..]) == |parts[0]| > 0
    ensures var ends := DottedEnds(lx, s, 1 + |parts[0]|); ends != [] && ends[0] == 1 + |name|
  {
    hide SpaceRun, SegmentRun, DottedEnds, Join, Segment, Solid, IsNameChar, OUTER_NAMES, Ends;
    NameCut(s, name, parts, r);
    NameEnds(lx, s, name, parts, r);
    DottedSolid(parts);
    EndsSome(r);
    SegmentNonEmpty(parts[0]);
    SolidStart(name, s);
    var more := "." + Join(".", parts[1..]);
    DotEndsName(more, r);
    SegmentRunIs(parts[0], more + r);
  }

  lemma EndsSome(r: string)
    requires Ends(r)
    ensures r != ""
  {
  }

  lemma AttrsEnd(kvs: seq<(string, string)>, r: string)
    requires AttrsOk(kvs)
    ensures Ends(PrintAttrs(kvs) + (">" + r)) && '<' !in PrintAttrs(kvs) && '>' !in PrintAttrs(kvs)
  {
    hide Key, AttrValue, PrintAttrs;
    PrintAttrsShape(kvs);
  }

  lemma ShorthandHit(lx: Lexicon, f: Form, parts: seq<string>, rest: string)
    requires ShorthandForm(f, parts)
    ensures MatchAt(lx, Shorthand, PrintForm(f) + rest) == Some(HitOf(f))
  {
    hide Paired, SpaceRun, SegmentRun, DottedEnds, MatchShorthand, PrintForm, PrintAttrs, PrintClose, Join, Segment,
      Solid, AttrsOk, Ends, OUTER_NAMES;
    var s, a := PrintForm(f) + rest, PrintAttrs(f.attrs);
    var tail := f.body + PrintClose(f.name) + rest;
    AttrsEnd(f.attrs, tail);
    PairText(f, rest);
    assert a + (">" + f.body + PrintClose(f.name) + rest) == a + (">" + tail);
    NameFound(lx, s, f.name, parts, a + (">" + tail));
    DottedSolid(parts);
    assert s[1..1 + |f.name|] == f.name;
    ExactPaired(f.name, a, f.body, rest);
    ShorthandMatch(lx, s, 1 + |f.name|, |parts[0]|, HitOf(f));
  }

  lemma SolidStart(name: string, s: string)
    requires Solid(name) && |s| > 1 && s[1] == name[0]
    ensures SpaceRun(s[1..]) == 0
  {
  }

  // ----- and the others do not -----

  lemma NotNamed(lx: Lexicon, n: string, first: string, r: string)
    requires Plain(n) && Segment(first) && n != first && r != "" && r[0] == '.'
    ensures !(SameName(Literal, n, first + r) && Boundary(lx, first + r, |n|))
  {
    var s := first + r;
    if |n| > |first| {
      assert s[|first|] == '.';
    } else if SameName(Literal, n, s) {
      forall i | 0 <= i < |n| ensures first[i] == n[i] { assert s[i] == first[i]; }
      assert first[..|n|] == n;
      assert first[..|first|] == first;
      assert s[|n|] == first[|n|];
    }
  }

  lemma {:induction false} NotAny(lx: Lexicon, names: seq<string>, first: string, r: string)
    requires (forall n :: n in names ==> n in OUTER_NAMES) && Segment(first) && first !in names
    requires r != "" && r[0] == '.'
    ensures FirstName(lx, names, first + r) == 0
  {
    hide SameName, Boundary, Segment, OUTER_NAMES, Plain;
    if names != [] {
      OuterNamesPlain(names[0]);
      NotNamed(lx, names[0], first, r);
      NotAny(lx, names[1..], first, r);
    }
  }

  lemma ShorthandNotOpen(lx: Lexicon, p: Pattern, first: string, r: string)
    requires p.Outer? || p.SelfClosing?
    requires Segment(first) && first !in OUTER_NAMES && r != "" && r[0] == '.'
    ensures MatchAt(lx, p, "<" + first + r) == None
  {
    hide OpenTag, OUTER_NAMES, SINGLE_NAMES;
    SinglesAreOuter();
    NoneOpens(lx, OUTER_NAMES, first, r);
    NoneOpens(lx, SINGLE_NAMES, first, r);
  }

  lemma NoneOpens(lx: Lexicon, names: seq<string>, first: string, r: string)
    requires (forall n :: n in names ==> n in OUTER_NAMES) && Segment(first) && first !in names
    requires r != "" && r[0] == '.'
    ensures OpenTag(lx, names, "<" + first + r) == None
  {
    hide FirstName, OUTER_NAMES, IsNameChar;
    var s := "<" + first + r;
    NotAny(lx, names, first, r);
    assert s[1..] == first + r && s[1] == first[0] && SpaceRun(s[1..]) == 0;
    assert s[1..][0..] == s[1..];
  }

  lemma ClosesNothing(lx: Lexicon, p: Pattern, name: string, b: string)
    requires p.Outer? || p.SelfClosing?
    requires '<' !in name
    ensures Silent(lx, p, PrintClose(name), b)
  {
    hide MatchAt;
    var c := PrintClose(name);
    assert c[0..] + b == c + b;
    if p.SelfClosing? { SlashNotSingle(lx, c + b); } else { SlashNotOuter(lx, c + b); }
  }

  lemma SlashNotOuter(lx: Lexicon, s: string)
    requires |s| > 1 && s[0] == '<' && s[1] == '/'
    ensures MatchAt(lx, Outer, s) == None
  {
    hide OpenTag, OUTER_NAMES;
    forall n | n in OUTER_NAMES ensures Plain(n) && n[0] != '/' { OuterNamesPlain(n); }
    OpenTagLetter(lx, OUTER_NAMES, s);
  }

  /** Neither the outer nor the self-closing pattern matches anywhere in a shorthand. */
  lemma ShorthandSilent(lx: Lexicon, p: Pattern, f: Form, parts: seq<string>, rest: string)
    requires ShorthandForm(f, parts) && (p.Outer? || p.SelfClosing?)
    ensures Silent(lx, p, PrintForm(f), rest)
  {
    hide MatchAt, Silent, PrintForm, PrintAttrs, PrintClose, Join, AttrsOk, Segment, OUTER_NAMES, Ends, Solid, Dotted;
    var a, close := PrintAttrs(f.attrs), PrintClose(f.name);
    var body := f.body + close;
    HeadSilent(lx, p, f.name, parts, f.attrs, body + rest);
    NameIsSolid(f.name, parts);
    PairText(f, rest);
    SilentPlain(lx, p, f.body, close + rest);
    ClosesNothing(lx, p, f.name, rest);
    SilentJoin(lx, p, f.body, close, rest);
    SilentJoin(lx, p, "<" + f.name + a + ">", body, rest);
  }

  lemma NameIsSolid(name: string, parts: seq<string>)
    requires Dotted(name, parts)
    ensures '<' !in name
  {
    hide Join, Segment;
    DottedSolid(parts);
  }

  lemma HeadSilent(lx: Lexicon, p: Pattern, name: string, parts: seq<string>, kvs: seq<(string, string)>, after: string)
    requires Dotted(name, parts) && AttrsOk(kvs) && (p.Outer? || p.SelfClosing?)
    ensures Silent(lx, p, "<" + name + PrintAttrs(kvs) + ">", after)
  {
    hide MatchAt, Silent, PrintAttrs, Join, AttrsOk, Segment, OUTER_NAMES, Ends, Solid;
    var a := PrintAttrs(kvs);
    AttrsEnd(kvs, after);
    NameIsSolid(name, parts);
    JoinParts(parts);
    var r := "." + Join(".", parts[1..]) + (a + (">" + after));
    ShorthandNotOpen(lx, p, parts[0], r);
    assert "<" + name + (a + (">" + after)) == "<" + parts[0] + r;
    HeadOnly(lx, p, name, a, ">", after);
  }

  // ----- what it is read as -----

  /** A call of the tag's name, whatever name its attributes give. */
  predicate ReadsShorthand(f: Form, e: Event) {
    e == CallEvent(Call(f.name, Value(f.attrs, "id"), Strip(Body(f)),
      AnyCase(Said(f.attrs, "memory_claim"), "true"), AnyCase(Said(f.attrs, "side_effect"), "true")))
  }

  lemma NamedFirst(kvs: seq<(string, string)>, name: string)
    ensures var more := kvs + [("name", name)];
      && FromPairs(more) == FromPairs(kvs)["name" := name] && Said(more, "name") == name
      && forall key :: key != "name" ==> Value(more, key) == Value(kvs, key)
  {
    var more := kvs + [("name", name)];
    assert more[..|more| - 1] == kvs;
  }

  lemma BuiltAsCall(lx: Lexicon, f: Form, parts: seq<string>, e: Event, pos: nat)
    requires ShorthandForm(f, parts) && ReadsShorthand(f, e)
    ensures var t := ShorthandTag(lx, Found(pos, HitOf(f))); t.pos == pos && BuildTag(lx, t) == Some(e)
    ensures Lower(f.name) == f.name
  {
    hide AttrsOf, Strip, Lower, FromPairs, Value, AnyCase, PrintForm, PrintAttrs, Segment, BuildCall, Join, First;
    DottedSolid(parts);
    LowerFixed(f.name);
    AttrsOfIs(lx, f.attrs);
    NamedFirst(f.attrs, f.name);
    var g := f.(attrs := f.attrs + [("name", f.name)]);
    FirstCons(f.name, [Said(g.attrs, "capability")]);
    assert [f.name] + [Said(g.attrs, "capability")] == [f.name, Said(g.attrs, "capability")];
    CallRead(g, Some(e));
  }

  lemma PlainScan(lx: Lexicon, p: Pattern, text: string, pos: nat)
    requires !p.Attr? && '<' !in text
    ensures Scan(lx, p, text, pos) == [] && Remove(lx, p, text) == text
  {
    hide Remove, Silent, Scan;
    SilentPlain(lx, p, text, "");
    ScanSkip(lx, p, text, "", pos);
    assert text + "" == text;
    EmptyText(lx, p, pos + |text|);
  }

  lemma Around(lx: Lexicon, p: Pattern, before: string, inner: string, after: string)
    requires !p.Attr? && '<' !in before && '<' !in after && Silent(lx, p, inner, after)
    ensures Scan(lx, p, before + (inner + after), 0) == []
    ensures Remove(lx, p, before + (inner + after)) == before + (inner + after)
  {
    hide Remove, Silent, Scan;
    SilentPlain(lx, p, before, inner + after);
    ScanSkip(lx, p, before, inner + after, 0);
    ScanSkip(lx, p, inner, after, |before|);
    PlainScan(lx, p, after, |before| + |inner|);
  }

  lemma HitThen(lx: Lexicon, p: Pattern, inner: string, after: string, h: Hit, pos: nat)
    requires !p.Attr? && '<' !in after && inner != ""
    requires MatchAt(lx, p, inner + after) == Some(h) && h.len == |inner|
    ensures Scan(lx, p, inner + after, pos) == [Found(pos, h)] && Remove(lx, p, inner + after) == after
  {
    hide Remove, Scan, MatchAt;
    ScanHit(lx, p, inner, after, h, pos);
    PlainScan(lx, p, after, pos + |inner|);
  }

  lemma AfterPlain(lx: Lexicon, p: Pattern, before: string, text: string)
    requires !p.Attr? && '<' !in before
    ensures Scan(lx, p, before + text, 0) == Scan(lx, p, text, |before|)
    ensures Remove(lx, p, before + text) == before + Remove(lx, p, text)
  {
    hide Remove, Scan, Silent;
    SilentPlain(lx, p, before, text);
    ScanSkip(lx, p, before, text, 0);
  }

  lemma HitAround(lx: Lexicon, p: Pattern, before: string, inner: string, after: string, h: Hit)
    requires !p.Attr? && '<' !in before && '<' !in after && inner != ""
    requires MatchAt(lx, p, inner + after) == Some(h) && h.len == |inner|
    ensures Scan(lx, p, before + (inner + after), 0) == [Found(|before|, h)]
    ensures Remove(lx, p, before + (inner + after)) == before + after
  {
    hide Remove, Scan, MatchAt;
    AfterPlain(lx, p, before, inner + after);
    HitThen(lx, p, inner, after, h, |before|);
  }

  lemma ShorthandScanned(lx: Lexicon, before: string, f: Form, parts: seq<string>, after: string)
    requires '<' !in before && ShorthandForm(f, parts) && '<' !in after
    ensures Scan(lx, Shorthand, before + (PrintForm(f) + after), 0) == [Found(|before|, HitOf(f))]
    ensures Remove(lx, Shorthand, before + (PrintForm(f) + after)) == before + after
  {
    hide Remove, Scan, PrintForm, MatchAt, ShorthandForm, HitOf;
    FormNonEmpty(f);
    ShorthandHit(lx, f, parts, after);
    HitAround(lx, Shorthand, before, PrintForm(f), after, HitOf(f));
  }

  /** A shorthand in some text: a call if its name is registered, and then the text does not count;
      otherwise the tag alone is dropped, and the text is what the reply says. */
  lemma ShorthandRead(lx: Lexicon, before: string, f: Form, parts: seq<string>, after: string, e: Event)
    requires '<' !in before && ShorthandForm(f, parts) && '<' !in after && ReadsShorthand(f, e)
    ensures var text := Strip(before + after);
      Parse(lx, before + (PrintForm(f) + after)) ==
        if f.name in lx.capabilities then [e] else if |text| < 4 then [] else [Say(text), Final]
  {
    hide Scan, Remove, Strip, Silent, PrintForm, Sorted, BuildAll, ShorthandTags, ShorthandForm, Parse, HitOf, Lower,
      ReadsShorthand, BuildTag, ShorthandTag;
    var raw := before + (PrintForm(f) + after);
    ShorthandSilent(lx, Outer, f, parts, after);
    Around(lx, Outer, before, PrintForm(f), after);
    ShorthandSilent(lx, SelfClosing, f, parts, after);
    Around(lx, SelfClosing, before, PrintForm(f), after);
    ShorthandScanned(lx, before, f, parts, after);
    var found := Found(|before|, HitOf(f));
    OneShorthand(lx, found);
    BuiltAsCall(lx, f, parts, e, |before|);
    HitName(f);
    assert [] + [] + ShorthandTags(lx, [found]) == ShorthandTags(lx, [found]);
    OneBuilt(lx, ShorthandTag(lx, found), e);
    RecoveryExactly(lx, raw);
    ShorthandSpeaks(f, e);
    assert Tagged(lx, raw) == if f.name in lx.capabilities then [e] else [];
  }

  lemma HitName(f: Form)
    ensures HitOf(f).name == f.name
  {
  }

  lemma ShorthandSpeaks(f: Form, e: Event)
    requires ReadsShorthand(f, e)
    ensures Speaks(e)
  {
  }

  lemma OneShorthand(lx: Lexicon, f: Found)
    ensures ShorthandTags(lx, []) == []
    ensures ShorthandTags(lx, [f]) == if Lower(f.hit.name) in lx.capabilities then [ShorthandTag(lx, f)] else []
  {
    assert [f][..0] == [];
  }

  lemma OneBuilt(lx: Lexicon, t: RawTag, e: Event)
    ensures Sorted([t]) == [t] && Sorted([]) == [] && BuildAll(lx, []) == []
    ensures BuildTag(lx, t) == Some(e) ==> BuildAll(lx, [t]) == [e]
  {
    assert [t][..0] == [];
  }
}
