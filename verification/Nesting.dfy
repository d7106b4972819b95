/** The three scans know nothing of each other: a tag can be found inside another tag's extent.
    When that happens, and two replies in which it does. */
module Nesting {
  import opened Text
  import opened Tags
  import opened Patterns
  import opened Printer
  import opened Parser
  import opened TagLemmas
  import opened FormLemmas
  import opened ChildLemmas
  import opened PrintParse
  import opened RoundTrip
  import opened Shorthands

  // ----- what a scan finds -----

  function End(f: Found): nat { f.pos + f.hit.len }

  /** A match found is the one here, or found in the rest. */
  lemma ScanCases(lx: Lexicon, p: Pattern, s: string, pos: nat, f: Found)
    requires f in Scan(lx, p, s, pos)
    ensures s != ""
    ensures var h := MatchAt(lx, p, s);
      if h.Some? then f == Found(pos, h.value) || f in Scan(lx, p, s[h.value.len..], pos + h.value.len)
      else f in Scan(lx, p, s[1..], pos + 1)
  {
    hide MatchAt;
  }

  /** Every match found is a match of the pattern where it was found. */
  lemma {:induction false} ScanSound(lx: Lexicon, p: Pattern, s: string, pos: nat, f: Found)
    requires f in Scan(lx, p, s, pos)
    ensures pos <= f.pos < End(f) <= pos + |s| && MatchAt(lx, p, s[f.pos - pos..]) == Some(f.hit)
    decreases |s|
  {
    hide MatchAt, Scan;
    ScanCases(lx, p, s, pos, f);
    var h := MatchAt(lx, p, s);
    if h.None? {
      ScanSound(lx, p, s[1..], pos + 1, f);
      assert s[1..][f.pos - pos - 1..] == s[f.pos - pos..];
    } else if f == Found(pos, h.value) {
      assert s[0..] == s;
    } else {
      ScanSound(lx, p, s[h.value.len..], pos + h.value.len, f);
      assert s[h.value.len..][f.pos - pos - h.value.len..] == s[f.pos - pos..];
    }
  }

  /** A place where the pattern matches is found, or covered by a match found before it. */
  lemma {:induction false} ScanCovers(lx: Lexicon, p: Pattern, s: string, pos: nat, q: nat) returns (f: Found)
    requires q < |s| && MatchAt(lx, p, s[q..]).Some?
    ensures f in Scan(lx, p, s, pos) && f.pos <= pos + q < End(f)
    decreases |s|
  {
    hide MatchAt;
    var h := MatchAt(lx, p, s);
    if h.Some? && q < h.value.len {
      f := Found(pos, h.value);
    } else if h.Some? {
      assert s[h.value.len..][q - h.value.len..] == s[q..];
      f := ScanCovers(lx, p, s[h.value.len..], pos + h.value.len, q - h.value.len);
    } else {
      assert s[0..] == s;
      assert s[1..][q - 1..] == s[q..];
      f := ScanCovers(lx, p, s[1..], pos + 1, q - 1);
    }
  }

  /** Matches found by one scan do not overlap. */
  lemma {:induction false} ScanDisjoint(lx: Lexicon, p: Pattern, s: string, pos: nat, f: Found, g: Found)
    requires f in Scan(lx, p, s, pos) && g in Scan(lx, p, s, pos) && f.pos < g.pos
    ensures End(f) <= g.pos
    decreases |s|
  {
    hide MatchAt, Scan;
    ScanCases(lx, p, s, pos, f);
    ScanCases(lx, p, s, pos, g);
    ScanSound(lx, p, s, pos, f);
    var h := MatchAt(lx, p, s);
    if h.None? {
      ScanDisjoint(lx, p, s[1..], pos + 1, f, g);
    } else {
      ScanSound(lx, p, s[h.value.len..], pos + h.value.len, g);
      if f != Found(pos, h.value) { ScanDisjoint(lx, p, s[h.value.len..], pos + h.value.len, f, g); }
    }
  }

  // ----- tags inside tags -----

  /** The scan finds a match that starts strictly inside the extent of `o`. */
  ghost predicate FoundInside(lx: Lexicon, p: Pattern, raw: string, o: Found) {
    exists f :: f in Scan(lx, p, raw, 0) && o.pos < f.pos < End(o)
  }

  /** A match of the scan that started at or before `o` reaches beyond `q`. */
  ghost predicate Swallowed(lx: Lexicon, p: Pattern, raw: string, o: Found, q: nat) {
    exists f :: f in Scan(lx, p, raw, 0) && f.pos <= o.pos && q < End(f)
  }

  /** The pattern matches somewhere strictly inside `o`, in the attributes, the body or the close
      tag, and not within an earlier match. */
  ghost predicate HoldsTag(lx: Lexicon, p: Pattern, raw: string, o: Found) {
    exists q :: o.pos < q < End(o) && q < |raw| && MatchAt(lx, p, raw[q..]).Some? && !Swallowed(lx, p, raw, o, q)
  }

  /** A tag is found inside another one exactly when the text there matches and no match that began
      earlier has swallowed it. */
  lemma InsideExactly(lx: Lexicon, p: Pattern, raw: string, o: Found)
    ensures FoundInside(lx, p, raw, o) <==> HoldsTag(lx, p, raw, o)
  {
    hide MatchAt, Scan;
    if f :| f in Scan(lx, p, raw, 0) && o.pos < f.pos < End(o) {
      ScanSound(lx, p, raw, 0, f);
      forall g | g in Scan(lx, p, raw, 0) && g.pos <= o.pos ensures End(g) <= f.pos {
        ScanDisjoint(lx, p, raw, 0, g, f);
      }
      assert !Swallowed(lx, p, raw, o, f.pos);
    }
    if HoldsTag(lx, p, raw, o) {
      var q :| o.pos < q < End(o) && q < |raw| && MatchAt(lx, p, raw[q..]).Some? && !Swallowed(lx, p, raw, o, q);
      var f := ScanCovers(lx, p, raw, 0, q);
    }
  }

  /** No tag that is found lies strictly inside a paired tag. */
  ghost predicate TopLevelOnly(lx: Lexicon, raw: string) {
    forall o :: o in Scan(lx, Outer, raw, 0) ==>
      !FoundInside(lx, SelfClosing, raw, o) && !FoundInside(lx, Shorthand, raw, o)
  }

  /** Only top-level tags are found if and only if no paired tag holds a self-closing or a shorthand
      tag that no earlier tag has swallowed. */
  lemma TopLevelExactly(lx: Lexicon, raw: string)
    ensures TopLevelOnly(lx, raw)
      <==> forall o :: o in Scan(lx, Outer, raw, 0) ==>
             !HoldsTag(lx, SelfClosing, raw, o) && !HoldsTag(lx, Shorthand, raw, o)
  {
    hide FoundInside, HoldsTag, Scan;
    forall o ensures FoundInside(lx, SelfClosing, raw, o) <==> HoldsTag(lx, SelfClosing, raw, o)
      ensures FoundInside(lx, Shorthand, raw, o) <==> HoldsTag(lx, Shorthand, raw, o)
    {
      InsideExactly(lx, SelfClosing, raw, o);
      InsideExactly(lx, Shorthand, raw, o);
    }
  }

  // ----- a thought with a tag in it -----

  const OPEN := "<thinking>"
  const CLOSE := "</thinking>"

  function Thought(inner: string): string { OPEN + inner + CLOSE }

  lemma ThoughtText(inner: string)
    ensures Thought(inner) == OPEN + (inner + CLOSE) && |OPEN| == 10
  {
  }

  lemma ThinkingName()
    ensures Plain("thinking") && "thinking" in OUTER_NAMES && "thinking" !in SINGLE_NAMES
    ensures OPEN == "<" + "thinking" + ">" && CLOSE == PrintClose("thinking")
  {
    assert OUTER_NAMES[0] == "thinking";
  }

  /** The outer scan finds the whole thought and nothing else. */
  lemma ThoughtFound(lx: Lexicon, inner: string)
    requires NoClose(BackReference, "thinking", inner, CLOSE)
    ensures Scan(lx, Outer, Thought(inner), 0) == [Found(0, Hit(|Thought(inner)|, "thinking", "", inner))]
    ensures Remove(lx, Outer, Thought(inner)) == ""
  {
    hide OpenTag, Paired, NoClose, Scan, Remove, OUTER_NAMES, SINGLE_NAMES, Plain;
    ThinkingName();
    var s, r := Thought(inner), ">" + inner + CLOSE;
    assert s == "<" + "thinking" + r;
    OpenTagIs(lx, OUTER_NAMES, "thinking", r);
    assert s == "<" + "thinking" + "" + ">" + inner + CLOSE + "";
    assert CLOSE + "" == CLOSE;
    PairedIs(BackReference, "thinking", "", inner, "");
    assert MatchAt(lx, Outer, s) == Some(Hit(|s|, "thinking", "", inner));
    assert s + "" == s;
    ScanHit(lx, Outer, s, "", Hit(|s|, "thinking", "", inner), 0);
    NothingThere(lx, Outer, |s|);
  }

  lemma NothingThere(lx: Lexicon, p: Pattern, pos: nat)
    ensures Scan(lx, p, "", pos) == [] && Remove(lx, p, "") == ""
  {
  }

  /** The other two scans pass over the tags of the thought itself. */
  lemma OpenSilent(lx: Lexicon, p: Pattern, rest: string)
    requires p.SelfClosing? || p.Shorthand?
    ensures Silent(lx, p, OPEN, rest)
  {
    hide MatchAt, OUTER_NAMES, SINGLE_NAMES, Plain;
    ThinkingName();
    assert OPEN == "<" + "thinking" + "" + ">";
    var r := ">" + rest;
    assert "" + r == r;
    if p.SelfClosing? { OtherNotSingle(lx, "thinking", r); } else { NotShorthand(lx, "thinking", r); }
    HeadOnly(lx, p, "thinking", "", ">", rest);
  }

  /** A scan that finds exactly the inner tag of a thought. */
  lemma InnerFound(lx: Lexicon, p: Pattern, inner: string, h: Hit)
    requires p.SelfClosing? || p.Shorthand?
    requires inner != "" && MatchAt(lx, p, inner + CLOSE) == Some(h) && h.len == |inner|
    ensures Scan(lx, p, Thought(inner), 0) == [Found(10, h)]
  {
    hide MatchAt, Scan, Silent, OPEN, CLOSE, Thought;
    ThoughtText(inner);
    OpenSilent(lx, p, inner + CLOSE);
    ScanSkip(lx, p, OPEN, inner + CLOSE, 0);
    ScanHit(lx, p, inner, CLOSE, h, 10);
    CloseNone(lx, p, 10 + |inner|);
  }

  lemma CloseNone(lx: Lexicon, p: Pattern, pos: nat)
    requires p.SelfClosing? || p.Shorthand?
    ensures Scan(lx, p, CLOSE, pos) == []
  {
    hide MatchAt, Scan, Silent, CLOSE, Plain, OUTER_NAMES, SINGLE_NAMES, PrintClose;
    ThinkingName();
    assert '<' !in "thinking";
    CloseSilent(lx, p, "thinking", "");
    assert CLOSE + "" == CLOSE;
    ScanSkip(lx, p, CLOSE, "", pos);
    NothingThere(lx, p, pos + |CLOSE|);
  }

  /** A scan that finds nothing in a thought. */
  lemma InnerMissed(lx: Lexicon, p: Pattern, inner: string)
    requires p.SelfClosing? || p.Shorthand?
    requires Silent(lx, p, inner, CLOSE)
    ensures Scan(lx, p, Thought(inner), 0) == []
  {
    hide MatchAt, Scan, Silent, OPEN, CLOSE, Thought;
    ThoughtText(inner);
    OpenSilent(lx, p, inner + CLOSE);
    ScanSkip(lx, p, OPEN, inner + CLOSE, 0);
    ScanSkip(lx, p, inner, CLOSE, 10);
    CloseNone(lx, p, 10 + |inner|);
  }

  lemma TwoSorted(a: RawTag, b: RawTag)
    requires a.pos < b.pos
    ensures Sorted([a, b]) == [a, b]
  {
    hide Sorted;
    SortedOrdered([a, b]);
    OrderedUnique(Sorted([a, b]), [a, b]);
  }

  lemma TwoBuilt(lx: Lexicon, a: RawTag, b: RawTag, e: Event, f: Event)
    requires BuildTag(lx, a) == Some(e) && BuildTag(lx, b) == Some(f)
    ensures BuildAll(lx, [a, b]) == [e, f]
  {
    BuildAllIs(lx, [a, b], [e, f]);
  }

  lemma ThoughtTag(lx: Lexicon, inner: string)
    requires Trimmed(inner)
    ensures var t := PlainTag(lx, Found(0, Hit(|Thought(inner)|, "thinking", "", inner)));
      t.pos == 0 && BuildTag(lx, t) == Some(Thinking(inner))
  {
    hide AttrsOf, Strip, Lower;
    LowerFixed("thinking");
    StripTrimmed(inner);
  }

  lemma OnePlain(lx: Lexicon, f: Found)
    ensures PlainTags(lx, [f]) == [PlainTag(lx, f)] && PlainTags(lx, []) == []
  {
  }

  lemma OneShort(lx: Lexicon, f: Found)
    ensures ShorthandTags(lx, []) == []
    ensures Lower(f.hit.name) in lx.capabilities ==> ShorthandTags(lx, [f]) == [ShorthandTag(lx, f)]
  {
    assert [f][..0] == [];
  }

  // ----- a final in a thought -----

  const FINAL_TAG := "<final/>"

  lemma FinalHit(lx: Lexicon, rest: string)
    ensures MatchAt(lx, SelfClosing, FINAL_TAG + rest) == Some(Hit(8, "final", "", ""))
  {
    hide OpenTag, SINGLE_NAMES, OUTER_NAMES, MatchSingle;
    FinalName();
    OpenTagIs(lx, SINGLE_NAMES, "final", "/>" + rest);
    assert "" + ("/>" + rest) == "/>" + rest;
    SingleIs(lx, "final", "", rest);
    assert FINAL_TAG + rest == "<" + "final" + ("" + ("/>" + rest));
  }

  lemma FinalName()
    ensures "final" in SINGLE_NAMES && Plain("final") && forall n :: n in SINGLE_NAMES ==> n in OUTER_NAMES
  {
    assert SINGLE_NAMES[0] == "final";
    SinglesAreOuter();
  }

  lemma FinalQuiet(lx: Lexicon)
    ensures NoClose(BackReference, "thinking", FINAL_TAG, CLOSE) && Silent(lx, Shorthand, FINAL_TAG, CLOSE)
  {
    hide CloseTag, MatchAt, SINGLE_NAMES, OUTER_NAMES, Plain;
    FinalName();
    var s := FINAL_TAG + CLOSE;
    assert FINAL_TAG[0..] + CLOSE == s;
    CloseTagOpen(BackReference, "thinking", s);
    assert s == "<" + "final" + ("/>" + CLOSE);
    NotShorthand(lx, "final", "/>" + CLOSE);
  }

  lemma FinalTag(lx: Lexicon)
    ensures var t := PlainTag(lx, Found(10, Hit(8, "final", "", ""))); t.pos == 10 && BuildTag(lx, t) == Some(Final)
  {
    hide AttrsOf;
    LowerFixed("final");
  }

  /** A thought about the final tag ends the turn: the tag in it is found at position 10. */
  lemma FinalInThought(lx: Lexicon)
    ensures Scan(lx, SelfClosing, Thought(FINAL_TAG), 0) == [Found(10, Hit(8, "final", "", ""))]
    ensures Parse(lx, Thought(FINAL_TAG)) == [Thinking(FINAL_TAG), Final]
    ensures !TopLevelOnly(lx, Thought(FINAL_TAG))
  {
    hide MatchAt, Scan, Remove, Silent, NoClose, Sorted, BuildAll, PlainTag, PlainTags, ShorthandTags, BuildTag;
    var raw := Thought(FINAL_TAG);
    FinalQuiet(lx);
    ThoughtFound(lx, FINAL_TAG);
    FinalHit(lx, CLOSE);
    InnerFound(lx, SelfClosing, FINAL_TAG, Hit(8, "final", "", ""));
    InnerMissed(lx, Shorthand, FINAL_TAG);
    var o, f := Found(0, Hit(|raw|, "thinking", "", FINAL_TAG)), Found(10, Hit(8, "final", "", ""));
    assert o in Scan(lx, Outer, raw, 0) && f in Scan(lx, SelfClosing, raw, 0);
    OnePlain(lx, o);
    OnePlain(lx, f);
    OneShort(lx, f);
    var a, b := PlainTag(lx, o), PlainTag(lx, f);
    ThoughtTag(lx, FINAL_TAG);
    FinalTag(lx);
    TwoSorted(a, b);
    assert [a] + [b] + [] == [a, b];
    TwoBuilt(lx, a, b, Thinking(FINAL_TAG), Final);
    NothingThere(lx, SelfClosing, 0);
    NothingThere(lx, Shorthand, 0);
    StripTrimmed("");
  }

  // ----- a call in a thought -----

  /** A shorthand closes no thought. */
  lemma CloseOfOther(first: string, r: string)
    requires Segment(first) && first != "thinking" && r != "" && r[0] == '.'
    ensures CloseTag(BackReference, "thinking", "</" + first + r) == 0
  {
    hide SameName;
    var n, s := "thinking", "</" + first + r;
    assert SpaceRun(s[1..]) == 0 && s[2..] == first + r && s[2] == first[0] && SpaceRun(s[2..]) == 0;
    LongerSegment(first, r);
    if SameName(BackReference, n, s[2..]) {
      assert s[2 + |n|] == first[|n|] && IsNameChar(first[|n|]);
      NameStarts(s[2 + |n|..]);
    }
  }

  lemma NameStarts(s: string)
    requires s != "" && IsNameChar(s[0])
    ensures SpaceRun(s) == 0
  {
  }

  lemma LongerSegment(first: string, r: string)
    requires Segment(first) && first != "thinking" && r != "" && r[0] == '.'
    ensures SameName(BackReference, "thinking", first + r) ==> |first| > |"thinking"|
  {
    var n := "thinking";
    if |first| < |n| {
      assert (first + r)[|first|] == '.';
    } else if SameName(BackReference, n, first + r) {
      forall i | 0 <= i < |n| ensures first[i] == n[i] { assert (first + r)[i] == first[i]; }
      assert first[..|n|] == n && first[..|first|] == first;
    }
  }

  lemma HeadCloses(first: string, r: string)
    requires Segment(first)
    ensures CloseTag(BackReference, "thinking", "<" + first + r) == 0
  {
    var s := "<" + first + r;
    assert s[1] == first[0];
    CloseTagOpen(BackReference, "thinking", s);
  }

  lemma HeadGoesOn(name: string, parts: seq<string>, a: string, rest: string)
    requires Dotted(name, parts) && '<' !in a
    ensures NoClose(BackReference, "thinking", "<" + name + a + ">", rest)
  {
    hide CloseTag, Join, Segment, OUTER_NAMES, NoClose;
    NameIsSolid(name, parts);
    JoinParts(parts);
    var first, r := parts[0], "." + Join(".", parts[1..]) + a + ">" + rest;
    HeadCloses(first, r);
    assert "<" + name + a + ">" + rest == "<" + first + r;
    OneBracket("<" + name + a + ">", rest);
  }

  lemma CloseGoesOn(name: string, parts: seq<string>, rest: string)
    requires Dotted(name, parts)
    ensures NoClose(BackReference, "thinking", PrintClose(name), rest)
  {
    hide CloseTag, Join, Segment, OUTER_NAMES, NoClose;
    ThinkingName();
    NameIsSolid(name, parts);
    JoinParts(parts);
    var first, r := parts[0], "." + Join(".", parts[1..]) + (">" + rest);
    CloseOfOther(first, r);
    assert PrintClose(name) + rest == "</" + first + r;
    OneBracket(PrintClose(name), rest);
  }

  lemma ThoughtGoesOn(f: Form, parts: seq<string>)
    requires ShorthandForm(f, parts)
    ensures NoClose(BackReference, "thinking", PrintForm(f), CLOSE)
  {
    hide CloseTag, PrintForm, PrintAttrs, PrintClose, Dotted, AttrsOk, NoClose, Ends, CLOSE;
    var close, head := PrintClose(f.name), "<" + f.name + PrintAttrs(f.attrs) + ">";
    PairText(f, CLOSE);
    AttrsEnd(f.attrs, "");
    HeadGoesOn(f.name, parts, PrintAttrs(f.attrs), (f.body + close) + CLOSE);
    CloseGoesOn(f.name, parts, CLOSE);
    NoClosePlain(BackReference, "thinking", f.body, close + CLOSE);
    NoCloseJoin(BackReference, "thinking", f.body, close, CLOSE);
    NoCloseJoin(BackReference, "thinking", head, f.body + close, CLOSE);
  }

  lemma OneBracket(s: string, b: string)
    requires s != "" && '<' !in s[1..] && CloseTag(BackReference, "thinking", s + b) == 0
    ensures NoClose(BackReference, "thinking", s, b)
  {
    hide CloseTag;
    assert s[0..] + b == s + b;
    forall i | 0 < i < |s| ensures s[i] != '<' { assert s[i] == s[1..][i - 1]; }
  }

  lemma ThoughtOfCall(f: Form, parts: seq<string>)
    requires ShorthandForm(f, parts)
    ensures Trimmed(PrintForm(f)) && PrintForm(f) != ""
  {
    hide PrintAttrs, Dotted, AttrsOk;
  }

  /** A call that the model only thinks about is made: a capability's shorthand inside a thought is
      a call like any other, whatever the capability, its attributes and its arguments. */
  lemma CallInThought(lx: Lexicon, f: Form, parts: seq<string>, e: Event)
    requires f.name in lx.capabilities && ShorthandForm(f, parts) && ReadsShorthand(f, e)
    ensures Parse(lx, Thought(PrintForm(f))) == [Thinking(PrintForm(f)), e]
    ensures !TopLevelOnly(lx, Thought(PrintForm(f)))
  {
    hide MatchAt, Scan, Remove, Silent, NoClose, Sorted, BuildAll, PlainTag, PlainTags, ShorthandTags, BuildTag,
      PrintForm, Leftover, ShorthandTag, Lower, Trimmed, ShorthandForm, ReadsShorthand, HitOf;
    var inner := PrintForm(f);
    var raw := Thought(inner);
    ThoughtGoesOn(f, parts);
    ThoughtFound(lx, inner);
    ShorthandHit(lx, f, parts, CLOSE);
    ThoughtOfCall(f, parts);
    FormNonEmpty(f);
    InnerFound(lx, Shorthand, inner, HitOf(f));
    ShorthandSilent(lx, SelfClosing, f, parts, CLOSE);
    InnerMissed(lx, SelfClosing, inner);
    var o, g := Found(0, Hit(|raw|, "thinking", "", inner)), Found(10, HitOf(f));
    assert o in Scan(lx, Outer, raw, 0) && g in Scan(lx, Shorthand, raw, 0);
    BuiltAsCall(lx, f, parts, e, 10);
    HitName(f);
    ThoughtTag(lx, inner);
    PairRead(lx, raw, o, g, Thinking(inner), e);
    assert g.pos < End(o) by { ThoughtText(inner); }
    ShorthandSpeaks(f, e);
    RecoveryExactly(lx, raw);
    assert [Thinking(inner), e][1] == e && Speaks(e);
  }

  /** A paired tag and a shorthand in it. */
  lemma PairRead(lx: Lexicon, raw: string, o: Found, g: Found, a: Event, b: Event)
    requires Scan(lx, Outer, raw, 0) == [o] && Scan(lx, SelfClosing, raw, 0) == []
    requires Scan(lx, Shorthand, raw, 0) == [g] && Lower(g.hit.name) in lx.capabilities
    requires PlainTag(lx, o).pos < ShorthandTag(lx, g).pos
    requires BuildTag(lx, PlainTag(lx, o)) == Some(a) && BuildTag(lx, ShorthandTag(lx, g)) == Some(b)
    ensures Tagged(lx, raw) == [a, b]
  {
    hide Scan, Sorted, BuildAll, PlainTag, PlainTags, ShorthandTags, BuildTag, ShorthandTag, Lower;
    OnePlain(lx, o);
    OneShort(lx, g);
    TwoSorted(PlainTag(lx, o), ShorthandTag(lx, g));
    assert [PlainTag(lx, o)] + [] + [ShorthandTag(lx, g)] == [PlainTag(lx, o), ShorthandTag(lx, g)];
    TwoBuilt(lx, PlainTag(lx, o), ShorthandTag(lx, g), a, b);
  }

  /** The bodies alone do not decide it: a tag in the attributes is found as well. */
  lemma FinalInAttributes(lx: Lexicon)
    ensures var raw, o := "<thinking <final/></thinking>", Found(0, Hit(29, "thinking", " <final/", ""));
      && Scan(lx, Outer, raw, 0) == [o] && o.hit.body == ""
      && FoundInside(lx, SelfClosing, raw, o)
  {
    hide OpenTag, Paired, NoClose, Scan, OUTER_NAMES, SINGLE_NAMES, Plain, MatchAt, FoundInside;
    var raw, h := "<thinking <final/></thinking>", Hit(29, "thinking", " <final/", "");
    AttributesMatch(lx);
    assert raw + "" == raw;
    ScanHit(lx, Outer, raw, "", h, 0);
    NothingThere(lx, Outer, 29);
    AttributesHit(lx);
  }

  lemma AttributesMatch(lx: Lexicon)
    ensures MatchAt(lx, Outer, "<thinking <final/></thinking>") == Some(Hit(29, "thinking", " <final/", ""))
  {
    hide OpenTag, Paired, NoClose, OUTER_NAMES, SINGLE_NAMES, Plain, MatchAt;
    ThinkingName();
    var raw, attrs := "<thinking <final/></thinking>", " <final/";
    AttributesCut();
    OpenTagIs(lx, OUTER_NAMES, "thinking", attrs + (">" + CLOSE));
    NoClosePlain(BackReference, "thinking", "", CLOSE);
    assert CLOSE + "" == CLOSE;
    PairedIs(BackReference, "thinking", attrs, "", "");
    OuterOpened(lx, raw);
  }

  lemma AttributesCut()
    ensures var raw, attrs := "<thinking <final/></thinking>", " <final/";
      raw == "<" + "thinking" + (attrs + (">" + CLOSE)) && raw == "<" + "thinking" + attrs + ">" + "" + CLOSE + ""
  {
  }

  lemma OuterOpened(lx: Lexicon, s: string)
    requires OpenTag(lx, OUTER_NAMES, s) == Some(Open("thinking", 9)) && |s| >= 9
    ensures MatchAt(lx, Outer, s) == Paired(BackReference, "thinking", 9, s)
  {
    hide OpenTag, Paired, OUTER_NAMES;
  }

  lemma AttributesSilent(lx: Lexicon)
    ensures Silent(lx, SelfClosing, "<thinking ", FINAL_TAG + CLOSE)
  {
    hide MatchAt, SINGLE_NAMES, OUTER_NAMES, Silent, FINAL_TAG, CLOSE, Plain;
    ThinkingName();
    var rest := FINAL_TAG + CLOSE;
    OtherNotSingle(lx, "thinking", " " + ("" + rest));
    assert "<thinking " == "<" + "thinking" + " " + "";
    HeadOnly(lx, SelfClosing, "thinking", " ", "", rest);
  }

  lemma AttributesText()
    ensures "<thinking <final/></thinking>" == "<thinking " + (FINAL_TAG + CLOSE)
    ensures |"<thinking "| == 10 && |FINAL_TAG| == 8 && FINAL_TAG != ""
  {
  }

  lemma AttributesScan(lx: Lexicon, head: string)
    requires Silent(lx, SelfClosing, head, FINAL_TAG + CLOSE) && |head| == 10
    ensures Found(10, Hit(8, "final", "", "")) in Scan(lx, SelfClosing, head + (FINAL_TAG + CLOSE), 0)
  {
    AttributesText();
    hide MatchAt, Scan, Silent, FINAL_TAG, CLOSE;
    ScanSkip(lx, SelfClosing, head, FINAL_TAG + CLOSE, 0);
    FinalHit(lx, CLOSE);
    ScanHit(lx, SelfClosing, FINAL_TAG, CLOSE, Hit(8, "final", "", ""), 10);
  }

  lemma AttributesHit(lx: Lexicon)
    ensures FoundInside(lx, SelfClosing, "<thinking <final/></thinking>", Found(0, Hit(29, "thinking", " <final/", "")))
  {
    hide MatchAt, Scan, Silent, FINAL_TAG, CLOSE;
    AttributesText();
    AttributesSilent(lx);
    AttributesScan(lx, "<thinking ");
  }
}
