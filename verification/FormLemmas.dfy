/** The three scans over a sequence of written tags. */
module FormLemmas {
  import opened Text
  import opened Patterns
  import opened Printer
  import opened TagLemmas

  /** Nothing in the body closes an outer tag or starts a self-closing or shorthand tag,
      whatever text follows. */
  ghost predicate Quiet(lx: Lexicon, body: string) {
    && (forall n: string, b: string :: n in OUTER_NAMES ==> NoClose(BackReference, n, body, b))
    && (forall b: string :: Silent(lx, SelfClosing, body, b))
    && (forall b: string :: Silent(lx, Shorthand, body, b))
  }

  ghost predicate TopForm(lx: Lexicon, f: Form) {
    && f.name in OUTER_NAMES && AttrsOk(f.attrs)
    && if f.Single? then f.name in SINGLE_NAMES else Quiet(lx, f.body)
  }

  /** No tag written as self-closing is followed by a pair of the same name, whose close tag would
      end it. */
  predicate Unmixed(fs: seq<Form>) {
    forall i, j :: 0 <= i < j < |fs| && fs[i].Single? && fs[j].Pair? ==> fs[i].name != fs[j].name
  }

  ghost predicate TopForms(lx: Lexicon, fs: seq<Form>) {
    Unmixed(fs) && forall i :: 0 <= i < |fs| ==> TopForm(lx, fs[i])
  }

  /** The match of a written tag by its own pattern. */
  function HitOf(f: Form): Hit {
    Hit(|PrintForm(f)|, f.name, PrintAttrs(f.attrs), if f.Pair? then f.body else "")
  }

  lemma QuietPlain(lx: Lexicon, body: string)
    requires '<' !in body
    ensures Quiet(lx, body)
  {
  }

  // ----- the open tag -----

  lemma HeadShape(f: Form, r: string)
    requires AttrsOk(f.attrs) && r != "" && (r[0] == '>' || r[0] == '/')
    ensures var a := PrintAttrs(f.attrs); AfterName(a + r) && '<' !in a && '>' !in a
  {
    hide Key, AttrValue;
    PrintAttrsShape(f.attrs);
  }

  lemma PairText(f: Form, rest: string)
    requires f.Pair?
    ensures var a := PrintAttrs(f.attrs);
      && PrintForm(f) + rest == "<" + f.name + (a + (">" + f.body + PrintClose(f.name) + rest))
      && PrintForm(f) + rest == "<" + f.name + a + ">" + f.body + PrintClose(f.name) + rest
      && PrintForm(f) == ("<" + f.name + a + ">") + (f.body + PrintClose(f.name))
      && |PrintForm(f)| == 1 + |f.name| + |a| + 1 + |f.body| + |f.name| + 3
  {
    hide PrintAttrs;
  }

  lemma SingleText(f: Form, rest: string)
    requires f.Single?
    ensures var a := PrintAttrs(f.attrs);
      && PrintForm(f) + rest == "<" + f.name + (a + ("/>" + rest))
      && |PrintForm(f)| == 1 + |f.name| + |a| + 2
  {
    hide PrintAttrs;
  }

  /** Only the first character of a self-closing tag, or of an open tag, is `<`. */
  lemma HeadOnly(lx: Lexicon, p: Pattern, name: string, a: string, t: string, b: string)
    requires '<' !in name && '<' !in a && '<' !in t
    requires MatchAt(lx, p, "<" + name + (a + (t + b))) == None
    ensures Silent(lx, p, "<" + name + a + t, b)
  {
    hide MatchAt;
    var s := "<" + name + a + t;
    assert s[0..] + b == "<" + name + (a + (t + b));
  }

  lemma NameClean(name: string)
    requires name in OUTER_NAMES
    ensures '<' !in name && '>' !in name && Plain(name)
  {
    OuterNamesPlain(name);
  }

  // ----- the outer pattern -----

  lemma OuterPair(lx: Lexicon, f: Form, rest: string)
    requires TopForm(lx, f) && f.Pair?
    ensures MatchAt(lx, Outer, PrintForm(f) + rest)
      == Some(HitOf(f))
  {
    hide OpenTag, Paired, NoClose, Silent, PrintAttrs, AttrsOk, PrintForm, PrintClose;
    var a := PrintAttrs(f.attrs);
    var tail := ">" + f.body + PrintClose(f.name) + rest;
    HeadShape(f, tail);
    NameClean(f.name);
    PairText(f, rest);
    OpenTagIs(lx, OUTER_NAMES, f.name, a + tail);
    PairedIs(BackReference, f.name, a, f.body, rest);
  }

  lemma OuterSingle(lx: Lexicon, f: Form, rest: string)
    requires TopForm(lx, f) && f.Single? && FindClose(BackReference, f.name, rest) == None
    ensures Silent(lx, Outer, PrintForm(f), rest)
  {
    hide OpenTag, FindClose, PrintAttrs, AttrsOk, MatchOuter;
    var a := PrintAttrs(f.attrs);
    HeadShape(f, "/>" + rest);
    NameClean(f.name);
    SingleText(f, rest);
    var s := "<" + f.name + (a + ("/>" + rest));
    OpenTagIs(lx, OUTER_NAMES, f.name, a + ("/>" + rest));
    UnclosedPaired(f.name, a, rest);
    assert MatchAt(lx, Outer, s) == None by { OuterNone(lx, s, f.name); }
    HeadOnly(lx, Outer, f.name, a, "/>", rest);
  }

  lemma OuterNone(lx: Lexicon, s: string, name: string)
    requires OpenTag(lx, OUTER_NAMES, s) == Some(Open(name, 1 + |name|))
    requires Paired(BackReference, name, 1 + |name|, s) == None
    ensures MatchOuter(lx, s) == None
  {
    hide OpenTag, Paired;
  }

  lemma UnclosedPaired(name: string, a: string, rest: string)
    requires '>' !in a && FindClose(BackReference, name, rest) == None
    ensures Paired(BackReference, name, 1 + |name|, "<" + name + (a + ("/>" + rest))) == None
  {
    hide FindClose, IndexOf;
    var s := "<" + name + (a + ("/>" + rest));
    assert s[1 + |name|..] == (a + "/") + (">" + rest);
    IndexOfIs('>', a + "/", rest);
    assert s[1 + |name| + |a| + 2..] == rest;
  }

  // ----- the self-closing pattern -----

  lemma SingleSingle(lx: Lexicon, f: Form, rest: string)
    requires TopForm(lx, f) && f.Single?
    ensures MatchAt(lx, SelfClosing, PrintForm(f) + rest)
      == Some(HitOf(f))
  {
    hide OpenTag, PrintAttrs, AttrsOk, PrintForm, MatchSingle;
    var a := PrintAttrs(f.attrs);
    HeadShape(f, "/>" + rest);
    SingleText(f, rest);
    OpenTagIs(lx, SINGLE_NAMES, f.name, a + ("/>" + rest));
    SingleIs(lx, f.name, a, rest);
  }

  lemma SingleIs(lx: Lexicon, name: string, a: string, rest: string)
    requires '>' !in a
    requires OpenTag(lx, SINGLE_NAMES, "<" + name + (a + ("/>" + rest))) == Some(Open(name, 1 + |name|))
    ensures MatchSingle(lx, "<" + name + (a + ("/>" + rest))) == Some(Hit(1 + |name| + |a| + 2, name, a, ""))
  {
    hide OpenTag, IndexOf;
    var s := "<" + name + (a + ("/>" + rest));
    assert s[1 + |name|..] == (a + "/") + (">" + rest);
    IndexOfIs('>', a + "/", rest);
    assert s[1 + |name|..1 + |name| + |a| + 1] == a + "/";
    assert Rstrip(a + "/") == a + "/";
    assert (a + "/")[..|a|] == a;
  }

  lemma RstripQuote(a: string)
    requires a == "" || a[|a| - 1] == '"'
    ensures Rstrip(a) == a
  {
  }

  /** Without a slash before its first `>`, an open tag is not self-closing. */
  lemma NoSlashNotSingle(lx: Lexicon, s: string, o: Open, inside: string)
    requires OpenTag(lx, SINGLE_NAMES, s) == Some(o) && o.next + |inside| < |s|
    requires IndexOf('>', s[o.next..]) == |inside| && s[o.next..o.next + |inside|] == inside
    requires Rstrip(inside) == inside && (inside == "" || inside[|inside| - 1] != '/')
    ensures MatchSingle(lx, s) == None
  {
    hide OpenTag, IndexOf, Rstrip, SINGLE_NAMES;
  }

  lemma OpenNotSingle(lx: Lexicon, name: string, a: string, r: string)
    requires name in SINGLE_NAMES && '>' !in a && (a == "" || (a[0] == ' ' && a[|a| - 1] == '"'))
    ensures MatchAt(lx, SelfClosing, "<" + name + (a + (">" + r))) == None
  {
    hide OpenTag, IndexOf, Rstrip, MatchSingle, SINGLE_NAMES, OUTER_NAMES;
    var s := "<" + name + (a + (">" + r));
    SinglesAreOuter();
    OpenTagIs(lx, SINGLE_NAMES, name, a + (">" + r));
    assert s[1 + |name|..] == a + (['>'] + r);
    IndexOfIs('>', a, r);
    assert s[1 + |name|..1 + |name| + |a|] == a;
    RstripQuote(a);
    NoSlashNotSingle(lx, s, Open(name, 1 + |name|), a);
  }

  lemma SinglesAreOuter()
    ensures forall n :: n in SINGLE_NAMES ==> n in OUTER_NAMES
  {
  }

  lemma SlashNotSingle(lx: Lexicon, s: string)
    requires |s| > 1 && s[0] == '<' && s[1] == '/'
    ensures MatchAt(lx, SelfClosing, s) == None
  {
    OpenTagLetter(lx, SINGLE_NAMES, s);
  }

  lemma SlashNotShort(lx: Lexicon, s: string)
    requires |s| > 1 && s[0] == '<' && s[1] == '/'
    ensures MatchAt(lx, Shorthand, s) == None
  {
    assert SpaceRun(s[1..]) == 0;
  }

  lemma CloseSilent(lx: Lexicon, p: Pattern, name: string, b: string)
    requires p.SelfClosing? || p.Shorthand?
    requires '<' !in name
    ensures Silent(lx, p, PrintClose(name), b)
  {
    hide MatchAt;
    var c := PrintClose(name);
    assert c[0..] + b == c + b;
    if p.SelfClosing? { SlashNotSingle(lx, c + b); } else { SlashNotShort(lx, c + b); }
  }

  lemma PairSilent(lx: Lexicon, p: Pattern, f: Form, rest: string)
    requires f.Pair? && '<' !in f.name && (p.SelfClosing? || p.Shorthand?)
    requires '<' !in PrintAttrs(f.attrs)
    requires MatchAt(lx, p,
      "<" + f.name + (PrintAttrs(f.attrs) + (">" + ((f.body + PrintClose(f.name)) + rest)))) == None
    requires Silent(lx, p, f.body, PrintClose(f.name) + rest)
    ensures Silent(lx, p, PrintForm(f), rest)
  {
    hide MatchAt, Silent, PrintAttrs, PrintClose;
    var a := PrintAttrs(f.attrs);
    CloseSilent(lx, p, f.name, rest);
    SilentJoin(lx, p, f.body, PrintClose(f.name), rest);
    HeadOnly(lx, p, f.name, a, ">", (f.body + PrintClose(f.name)) + rest);
    SilentJoin(lx, p, "<" + f.name + a + ">", f.body + PrintClose(f.name), rest);
    PairText(f, rest);
  }

  lemma SinglePair(lx: Lexicon, f: Form, rest: string)
    requires TopForm(lx, f) && f.Pair?
    ensures Silent(lx, SelfClosing, PrintForm(f), rest)
  {
    hide MatchSingle, Silent, NoClose, PrintAttrs, PrintClose, PrintForm;
    var a := PrintAttrs(f.attrs);
    var r := (f.body + PrintClose(f.name)) + rest;
    PrintAttrsShape(f.attrs);
    NameClean(f.name);
    if f.name in SINGLE_NAMES {
      OpenNotSingle(lx, f.name, a, r);
    } else {
      OtherNotSingle(lx, f.name, a + (">" + r));
    }
    PairSilent(lx, SelfClosing, f, rest);
  }

  lemma OtherNotSingle(lx: Lexicon, name: string, r: string)
    requires name in OUTER_NAMES && name !in SINGLE_NAMES
    ensures MatchAt(lx, SelfClosing, "<" + name + r) == None
  {
    hide OpenTag;
    OpenTagOther(lx, SINGLE_NAMES, name, r);
  }

  // ----- the shorthand pattern -----

  lemma SegmentIs(name: string, r: string)
    requires Plain(name) && AfterName(r)
    ensures SegmentRun(name + r) == |name|
  {
    assert (name + r)[1..] == name[1..] + r;
    NameRunIs(name[1..], r);
  }

  lemma {:induction false} NameRunIs(name: string, r: string)
    requires (forall i :: 0 <= i < |name| ==> IsNameChar(name[i])) && AfterName(r)
    ensures NameRun(name + r) == |name|
  {
    if name == "" {
      assert name + r == r;
    } else {
      assert (name + r)[1..] == name[1..] + r;
      NameRunIs(name[1..], r);
    }
  }

  lemma NotShorthand(lx: Lexicon, name: string, r: string)
    requires Plain(name) && AfterName(r)
    ensures MatchAt(lx, Shorthand, "<" + name + r) == None
  {
    hide SegmentRun;
    var s := "<" + name + r;
    assert s[1..] == name + r;
    assert s[1] == name[0] && SpaceRun(s[1..]) == 0;
    SegmentIs(name, r);
    assert s[1 + |name|] == r[0];
    assert DottedEnds(lx, s, 1 + |name|) == [];
  }

  lemma ShortForm(lx: Lexicon, f: Form, rest: string)
    requires TopForm(lx, f)
    ensures Silent(lx, Shorthand, PrintForm(f), rest)
  {
    hide MatchShorthand, Silent, NoClose, PrintAttrs, PrintClose, AttrsOk;
    var a := PrintAttrs(f.attrs);
    NameClean(f.name);
    match f
    case Pair(_, _, body) =>
      var r := (body + PrintClose(f.name)) + rest;
      HeadShape(f, ">" + r);
      NotShorthand(lx, f.name, a + (">" + r));
      PairSilent(lx, Shorthand, f, rest);
    case Single(_, _) =>
      HeadShape(f, "/>" + rest);
      NotShorthand(lx, f.name, a + ("/>" + rest));
      HeadOnly(lx, Shorthand, f.name, a, "/>", rest);
  }

  // ----- close tags -----

  /** A written tag closes no outer tag of another name. */
  lemma NoCloseForm(lx: Lexicon, n: string, f: Form, rest: string)
    requires TopForm(lx, f) && n in OUTER_NAMES && (f.Pair? ==> f.name != n)
    ensures NoClose(BackReference, n, PrintForm(f), rest)
  {
    hide CloseTag, Silent, PrintAttrs, AttrsOk, PrintClose;
    var a := PrintAttrs(f.attrs);
    NameClean(f.name);
    var t := if f.Pair? then ">" else "/>";
    HeadShape(f, t);
    HeadNoClose(n, f.name, a + t, if f.Pair? then (f.body + PrintClose(f.name)) + rest else rest);
    assert "<" + f.name + (a + t) == "<" + f.name + a + t;
    if f.Pair? {
      CloseNoClose(n, f.name, rest);
      assert NoClose(BackReference, n, f.body, PrintClose(f.name) + rest);
      hide NoClose;
      NoCloseJoin(BackReference, n, f.body, PrintClose(f.name), rest);
      NoCloseJoin(BackReference, n, "<" + f.name + a + ">", f.body + PrintClose(f.name), rest);
      PairText(f, rest);
    }
  }

  lemma HeadNoClose(n: string, name: string, r: string, b: string)
    requires Plain(name) && '<' !in r
    ensures NoClose(BackReference, n, "<" + name + r, b)
  {
    hide CloseTag;
    var s := "<" + name + r;
    assert s[1] == name[0];
    assert s[0..] + b == s + b;
    CloseTagOpen(BackReference, n, s + b);
  }

  lemma CloseNoClose(n: string, name: string, b: string)
    requires n in OUTER_NAMES && name in OUTER_NAMES && n != name
    ensures NoClose(BackReference, n, PrintClose(name), b)
  {
    hide CloseTag;
    NamesApart(n, name);
    OuterNamesPlain(n);
    OuterNamesPlain(name);
    var c := PrintClose(name);
    var i := if n[0] != name[0] then 0 else if n[1] != name[1] then 1 else 2;
    assert (c + b)[2 + i] == name[i] && (c + b)[2] == name[0];
    assert c[0..] + b == c + b;
    CloseTagOther(BackReference, n, c + b, i);
  }
}
