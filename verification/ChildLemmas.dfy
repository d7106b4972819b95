/** The buttons and items nested in a written ask. */
module ChildLemmas {
  import opened Text
  import opened Patterns
  import opened Printer
  import opened TagLemmas
  import opened FormLemmas

  predicate ChildName(name: string) { name == "button" || name == "item" }

  predicate ChildForm(f: Form) {
    f.Pair? && ChildName(f.name) && AttrsOk(f.attrs) && '<' !in f.body
  }

  predicate Clean(seps: seq<string>) {
    forall i :: 0 <= i < |seps| ==> '<' !in seps[i]
  }

  function PatternFor(name: string): Pattern
  {
    if name == "button" then ButtonTag else ItemTag
  }

  // ----- children are quiet for the outer patterns -----

  lemma QuietJoin(lx: Lexicon, a: string, b: string)
    requires Quiet(lx, a) && Quiet(lx, b)
    ensures Quiet(lx, a + b)
  {
    hide NoClose, Silent;
    forall n: string, c: string | n in OUTER_NAMES ensures NoClose(BackReference, n, a + b, c) {
      NoCloseJoin(BackReference, n, a, b, c);
    }
    forall c: string ensures Silent(lx, SelfClosing, a + b, c) { SilentJoin(lx, SelfClosing, a, b, c); }
    forall c: string ensures Silent(lx, Shorthand, a + b, c) { SilentJoin(lx, Shorthand, a, b, c); }
  }

  lemma HeadNeverCloses(name: string, a: string, n: string, c: string)
    requires ChildName(name) && '<' !in a
    ensures NoClose(BackReference, n, "<" + name + a + ">", c)
  {
    hide CloseTag;
    var s := "<" + name + a + ">";
    assert s[1] == name[0];
    assert s[0..] + c == s + c;
    CloseTagOpen(BackReference, n, s + c);
  }

  lemma HeadNotSingle(lx: Lexicon, name: string, a: string, c: string)
    requires ChildName(name) && '<' !in a
    ensures Silent(lx, SelfClosing, "<" + name + a + ">", c)
  {
    hide MatchAt;
    var s := "<" + name + a + ">";
    assert s[1] == name[0];
    assert s[0..] + c == s + c;
    ChildNotSingle(lx, s + c);
  }

  lemma HeadNotShort(lx: Lexicon, name: string, a: string, c: string)
    requires ChildName(name) && '<' !in a && AfterName(a + ">")
    ensures Silent(lx, Shorthand, "<" + name + a + ">", c)
  {
    hide MatchAt;
    var s := "<" + name + a + ">";
    assert s[0..] + c == "<" + name + (a + ">" + c);
    NotShorthand(lx, name, a + ">" + c);
  }

  lemma QuietHead(lx: Lexicon, name: string, a: string)
    requires ChildName(name) && '<' !in a && AfterName(a + ">")
    ensures Quiet(lx, "<" + name + a + ">")
  {
    hide NoClose, Silent, AfterName, ChildName, OUTER_NAMES;
    var s := "<" + name + a + ">";
    forall n: string, c: string ensures NoClose(BackReference, n, s, c) { HeadNeverCloses(name, a, n, c); }
    forall c: string ensures Silent(lx, SelfClosing, s, c) { HeadNotSingle(lx, name, a, c); }
    forall c: string ensures Silent(lx, Shorthand, s, c) { HeadNotShort(lx, name, a, c); }
  }

  lemma ChildNotSingle(lx: Lexicon, s: string)
    requires |s| > 1 && s[0] == '<' && (s[1] == 'b' || s[1] == 'i')
    ensures MatchAt(lx, SelfClosing, s) == None
  {
    hide OpenTag;
    OpenTagLetter(lx, SINGLE_NAMES, s);
  }

  lemma CloseNeverCloses(name: string, n: string, c: string)
    requires ChildName(name) && n in OUTER_NAMES
    ensures NoClose(BackReference, n, PrintClose(name), c)
  {
    hide CloseTag, OUTER_NAMES;
    var s := PrintClose(name);
    assert '<' !in s[1..];
    assert s[0..] + c == s + c;
    OuterNamesPlain(n);
    CloseTagOther(BackReference, n, s + c, 0);
  }

  lemma QuietClose(lx: Lexicon, name: string)
    requires ChildName(name)
    ensures Quiet(lx, PrintClose(name))
  {
    hide NoClose, Silent, OUTER_NAMES, PrintClose;
    var s := PrintClose(name);
    assert '<' !in name by { ChildPlain(name); }
    forall n: string, c: string | n in OUTER_NAMES ensures NoClose(BackReference, n, s, c) {
      CloseNeverCloses(name, n, c);
    }
    forall c: string ensures Silent(lx, SelfClosing, s, c) { CloseSilent(lx, SelfClosing, name, c); }
    forall c: string ensures Silent(lx, Shorthand, s, c) { CloseSilent(lx, Shorthand, name, c); }
  }

  lemma QuietChild(lx: Lexicon, f: Form)
    requires ChildForm(f)
    ensures Quiet(lx, PrintForm(f))
  {
    hide Quiet, PrintAttrs, AttrsOk;
    HeadShape(f, ">");
    QuietHead(lx, f.name, PrintAttrs(f.attrs));
    QuietPlain(lx, f.body);
    QuietClose(lx, f.name);
    QuietJoin(lx, f.body, PrintClose(f.name));
    QuietJoin(lx, "<" + f.name + PrintAttrs(f.attrs) + ">", f.body + PrintClose(f.name));
    PairText(f, "");
  }

  lemma {:induction false} QuietChildren(lx: Lexicon, seps: seq<string>, fs: seq<Form>)
    requires |seps| == |fs|
    requires Clean(seps) && forall i :: 0 <= i < |fs| ==> ChildForm(fs[i])
    ensures Quiet(lx, PrintForms(seps, fs))
  {
    hide Quiet, ChildForm, PrintForm;
    if fs == [] {
      QuietPlain(lx, "");
    } else {
      QuietChild(lx, fs[0]);
      QuietPlain(lx, seps[0]);
      QuietChildren(lx, seps[1..], fs[1..]);
      QuietJoin(lx, PrintForm(fs[0]), seps[0]);
      QuietJoin(lx, PrintForm(fs[0]) + seps[0], PrintForms(seps[1..], fs[1..]));
    }
  }

  // ----- the child patterns -----

  lemma ChildPlain(name: string)
    requires ChildName(name)
    ensures Plain(name) && '<' !in name
  {
  }

  lemma ChildOpen(lx: Lexicon, name: string, r: string)
    requires ChildName(name) && AfterName(r)
    ensures OpenTag(lx, [name], "<" + name + r) == Some(Open(name, 1 + |name|))
  {
    hide SameName, SpaceRun, IsSpace;
    var s := "<" + name + r;
    ChildPlain(name);
    assert s[1..] == name + r;
    assert s[1] == name[0];
    LetterRun(s[1..]);
    SameNameSelf(Literal, name, r);
    assert (name + r)[|name|] == r[0];
    assert s[1..1 + |name|] == name;
  }

  lemma NoClosePlain(mode: Mode, name: string, body: string, b: string)
    requires '<' !in body
    ensures NoClose(mode, name, body, b)
  {
    hide CloseTag;
  }


  lemma ChildHit(lx: Lexicon, f: Form, rest: string)
    requires ChildForm(f)
    ensures MatchAt(lx, PatternFor(f.name), PrintForm(f) + rest) == Some(HitOf(f))
  {
    hide OpenTag, Paired, NoClose, PrintAttrs, AttrsOk, PrintForm, PrintClose;
    var a := PrintAttrs(f.attrs);
    var tail := ">" + f.body + PrintClose(f.name) + rest;
    HeadShape(f, tail);
    ChildPlain(f.name);
    PairText(f, rest);
    ChildOpen(lx, f.name, a + tail);
    NoClosePlain(Literal, f.name, f.body, PrintClose(f.name) + rest);
    PairedIs(Literal, f.name, a, f.body, rest);
  }

  lemma OtherChild(lx: Lexicon, name: string, s: string)
    requires ChildName(name) && |s| > 1 && s[0] == '<' && !IsSpace(s[1])
    requires s[1] < '\U{80}' && !('A' <= s[1] <= 'Z') && s[1] != name[0]
    ensures MatchAt(lx, PatternFor(name), s) == None
  {
    hide OpenTag;
    ChildPlain(name);
    OpenTagLetter(lx, [name], s);
  }

  lemma ChildMiss(lx: Lexicon, name: string, f: Form, rest: string)
    requires ChildForm(f) && ChildName(name) && f.name != name
    ensures Silent(lx, PatternFor(name), PrintForm(f), rest)
  {
    hide MatchAt, PrintAttrs, AttrsOk, PatternFor;
    var p := PatternFor(name);
    var a := PrintAttrs(f.attrs);
    HeadShape(f, ">");
    ChildPlain(f.name);
    PairText(f, rest);
    var head, close := "<" + f.name + a + ">", PrintClose(f.name);
    forall c: string ensures Silent(lx, p, head, c) {
      assert head[1] == f.name[0];
      OtherChild(lx, name, head[0..] + c);
    }
    forall c: string ensures Silent(lx, p, close, c) {
      OtherChild(lx, name, close[0..] + c);
    }
    assert Silent(lx, p, f.body, close + rest);
    hide Silent;
    SilentJoin(lx, p, f.body, close, rest);
    SilentJoin(lx, p, head, f.body + close, rest);
  }

  lemma HitsCons(fs: seq<Form>, first: Found, rest: seq<Found>)
    requires fs != [] && |rest| == |fs| - 1 && first.hit == HitOf(fs[0])
    requires forall i :: 0 <= i < |rest| ==> rest[i].hit == HitOf(fs[1..][i])
    ensures forall i :: 0 <= i < |fs| ==> ([first] + rest)[i].hit == HitOf(fs[i])
  {
    hide HitOf;
    forall i | 0 <= i < |fs| ensures ([first] + rest)[i].hit == HitOf(fs[i]) {
      if i > 0 { assert ([first] + rest)[i] == rest[i - 1] && fs[i] == fs[1..][i - 1]; }
    }
  }

  /** The matches of forms that the pattern hits one after the other. */
  function Hits(seps: seq<string>, fs: seq<Form>, pos: nat): (r: seq<Found>)
    requires |seps| == |fs|
    ensures |r| == |fs| && forall i :: 0 <= i < |fs| ==> r[i].hit == HitOf(fs[i])
  {
    hide HitOf, PrintForm;
    if fs == [] then []
    else
      var first := Found(pos, HitOf(fs[0]));
      var rest := Hits(seps[1..], fs[1..], pos + |PrintForm(fs[0])| + |seps[0]|);
      HitsCons(fs, first, rest);
      [first] + rest
  }

  lemma SepSilent(lx: Lexicon, p: Pattern, sep: string, more: string)
    requires '<' !in sep
    ensures Silent(lx, p, sep, more)
  {
    hide MatchAt;
  }

  /** One form, hit by its own pattern, and the separator after it. */
  lemma ScanOne(lx: Lexicon, sep: string, f: Form, more: string, pos: nat)
    requires ChildForm(f) && '<' !in sep
    ensures Scan(lx, PatternFor(f.name), PrintForm(f) + (sep + more), pos)
      == [Found(pos, HitOf(f))] + Scan(lx, PatternFor(f.name), more, pos + |PrintForm(f)| + |sep|)
  {
    hide MatchAt, PrintForm, PatternFor, HitOf, Scan, Silent;
    PatternForChild(f.name);
    ChildHit(lx, f, sep + more);
    FormNonEmpty(f);
    ScanHit(lx, PatternFor(f.name), PrintForm(f), sep + more, HitOf(f), pos);
    SepSilent(lx, PatternFor(f.name), sep, more);
    ScanSkip(lx, PatternFor(f.name), sep, more, pos + |PrintForm(f)|);
  }

  lemma {:induction false} ScanMine(
      lx: Lexicon, name: string, seps: seq<string>, fs: seq<Form>, rest: string, pos: nat)
    requires |seps| == |fs|
    requires ChildName(name) && Clean(seps)
    requires forall i :: 0 <= i < |fs| ==> ChildForm(fs[i]) && fs[i].name == name
    ensures Scan(lx, PatternFor(name), PrintForms(seps, fs) + rest, pos)
      == Hits(seps, fs, pos) + Scan(lx, PatternFor(name), rest, pos + |PrintForms(seps, fs)|)
  {
    hide MatchAt, PrintForm, PatternFor, HitOf, Scan, ChildForm;
    if fs == [] {
      assert PrintForms(seps, fs) + rest == rest;
    } else {
      var more := PrintForms(seps[1..], fs[1..]) + rest;
      assert PrintForms(seps, fs) + rest == PrintForm(fs[0]) + (seps[0] + more);
      ScanOne(lx, seps[0], fs[0], more, pos);
      ScanMine(lx, name, seps[1..], fs[1..], rest, pos + |PrintForm(fs[0])| + |seps[0]|);
    }
  }

  lemma PatternForChild(name: string)
    ensures PatternFor(name).ButtonTag? || PatternFor(name).ItemTag?
  {
  }

  lemma FormNonEmpty(f: Form)
    ensures PrintForm(f) != "" && HitOf(f).len == |PrintForm(f)|
  {
  }

  lemma {:induction false} SilentOthers(lx: Lexicon, name: string, seps: seq<string>, fs: seq<Form>, rest: string)
    requires |seps| == |fs|
    requires ChildName(name) && Clean(seps)
    requires forall i :: 0 <= i < |fs| ==> ChildForm(fs[i]) && fs[i].name != name
    ensures Silent(lx, PatternFor(name), PrintForms(seps, fs), rest)
  {
    hide MatchAt, PrintForm, PatternFor;
    if fs != [] {
      var p := PatternFor(name);
      var more := PrintForms(seps[1..], fs[1..]);
      ChildMiss(lx, name, fs[0], seps[0] + (more + rest));
      SilentOthers(lx, name, seps[1..], fs[1..], rest);
      assert Silent(lx, p, seps[0], more + rest);
      hide Silent;
      SilentJoin(lx, p, PrintForm(fs[0]), seps[0], more + rest);
      SilentJoin(lx, p, PrintForm(fs[0]) + seps[0], more, rest);
    }
  }

  // ----- stripping the children from the body -----

  lemma {:induction false} InnerEndSkip(a: string, b: string)
    requires '<' !in a
    ensures InnerEnd(a + b) == if InnerEnd(b) == 0 then 0 else |a| + InnerEnd(b)
  {
    if a == "" {
      assert a + b == b;
    } else {
      assert (a + b)[1..] == a[1..] + b;
      InnerEndSkip(a[1..], b);
    }
  }

  lemma InnerEndIs(name: string, rest: string)
    requires ChildName(name)
    ensures InnerEnd(PrintClose(name) + rest) == |name| + 3
  {
    var s := PrintClose(name) + rest;
    assert s[2..] == name + ([">"][0] + rest);
    IndexOfIs('>', name, rest);
  }

  lemma InnerHit(lx: Lexicon, f: Form, rest: string)
    requires ChildForm(f)
    ensures MatchAt(lx, Inner, PrintForm(f) + rest) == Some(Hit(|PrintForm(f)|, "", "", ""))
  {
    hide PrintAttrs, AttrsOk, PrintForm, IndexOf, InnerEnd, PrintClose;
    var a := PrintAttrs(f.attrs);
    HeadShape(f, ">");
    PairText(f, rest);
    var s := PrintForm(f) + rest;
    var tail := f.body + (PrintClose(f.name) + rest);
    assert s[1..] == (f.name + a) + ([">"][0] + tail);
    assert '>' !in f.name;
    IndexOfIs('>', f.name + a, tail);
    assert s[2 + |f.name| + |a|..] == tail;
    InnerEndSkip(f.body, PrintClose(f.name) + rest);
    InnerEndIs(f.name, rest);
  }

  lemma {:induction false} RemoveChildren(lx: Lexicon, seps: seq<string>, fs: seq<Form>)
    requires |seps| == |fs|
    requires Clean(seps) && forall i :: 0 <= i < |fs| ==> ChildForm(fs[i])
    ensures Remove(lx, Inner, PrintForms(seps, fs)) == Concat(seps)
  {
    hide MatchAt, PrintForm;
    if fs != [] {
      var one, more := PrintForm(fs[0]), PrintForms(seps[1..], fs[1..]);
      assert PrintForms(seps, fs) == one + (seps[0] + more);
      InnerHit(lx, fs[0], seps[0] + more);
      FormNonEmpty(fs[0]);
      ScanHit(lx, Inner, one, seps[0] + more, Hit(|one|, "", "", ""), 0);
      ScanSkip(lx, Inner, seps[0], more, 0);
      RemoveChildren(lx, seps[1..], fs[1..]);
    }
  }
}
