/** How the patterns behave on written tags: each pattern hits exactly its own tags. */
module TagLemmas {
  import opened Text
  import opened Patterns
  import opened Printer

  // ----- searching in concatenations -----

  lemma {:induction false} IndexOfSkip(c: char, a: string, b: string)
    requires c !in a
    ensures IndexOf(c, a + b) == |a| + IndexOf(c, b)
  {
    if a == "" {
      assert a + b == b;
    } else {
      assert (a + b)[1..] == a[1..] + b;
      IndexOfSkip(c, a[1..], b);
    }
  }

  lemma IndexOfIs(c: char, a: string, b: string)
    requires c !in a
    ensures IndexOf(c, a + ([c] + b)) == |a|
  {
    IndexOfSkip(c, a, [c] + b);
  }

  /** No close tag of `name` starts inside `a` when `b` follows. */
  ghost predicate NoClose(mode: Mode, name: string, a: string, b: string) {
    forall i :: 0 <= i < |a| && a[i] == '<' ==> CloseTag(mode, name, a[i..] + b) == 0
  }

  lemma NoCloseJoin(mode: Mode, name: string, a: string, a': string, b: string)
    requires NoClose(mode, name, a, a' + b) && NoClose(mode, name, a', b)
    ensures NoClose(mode, name, a + a', b)
  {
    hide CloseTag;
    forall i | 0 <= i < |a + a'| && (a + a')[i] == '<'
      ensures CloseTag(mode, name, (a + a')[i..] + b) == 0
    {
      if i < |a| {
        assert (a + a')[i..] + b == a[i..] + (a' + b);
      } else {
        assert (a + a')[i..] + b == a'[i - |a|..] + b;
      }
    }
  }

  function Shift(n: nat, c: Option<Close>): Option<Close> {
    match c case None => None case Some(c) => Some(Close(c.at + n, c.len))
  }

  lemma {:induction false} FindCloseSkip(mode: Mode, name: string, a: string, b: string)
    requires NoClose(mode, name, a, b)
    ensures FindClose(mode, name, a + b) == Shift(|a|, FindClose(mode, name, b))
  {
    hide CloseTag;
    if a == "" {
      assert a + b == b;
    } else {
      assert (a + b)[1..] == a[1..] + b;
      forall i | 0 <= i < |a[1..]| && a[1..][i] == '<'
        ensures CloseTag(mode, name, a[1..][i..] + b) == 0
      {
        assert a[1..][i..] == a[i + 1..];
      }
      FindCloseSkip(mode, name, a[1..], b);
      assert CloseTag(mode, name, a + b) == 0 by {
        if a[0] == '<' { assert a[0..] + b == a + b; }
      }
    }
  }

  /** The pattern matches nowhere inside `a` when `b` follows. */
  ghost predicate Silent(lx: Lexicon, p: Pattern, a: string, b: string) {
    forall i :: 0 <= i < |a| && a[i] == '<' ==> MatchAt(lx, p, a[i..] + b) == None
  }

  lemma SilentJoin(lx: Lexicon, p: Pattern, a: string, a': string, b: string)
    requires Silent(lx, p, a, a' + b) && Silent(lx, p, a', b)
    ensures Silent(lx, p, a + a', b)
  {
    hide MatchAt;
    forall i | 0 <= i < |a + a'| && (a + a')[i] == '<'
      ensures MatchAt(lx, p, (a + a')[i..] + b) == None
    {
      if i < |a| {
        assert (a + a')[i..] + b == a[i..] + (a' + b);
      } else {
        assert (a + a')[i..] + b == a'[i - |a|..] + b;
      }
    }
  }

  lemma SilentTail(lx: Lexicon, p: Pattern, a: string, b: string)
    requires a != "" && Silent(lx, p, a, b)
    ensures Silent(lx, p, a[1..], b)
  {
    hide MatchAt;
    forall i | 0 <= i < |a[1..]| && a[1..][i] == '<'
      ensures MatchAt(lx, p, a[1..][i..] + b) == None
    {
      assert a[1..][i..] == a[i + 1..];
    }
  }

  lemma {:induction false} ScanSkip(lx: Lexicon, p: Pattern, a: string, b: string, pos: nat)
    requires !p.Attr? && Silent(lx, p, a, b)
    ensures Scan(lx, p, a + b, pos) == Scan(lx, p, b, pos + |a|)
    ensures Remove(lx, p, a + b) == a + Remove(lx, p, b)
  {
    hide MatchAt;
    if a == "" {
      assert a + b == b;
    } else {
      assert (a + b)[1..] == a[1..] + b;
      SilentTail(lx, p, a, b);
      ScanSkip(lx, p, a[1..], b, pos + 1);
      assert MatchAt(lx, p, a + b) == None by {
        if a[0] == '<' { assert a[0..] + b == a + b; }
      }
      assert [a[0]] + (a[1..] + Remove(lx, p, b)) == a + Remove(lx, p, b);
    }
  }

  lemma ScanHit(lx: Lexicon, p: Pattern, a: string, b: string, h: Hit, pos: nat)
    requires a != "" && MatchAt(lx, p, a + b) == Some(h) && h.len == |a|
    ensures Scan(lx, p, a + b, pos) == [Found(pos, h)] + Scan(lx, p, b, pos + |a|)
    ensures Remove(lx, p, a + b) == Remove(lx, p, b)
  {
    hide MatchAt;
    assert (a + b)[|a|..] == b;
  }

  // ----- names -----

  predicate Plain(name: string) {
    name != "" && 'a' <= name[0] <= 'z' && forall i :: 0 <= i < |name| ==> 'a' <= name[i] <= 'z' || name[i] == '_'
  }

  lemma OuterNamesPlain(name: string)
    requires name in OUTER_NAMES
    ensures Plain(name) && |name| > 2 && name[0] != 'b' && name[0] != 'i'
  {
  }

  /** The tag names are told apart by their first three letters. */
  lemma NamesApart(a: string, b: string)
    requires a in OUTER_NAMES && b in OUTER_NAMES && a != b
    ensures |a| > 2 && |b| > 2 && (a[0] != b[0] || a[1] != b[1] || a[2] != b[2])
  {
  }

  lemma LetterRun(s: string)
    requires s != "" && 'a' <= s[0] <= 'z'
    ensures SpaceRun(s) == 0
  {
  }

  lemma SameNameSelf(mode: Mode, name: string, r: string)
    requires Plain(name)
    ensures SameName(mode, name, name + r)
  {
  }

  lemma Different(mode: Mode, name: string, s: string, i: nat)
    requires Plain(name) && i < |name| && i < |s|
    requires s[i] < '\U{80}' && !('A' <= s[i] <= 'Z') && s[i] != name[i]
    ensures !SameName(mode, name, s)
  {
  }

  lemma DifferentNames(mode: Mode, name: string, other: string, r: string)
    requires name in OUTER_NAMES && other in OUTER_NAMES && name != other
    ensures !SameName(mode, name, other + r)
  {
    NamesApart(name, other);
    OuterNamesPlain(name);
    OuterNamesPlain(other);
    var s := other + r;
    var i := if name[0] != other[0] then 0 else if name[1] != other[1] then 1 else 2;
    assert s[i] == other[i];
    Different(mode, name, s, i);
  }

  lemma {:induction false} FirstNameNone(lx: Lexicon, names: seq<string>, s: string)
    requires forall j :: 0 <= j < |names| ==> !SameName(Literal, names[j], s)
    ensures FirstName(lx, names, s) == 0
  {
    if names != [] {
      FirstNameNone(lx, names[1..], s);
    }
  }

  /** What may follow the name in an open tag. */
  predicate AfterName(r: string) {
    r != "" && (r[0] == ' ' || r[0] == '>' || r[0] == '/')
  }

  lemma {:induction false} FirstNameIs(lx: Lexicon, names: seq<string>, name: string, r: string)
    requires name in names && (forall n :: n in names ==> n in OUTER_NAMES) && AfterName(r)
    ensures FirstName(lx, names, name + r) == |name|
  {
    hide SameName;
    if names[0] == name {
      OuterNamesPlain(name);
      SameNameSelf(Literal, name, r);
      assert (name + r)[|name|] == r[0];
    } else {
      DifferentNames(Literal, names[0], name, r);
      FirstNameIs(lx, names[1..], name, r);
    }
  }

  lemma OpenTagIs(lx: Lexicon, names: seq<string>, name: string, r: string)
    requires name in names && (forall n :: n in names ==> n in OUTER_NAMES) && AfterName(r)
    ensures OpenTag(lx, names, "<" + name + r) == Some(Open(name, 1 + |name|))
  {
    hide FirstName, SameName, IsWord, SpaceRun, IsSpace, OUTER_NAMES;
    var s := "<" + name + r;
    OuterNamesPlain(name);
    assert s[1..] == name + r;
    assert s[1] == name[0];
    FirstNameIs(lx, names, name, r);
    LetterRun(s[1..]);
    assert s[1..1 + |name|] == name;
  }

  lemma OpenTagOther(lx: Lexicon, names: seq<string>, name: string, r: string)
    requires name in OUTER_NAMES && name !in names && (forall n :: n in names ==> n in OUTER_NAMES)
    ensures OpenTag(lx, names, "<" + name + r) == None
  {
    hide FirstName, SameName, SpaceRun, IsSpace, OUTER_NAMES;
    var s := "<" + name + r;
    OuterNamesPlain(name);
    assert s[1..] == name + r;
    assert s[1] == name[0];
    LetterRun(s[1..]);
    forall j | 0 <= j < |names| ensures !SameName(Literal, names[j], name + r) {
      DifferentNames(Literal, names[j], name, r);
    }
    FirstNameNone(lx, names, name + r);
  }

  /** An open tag whose first letter starts none of the names. */
  lemma OpenTagLetter(lx: Lexicon, names: seq<string>, s: string)
    requires |s| > 1 && s[0] == '<' && !IsSpace(s[1]) && s[1] < '\U{80}' && !('A' <= s[1] <= 'Z')
    requires forall n :: n in names ==> Plain(n) && n[0] != s[1]
    ensures OpenTag(lx, names, s) == None
  {
    forall j | 0 <= j < |names| ensures !SameName(Literal, names[j], s[1..]) {
      assert names[j] in names;
      Different(Literal, names[j], s[1..], 0);
    }
    FirstNameNone(lx, names, s[1..]);
    assert SpaceRun(s[1..]) == 0;
  }

  // ----- one written tag -----

  lemma CloseTagIs(mode: Mode, name: string, r: string)
    requires Plain(name)
    ensures CloseTag(mode, name, PrintClose(name) + r) == |name| + 3
  {
    var s := PrintClose(name) + r;
    assert s[1] == '/' && s[2..] == name + (">" + r);
    SameNameSelf(mode, name, ">" + r);
    assert s[2] == name[0];
    assert SpaceRun(s[1..]) == 0 && SpaceRun(s[2..]) == 0;
    assert s[2 + |name|] == '>';
    assert SpaceRun(s[2 + |name|..]) == 0;
  }

  lemma CloseTagOther(mode: Mode, name: string, s: string, i: nat)
    requires Plain(name) && |s| > 2 + i && s[0] == '<' && s[1] == '/' && !IsSpace(s[2]) && i < |name|
    requires s[2 + i] < '\U{80}' && !('A' <= s[2 + i] <= 'Z') && s[2 + i] != name[i]
    ensures CloseTag(mode, name, s) == 0
  {
    assert SpaceRun(s[1..]) == 0;
    assert SpaceRun(s[2..]) == 0;
    Different(mode, name, s[2..], i);
  }

  lemma CloseTagOpen(mode: Mode, name: string, s: string)
    requires |s| > 1 && s[0] == '<' && !IsSpace(s[1]) && s[1] != '/'
    ensures CloseTag(mode, name, s) == 0
  {
    assert SpaceRun(s[1..]) == 0;
  }

  lemma FindCloseIs(mode: Mode, name: string, body: string, rest: string)
    requires Plain(name) && NoClose(mode, name, body, PrintClose(name) + rest)
    ensures FindClose(mode, name, body + (PrintClose(name) + rest)) == Some(Close(|body|, |name| + 3))
  {
    hide CloseTag, NoClose;
    FindCloseSkip(mode, name, body, PrintClose(name) + rest);
    CloseTagIs(mode, name, rest);
  }

  /** A paired tag is matched as a whole, its body ending at its own close tag. */
  lemma PairedIs(mode: Mode, name: string, attrs: string, body: string, rest: string)
    requires Plain(name) && '>' !in attrs && NoClose(mode, name, body, PrintClose(name) + rest)
    ensures Paired(mode, name, 1 + |name|, "<" + name + attrs + ">" + body + PrintClose(name) + rest)
      == Some(Hit(1 + |name| + |attrs| + 1 + |body| + |name| + 3, name, attrs, body))
  {
    hide FindClose, NoClose, IndexOf, PrintClose, Plain;
    var s := "<" + name + attrs + ">" + body + PrintClose(name) + rest;
    var tail := body + (PrintClose(name) + rest);
    var g := 1 + |name| + |attrs|;
    assert s[1 + |name|..] == attrs + (">" + tail);
    IndexOfIs('>', attrs, tail);
    assert s[g + 1..] == tail;
    FindCloseIs(mode, name, body, rest);
    assert s[1 + |name|..g] == attrs;
    assert s[g + 1..g + 1 + |body|] == body;
  }

  // ----- attributes -----

  predicate Key(k: string) {
    k != "" && LowerAscii(k) && IsLetter(k[0]) && forall i :: 0 <= i < |k| ==> IsAttrChar(k[i])
  }

  predicate AttrsOk(kvs: seq<(string, string)>) {
    forall i :: 0 <= i < |kvs| ==> Key(kvs[i].0) && AttrValue(kvs[i].1)
  }

  /** No angle bracket in the attributes, which begin with a space and end with a quote. */
  lemma {:induction false} PrintAttrsShape(kvs: seq<(string, string)>)
    requires AttrsOk(kvs)
    ensures var a := PrintAttrs(kvs);
      '<' !in a && '>' !in a && (kvs == [] ==> a == "") && (kvs != [] ==> a != "" && a[0] == ' ' && a[|a| - 1] == '"')
  {
    if kvs != [] {
      PrintAttrsShape(kvs[1..]);
      assert AttrsOk(kvs[1..]);
      var kv := kvs[0];
      assert Key(kv.0) && AttrValue(kv.1);
      assert '<' !in kv.0 && '>' !in kv.0;
      assert PrintAttrs(kvs) == PrintAttr(kv) + PrintAttrs(kvs[1..]);
    }
  }

  lemma {:induction false} AttrRunIs(k: string, r: string)
    requires (forall i :: 0 <= i < |k| ==> IsAttrChar(k[i])) && r != "" && !IsAttrChar(r[0])
    ensures AttrRun(k + r) == |k|
  {
    hide IsAttrChar;
    if k != "" {
      assert (k + r)[1..] == k[1..] + r;
      AttrRunIs(k[1..], r);
    } else {
      assert k + r == r;
    }
  }

  lemma MatchAttrAt(s: string, k: nat, n: nat)
    requires s != "" && IsLetter(s[0]) && AttrRun(s) == k && k + 2 + n < |s| && s[k] == '=' && s[k + 1] == '"'
    requires IndexOf('"', s[k + 2..]) == n
    ensures MatchAttr(s) == Some(Hit(k + n + 3, s[..k], "", s[k + 2..k + 2 + n]))
  {
    hide AttrRun, IndexOf, SpaceRun, IsLetter;
    NoSpaceHere(s[k..]);
    NoSpaceHere(s[k + 1..]);
  }

  lemma NoSpaceHere(s: string)
    requires s != "" && (s[0] == '=' || s[0] == '"')
    ensures SpaceRun(s) == 0
  {
  }

  lemma MatchAttrIs(k: string, v: string, rest: string)
    requires Key(k) && AttrValue(v)
    ensures MatchAttr(k + "=\"" + v + "\"" + rest) == Some(Hit(|k| + |v| + 3, k, "", v))
  {
    hide MatchAttr, AttrRun, IndexOf;
    var s := k + "=\"" + v + "\"" + rest;
    var tail := "=\"" + v + "\"" + rest;
    assert s == k + tail;
    AttrRunIs(k, tail);
    assert s[|k| + 2..] == v + ("\"" + rest);
    IndexOfIs('"', v, rest);
    MatchAttrAt(s, |k|, |v|);
    assert s[..|k|] == k && s[|k| + 2..|k| + 2 + |v|] == v;
  }

  lemma {:induction false} ScanAttrs(lx: Lexicon, kvs: seq<(string, string)>, pos: nat)
    requires AttrsOk(kvs)
    ensures var fs := Scan(lx, Attr, PrintAttrs(kvs), pos);
      |fs| == |kvs| && forall i :: 0 <= i < |kvs| ==> fs[i].hit.name == kvs[i].0 && fs[i].hit.body == kvs[i].1
  {
    hide Scan, Key, AttrValue;
    if kvs == [] {
      ScanNothing(lx, pos);
    } else {
      var kv := kvs[0];
      var rest := PrintAttrs(kvs[1..]);
      var tag := kv.0 + "=\"" + kv.1 + "\"";
      assert PrintAttrs(kvs) == " " + (tag + rest);
      ScanOneAttr(lx, kv.0, kv.1, rest, pos);
      ScanAttrs(lx, kvs[1..], pos + 1 + |tag|);
    }
  }

  lemma ScanNothing(lx: Lexicon, pos: nat)
    ensures Scan(lx, Attr, "", pos) == []
  {
  }

  lemma SpaceNoAttr(r: string)
    ensures MatchAttr(" " + r) == None
  {
  }

  lemma ScanOneAttr(lx: Lexicon, k: string, v: string, rest: string, pos: nat)
    requires Key(k) && AttrValue(v)
    ensures var tag := k + "=\"" + v + "\"";
      Scan(lx, Attr, " " + (tag + rest), pos)
      == [Found(pos + 1, Hit(|tag|, k, "", v))] + Scan(lx, Attr, rest, pos + 1 + |tag|)
  {
    hide Key, AttrValue, MatchAttr, MatchOuter, MatchSingle, MatchShorthand, MatchChild, MatchInner;
    var tag := k + "=\"" + v + "\"";
    var s := " " + (tag + rest);
    SpaceNoAttr(tag + rest);
    assert s[1..] == tag + rest;
    assert tag + rest == k + "=\"" + v + "\"" + rest;
    MatchAttrIs(k, v, rest);
    ScanHit(lx, Attr, tag, rest, Hit(|tag|, k, "", v), pos + 1);
  }
}
