/** Tags written loosely: capital letters, and whitespace wherever the patterns allow it. */
module Loose {
  import opened Text
  import opened Tags
  import opened Patterns
  import opened Printer
  import opened Parser
  import opened TagLemmas
  import opened FormLemmas
  import opened ChildLemmas
  import opened PrintParse
  import opened RoundTrip
  import opened Spellings
  import opened Shorthands

  // ----- loosely written tags -----

  datatype LooseAttr = LooseAttr(before: string, key: string, left: string, right: string, value: string)

  /** The whitespace after the bracket, in the close tag and before each `>`; a pair has a close tag
      whose name may be cased differently. */
  datatype LooseTag =
    | LoosePair(open: string, name: string, attrs: seq<LooseAttr>, tail: string, body: string,
                w1: string, w2: string, close: string, w3: string)
    | LooseSingle(open: string, name: string, attrs: seq<LooseAttr>, tail: string, w1: string)

  function AttrText(a: LooseAttr): string {
    a.before + (a.key + a.left + "=" + a.right + "\"" + a.value + "\"")
  }

  function AttrTexts(attrs: seq<LooseAttr>): string {
    if attrs == [] then "" else AttrText(attrs[0]) + AttrTexts(attrs[1..])
  }

  function CloseText(t: LooseTag): string
    requires t.LoosePair?
  {
    "<" + t.w1 + "/" + t.w2 + t.close + t.w3 + ">"
  }

  function TagText(t: LooseTag): string {
    match t
    case LoosePair(open, name, attrs, tail, body, _, _, _, _) =>
      "<" + open + name + (AttrTexts(attrs) + tail + ">" + body + CloseText(t))
    case LooseSingle(open, name, attrs, tail, w1) =>
      "<" + open + name + (AttrTexts(attrs) + tail + "/" + w1 + ">")
  }

  /** The same name up to the case of its letters. */
  predicate Cased(n: string, name: string) { Lower(n) == name }

  predicate LooseAttrOk(a: LooseAttr) {
    && a.before != "" && AllSpace(a.before) && AllSpace(a.left) && AllSpace(a.right)
    && a.key != "" && IsLetter(a.key[0]) && (forall i :: 0 <= i < |a.key| ==> IsAttrChar(a.key[i]))
    && AttrValue(a.value)
  }

  predicate LooseAttrsOk(attrs: seq<LooseAttr>) {
    forall i :: 0 <= i < |attrs| ==> LooseAttrOk(attrs[i])
  }

  /** The tag is some spelling of `f`. */
  predicate Spells(t: LooseTag, f: Form) {
    && LooseAttrsOk(t.attrs) && AllSpace(t.open) && AllSpace(t.tail) && AllSpace(t.w1)
    && Cased(t.name, f.name) && f.attrs == Keyed(t.attrs)
    && match t
       case LoosePair(_, _, _, _, body, _, w2, close, w3) =>
         f.Pair? && f.body == body && AllSpace(w2) && AllSpace(w3) && Cased(close, f.name)
       case LooseSingle(_, _, _, _, _) => f.Single?
  }

  function Keyed(attrs: seq<LooseAttr>): (kvs: seq<(string, string)>)
    ensures |kvs| == |attrs|
  {
    seq(|attrs|, i requires 0 <= i < |attrs| => (Lower(attrs[i].key), attrs[i].value))
  }

  /** No letter counts as whitespace. */
  ghost predicate Sensible(lx: Lexicon) { forall c :: c in lx.letters ==> !IsSpace(c) }

  // ----- names -----

  /** What may follow a name, loosely. */
  predicate Follows(r: string) { r != "" && (IsSpace(r[0]) || r[0] == '>' || r[0] == '/') }

  lemma CasedChars(n: string, name: string)
    requires Cased(n, name) && name in OUTER_NAMES
    ensures |n| == |name| > 2
    ensures forall i :: 0 <= i < |n| ==> Fold(n[i]) == name[i] && !IsSpace(n[i]) && n[i] != '/' && n[i] != '.'
    ensures forall i :: 0 <= i < |n| ==> n[i] != '<' && n[i] != '>'
    ensures 'a' <= name[0] <= 'z'
  {
    OuterNamesPlain(name);
    hide OUTER_NAMES;
    forall i | 0 <= i < |n|
      ensures Fold(n[i]) == name[i] && !IsSpace(n[i]) && n[i] != '/' && n[i] != '.' && n[i] != '<' && n[i] != '>'
    {
      assert Lower(n)[i] == name[i];
    }
  }

  lemma {:induction false} SpacesThen(w: string, r: string)
    requires AllSpace(w) && r != "" && !IsSpace(r[0])
    ensures SpaceRun(w + r) == |w|
  {
    hide IsSpace;
    if w == "" {
      assert w + r == r;
    } else {
      assert (w + r)[1..] == w[1..] + r;
      SpacesThen(w[1..], r);
    }
  }

  lemma CasedSame(n: string, name: string, r: string)
    requires Cased(n, name) && name in OUTER_NAMES
    ensures SameName(Literal, name, n + r)
  {
    hide OUTER_NAMES, IsSpace, Lower;
    CasedChars(n, name);
    forall i | 0 <= i < |name| ensures FoldsTo((n + r)[i], name[i]) { assert (n + r)[i] == n[i]; }
  }

  lemma CasedOther(n: string, name: string, other: string, r: string)
    requires Cased(n, name) && name in OUTER_NAMES && other in OUTER_NAMES && name != other
    ensures !SameName(Literal, other, n + r)
  {
    NamesApart(name, other);
    OuterNamesPlain(name);
    OuterNamesPlain(other);
    hide OUTER_NAMES, IsSpace, Lower;
    CasedChars(n, name);
    var i := if name[0] != other[0] then 0 else if name[1] != other[1] then 1 else 2;
    assert (n + r)[i] == n[i];
    assert !FoldsTo(n[i], other[i]);
  }

  lemma {:induction false} CasedFirst(lx: Lexicon, names: seq<string>, n: string, name: string, r: string)
    requires Cased(n, name) && name in OUTER_NAMES && (forall m :: m in names ==> m in OUTER_NAMES)
    requires r != "" && !IsWord(lx, r[0])
    ensures FirstName(lx, names, n + r) == if name in names then |n| else 0
  {
    hide SameName, OUTER_NAMES, Cased, IsWord;
    assert |n| == |name| by { CasedChars(n, name); }
    if names != [] {
      if names[0] == name {
        CasedSame(n, name, r);
        assert (n + r)[|name|] == r[0];
        assert |name| > 0 by { CasedChars(n, name); }
      } else {
        CasedOther(n, name, names[0], r);
        CasedFirst(lx, names[1..], n, name, r);
      }
    }
  }

  lemma NotWord(lx: Lexicon, r: string)
    requires Sensible(lx) && Follows(r)
    ensures !IsWord(lx, r[0]) && !IsNameChar(r[0]) && r[0] != '.'
  {
  }

  lemma LooseOpen(lx: Lexicon, names: seq<string>, w: string, n: string, name: string, r: string)
    requires Cased(n, name) && name in OUTER_NAMES && (forall m :: m in names ==> m in OUTER_NAMES)
    requires AllSpace(w) && Sensible(lx) && Follows(r)
    ensures OpenTag(lx, names, "<" + w + n + r) == if name in names then Some(Open(n, 1 + |w| + |n|)) else None
  {
    hide FirstName, SpaceRun, IsSpace, OUTER_NAMES, Cased, IsWord, Follows, Sensible;
    var s := "<" + w + n + r;
    NotWord(lx, r);
    FollowsSome(r);
    CasedChars(n, name);
    assert s[1..] == w + (n + r) && (n + r)[0] == n[0];
    SpacesThen(w, n + r);
    var a := 1 + |w|;
    assert s[a..] == n + r;
    CasedFirst(lx, names, n, name, r);
    assert s[a..a + |n|] == n;
  }

  lemma FollowsSome(r: string)
    requires Follows(r)
    ensures r != ""
  {
  }

  /** A bracket, whitespace and a slash, which is at `a`. */
  predicate Opens(s: string, a: nat) {
    s != "" && s[0] == '<' && a == 1 + SpaceRun(s[1..]) && a < |s| && s[a] == '/'
  }

  /** After the slash at `a`, whitespace and a spelling of the name, which starts at `b`. */
  predicate Names(n: string, s: string, a: nat, b: nat) {
    a < |s| && b == a + 1 + SpaceRun(s[a + 1..]) && SameName(BackReference, n, s[b..])
  }

  /** After `n` characters from `b` on, whitespace and the end of the tag, which is at `g`. */
  predicate Finishes(n: nat, s: string, b: nat, g: nat) {
    b + n <= |s| && g == b + n + SpaceRun(s[b + n..]) && g < |s| && s[g] == '>'
  }

  lemma CloseFrom(n: string, s: string, a: nat, b: nat, g: nat)
    requires Opens(s, a) && Names(n, s, a, b) && Finishes(|n|, s, b, g)
    ensures CloseTag(BackReference, n, s) == g + 1
  {
    hide SpaceRun, SameName, AllSpace;
  }

  lemma LooseClose(t: LooseTag, f: Form, rest: string)
    requires Spells(t, f) && t.LoosePair? && f.name in OUTER_NAMES
    ensures CloseTag(BackReference, t.name, CloseText(t) + rest) == |CloseText(t)| > 0
  {
    hide OUTER_NAMES, Cased, LooseAttrsOk, Keyed, CloseTag, AllSpace, SameName, IsSpace;
    var r3 := ">" + rest;
    var r2 := t.close + (t.w3 + r3);
    var r1 := "/" + (t.w2 + r2);
    assert CloseText(t) + rest == "<" + (t.w1 + r1);
    CloseName(t.name, t.close, f.name, t.w3 + r3);
    CloseAt(CloseText(t) + rest, t.name, t.w1, r1, t.w2, r2, t.close, t.w3, r3);
  }

  /** Whitespace after `x`, and what follows it. */
  lemma RunAt(s: string, at: nat, x: string, w: string, r: string)
    requires at <= |s| && s[at..] == x + (w + r) && AllSpace(w) && r != "" && !IsSpace(r[0])
    ensures at + |x| + |w| < |s| && SpaceRun(s[at + |x|..]) == |w|
    ensures s[at + |x| + |w|..] == r && s[at + |x| + |w|] == r[0]
  {
    hide IsSpace, AllSpace, SpaceRun;
    SpacesThen(w, r);
    CutAt(s, at, x, w + r);
    CutAt(s, at + |x|, w, r);
  }

  lemma OpensAt(s: string, a: nat, w: string, r: string)
    requires s == "<" + (w + r) && AllSpace(w) && r != "" && r[0] == '/' && a == 1 + |w|
    ensures Opens(s, a) && s[a..] == r
  {
    hide SpaceRun, IsSpace, AllSpace;
    NotSpaces();
    assert s[0..] == s;
    RunAt(s, 0, "<", w, r);
  }

  lemma NamesAt(n: string, s: string, a: nat, b: nat, w: string, r: string)
    requires a <= |s| && s[a..] == "/" + (w + r) && AllSpace(w) && r != "" && !IsSpace(r[0]) && b == a + 1 + |w|
    requires SameName(BackReference, n, r)
    ensures Names(n, s, a, b) && b <= |s| && s[b..] == r
  {
    hide SpaceRun, IsSpace, AllSpace, SameName;
    RunAt(s, a, "/", w, r);
  }

  lemma FinishesAt(n: nat, s: string, b: nat, g: nat, close: string, w: string, r: string)
    requires b <= |s| && s[b..] == close + (w + r) && AllSpace(w) && r != "" && r[0] == '>'
    requires n == |close| && g == b + n + |w|
    ensures Finishes(n, s, b, g)
  {
    hide SpaceRun, IsSpace, AllSpace;
    NotSpaces();
    RunAt(s, b, close, w, r);
  }

  lemma CloseAt(s: string, n: string, w1: string, r1: string, w2: string, r2: string, close: string, w3: string,
                r3: string)
    requires s == "<" + (w1 + r1) && r1 == "/" + (w2 + r2) && r2 == close + (w3 + r3) && r3 != "" && r3[0] == '>'
    requires AllSpace(w1) && AllSpace(w2) && AllSpace(w3)
    requires SameName(BackReference, n, r2) && r2 != "" && !IsSpace(r2[0]) && |n| == |close| > 0
    ensures CloseTag(BackReference, n, s) == 3 + |w1| + |w2| + |close| + |w3|
  {
    hide IsSpace, CloseTag, AllSpace, SameName, Opens, Names, Finishes;
    var a, b := 1 + |w1|, 2 + |w1| + |w2|;
    var g := b + |n| + |w3|;
    OpensAt(s, a, w1, r1);
    NamesAt(n, s, a, b, w2, r2);
    FinishesAt(|n|, s, b, g, close, w3, r3);
    CloseFrom(n, s, a, b, g);
  }

  lemma CloseName(n: string, close: string, name: string, r: string)
    requires Cased(n, name) && Cased(close, name) && name in OUTER_NAMES
    ensures |n| == |close| > 0 && SameName(BackReference, n, close + r)
    ensures close + r != "" && !IsSpace((close + r)[0])
  {
    hide IsSpace, OUTER_NAMES, Cased;
    CasedChars(n, name);
    CasedChars(close, name);
    assert (close + r)[0] == close[0];
    forall i | 0 <= i < |n| ensures SameChar(BackReference, (close + r)[i], n[i]) { assert (close + r)[i] == close[i]; }
  }

  /** What stands after `a` in a text that goes on with `a + b`. */
  lemma CutAt(s: string, at: nat, a: string, b: string)
    requires at <= |s| && s[at..] == a + b
    ensures at + |a| <= |s| && s[at + |a|..] == b && s[at..at + |a|] == a
  {
  }

  lemma NotSpaces()
    ensures !IsSpace('/') && !IsSpace('>') && !IsSpace('<') && !IsSpace('=') && !IsSpace('"')
  {
  }

  // ----- attributes -----

  lemma SpaceFree(w: string)
    requires AllSpace(w)
    ensures '<' !in w && '>' !in w && '"' !in w && '/' !in w
  {
  }

  lemma AttrTextShape(a: LooseAttr)
    requires LooseAttrOk(a)
    ensures var t := AttrText(a); '<' !in t && '>' !in t && t != "" && IsSpace(t[0]) && t[|t| - 1] == '"'
  {
    hide IsSpace;
    SpaceFree(a.before);
    SpaceFree(a.left);
    SpaceFree(a.right);
    var key := a.key;
    assert '<' !in key && '>' !in key;
    assert AttrText(a)[0] == a.before[0];
  }

  lemma {:induction false} AttrTextsShape(attrs: seq<LooseAttr>)
    requires LooseAttrsOk(attrs)
    ensures var t := AttrTexts(attrs);
      '<' !in t && '>' !in t && (t == "" || (IsSpace(t[0]) && t[|t| - 1] == '"'))
  {
    hide IsSpace, LooseAttrOk, AttrText;
    if attrs != [] {
      AttrTextShape(attrs[0]);
      AttrTextsShape(attrs[1..]);
    }
  }

  /** A key that ends at `k`. */
  predicate KeyEnds(s: string, k: nat) { s != "" && IsLetter(s[0]) && k == AttrRun(s) }

  /** After the key, whitespace and an equals sign at `q`, whitespace and a quote at `v`. */
  predicate EqualsAt(s: string, k: nat, q: nat, v: nat) {
    && k <= q < v < |s| && q == k + SpaceRun(s[k..]) && s[q] == '='
    && v == q + 1 + SpaceRun(s[q + 1..]) && s[v] == '"'
  }

  /** The value's closing quote is at `e`. */
  predicate ValueEnds(s: string, v: nat, e: nat) {
    v < e < |s| && e == v + 1 + IndexOf('"', s[v + 1..])
  }

  lemma AttrFrom(s: string, k: nat, q: nat, v: nat, e: nat)
    requires KeyEnds(s, k) && EqualsAt(s, k, q, v) && ValueEnds(s, v, e)
    ensures k <= e < |s| && v < e && MatchAttr(s) == Some(Hit(e + 1, s[..k], "", s[v + 1..e]))
  {
    hide AttrRun, IndexOf, SpaceRun, IsLetter;
    assert SpacePlace(s, k) == q && SpacePlace(s, q + 1) == v;
  }

  function SpacePlace(s: string, at: nat): nat
    requires at <= |s|
  {
    at + SpaceRun(s[at..])
  }

  /** The text from the value's opening quote on. */
  function Quoted(value: string, rest: string): string { "\"" + (value + (['"'] + rest)) }

  /** How an attribute and what follows it are cut at its key, its equals sign and its quotes. */
  predicate Cut(a: LooseAttr, s: string, rest: string) {
    var k := |a.key|; var q := k + |a.left|; var v := q + 1 + |a.right|;
    && |s| > v + 1 + |a.value| && s[..k] == a.key
    && s[k..] == a.left + ("=" + (a.right + Quoted(a.value, rest)))
    && s[q] == '=' && s[q + 1..] == a.right + Quoted(a.value, rest)
    && s[v] == '"' && s[v + 1..] == a.value + (['"'] + rest) && s[v + 1..v + 1 + |a.value|] == a.value
  }

  lemma AttrCut(a: LooseAttr, rest: string)
    ensures Cut(a, a.key + a.left + "=" + a.right + "\"" + a.value + "\"" + rest, rest)
  {
  }

  lemma CutKey(a: LooseAttr, s: string, rest: string)
    requires LooseAttrOk(a) && Cut(a, s, rest)
    ensures KeyEnds(s, |a.key|)
  {
    hide AttrRun, IsSpace, IsLetter, IsAttrChar, AllSpace, AttrValue, Quoted;
    var tail := s[|a.key|..];
    KeyStops(a, tail);
    AttrRunIs(a.key, tail);
    assert s == a.key + tail;
  }

  lemma CutSpaces(a: LooseAttr, s: string, rest: string)
    requires LooseAttrOk(a) && Cut(a, s, rest)
    ensures var k := |a.key|; var q := k + |a.left|; EqualsAt(s, k, q, q + 1 + |a.right|)
  {
    hide SpaceRun, IsSpace, IsLetter, IsAttrChar, AllSpace, AttrValue;
    NotSpaces();
    SpacesThen(a.left, "=" + (a.right + Quoted(a.value, rest)));
    SpacesThen(a.right, Quoted(a.value, rest));
  }

  lemma CutValue(a: LooseAttr, s: string, rest: string)
    requires LooseAttrOk(a) && Cut(a, s, rest)
    ensures var v := |a.key| + |a.left| + 1 + |a.right|; ValueEnds(s, v, v + 1 + |a.value|)
  {
    hide IndexOf, IsSpace, IsLetter, IsAttrChar, AllSpace, Quoted;
    Unquoted(a);
    IndexOfIs('"', a.value, rest);
  }

  lemma CutHit(a: LooseAttr, s: string, rest: string)
    requires LooseAttrOk(a) && Cut(a, s, rest)
    ensures MatchAttr(s) == Some(Hit(|a.key| + |a.left| + |a.right| + |a.value| + 3, a.key, "", a.value))
  {
    hide MatchAttr, LooseAttrOk, KeyEnds, EqualsAt, ValueEnds, Cut;
    var k, q := |a.key|, |a.key| + |a.left|;
    var v := q + 1 + |a.right|;
    CutKey(a, s, rest);
    CutSpaces(a, s, rest);
    CutValue(a, s, rest);
    CutGroups(a, s, rest);
    AttrFrom(s, k, q, v, v + 1 + |a.value|);
  }

  lemma CutGroups(a: LooseAttr, s: string, rest: string)
    requires Cut(a, s, rest)
    ensures var k, v := |a.key|, |a.key| + |a.left| + 1 + |a.right|;
      v + 1 + |a.value| < |s| && s[..k] == a.key && s[v + 1..v + 1 + |a.value|] == a.value
  {
    hide Quoted;
  }

  lemma LooseAttrHit(a: LooseAttr, rest: string)
    requires LooseAttrOk(a)
    ensures var t := a.key + a.left + "=" + a.right + "\"" + a.value + "\"";
      MatchAttr(t + rest) == Some(Hit(|t|, a.key, "", a.value))
  {
    hide MatchAttr, Cut, LooseAttrOk;
    AttrCut(a, rest);
    CutHit(a, a.key + a.left + "=" + a.right + "\"" + a.value + "\"" + rest, rest);
  }

  lemma Unquoted(a: LooseAttr)
    requires LooseAttrOk(a)
    ensures '"' !in a.value
  {
  }

  lemma KeyStops(a: LooseAttr, tail: string)
    requires LooseAttrOk(a) && tail != "" && (if a.left == "" then tail[0] == '=' else tail[0] == a.left[0])
    ensures !IsAttrChar(tail[0])
  {
    if a.left != "" { assert IsSpace(a.left[0]); }
  }

  lemma {:induction false} SpacesNoAttr(lx: Lexicon, w: string, rest: string, pos: nat)
    requires AllSpace(w)
    ensures Scan(lx, Attr, w + rest, pos) == Scan(lx, Attr, rest, pos + |w|)
  {
    hide MatchAttr;
    if w == "" {
      assert w + rest == rest;
    } else {
      assert (w + rest)[1..] == w[1..] + rest;
      SpaceNotAttr(w + rest);
      SpacesNoAttr(lx, w[1..], rest, pos + 1);
    }
  }

  lemma SpaceNotAttr(s: string)
    requires s != "" && IsSpace(s[0])
    ensures MatchAttr(s) == None
  {
  }

  lemma {:induction false} LooseScan(lx: Lexicon, attrs: seq<LooseAttr>, tail: string, pos: nat)
    requires LooseAttrsOk(attrs) && AllSpace(tail)
    ensures var fs := Scan(lx, Attr, AttrTexts(attrs) + tail, pos);
      && |fs| == |attrs|
      && forall i :: 0 <= i < |fs| ==> fs[i].hit.name == attrs[i].key && fs[i].hit.body == attrs[i].value
  {
    hide Scan, MatchAttr, LooseAttrOk, AllSpace;
    if attrs == [] {
      assert AttrTexts(attrs) + tail == tail + "";
      SpacesNoAttr(lx, tail, "", pos);
      EmptyText(lx, Attr, pos + |tail|);
    } else {
      var a := attrs[0];
      var text, rest := a.key + a.left + "=" + a.right + "\"" + a.value + "\"", AttrTexts(attrs[1..]) + tail;
      assert AttrTexts(attrs) + tail == a.before + (text + rest) by { AttrsCut(attrs, text, tail); }
      AttrSpaces(a);
      SpacesNoAttr(lx, a.before, text + rest, pos);
      LooseAttrHit(a, rest);
      ScanHit(lx, Attr, text, rest, Hit(|text|, a.key, "", a.value), pos + |a.before|);
      LooseScan(lx, attrs[1..], tail, pos + |a.before| + |text|);
    }
  }

  lemma AttrsCut(attrs: seq<LooseAttr>, text: string, tail: string)
    requires attrs != [] && AttrText(attrs[0]) == attrs[0].before + text
    ensures AttrTexts(attrs) + tail == attrs[0].before + (text + (AttrTexts(attrs[1..]) + tail))
  {
    hide AttrText;
  }

  lemma AttrSpaces(a: LooseAttr)
    requires LooseAttrOk(a)
    ensures AllSpace(a.before)
  {
  }

  lemma {:induction false} CollectLoose(fs: seq<Found>, attrs: seq<LooseAttr>)
    requires |fs| == |attrs|
    requires forall i :: 0 <= i < |fs| ==> fs[i].hit.name == attrs[i].key && fs[i].hit.body == attrs[i].value
    ensures Collect(fs) == FromPairs(Keyed(attrs))
  {
    hide Lower;
    if fs != [] {
      var n := |fs| - 1;
      CollectLoose(fs[..n], attrs[..n]);
      assert Keyed(attrs)[..n] == Keyed(attrs[..n]);
    }
  }

  /** Loosely written attributes are read as the plain ones. */
  lemma LooseAttrsAre(lx: Lexicon, attrs: seq<LooseAttr>, tail: string)
    requires LooseAttrsOk(attrs) && AllSpace(tail)
    ensures AttrsOf(lx, AttrTexts(attrs) + tail) == FromPairs(Keyed(attrs))
  {
    hide Scan, Collect, FromPairs, Keyed;
    LooseScan(lx, attrs, tail, 0);
    CollectLoose(Scan(lx, Attr, AttrTexts(attrs) + tail, 0), attrs);
  }

  // ----- the patterns hit -----

  /** The match of a loose tag by its own pattern. */
  function LooseHit(t: LooseTag): Hit {
    Hit(|TagText(t)|, t.name, AttrTexts(t.attrs) + t.tail, if t.LoosePair? then t.body else "")
  }

  lemma HeadFollows(t: LooseTag, f: Form, r: string)
    requires Spells(t, f) && r != "" && (r[0] == '>' || r[0] == '/')
    ensures var a := AttrTexts(t.attrs) + t.tail; Follows(a + r) && '<' !in a && '>' !in a
  {
    hide IsSpace, LooseAttrsOk, Keyed, Cased, AttrTexts;
    AttrTextsShape(t.attrs);
    SpaceFree(t.tail);
    var a := AttrTexts(t.attrs) + t.tail;
    if a != "" {
      assert (a + r)[0] == a[0];
      assert AttrTexts(t.attrs) != "" ==> a[0] == AttrTexts(t.attrs)[0];
    }
  }

  lemma PairedAt(n: string, next: nat, s: string, a: string, body: string, close: string, rest: string)
    requires next <= |s| && s[next..] == a + (['>'] + (body + (close + rest))) && '>' !in a && '<' !in body
    requires CloseTag(BackReference, n, close + rest) == |close| > 0
    ensures Paired(BackReference, n, next, s) == Some(Hit(next + |a| + 1 + |body| + |close|, n, a, body))
  {
    hide FindClose, CloseTag, IndexOf;
    var tail := body + (close + rest);
    IndexOfIs('>', a, tail);
    CutAt(s, next, a, ['>'] + tail);
    var g := next + |a|;
    CutAt(s, g, ['>'], tail);
    NoClosePlain(BackReference, n, body, close + rest);
    FindCloseSkip(BackReference, n, body, close + rest);
    CloseHere(BackReference, n, close + rest, |close|);
    CutAt(s, g + 1, body, close + rest);
  }

  /** A pair's text, cut after its name and after its attributes. */
  lemma PairCut(t: LooseTag, rest: string)
    requires t.LoosePair?
    ensures var a := AttrTexts(t.attrs) + t.tail; var r := a + (['>'] + (t.body + (CloseText(t) + rest)));
      && TagText(t) + rest == "<" + t.open + t.name + r
      && (TagText(t) + rest)[1 + |t.open| + |t.name|..] == r
      && |TagText(t)| == 1 + |t.open| + |t.name| + |a| + 1 + |t.body| + |CloseText(t)|
  {
    hide AttrTexts, CloseText;
  }

  lemma LoosePaired(t: LooseTag, f: Form, rest: string)
    requires Spells(t, f) && t.LoosePair? && f.name in OUTER_NAMES && '<' !in t.body
    requires '>' !in AttrTexts(t.attrs) + t.tail
    ensures Paired(BackReference, t.name, 1 + |t.open| + |t.name|, TagText(t) + rest) == Some(LooseHit(t))
  {
    hide CloseTag, CloseText, AttrTexts, Spells, OUTER_NAMES, TagText, Paired;
    PairCut(t, rest);
    LooseClose(t, f, rest);
    PairedAt(t.name, 1 + |t.open| + |t.name|, TagText(t) + rest, AttrTexts(t.attrs) + t.tail, t.body, CloseText(t),
      rest);
  }

  lemma OuterFrom(lx: Lexicon, s: string, n: string, next: nat)
    requires OpenTag(lx, OUTER_NAMES, s) == Some(Open(n, next)) && next <= |s|
    ensures MatchAt(lx, Outer, s) == Paired(BackReference, n, next, s)
  {
    hide OpenTag, Paired, OUTER_NAMES;
  }

  lemma LooseOuter(lx: Lexicon, t: LooseTag, f: Form, rest: string)
    requires Spells(t, f) && t.LoosePair? && f.name in OUTER_NAMES && '<' !in t.body && Sensible(lx)
    ensures MatchAt(lx, Outer, TagText(t) + rest) == Some(LooseHit(t))
  {
    hide OpenTag, Paired, AttrTexts, CloseText, LooseHit, OUTER_NAMES, Sensible, Follows, MatchAt, Cased, AllSpace,
      TagText, LooseAttrsOk, Keyed;
    var a, after := AttrTexts(t.attrs) + t.tail, ['>'] + (t.body + (CloseText(t) + rest));
    PairCut(t, rest);
    HeadFollows(t, f, after);
    LooseOpen(lx, OUTER_NAMES, t.open, t.name, f.name, a + after);
    OuterFrom(lx, TagText(t) + rest, t.name, 1 + |t.open| + |t.name|);
    LoosePaired(t, f, rest);
  }

  lemma SingleFrom(lx: Lexicon, s: string, n: string, next: nat, a: string, w: string, rest: string)
    requires OpenTag(lx, SINGLE_NAMES, s) == Some(Open(n, next)) && next <= |s|
    requires s[next..] == a + "/" + w + ([ '>' ] + rest) && '>' !in a && AllSpace(w)
    ensures MatchAt(lx, SelfClosing, s) == Some(Hit(next + |a| + 2 + |w|, n, a, ""))
  {
    hide OpenTag, IndexOf, SINGLE_NAMES;
    SpaceFree(w);
    IndexOfIs('>', a + "/" + w, rest);
    RstripSlash(a, w);
    assert s[next..][..|a| + 1 + |w|] == a + "/" + w;
    assert s[next..next + |a| + 1 + |w|] == a + "/" + w;
  }

  lemma {:induction false} RstripSlash(a: string, w: string)
    requires AllSpace(w)
    ensures Rstrip(a + "/" + w) == a + "/"
  {
    if w == "" {
      assert a + "/" + w == a + "/";
      NotSpaces();
    } else {
      assert (a + "/" + w)[..|a + "/" + w| - 1] == a + "/" + w[..|w| - 1];
      RstripSlash(a, w[..|w| - 1]);
    }
  }

  lemma LooseSelf(lx: Lexicon, t: LooseTag, f: Form, rest: string)
    requires Spells(t, f) && t.LooseSingle? && f.name in SINGLE_NAMES && Sensible(lx)
    ensures MatchAt(lx, SelfClosing, TagText(t) + rest) == Some(LooseHit(t))
  {
    hide OpenTag, AttrTexts, OUTER_NAMES, SINGLE_NAMES, Sensible, Follows, MatchAt, Cased, AllSpace;
    var a, after := AttrTexts(t.attrs) + t.tail, "/" + t.w1 + ">" + rest;
    SinglesAreOuter();
    HeadFollows(t, f, after);
    LooseOpen(lx, SINGLE_NAMES, t.open, t.name, f.name, a + after);
    var s, next := TagText(t) + rest, 1 + |t.open| + |t.name|;
    assert s == "<" + t.open + t.name + (a + after);
    assert s[next..] == a + "/" + t.w1 + (['>'] + rest);
    SingleFrom(lx, s, t.name, next, a, t.w1, rest);
  }

  // ----- and only theirs -----

  lemma NoSelfHere(lx: Lexicon, s: string, n: string, next: nat, a: string, r: string)
    requires OpenTag(lx, SINGLE_NAMES, s) == Some(Open(n, next)) && next <= |s|
    requires s[next..] == a + (['>'] + r) && '>' !in a && (Rstrip(a) == "" || Rstrip(a)[|Rstrip(a)| - 1] != '/')
    ensures MatchAt(lx, SelfClosing, s) == None
  {
    hide OpenTag, IndexOf, SINGLE_NAMES, Rstrip;
    IndexOfIs('>', a, r);
    assert s[next..][..|a|] == a;
    assert s[next..next + |a|] == a;
  }

  lemma {:induction false} RstripTail(a: string, w: string)
    requires AllSpace(w) && (a == "" || a[|a| - 1] == '"')
    ensures Rstrip(a + w) == a
  {
    NotSpaces();
    if w == "" {
      assert a + w == a;
    } else {
      assert (a + w)[..|a + w| - 1] == a + w[..|w| - 1];
      RstripTail(a, w[..|w| - 1]);
    }
  }

  lemma OpenNone(lx: Lexicon, p: Pattern, s: string)
    requires if p.SelfClosing? then OpenTag(lx, SINGLE_NAMES, s) == None
             else p.Outer? && OpenTag(lx, OUTER_NAMES, s) == None
    ensures MatchAt(lx, p, s) == None
  {
    hide OpenTag, SINGLE_NAMES, OUTER_NAMES;
  }

  /** The open tag of a loose pair is not self-closing. */
  lemma LooseNotSelf(lx: Lexicon, t: LooseTag, f: Form, r: string)
    requires Spells(t, f) && t.LoosePair? && f.name in OUTER_NAMES && Sensible(lx)
    ensures MatchAt(lx, SelfClosing, "<" + t.open + t.name + (AttrTexts(t.attrs) + t.tail + (['>'] + r))) == None
  {
    hide OpenTag, AttrTexts, OUTER_NAMES, SINGLE_NAMES, Sensible, Follows, MatchAt, Cased, AllSpace, LooseAttrsOk,
      Rstrip;
    var a := AttrTexts(t.attrs) + t.tail;
    var s := "<" + t.open + t.name + (a + (['>'] + r));
    SinglesAreOuter();
    HeadFollows(t, f, ['>'] + r);
    LooseOpen(lx, SINGLE_NAMES, t.open, t.name, f.name, a + (['>'] + r));
    if f.name in SINGLE_NAMES {
      AttrTextsShape(t.attrs);
      RstripTail(AttrTexts(t.attrs), t.tail);
      var next := 1 + |t.open| + |t.name|;
      assert s[next..] == a + (['>'] + r);
      NoSelfHere(lx, s, t.name, next, a, r);
    } else {
      OpenNone(lx, SelfClosing, s);
    }
  }

  /** No loose tag starts a shorthand: no dot follows its name. */
  lemma LooseNotShort(lx: Lexicon, w: string, n: string, name: string, r: string)
    requires Cased(n, name) && name in OUTER_NAMES && AllSpace(w) && Follows(r) && Sensible(lx)
    ensures MatchAt(lx, Shorthand, "<" + w + n + r) == None
  {
    hide SegmentRun, SpaceRun, OUTER_NAMES, Cased, IsSpace, Sensible, Follows, IsNameChar;
    var s := "<" + w + n + r;
    NotWord(lx, r);
    FollowsSome(r);
    CasedChars(n, name);
    assert s[1..] == w + (n + r) && (n + r)[0] == n[0];
    SpacesThen(w, n + r);
    var a := 1 + |w|;
    assert s[a..] == n + r;
    var k := SegmentRun(n + r);
    assert (n + r)[|n|] == r[0];
    if k > 0 {
      assert s[a + k] == (n + r)[k];
      assert DottedEnds(lx, s, a + k) == [];
    }
    NoEnds(lx, s, a, k);
  }

  lemma NoEnds(lx: Lexicon, s: string, a: nat, k: nat)
    requires s != "" && s[0] == '<' && a == 1 + SpaceRun(s[1..]) && k == SegmentRun(s[a..])
    requires k > 0 ==> DottedEnds(lx, s, a + k) == []
    ensures MatchAt(lx, Shorthand, s) == None
  {
    hide SegmentRun, SpaceRun, DottedEnds;
  }

  /** No pattern starts at a close tag, however it is spaced. */
  lemma SlashSilent(lx: Lexicon, p: Pattern, w: string, r: string)
    requires AllSpace(w) && (p.SelfClosing? || p.Shorthand?)
    ensures MatchAt(lx, p, "<" + w + ("/" + r)) == None
  {
    hide SpaceRun, IsSpace, SINGLE_NAMES, FirstName;
    var s := "<" + w + ("/" + r);
    NotSpaces();
    SpacesThen(w, "/" + r);
    assert s[1..] == w + ("/" + r);
    assert s[1 + |w|..] == "/" + r;
    if p.SelfClosing? { SlashNoName(lx, "/" + r); } else { SlashNoSegment(r); NoEnds(lx, s, 1 + |w|, 0); }
  }

  lemma SlashNoSegment(r: string)
    ensures SegmentRun("/" + r) == 0
  {
  }

  lemma SlashNoName(lx: Lexicon, s: string)
    requires s != "" && s[0] == '/'
    ensures FirstName(lx, SINGLE_NAMES, s) == 0
  {
    hide SINGLE_NAMES;
    forall j | 0 <= j < |SINGLE_NAMES| ensures !SameName(Literal, SINGLE_NAMES[j], s) {
      SinglesAreOuter();
      OuterNamesPlain(SINGLE_NAMES[j]);
      Different(Literal, SINGLE_NAMES[j], s, 0);
    }
    FirstNameNone(lx, SINGLE_NAMES, s);
  }

  /** A single bracket, at the front, where the pattern does not match. */
  lemma FrontSilent(lx: Lexicon, p: Pattern, s: string, b: string)
    requires s != "" && '<' !in s[1..] && MatchAt(lx, p, s + b) == None
    ensures Silent(lx, p, s, b)
  {
    hide MatchAt;
    assert s[0..] + b == s + b;
    forall i | 0 < i < |s| ensures s[i] != '<' { assert s[i] == s[1..][i - 1]; }
  }

  /** The tag up to and including its first `>`. */
  function Head(t: LooseTag): string {
    "<" + t.open + t.name + (AttrTexts(t.attrs) + t.tail + (if t.LoosePair? then ">" else "/" + t.w1 + ">"))
  }

  lemma HeadShape(t: LooseTag, f: Form)
    requires Spells(t, f) && f.name in OUTER_NAMES
    ensures Head(t) != "" && '<' !in Head(t)[1..]
  {
    hide AttrTexts, OUTER_NAMES, AllSpace, Cased, LooseAttrsOk, Keyed, Follows;
    CasedChars(t.name, f.name);
    SpaceFree(t.open);
    SpaceFree(t.w1);
    HeadFollows(t, f, ">");
    assert Head(t)[1..]
      == t.open + t.name + (AttrTexts(t.attrs) + t.tail + (if t.LoosePair? then ">" else "/" + t.w1 + ">"));
  }

  lemma TextHead(t: LooseTag)
    ensures TagText(t) == if t.LoosePair? then Head(t) + (t.body + CloseText(t)) else Head(t)
  {
    hide AttrTexts, CloseText;
  }

  lemma HeadMisses(lx: Lexicon, p: Pattern, t: LooseTag, f: Form, b: string)
    requires Spells(t, f) && f.name in OUTER_NAMES && Sensible(lx)
    requires p.Shorthand? || (p.SelfClosing? && t.LoosePair?)
    ensures Silent(lx, p, Head(t), b)
  {
    hide AttrTexts, OUTER_NAMES, AllSpace, Cased, LooseAttrsOk, Keyed, Follows, MatchAt, Silent, Sensible;
    HeadShape(t, f);
    var end := if t.LoosePair? then ">" else "/" + t.w1 + ">";
    var a := AttrTexts(t.attrs) + t.tail;
    if p.Shorthand? {
      HeadFollows(t, f, end + b);
      LooseNotShort(lx, t.open, t.name, f.name, a + (end + b));
      assert Head(t) + b == "<" + t.open + t.name + (a + (end + b));
    } else {
      LooseNotSelf(lx, t, f, b);
      assert Head(t) + b == "<" + t.open + t.name + (a + (['>'] + b));
    }
    FrontSilent(lx, p, Head(t), b);
  }

  lemma CloseMisses(lx: Lexicon, p: Pattern, t: LooseTag, f: Form, b: string)
    requires Spells(t, f) && t.LoosePair? && f.name in OUTER_NAMES && (p.Shorthand? || p.SelfClosing?)
    ensures Silent(lx, p, CloseText(t), b)
  {
    hide OUTER_NAMES, AllSpace, Cased, LooseAttrsOk, Keyed, MatchAt, Silent;
    CasedChars(t.close, f.name);
    SpaceFree(t.w1);
    SpaceFree(t.w2);
    SpaceFree(t.w3);
    var c, r := CloseText(t), t.w2 + t.close + t.w3 + ">" + b;
    SlashSilent(lx, p, t.w1, r);
    assert c + b == "<" + t.w1 + ("/" + r);
    assert c[1..] == t.w1 + "/" + t.w2 + t.close + t.w3 + ">";
    FrontSilent(lx, p, c, b);
  }

  lemma LooseMisses(lx: Lexicon, p: Pattern, t: LooseTag, f: Form, after: string)
    requires Spells(t, f) && f.name in OUTER_NAMES && Sensible(lx) && (t.LoosePair? ==> '<' !in t.body)
    requires p.Shorthand? || (p.SelfClosing? && t.LoosePair?)
    ensures Silent(lx, p, TagText(t), after)
  {
    hide OUTER_NAMES, AttrTexts, Spells, MatchAt, Silent, Sensible, CloseText, TagText, Head;
    TextHead(t);
    if t.LoosePair? {
      var close := CloseText(t);
      HeadMisses(lx, p, t, f, (t.body + close) + after);
      SilentPlain(lx, p, t.body, close + after);
      CloseMisses(lx, p, t, f, after);
      SilentJoin(lx, p, t.body, close, after);
      SilentJoin(lx, p, Head(t), t.body + close, after);
    } else {
      HeadMisses(lx, p, t, f, after);
    }
  }

  lemma Unclosed(n: string, next: nat, s: string, a: string, after: string)
    requires next <= |s| && s[next..] == a + (['>'] + after) && '>' !in a && '<' !in after
    ensures Paired(BackReference, n, next, s) == None
  {
    hide FindClose, IndexOf, CloseTag;
    IndexOfIs('>', a, after);
    assert s[next + |a| + 1..] == after;
    NoClosePlain(BackReference, n, after, "");
    FindCloseSkip(BackReference, n, after, "");
    assert after + "" == after;
    NothingCloses(n);
  }

  lemma NothingCloses(n: string)
    ensures FindClose(BackReference, n, "") == None
  {
  }

  /** A self-closing tag's text, cut after its name. */
  lemma SingleCut(t: LooseTag, rest: string)
    requires t.LooseSingle?
    ensures var a := AttrTexts(t.attrs) + t.tail;
      && TagText(t) + rest == "<" + t.open + t.name + (a + ("/" + t.w1 + (['>'] + rest)))
      && (TagText(t) + rest)[1 + |t.open| + |t.name|..] == (a + ("/" + t.w1)) + (['>'] + rest)
      && |TagText(t)| == 1 + |t.open| + |t.name| + |a| + 2 + |t.w1|
  {
    hide AttrTexts;
  }

  lemma SingleUnmatched(lx: Lexicon, t: LooseTag, f: Form, after: string)
    requires Spells(t, f) && t.LooseSingle? && f.name in OUTER_NAMES && Sensible(lx) && '<' !in after
    ensures MatchAt(lx, Outer, TagText(t) + after) == None
  {
    hide OpenTag, Paired, AttrTexts, OUTER_NAMES, Sensible, Follows, MatchAt, Cased, AllSpace, LooseAttrsOk, Keyed,
      TagText;
    var a, w := AttrTexts(t.attrs) + t.tail, "/" + t.w1;
    var end := w + (['>'] + after);
    var s, next := TagText(t) + after, 1 + |t.open| + |t.name|;
    SingleCut(t, after);
    HeadFollows(t, f, end);
    SpaceFree(t.w1);
    LooseOpen(lx, OUTER_NAMES, t.open, t.name, f.name, a + end);
    OuterFrom(lx, s, t.name, next);
    Unclosed(t.name, next, s, a + w, after);
  }

  lemma SingleNotOuter(lx: Lexicon, t: LooseTag, f: Form, after: string)
    requires Spells(t, f) && t.LooseSingle? && f.name in OUTER_NAMES && Sensible(lx) && '<' !in after
    ensures Silent(lx, Outer, TagText(t), after)
  {
    hide OUTER_NAMES, Sensible, MatchAt, Silent, Spells, TagText, Head;
    SingleUnmatched(lx, t, f, after);
    HeadShape(t, f);
    TextHead(t);
    FrontSilent(lx, Outer, TagText(t), after);
  }

  // ----- and are read as their plain spelling -----

  lemma KeyedOk(attrs: seq<LooseAttr>)
    requires LooseAttrsOk(attrs)
    ensures AttrsOk(Keyed(attrs))
  {
    hide AttrValue;
    forall i | 0 <= i < |attrs| ensures Key(Lower(attrs[i].key)) && AttrValue(attrs[i].value) {
      LowerKey(attrs[i].key);
    }
  }

  lemma LowerKey(k: string)
    requires k != "" && IsLetter(k[0]) && forall i :: 0 <= i < |k| ==> IsAttrChar(k[i])
    ensures Key(Lower(k))
  {
    forall i | 0 <= i < |k| ensures IsAttrChar(Lower(k)[i]) && Lower(k)[i] < '\U{80}' && !('A' <= Lower(k)[i] <= 'Z') {}
  }

  lemma LoosePlainTag(lx: Lexicon, t: LooseTag, f: Form, pos: nat)
    requires Spells(t, f)
    ensures PlainTag(lx, Found(pos, LooseHit(t))) == TagOf(f, pos)
  {
    hide AttrTexts, AttrsOf, FromPairs, LooseAttrsOk, Keyed, AllSpace, TagText, Lower;
    LooseAttrsAre(lx, t.attrs, t.tail);
  }

  lemma LooseText(t: LooseTag)
    ensures TagText(t) != "" && LooseHit(t).len == |TagText(t)|
  {
    hide AttrTexts;
  }

  /** The three scans find the tag and nothing else, and removing it leaves the text around it. */
  lemma LooseFound(lx: Lexicon, before: string, t: LooseTag, f: Form, after: string)
    requires Spells(t, f) && Spelled(f) && '<' !in Body(f) && Sensible(lx) && '<' !in before && '<' !in after
    ensures var raw, found := before + (TagText(t) + after), [Found(|before|, LooseHit(t))];
      && Scan(lx, Outer, raw, 0) == (if t.LoosePair? then found else [])
      && Scan(lx, SelfClosing, raw, 0) == (if t.LoosePair? then [] else found)
      && Scan(lx, Shorthand, raw, 0) == [] && WithoutTags(lx, raw) == before + after
  {
    hide Scan, Remove, MatchAt, Silent, TagText, LooseHit, OUTER_NAMES, SINGLE_NAMES, Sensible, AttrsOk, LooseAttrsOk,
      Cased, AllSpace, Keyed;
    SinglesAreOuter();
    LooseText(t);
    LooseMisses(lx, Shorthand, t, f, after);
    Around(lx, Shorthand, before, TagText(t), after);
    if t.LoosePair? {
      LooseOuter(lx, t, f, after);
      HitAround(lx, Outer, before, TagText(t), after, LooseHit(t));
      LooseMisses(lx, SelfClosing, t, f, after);
      Around(lx, SelfClosing, before, TagText(t), after);
    } else {
      SingleNotOuter(lx, t, f, after);
      Around(lx, Outer, before, TagText(t), after);
      LooseSelf(lx, t, f, after);
      HitAround(lx, SelfClosing, before, TagText(t), after, LooseHit(t));
    }
    RemovePlain(lx, SelfClosing, before + after);
    RemovePlain(lx, Shorthand, before + after);
  }

  lemma LooseTagged(lx: Lexicon, before: string, t: LooseTag, f: Form, after: string, e: Option<Event>)
    requires Spells(t, f) && Spelled(f) && '<' !in Body(f) && Sensible(lx) && '<' !in before && '<' !in after
    requires Reads(f, e)
    ensures Tagged(lx, before + (TagText(t) + after)) == Present([e])
  {
    hide Scan, Sorted, BuildAll, BuildTag, PlainTag, ShorthandTags, TagText, LooseHit, Spelled, Reads, Spells, Sensible,
      Body, TagOf, Present, WithoutTags;
    var found := Found(|before|, LooseHit(t));
    LooseFound(lx, before, t, f, after);
    LoosePlainTag(lx, t, f, |before|);
    BuiltAsRead(lx, f, e, |before|);
    var tag := TagOf(f, |before|);
    assert PlainTags(lx, [found]) == [tag] && PlainTags(lx, []) == [];
    OneShorthand(lx, found);
    assert [tag] + [] + [] == [tag] && [] + [tag] + [] == [tag];
    OneBuilt(lx, tag, Final);
    BuildAllPresent(lx, [tag], [e]);
  }

  /** Capital letters in the names of tags and attributes, and whitespace after a bracket, around a
      slash, between attributes, around their equals signs and before the end of a tag change
      nothing: the tag is read as its plain spelling. */
  lemma LooseRead(lx: Lexicon, before: string, t: LooseTag, f: Form, after: string, e: Option<Event>)
    requires Spells(t, f) && Spelled(f) && '<' !in Body(f) && Sensible(lx) && '<' !in before && '<' !in after
    requires Reads(f, e)
    ensures var tags, text := Present([e]), Strip(before + after);
      Parse(lx, before + (TagText(t) + after)) ==
        if (exists e :: e in tags && Speaks(e)) || |text| < 4 then tags
        else if Final in tags then tags + [Say(text)] else tags + [Say(text), Final]
  {
    hide Tagged, Parse, TagText, Spelled, Reads, Spells, Sensible, Body, Present, Speaks, Strip, WithoutTags, LooseHit,
      Scan;
    LooseTagged(lx, before, t, f, after, e);
    LooseFound(lx, before, t, f, after);
    RecoveryExactly(lx, before + (TagText(t) + after));
  }

  /** Every loose tag with a proper name is some plain tag's spelling. */
  lemma SomePlain(t: LooseTag, name: string)
    requires LooseAttrsOk(t.attrs) && AllSpace(t.open) && AllSpace(t.tail) && AllSpace(t.w1) && Cased(t.name, name)
    requires t.LoosePair? ==> AllSpace(t.w2) && AllSpace(t.w3) && Cased(t.close, name)
    requires if t.LoosePair? then name in OUTER_NAMES && '<' !in t.body else name in SINGLE_NAMES
    ensures var f := if t.LoosePair? then Pair(name, Keyed(t.attrs), t.body) else Single(name, Keyed(t.attrs));
      Spells(t, f) && Spelled(f) && '<' !in Body(f)
  {
    hide LooseAttrsOk, AttrsOk, AllSpace, Cased, Keyed, OUTER_NAMES, SINGLE_NAMES;
    KeyedOk(t.attrs);
  }
}
