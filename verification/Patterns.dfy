/** The regular expressions of the tag parser, as leftmost matchers on the rest of the text.

    Every quantifier in them is either deterministic (its run is bounded by the next
    literal) or lazy (the shortest body whose close tag matches); the one exception,
    the dotted name of the shorthand, tries its candidates from the longest down. */
module Patterns {
  import opened Text

  /** What the parser knows of the world: the registered capability ids, and the
      non-ASCII characters that count as word characters. */
  datatype Lexicon = Lexicon(capabilities: set<string>, letters: set<char>)

  datatype Pattern = Outer | SelfClosing | Shorthand | ButtonTag | ItemTag | Inner | Attr

  /** One match: its length and its groups. */
  datatype Hit = Hit(len: nat, name: string, attrs: string, body: string)

  datatype Found = Found(pos: nat, hit: Hit)

  const OUTER_NAMES: seq<string> :=
    ["thinking", "plan", "call", "say", "ask", "remember", "recall", "escalate", "request_approval", "swarm", "final"]

  const SINGLE_NAMES: seq<string> := ["final", "recall", "escalate", "request_approval", "swarm"]

  // ----- characters -----

  predicate IsLetter(c: char) { 'a' <= c <= 'z' || 'A' <= c <= 'Z' || c == '_' }

  predicate IsAttrChar(c: char) { IsLetter(c) || '0' <= c <= '9' || c == '-' }

  predicate IsNameChar(c: char) { 'a' <= c <= 'z' || '0' <= c <= '9' || c == '_' }

  /** `\w` */
  predicate IsWord(lx: Lexicon, c: char) {
    IsLetter(c) || '0' <= c <= '9' || (c >= '\U{80}' && c in lx.letters)
  }

  /** `\b` after a word character: the text ends, or goes on with a non-word character. */
  predicate Boundary(lx: Lexicon, s: string, at: nat) {
    at >= |s| || !IsWord(lx, s[at])
  }

  /** A literal of the pattern against a character of the text, ignoring case: the
      dotless i and the long s count as i and s here. */
  predicate FoldsTo(c: char, literal: char) {
    Fold(c) == literal || (literal == 'i' && c == '\U{131}') || (literal == 's' && c == '\U{17f}')
  }

  /** How a close tag compares its name: exactly, as a back-reference ignoring case,
      or as a literal ignoring case. */
  datatype Mode = Exact | BackReference | Literal

  predicate SameChar(mode: Mode, c: char, expected: char) {
    match mode
    case Exact => c == expected
    case BackReference => Fold(c) == Fold(expected)
    case Literal => FoldsTo(c, expected)
  }

  predicate SameName(mode: Mode, name: string, s: string) {
    && |name| <= |s|
    && forall i :: 0 <= i < |name| ==> SameChar(mode, s[i], name[i])
  }

  // ----- open and close tags -----

  datatype Open = Open(name: string, next: nat)

  /** The length of the first of `names` that the text starts with, 0 if there is none. */
  function FirstName(lx: Lexicon, names: seq<string>, s: string): (n: nat)
    ensures n <= |s|
  {
    if names == [] then 0
    else if SameName(Literal, names[0], s) && Boundary(lx, s, |names[0]|) then |names[0]|
    else FirstName(lx, names[1..], s)
  }

  // `<\s*(names)\b`
  function OpenTag(lx: Lexicon, names: seq<string>, s: string): (o: Option<Open>)
    ensures o.Some? ==> 1 < o.value.next <= |s|
  {
    if s == "" || s[0] != '<' then None
    else
      var a := 1 + SpaceRun(s[1..]);
      var n := FirstName(lx, names, s[a..]);
      if n == 0 then None else Some(Open(s[a..a + n], a + n))
  }

  // The length of `<\s*/\s*name\s*>` here, 0 if it does not match.
  function CloseTag(mode: Mode, name: string, s: string): (n: nat)
    ensures n <= |s|
    ensures n > 0 ==> s[0] == '<'
  {
    if s == "" || s[0] != '<' then 0
    else
      var a := 1 + SpaceRun(s[1..]);
      if a == |s| || s[a] != '/' then 0
      else
        var b := a + 1 + SpaceRun(s[a + 1..]);
        if !SameName(mode, name, s[b..]) then 0
        else
          var e := b + |name|;
          var g := e + SpaceRun(s[e..]);
          if g < |s| && s[g] == '>' then g + 1 else 0
  }

  datatype Close = Close(at: nat, len: nat)

  /** `.*?` up to the first close tag of `name`. */
  function FindClose(mode: Mode, name: string, s: string): (c: Option<Close>)
    ensures c.Some? ==> 0 < c.value.len && c.value.at + c.value.len <= |s|
  {
    if s == "" then None
    else if CloseTag(mode, name, s) > 0 then Some(Close(0, CloseTag(mode, name, s)))
    else
      match FindClose(mode, name, s[1..])
      case None => None
      case Some(c) => Some(Close(c.at + 1, c.len))
  }

  /** The rest of a paired tag whose open tag's name ends at `next`. */
  function Paired(mode: Mode, name: string, next: nat, s: string): (h: Option<Hit>)
    requires next <= |s|
    ensures h.Some? ==> 0 < h.value.len <= |s|
  {
    var g := next + IndexOf('>', s[next..]);
    if g == |s| then None
    else
      match FindClose(mode, name, s[g + 1..])
      case None => None
      case Some(c) => Some(Hit(g + 1 + c.at + c.len, name, s[next..g], s[g + 1..g + 1 + c.at]))
  }

  // ----- the patterns -----

  function MatchOuter(lx: Lexicon, s: string): (h: Option<Hit>)
    ensures h.Some? ==> 0 < h.value.len <= |s| && s[0] == '<'
  {
    match OpenTag(lx, OUTER_NAMES, s)
    case None => None
    case Some(o) => Paired(BackReference, o.name, o.next, s)
  }

  function MatchSingle(lx: Lexicon, s: string): (h: Option<Hit>)
    ensures h.Some? ==> 0 < h.value.len <= |s| && s[0] == '<'
  {
    match OpenTag(lx, SINGLE_NAMES, s)
    case None => None
    case Some(o) =>
      var g := o.next + IndexOf('>', s[o.next..]);
      if g == |s| then None
      else
        var inside := Rstrip(s[o.next..g]);
        if inside == "" || inside[|inside| - 1] != '/' then None
        else Some(Hit(g + 1, o.name, inside[..|inside| - 1], ""))
  }

  // The length of `[a-z][a-z0-9_]*` here, 0 if it does not match.
  function SegmentRun(s: string): (n: nat)
    ensures n <= |s|
    ensures forall i :: 0 <= i < n ==> IsNameChar(s[i])
    ensures 0 < n < |s| ==> !IsNameChar(s[n])
  {
    if s == "" || !('a' <= s[0] <= 'z') then 0 else 1 + NameRun(s[1..])
  }

  function NameRun(s: string): (n: nat)
    ensures n <= |s|
    ensures forall i :: 0 <= i < n ==> IsNameChar(s[i])
    ensures n < |s| ==> !IsNameChar(s[n])
  {
    if s != "" && IsNameChar(s[0]) then 1 + NameRun(s[1..]) else 0
  }

  /** Where a dotted name whose last segment so far ends at `at` may end after one or
      more further segments, longest first. */
  function DottedEnds(lx: Lexicon, s: string, at: nat): (ends: seq<nat>)
    requires at <= |s|
    ensures forall e :: e in ends ==> at < e <= |s|
    decreases |s| - at
  {
    if at == |s| || s[at] != '.' || SegmentRun(s[at + 1..]) == 0 then []
    else
      var e := at + 1 + SegmentRun(s[at + 1..]);
      DottedEnds(lx, s, e) + (if Boundary(lx, s, e) then [e] else [])
  }

  /** The first candidate end, in the given order, from which the tag goes through. */
  function TryEnds(s: string, start: nat, ends: seq<nat>): (h: Option<Hit>)
    requires forall e :: e in ends ==> start <= e <= |s|
    ensures h.Some? ==> 0 < h.value.len <= |s|
  {
    if ends == [] then None
    else
      assert ends[0] in ends;
      var h := Paired(Exact, s[start..ends[0]], ends[0], s);
      if h.Some? then h else (assert forall e :: e in ends[1..] ==> e in ends; TryEnds(s, start, ends[1..]))
  }

  function MatchShorthand(lx: Lexicon, s: string): (h: Option<Hit>)
    ensures h.Some? ==> 0 < h.value.len <= |s| && s[0] == '<'
  {
    if s == "" || s[0] != '<' then None
    else
      var a := 1 + SpaceRun(s[1..]);
      var first := SegmentRun(s[a..]);
      if first == 0 then None else TryEnds(s, a, DottedEnds(lx, s, a + first))
  }

  function MatchChild(lx: Lexicon, name: string, s: string): (h: Option<Hit>)
    ensures h.Some? ==> 0 < h.value.len <= |s| && s[0] == '<'
  {
    match OpenTag(lx, [name], s)
    case None => None
    case Some(o) => Paired(Literal, name, o.next, s)
  }

  /** The length up to and including the first `</[^>]+>`, 0 if there is none. */
  function InnerEnd(s: string): (n: nat)
    ensures n <= |s|
  {
    if s == "" then 0
    else if |s| > 2 && s[0] == '<' && s[1] == '/' && 0 < IndexOf('>', s[2..]) < |s| - 2 then 3 + IndexOf('>', s[2..])
    else if InnerEnd(s[1..]) > 0 then 1 + InnerEnd(s[1..])
    else 0
  }

  // `<[^>]+>.*?</[^>]+>`
  function MatchInner(s: string): (h: Option<Hit>)
    ensures h.Some? ==> 0 < h.value.len <= |s| && s[0] == '<'
  {
    if s == "" || s[0] != '<' then None
    else
      var g := 1 + IndexOf('>', s[1..]);
      if g == 1 || g == |s| || InnerEnd(s[g + 1..]) == 0 then None
      else Some(Hit(g + 1 + InnerEnd(s[g + 1..]), "", "", ""))
  }

  function AttrRun(s: string): (n: nat)
    ensures n <= |s|
    ensures forall i :: 0 <= i < n ==> IsAttrChar(s[i])
    ensures n < |s| ==> !IsAttrChar(s[n])
  {
    if s != "" && IsAttrChar(s[0]) then 1 + AttrRun(s[1..]) else 0
  }

  // `([a-zA-Z_][a-zA-Z0-9_-]*)\s*=\s*"([^"]*)"`: the key is the name, the value the body.
  function MatchAttr(s: string): (h: Option<Hit>)
    ensures h.Some? ==> 0 < h.value.len <= |s|
  {
    if s == "" || !IsLetter(s[0]) then None
    else
      var k := AttrRun(s);
      var q := k + SpaceRun(s[k..]);
      if q == |s| || s[q] != '=' then None
      else
        var v := q + 1 + SpaceRun(s[q + 1..]);
        if v == |s| || s[v] != '"' then None
        else
          var e := v + 1 + IndexOf('"', s[v + 1..]);
          if e == |s| then None else Some(Hit(e + 1, s[..k], "", s[v + 1..e]))
  }

  function MatchAt(lx: Lexicon, p: Pattern, s: string): (h: Option<Hit>)
    ensures h.Some? ==> 0 < h.value.len <= |s|
    ensures h.Some? && !p.Attr? ==> s[0] == '<'
  {
    match p
    case Outer => MatchOuter(lx, s)
    case SelfClosing => MatchSingle(lx, s)
    case Shorthand => MatchShorthand(lx, s)
    case ButtonTag => MatchChild(lx, "button", s)
    case ItemTag => MatchChild(lx, "item", s)
    case Inner => MatchInner(s)
    case Attr => MatchAttr(s)
  }

  /** `finditer`: the matches from left to right, each search going on after the last match. */
  function Scan(lx: Lexicon, p: Pattern, s: string, pos: nat): seq<Found>
    decreases |s|
  {
    if s == "" then []
    else
      match MatchAt(lx, p, s)
      case Some(h) => [Found(pos, h)] + Scan(lx, p, s[h.len..], pos + h.len)
      case None => Scan(lx, p, s[1..], pos + 1)
  }

  /** `sub("", s)`. */
  function Remove(lx: Lexicon, p: Pattern, s: string): string
    decreases |s|
  {
    if s == "" then ""
    else
      match MatchAt(lx, p, s)
      case Some(h) => Remove(lx, p, s[h.len..])
      case None => [s[0]] + Remove(lx, p, s[1..])
  }
}
