/** URL path templating, written twice in the source: with Python's `quote(v, safe="")` and
    with JavaScript's `encodeURIComponent`. */
module PathTemplate {
  import opened Text

  // ----- the template -----

  datatype Piece = Lit(c: char) | Slot(key: string)

  predicate IsIdentStart(c: char) { 'a' <= c <= 'z' || 'A' <= c <= 'Z' || c == '_' }

  predicate IsIdentChar(c: char) { IsIdentStart(c) || '0' <= c <= '9' }

  function IdentRun(s: string): (n: nat)
    ensures n <= |s|
  {
    if s != "" && IsIdentChar(s[0]) then 1 + IdentRun(s[1..]) else 0
  }

  /** The length of the placeholder that starts the text, 0 if there is none. */
  function PlaceholderLen(s: string): (n: nat)
    ensures n <= |s| && (n > 0 ==> n >= 3)
  {
    if |s| < 3 || s[0] != '{' || !IsIdentStart(s[1]) then 0
    else
      var k := 1 + IdentRun(s[1..]);
      if k < |s| && s[k] == '}' then k + 1 else 0
  }

  /** The template cut at its placeholders, from left to right. */
  function Pieces(path: string): seq<Piece>
    decreases |path|
  {
    if path == "" then []
    else
      var n := PlaceholderLen(path);
      if n > 0 then [Slot(path[1..n - 1])] + Pieces(path[n..]) else [Lit(path[0])] + Pieces(path[1..])
  }

  // ----- bytes -----

  type Byte = b: int | 0 <= b < 256

  /** The UTF-8 bytes of a character. */
  function Utf8(c: char): (bs: seq<Byte>)
    ensures 1 <= |bs| <= 4
    ensures |bs| == 1 <==> c < '\U{80}'
    ensures |bs| == 1 ==> bs == [c as int]
    ensures |bs| > 1 ==> forall i :: 0 <= i < |bs| ==> bs[i] >= 128
  {
    var n := c as int;
    if n < 0x80 then [n]
    else if n < 0x800 then [0xC0 + n / 0x40, 0x80 + n % 0x40]
    else if n < 0x10000 then [0xE0 + n / 0x1000, 0x80 + n / 0x40 % 0x40, 0x80 + n % 0x40]
    else [0xF0 + n / 0x40000, 0x80 + n / 0x1000 % 0x40, 0x80 + n / 0x40 % 0x40, 0x80 + n % 0x40]
  }

  /** The bits of a byte of a longer form, once its leading mark is taken off. */
  function Bits(b: Byte, mark: int): int { b as int - mark }

  /** The form of section 3 of RFC 3629, by the number of bytes: their ranges, and the character's
      number in the bits that are left. */
  lemma Utf8Exactly(c: char)
    ensures var bs, n := Utf8(c), c as int;
      && (forall i :: 1 <= i < |bs| ==> 0x80 <= bs[i] < 0xC0)
      && (n < 0x80 <==> |bs| == 1) && (n < 0x800 <==> |bs| <= 2) && (n < 0x10000 <==> |bs| <= 3)
      && match |bs|
         case 1 => n == bs[0] as int
         case 2 => 0xC0 <= bs[0] < 0xE0 && n == Bits(bs[0], 0xC0) * 0x40 + Bits(bs[1], 0x80)
         case 3 =>
           && 0xE0 <= bs[0] < 0xF0
           && n == (Bits(bs[0], 0xE0) * 0x40 + Bits(bs[1], 0x80)) * 0x40 + Bits(bs[2], 0x80)
         case _ =>
           && 0xF0 <= bs[0] < 0xF8
           && n == ((Bits(bs[0], 0xF0) * 0x40 + Bits(bs[1], 0x80)) * 0x40 + Bits(bs[2], 0x80)) * 0x40
                   + Bits(bs[3], 0x80)
  {
    var n := c as int;
    assert n / 0x1000 == n / 0x40 / 0x40 && n / 0x40000 == n / 0x40 / 0x40 / 0x40;
  }

  /** A text's bytes are its characters' bytes one after the other. */
  lemma {:induction false} BytesJoin(a: string, b: string)
    ensures Bytes(a + b) == Bytes(a) + Bytes(b)
    ensures |a| == 1 ==> Bytes(a) == Utf8(a[0])
  {
    hide Utf8;
    if a == "" {
      assert a + b == b;
    } else {
      assert (a + b)[1..] == a[1..] + b;
      BytesJoin(a[1..], b);
    }
  }

  function Bytes(s: string): seq<Byte> {
    if s == "" then [] else Utf8(s[0]) + Bytes(s[1..])
  }

  // ----- percent encoding -----

  function HexDigit(n: int): char
    requires 0 <= n < 16
  {
    if n < 10 then ('0' as int + n) as char else ('A' as int + n - 10) as char
  }

  function HexValue(c: char): Option<int> {
    if '0' <= c <= '9' then Some(c as int - '0' as int)
    else if 'A' <= c <= 'F' then Some(c as int - 'A' as int + 10)
    else if 'a' <= c <= 'f' then Some(c as int - 'a' as int + 10)
    else None
  }

  lemma HexBack(n: int)
    requires 0 <= n < 16
    ensures HexValue(HexDigit(n)) == Some(n)
  {
  }

  function Escape(b: Byte): string { ['%', HexDigit(b / 16), HexDigit(b % 16)] }

  predicate Unreserved(c: char) {
    'a' <= c <= 'z' || 'A' <= c <= 'Z' || '0' <= c <= '9' || c == '-' || c == '.' || c == '_' || c == '~'
  }

  /** What `encodeURIComponent` leaves alone besides the unreserved characters. */
  const JS_EXTRA := {'!', '\'', '(', ')', '*'}

  function EncodeBytes(bs: seq<Byte>, js: bool): string {
    if bs == [] then ""
    else
      var c := bs[0] as char;
      (if bs[0] < 128 && (Unreserved(c) || (js && c in JS_EXTRA)) then [c] else Escape(bs[0]))
      + EncodeBytes(bs[1..], js)
  }

  /** `quote(v, safe="")` or `encodeURIComponent(v)`. */
  function Encode(v: string, js: bool): string {
    EncodeBytes(Bytes(v), js)
  }

  /** Percent-decoding, section 2.1 of RFC 3986. */
  function Decode(s: string): seq<int>
    decreases |s|
  {
    if s == "" then []
    else if s[0] == '%' && |s| >= 3 && HexValue(s[1]).Some? && HexValue(s[2]).Some? then
      [16 * HexValue(s[1]).value + HexValue(s[2]).value] + Decode(s[3..])
    else [s[0] as int] + Decode(s[1..])
  }

  lemma DecodePlain(c: char, rest: string)
    requires c != '%'
    ensures Decode([c] + rest) == [c as int] + Decode(rest)
  {
    assert ([c] + rest)[1..] == rest;
  }

  lemma DecodeEscape(b: Byte, rest: string)
    ensures Decode(Escape(b) + rest) == [b] + Decode(rest)
  {
    hide HexValue, HexDigit;
    HexBack(b / 16);
    HexBack(b % 16);
    assert (Escape(b) + rest)[3..] == rest;
  }

  /** Decoding either encoding of a slot gives back the bytes of the argument. */
  lemma {:induction false} DecodeEncode(bs: seq<Byte>, js: bool)
    ensures Decode(EncodeBytes(bs, js)) == bs
  {
    hide Decode, Escape, HexDigit;
    if bs == [] {
      assert Decode("") == [] by { DecodeNothing(); }
    } else {
      DecodeEncode(bs[1..], js);
      var c, rest := bs[0] as char, EncodeBytes(bs[1..], js);
      if bs[0] < 128 && (Unreserved(c) || (js && c in JS_EXTRA)) {
        DecodePlain(c, rest);
      } else {
        DecodeEscape(bs[0], rest);
      }
    }
  }

  lemma DecodeNothing()
    ensures Decode("") == []
  {
  }

  // ----- templating -----

  type Args = map<string, string>

  function PyLookup(args: Args, key: string): string {
    if key in args then args[key] else ""
  }

  /** A property of a plain object that the arguments lack is found on its prototype. */
  function JsLookup(prototype: Args, args: Args, key: string): string {
    if key in args then args[key] else if key in prototype then prototype[key] else ""
  }

  function PyText(args: Args, p: Piece): string {
    match p case Lit(c) => [c] case Slot(key) => Encode(PyLookup(args, key), false)
  }

  function JsText(prototype: Args, args: Args, p: Piece): string {
    match p case Lit(c) => [c] case Slot(key) => Encode(JsLookup(prototype, args, key), true)
  }

  function PyTexts(args: Args, ps: seq<Piece>): string {
    if ps == [] then "" else PyText(args, ps[0]) + PyTexts(args, ps[1..])
  }

  function JsTexts(prototype: Args, args: Args, ps: seq<Piece>): string {
    if ps == [] then "" else JsText(prototype, args, ps[0]) + JsTexts(prototype, args, ps[1..])
  }

  /** `_template_path`, on string arguments. */
  function TemplatePath(path: string, args: Args): string {
    PyTexts(args, Pieces(path))
  }

  /** `templatePath` of the sandbox, on string arguments. */
  function SandboxPath(prototype: Args, path: string, args: Args): string {
    JsTexts(prototype, args, Pieces(path))
  }

  // ----- what is substituted where -----

  predicate Identifier(key: string) {
    key != "" && IsIdentStart(key[0]) && forall i :: 0 <= i < |key| ==> IsIdentChar(key[i])
  }

  lemma {:induction false} IdentRunIs(key: string, rest: string)
    requires (forall i :: 0 <= i < |key| ==> IsIdentChar(key[i])) && (rest == "" || !IsIdentChar(rest[0]))
    ensures IdentRun(key + rest) == |key|
  {
    if key == "" {
      assert key + rest == rest;
    } else {
      assert (key + rest)[1..] == key[1..] + rest;
      IdentRunIs(key[1..], rest);
    }
  }

  lemma PlaceholderIs(key: string, rest: string)
    requires Identifier(key)
    ensures PlaceholderLen("{" + key + "}" + rest) == |key| + 2
  {
    var s := "{" + key + "}" + rest;
    assert s[1..] == key + ("}" + rest);
    IdentRunIs(key, "}" + rest);
  }

  lemma {:induction false} IdentRunMeans(s: string)
    ensures forall i :: 0 <= i < IdentRun(s) ==> IsIdentChar(s[i])
  {
    if s != "" && IsIdentChar(s[0]) {
      IdentRunMeans(s[1..]);
      forall i | 0 <= i < IdentRun(s) ensures IsIdentChar(s[i]) { assert i > 0 ==> s[i] == s[1..][i - 1]; }
    }
  }

  /** A text starts with a placeholder exactly when it starts with an identifier in braces. */
  lemma PlaceholderExactly(s: string)
    ensures PlaceholderLen(s) > 0 <==> exists key, rest :: Identifier(key) && s == "{" + key + "}" + rest
  {
    hide Identifier;
    if PlaceholderLen(s) > 0 {
      var n := PlaceholderLen(s);
      assert s == "{" + s[1..n - 1] + "}" + s[n..];
      assert Identifier(s[1..n - 1]) by { SlotIdentifier(s); }
    }
    if key, rest :| Identifier(key) && s == "{" + key + "}" + rest { PlaceholderIs(key, rest); }
  }

  lemma SlotIdentifier(s: string)
    requires PlaceholderLen(s) > 0
    ensures Identifier(s[1..PlaceholderLen(s) - 1])
  {
    IdentRunMeans(s[1..]);
    var key := s[1..PlaceholderLen(s) - 1];
    forall i | 0 <= i < |key| ensures IsIdentChar(key[i]) { assert key[i] == s[1..][i]; }
  }

  /** A missing argument counts as the empty text. */
  predicate Stands(args: Args, key: string, text: string) {
    Decode(text) == Bytes(if key in args then args[key] else "")
  }

  /** Templating goes from left to right: what stands before the first placeholder is copied, the
      placeholder becomes the encoding of its argument, whatever that contains, and the rest is
      templated in the same way. A template without a placeholder is copied. */
  lemma {:induction false} SubstitutedExactly(before: string, key: string, rest: string, args: Args)
    requires Identifier(key)
    requires forall i :: 0 <= i < |before| ==> PlaceholderLen((before + "{" + key + "}" + rest)[i..]) == 0
    ensures exists text ::
      && Stands(args, key, text) && ReservedOf(text) == ""
      && TemplatePath(before + "{" + key + "}" + rest, args) == before + text + TemplatePath(rest, args)
  {
    hide PlaceholderLen, Identifier, ReservedOf, Stands, TemplatePath;
    var path := before + "{" + key + "}" + rest;
    if before == "" {
      assert path == "{" + key + "}" + rest;
      var text := Encode(PyLookup(args, key), false);
      SlotStep(key, rest, args);
      EncodeStands(args, key);
      EncodedClean(PyLookup(args, key));
      assert before + text == text;
    } else {
      var shorter := before[1..] + "{" + key + "}" + rest;
      assert path[1..] == shorter && path[0..] == path;
      forall i | 0 <= i < |before[1..]| ensures PlaceholderLen(shorter[i..]) == 0 {
        assert shorter[i..] == path[i + 1..];
      }
      SubstitutedExactly(before[1..], key, rest, args);
      var text :| Stands(args, key, text) && ReservedOf(text) == ""
        && TemplatePath(shorter, args) == before[1..] + text + TemplatePath(rest, args);
      LitStep(path, args);
      assert path[0] == before[0] && before == [before[0]] + before[1..];
      assert [before[0]] + (before[1..] + text + TemplatePath(rest, args)) == before + text + TemplatePath(rest, args);
    }
  }

  lemma LitStep(path: string, args: Args)
    requires path != "" && PlaceholderLen(path) == 0
    ensures TemplatePath(path, args) == [path[0]] + TemplatePath(path[1..], args)
  {
    hide PlaceholderLen, Encode;
  }

  lemma SlotStep(key: string, rest: string, args: Args)
    requires Identifier(key)
    ensures TemplatePath("{" + key + "}" + rest, args)
      == Encode(PyLookup(args, key), false) + TemplatePath(rest, args)
  {
    hide PlaceholderLen, Encode, Identifier;
    var path := "{" + key + "}" + rest;
    PlaceholderIs(key, rest);
    assert path[1..|key| + 1] == key && path[|key| + 2..] == rest;
  }

  lemma EncodeStands(args: Args, key: string)
    ensures Stands(args, key, Encode(PyLookup(args, key), false))
  {
    DecodeEncode(Bytes(PyLookup(args, key)), false);
  }

  lemma {:induction false} CopiedExactly(path: string, args: Args)
    requires forall i :: 0 <= i < |path| ==> PlaceholderLen(path[i..]) == 0
    ensures TemplatePath(path, args) == path
  {
    hide PlaceholderLen, TemplatePath;
    if path == "" {
      NothingTemplated(args);
    } else {
      assert path[0..] == path;
      LitStep(path, args);
      assert path == [path[0]] + path[1..];
      forall i | 0 <= i < |path[1..]| ensures PlaceholderLen(path[1..][i..]) == 0 {
        assert path[1..][i..] == path[i + 1..];
      }
      CopiedExactly(path[1..], args);
    }
  }

  lemma NothingTemplated(args: Args)
    ensures TemplatePath("", args) == ""
  {
  }

  // ----- structure -----

  /** Section 2.2 of RFC 3986. */
  const RESERVED :=
    {':', '/', '?', '#', '[', ']', '@', '!', '$', '&', '\'', '(', ')', '*', '+', ',', ';', '='}

  predicate IsReserved(c: char) { c in RESERVED }

  /** The reserved characters of a text, in order. */
  function ReservedOf(s: string): string {
    if s == "" then "" else (if IsReserved(s[0]) then [s[0]] else "") + ReservedOf(s[1..])
  }

  /** The template without its placeholders. */
  function Literals(ps: seq<Piece>): string {
    if ps == [] then "" else (if ps[0].Lit? then [ps[0].c] else "") + Literals(ps[1..])
  }

  lemma {:induction false} ReservedJoin(a: string, b: string)
    ensures ReservedOf(a + b) == ReservedOf(a) + ReservedOf(b)
  {
    hide ReservedOf;
    if a == "" {
      assert a + b == b;
      ReservedNothing();
    } else {
      assert a == [a[0]] + a[1..] && a + b == [a[0]] + (a[1..] + b);
      ReservedCons(a[0], a[1..]);
      ReservedCons(a[0], a[1..] + b);
      ReservedJoin(a[1..], b);
    }
  }

  lemma ReservedCons(c: char, s: string)
    ensures ReservedOf([c] + s) == (if IsReserved(c) then [c] else "") + ReservedOf(s)
  {
    hide IsReserved;
    assert ([c] + s)[1..] == s;
  }

  lemma ReservedNothing()
    ensures ReservedOf("") == ""
  {
  }

  lemma EscapeClean(b: Byte)
    ensures ReservedOf(Escape(b)) == ""
  {
    var e := Escape(b);
    assert HexDigit(b / 16) !in RESERVED && HexDigit(b % 16) !in RESERVED;
    assert e[1..][1..] == [HexDigit(b % 16)] && e[1..] == [HexDigit(b / 16), HexDigit(b % 16)];
    assert ReservedOf([HexDigit(b % 16)]) == "";
  }

  lemma OneReserved(c: char)
    ensures ReservedOf([c]) == if c in RESERVED then [c] else ""
  {
    assert ReservedOf([c][1..]) == "";
  }

  /** The Python encoding of a value has no reserved character. */
  lemma {:induction false} QuoteClean(bs: seq<Byte>)
    ensures ReservedOf(EncodeBytes(bs, false)) == ""
  {
    if bs != [] {
      QuoteClean(bs[1..]);
      var b := bs[0];
      var head := if b < 128 && Unreserved(b as char) then [b as char] else Escape(b);
      ReservedJoin(head, EncodeBytes(bs[1..], false));
      if b < 128 && Unreserved(b as char) { OneReserved(b as char); } else { EscapeClean(b); }
    }
  }

  lemma {:induction false} PiecesStructure(args: Args, ps: seq<Piece>)
    ensures ReservedOf(PyTexts(args, ps)) == ReservedOf(Literals(ps))
  {
    hide Encode;
    if ps != [] {
      PiecesStructure(args, ps[1..]);
      ReservedJoin(PyText(args, ps[0]), PyTexts(args, ps[1..]));
      ReservedJoin(if ps[0].Lit? then [ps[0].c] else "", Literals(ps[1..]));
      if ps[0].Slot? { EncodedClean(PyLookup(args, ps[0].key)); }
    }
  }

  lemma EncodedClean(v: string)
    ensures ReservedOf(Encode(v, false)) == ""
  {
    QuoteClean(Bytes(v));
  }

  /** The reserved characters of the templated path are those of the template's literal parts, in
      order, and each slot decodes to its argument's bytes. */
  lemma TemplateStructure(path: string, args: Args)
    ensures ReservedOf(TemplatePath(path, args)) == ReservedOf(Literals(Pieces(path)))
    ensures forall key :: Slot(key) in Pieces(path) ==>
      Decode(PyText(args, Slot(key))) == Bytes(PyLookup(args, key))
  {
    hide Pieces, Bytes, Decode;
    PiecesStructure(args, Pieces(path));
    forall key | Slot(key) in Pieces(path) ensures Decode(PyText(args, Slot(key))) == Bytes(PyLookup(args, key)) {
      DecodeEncode(Bytes(PyLookup(args, key)), false);
    }
  }

  // ----- the two implementations -----

  /** No character that only the JavaScript encoding leaves alone. */
  predicate NoExtra(v: string) {
    forall i :: 0 <= i < |v| ==> v[i] !in JS_EXTRA
  }

  predicate SlotAgrees(prototype: Args, args: Args, key: string) {
    if key in args then NoExtra(args[key]) else key !in prototype
  }

  function ExtraBytes(bs: seq<Byte>): nat {
    if bs == [] then 0 else (if bs[0] < 128 && bs[0] as char in JS_EXTRA then 1 else 0) + ExtraBytes(bs[1..])
  }

  lemma {:induction false} ExtraJoin(a: seq<Byte>, b: seq<Byte>)
    ensures ExtraBytes(a + b) == ExtraBytes(a) + ExtraBytes(b)
  {
    if a == [] {
      assert a + b == b;
    } else {
      assert (a + b)[1..] == a[1..] + b;
      ExtraJoin(a[1..], b);
    }
  }

  lemma HighBytes(bs: seq<Byte>)
    requires forall i :: 0 <= i < |bs| ==> bs[i] >= 128
    ensures ExtraBytes(bs) == 0
  {
  }

  lemma ExtraOfChar(c: char)
    ensures ExtraBytes(Utf8(c)) == if c in JS_EXTRA then 1 else 0
  {
    hide Utf8;
    var bs := Utf8(c);
    if |bs| == 1 {
      assert bs[1..] == [];
    } else {
      HighBytes(bs);
    }
  }

  lemma {:induction false} ExtraOfText(v: string)
    ensures ExtraBytes(Bytes(v)) == 0 <==> NoExtra(v)
  {
    hide Utf8;
    if v != "" {
      ExtraOfText(v[1..]);
      ExtraOfChar(v[0]);
      ExtraJoin(Utf8(v[0]), Bytes(v[1..]));
      if NoExtra(v[1..]) && v[0] !in JS_EXTRA {
        forall i | 0 <= i < |v| ensures v[i] !in JS_EXTRA {
          if i > 0 { assert v[i] == v[1..][i - 1]; }
        }
      }
      if NoExtra(v) {
        forall i | 0 <= i < |v[1..]| ensures v[1..][i] !in JS_EXTRA { assert v[1..][i] == v[i + 1]; }
      }
    }
  }

  /** The encodings differ exactly in the extra bytes, each two characters shorter in JavaScript
      and reserved. */
  lemma {:induction false} EncodingsCompared(bs: seq<Byte>)
    ensures |EncodeBytes(bs, false)| == |EncodeBytes(bs, true)| + 2 * ExtraBytes(bs)
    ensures |ReservedOf(EncodeBytes(bs, true))| == ExtraBytes(bs)
    ensures ExtraBytes(bs) == 0 ==> EncodeBytes(bs, false) == EncodeBytes(bs, true)
    ensures |EncodeBytes(bs, true)| >= |bs|
  {
    if bs != [] {
      EncodingsCompared(bs[1..]);
      var b := bs[0];
      var head := if b < 128 && (Unreserved(b as char) || b as char in JS_EXTRA) then [b as char] else Escape(b);
      ReservedJoin(head, EncodeBytes(bs[1..], true));
      if b < 128 && (Unreserved(b as char) || b as char in JS_EXTRA) {
        OneReserved(b as char);
      } else {
        EscapeClean(b);
      }
    }
  }

  function ExtraOf(prototype: Args, args: Args, ps: seq<Piece>): nat {
    if ps == [] then 0
    else
      (match ps[0] case Lit(_) => 0 case Slot(key) => ExtraBytes(Bytes(JsLookup(prototype, args, key))))
      + ExtraOf(prototype, args, ps[1..])
  }

  ghost predicate SlotsAgree(prototype: Args, args: Args, ps: seq<Piece>) {
    forall key :: Slot(key) in ps ==> SlotAgrees(prototype, args, key)
  }

  ghost predicate Substantial(prototype: Args) {
    forall key :: key in prototype ==> prototype[key] != ""
  }

  lemma {:induction false} ReservedJs(prototype: Args, args: Args, ps: seq<Piece>)
    ensures |ReservedOf(JsTexts(prototype, args, ps))| == |ReservedOf(Literals(ps))| + ExtraOf(prototype, args, ps)
  {
    hide Bytes, ExtraBytes, EncodeBytes;
    if ps != [] {
      ReservedJs(prototype, args, ps[1..]);
      ReservedJoin(JsText(prototype, args, ps[0]), JsTexts(prototype, args, ps[1..]));
      ReservedJoin(if ps[0].Lit? then [ps[0].c] else "", Literals(ps[1..]));
      if ps[0].Slot? { EncodingsCompared(Bytes(JsLookup(prototype, args, ps[0].key))); }
    }
  }

  lemma BytesNonEmpty(v: string)
    ensures |Bytes(v)| >= |v|
  {
  }

  /** One slot, when no extra character is involved anywhere. */
  lemma SlotCompared(prototype: Args, args: Args, key: string)
    requires Substantial(prototype) && ExtraBytes(Bytes(JsLookup(prototype, args, key))) == 0
    ensures SlotAgrees(prototype, args, key) ==> PyText(args, Slot(key)) == JsText(prototype, args, Slot(key))
    ensures !SlotAgrees(prototype, args, key) ==> |PyText(args, Slot(key))| < |JsText(prototype, args, Slot(key))|
  {
    hide ExtraBytes, EncodeBytes;
    var v := JsLookup(prototype, args, key);
    EncodingsCompared(Bytes(v));
    ExtraOfText(v);
    BytesNonEmpty(v);
    if key !in args {
      assert Encode("", false) == "" by { EmptyEncoding(); }
      assert Encode("", true) == "" by { EmptyEncoding(); }
    }
  }

  lemma EmptyEncoding()
    ensures Encode("", false) == "" && Encode("", true) == ""
  {
  }

  lemma {:induction false} NoExtraCompared(prototype: Args, args: Args, ps: seq<Piece>)
    requires Substantial(prototype) && ExtraOf(prototype, args, ps) == 0
    ensures SlotsAgree(prototype, args, ps) ==> PyTexts(args, ps) == JsTexts(prototype, args, ps)
    ensures |PyTexts(args, ps)| <= |JsTexts(prototype, args, ps)|
    ensures !SlotsAgree(prototype, args, ps) ==> |PyTexts(args, ps)| < |JsTexts(prototype, args, ps)|
  {
    hide Bytes, ExtraBytes, Encode, SlotAgrees, Substantial;
    if ps != [] {
      NoExtraCompared(prototype, args, ps[1..]);
      if ps[0].Slot? {
        SlotCompared(prototype, args, ps[0].key);
        assert SlotsAgree(prototype, args, ps)
          <==> SlotAgrees(prototype, args, ps[0].key) && SlotsAgree(prototype, args, ps[1..]);
      }
    }
  }

  lemma {:induction false} AgreeingSlots(prototype: Args, args: Args, ps: seq<Piece>)
    requires SlotsAgree(prototype, args, ps)
    ensures ExtraOf(prototype, args, ps) == 0
  {
    hide Bytes, ExtraBytes;
    if ps != [] {
      forall key | Slot(key) in ps[1..] ensures SlotAgrees(prototype, args, key) { assert Slot(key) in ps; }
      AgreeingSlots(prototype, args, ps[1..]);
      if ps[0].Slot? {
        var key := ps[0].key;
        assert SlotAgrees(prototype, args, key);
        ExtraOfText(JsLookup(prototype, args, key));
        assert NoExtra("");
      }
    }
  }

  /** The two implementations give the same path exactly when every slot's argument is free of
      `!'()*`, or missing and not the name of a property of every object. */
  lemma ImplementationsAgree(prototype: Args, path: string, args: Args)
    requires Substantial(prototype)
    ensures TemplatePath(path, args) == SandboxPath(prototype, path, args)
      <==> SlotsAgree(prototype, args, Pieces(path))
  {
    hide Pieces, SlotsAgree, Bytes;
    var ps := Pieces(path);
    if SlotsAgree(prototype, args, ps) {
      AgreeingSlots(prototype, args, ps);
      NoExtraCompared(prototype, args, ps);
    } else if TemplatePath(path, args) == SandboxPath(prototype, path, args) {
      PiecesStructure(args, ps);
      ReservedJs(prototype, args, ps);
      NoExtraCompared(prototype, args, ps);
    }
  }
}
