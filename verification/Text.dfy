/** Strings as the Python sources see them: whitespace, trimming, case and joining. */
module Text {

  datatype Option<+T> = None | Some(value: T)

  /** `str.isspace`, which is also what `\s` matches in a `str` pattern. */
  predicate IsSpace(c: char) {
    || '\t' <= c <= '\r'
    || '\U{1c}' <= c <= ' '
    || c == '\U{85}' || c == '\U{a0}' || c == '\U{1680}'
    || '\U{2000}' <= c <= '\U{200a}'
    || c == '\U{2028}' || c == '\U{2029}' || c == '\U{202f}' || c == '\U{205f}' || c == '\U{3000}'
  }

  predicate AllSpace(s: string) {
    forall i :: 0 <= i < |s| ==> IsSpace(s[i])
  }

  /** The length of the longest leading run of whitespace. */
  function SpaceRun(s: string): (n: nat)
    ensures n <= |s|
    ensures AllSpace(s[..n])
    ensures n < |s| ==> !IsSpace(s[n])
  {
    if s != "" && IsSpace(s[0]) then 1 + SpaceRun(s[1..]) else 0
  }

  function Lstrip(s: string): (r: string)
    ensures |r| <= |s| && (r == "" || !IsSpace(r[0]))
  {
    s[SpaceRun(s)..]
  }

  function Rstrip(s: string): (r: string)
    ensures r <= s
    ensures r == "" || !IsSpace(r[|r| - 1])
    ensures AllSpace(s[|r|..])
  {
    if s != "" && IsSpace(s[|s| - 1]) then
      var r := Rstrip(s[..|s| - 1]);
      assert s[|r|..] == s[..|s| - 1][|r|..] + [s[|s| - 1]];
      r
    else s
  }

  /** `str.strip()`. */
  function Strip(s: string): (r: string)
    ensures Trimmed(r)
  {
    Rstrip(Lstrip(s))
  }

  predicate Trimmed(s: string) {
    s == "" || (!IsSpace(s[0]) && !IsSpace(s[|s| - 1]))
  }

  lemma StripTrimmed(s: string)
    requires Trimmed(s)
    ensures Strip(s) == s
  {
  }

  lemma StripSpace(s: string)
    requires AllSpace(s)
    ensures Strip(s) == ""
  {
    assert SpaceRun(s) == |s|;
  }

  /** Case folding of one character, as far as the tag names can tell: the
      non-ASCII characters whose simple lower case is an ASCII letter are
      the Kelvin sign and the dotted capital I. */
  function Fold(c: char): char {
    if 'A' <= c <= 'Z' then (c as int + 32) as char
    else if c == '\U{212a}' then 'k'
    else if c == '\U{130}' then 'i'
    else c
  }

  /** `str.lower()` as far as comparison with lower-case ASCII text can tell:
      the dotted capital I lowers to two characters, so it never equals one. */
  function Lower(s: string): (r: string)
    ensures |r| == |s|
  {
    seq(|s|, i requires 0 <= i < |s| => if s[i] == '\U{130}' then s[i] else Fold(s[i]))
  }

  predicate LowerAscii(s: string) {
    forall i :: 0 <= i < |s| ==> s[i] < '\U{80}' && !('A' <= s[i] <= 'Z')
  }

  lemma LowerFixed(s: string)
    requires LowerAscii(s)
    ensures Lower(s) == s
  {
  }

  /** The index of the first `c`, or the length of the text. */
  function IndexOf(c: char, s: string): (n: nat)
    ensures n <= |s|
    ensures c !in s[..n]
    ensures n < |s| ==> s[n] == c
  {
    if s == "" || s[0] == c then 0 else 1 + IndexOf(c, s[1..])
  }

  function Concat(parts: seq<string>): string {
    if parts == [] then "" else parts[0] + Concat(parts[1..])
  }

  /** `sep.join(parts)`. */
  function Join(sep: string, parts: seq<string>): string {
    if parts == [] then ""
    else if |parts| == 1 then parts[0]
    else parts[0] + sep + Join(sep, parts[1..])
  }

  predicate AllSpaces(parts: seq<string>) {
    forall i :: 0 <= i < |parts| ==> AllSpace(parts[i])
  }

  lemma {:induction false} ConcatSpace(parts: seq<string>)
    requires AllSpaces(parts)
    ensures AllSpace(Concat(parts))
  {
    hide IsSpace;
    if parts != [] { ConcatSpace(parts[1..]); }
  }

  /** Python's `xs[:n]`, with a negative bound counted from the end. */
  function Take<T>(xs: seq<T>, n: int): (r: seq<T>)
    ensures r <= xs
    ensures 0 <= n <= |xs| ==> |r| == n
    ensures n < 0 ==> |r| <= |xs|
  {
    if 0 <= n then xs[..if n <= |xs| then n else |xs|]
    else if -n <= |xs| then xs[..|xs| + n] else []
  }

  /** Python's `xs[-n:]`. */
  function TakeLast<T>(xs: seq<T>, n: int): (r: seq<T>)
    ensures 0 < n ==> |r| <= n
  {
    if n <= 0 then (if -n <= |xs| then xs[-n..] else [])
    else if n <= |xs| then xs[|xs| - n..] else xs
  }

  lemma MultisetCons<T>(x: T, s: seq<T>)
    ensures multiset([x] + s) == multiset{x} + multiset(s)
  {
  }

  lemma MultisetSnoc<T>(s: seq<T>)
    requires s != []
    ensures s == s[..|s| - 1] + [s[|s| - 1]]
    ensures multiset(s[..|s| - 1]) == multiset(s) - multiset{s[|s| - 1]}
  {
    assert s == s[..|s| - 1] + [s[|s| - 1]];
  }

  /** `xs` is obtained from `ys` by leaving elements out. */
  ghost predicate Subsequence<T>(xs: seq<T>, ys: seq<T>) {
    xs == [] || (ys != [] &&
      (Subsequence(xs, ys[..|ys| - 1])
       || (xs[|xs| - 1] == ys[|ys| - 1] && Subsequence(xs[..|xs| - 1], ys[..|ys| - 1]))))
  }

  lemma SubsequenceSnoc<T>(xs: seq<T>, ys: seq<T>, last: T)
    requires Subsequence(xs, ys)
    ensures Subsequence(xs, ys + [last]) && Subsequence(xs + [last], ys + [last])
  {
    assert (ys + [last])[..|ys|] == ys && (xs + [last])[..|xs|] == xs;
  }

  lemma SubsequenceLength<T>(xs: seq<T>, ys: seq<T>)
    requires Subsequence(xs, ys)
    ensures |xs| <= |ys|
  {
  }

  lemma {:induction false} SubsequenceCons<T>(x: T, xs: seq<T>, ys: seq<T>)
    requires Subsequence(xs, ys)
    ensures Subsequence(xs, [x] + ys) && Subsequence([x] + xs, [x] + ys)
  {
    if ys == [] {
      assert [x] + ys == [x] && ([x] + xs)[..0] == [];
    } else {
      var front, last := ys[..|ys| - 1], ys[|ys| - 1];
      assert [x] + ys == ([x] + front) + [last];
      var kept := if Subsequence(xs, front) then xs else xs[..|xs| - 1];
      SubsequenceCons(x, kept, front);
      assert kept != xs ==> xs == kept + [last] && [x] + xs == ([x] + kept) + [last];
      SubsequenceSnoc(kept, [x] + front, last);
      SubsequenceSnoc([x] + kept, [x] + front, last);
    }
  }

  lemma {:induction false} SubsequenceSuffix<T>(a: seq<T>, xs: seq<T>, ys: seq<T>)
    requires Subsequence(xs, ys)
    ensures Subsequence(xs, a + ys)
  {
    if a == [] {
      assert a + ys == ys;
    } else {
      SubsequenceSuffix(a[1..], xs, ys);
      SubsequenceCons(a[0], xs, a[1..] + ys);
      assert a + ys == [a[0]] + (a[1..] + ys);
    }
  }

  lemma {:induction false} SubsequencePrefix<T>(xs: seq<T>, b: seq<T>)
    ensures Subsequence(xs, xs + b)
  {
    if b != [] {
      SubsequencePrefix(xs, b[..|b| - 1]);
      SubsequenceSnoc(xs, xs + b[..|b| - 1], b[|b| - 1]);
      assert xs + b == (xs + b[..|b| - 1]) + [b[|b| - 1]];
    } else if xs != [] {
      SubsequencePrefix(xs[..|xs| - 1], []);
      assert xs + b == xs && xs[..|xs| - 1] + [] == xs[..|xs| - 1];
    }
  }

  lemma {:induction false} SubsequenceTrans<T>(a: seq<T>, b: seq<T>, c: seq<T>)
    requires Subsequence(a, b) && Subsequence(b, c)
    ensures Subsequence(a, c)
  {
    if a != [] {
      var c' := c[..|c| - 1];
      if Subsequence(b, c') {
        SubsequenceTrans(a, b, c');
      } else if Subsequence(a, b[..|b| - 1]) {
        SubsequenceTrans(a, b[..|b| - 1], c');
      } else {
        SubsequenceTrans(a[..|a| - 1], b[..|b| - 1], c');
      }
    }
  }

  /** Trimming leaves the characters in between as they are. */
  lemma StripSubsequence(s: string)
    ensures Subsequence(Strip(s), s)
  {
    hide Rstrip;
    var l := Lstrip(s);
    assert l == Strip(s) + l[|Strip(s)|..];
    SubsequencePrefix(Strip(s), l[|Strip(s)|..]);
    assert s == s[..SpaceRun(s)] + l;
    SubsequenceSuffix(s[..SpaceRun(s)], Strip(s), l);
  }

  /** A number outside a finite set. */
  lemma FreshNat(used: set<nat>) returns (n: nat)
    ensures n !in used
  {
    n := 0;
    var left := used;
    while n in left
      invariant left <= used
      invariant forall i: nat :: i in used && i >= n ==> i in left
      decreases left
    {
      left := left - {n};
      n := n + 1;
    }
  }
}
