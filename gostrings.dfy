/**
 * ASCII models of the functions of Go's `strings` and `strconv` packages that the
 * pipeline uses. A Go string is a byte sequence; here it is a `seq<char>` and every
 * length or slice bound counts characters, which agrees with Go for ASCII text.
 */
module GoStrings {
  import opened Wrappers
  import opened Errors

  // ---------------------------------------------------------------------------
  // White space (strings.TrimSpace)
  // ---------------------------------------------------------------------------

  /** The ASCII white space `strings.TrimSpace` removes. */
  predicate IsSpace(c: char) {
    c == ' ' || c == '\t' || c == '\n' || c == '\U{000B}' || c == '\U{000C}' || c == '\r'
  }

  predicate AllSpace(s: string) {
    forall i :: 0 <= i < |s| ==> IsSpace(s[i])
  }

  /** Neither the first nor the last character is white space. */
  predicate IsTrimmed(s: string) {
    s == [] || (!IsSpace(s[0]) && !IsSpace(s[|s| - 1]))
  }

  /** `s` without its leading white space. */
  function TrimLeft(s: string): (r: string)
    ensures |r| <= |s| && r == s[|s| - |r|..]
    ensures AllSpace(s[..|s| - |r|])
    ensures r == [] || !IsSpace(r[0])
  {
    if s != [] && IsSpace(s[0]) then
      var r := TrimLeft(s[1..]);
      assert s[..|s| - |r|] == [s[0]] + s[1..][..|s| - 1 - |r|];
      r
    else
      s
  }

  /** `s` without its trailing white space. */
  function TrimRight(s: string): (r: string)
    ensures |r| <= |s| && r == s[..|r|]
    ensures AllSpace(s[|r|..])
    ensures r == [] || !IsSpace(r[|r| - 1])
  {
    if s != [] && IsSpace(s[|s| - 1]) then
      var r := TrimRight(s[..|s| - 1]);
      assert s[|r|..] == s[..|s| - 1][|r|..] + [s[|s| - 1]];
      r
    else
      s
  }

  /** strings.TrimSpace: the text between the leading and the trailing white space. */
  function TrimSpace(s: string): (r: string)
    ensures IsTrimmed(r)
    ensures |r| <= |s|
  {
    TrimRight(TrimLeft(s))
  }

  /** TrimSpace removes white space from both ends and nothing else. */
  lemma TrimSpaceIsSlice(s: string)
    ensures exists i, j :: 0 <= i <= j <= |s| && TrimSpace(s) == s[i..j] && AllSpace(s[..i]) && AllSpace(s[j..])
  {
    var l := TrimLeft(s);
    var r := TrimRight(l);
    var i := |s| - |l|;
    assert r == s[i..i + |r|];
    assert s[i + |r|..] == l[|r|..];
  }

  lemma TrimLeftOfPadded(pre: string, u: string)
    requires AllSpace(pre)
    requires u == [] || !IsSpace(u[0])
    ensures TrimLeft(pre + u) == u
  {
    var s := pre + u;
    var r := TrimLeft(s);
    assert forall k :: 0 <= k < |pre| ==> s[k] == pre[k];
    assert u != [] ==> s[|pre|] == u[0];
    assert |s| - |r| == |pre|;
  }

  lemma TrimRightOfPadded(u: string, post: string)
    requires AllSpace(post)
    requires u == [] || !IsSpace(u[|u| - 1])
    ensures TrimRight(u + post) == u
  {
    var s := u + post;
    var r := TrimRight(s);
    assert forall k :: |u| <= k < |s| ==> s[k] == post[k - |u|];
    assert u != [] ==> s[|u| - 1] == u[|u| - 1];
    assert |r| == |u|;
  }

  lemma {:induction false} TrimLeftOfSpace(s: string)
    requires AllSpace(s)
    ensures TrimLeft(s) == []
    decreases |s|
  {
    if s != [] {
      assert IsSpace(s[0]);
      TrimLeftOfSpace(s[1..]);
    }
  }

  /**
   * Every string is some trimmed text padded with white space on both sides, and
   * TrimSpace returns exactly that text.
   */
  lemma TrimSpaceOfPadded(pre: string, t: string, post: string)
    requires AllSpace(pre) && AllSpace(post) && IsTrimmed(t)
    ensures TrimSpace(pre + t + post) == t
  {
    if t == [] {
      assert pre + t + post == pre + post;
      AllSpaceConcat(pre, post);
      TrimLeftOfSpace(pre + post);
    } else {
      ConcatRegroup(pre, t, post);
      TrimLeftOfPadded(pre, t + post);
      TrimRightOfPadded(t, post);
    }
  }

  lemma AllSpaceConcat(a: string, b: string)
    requires AllSpace(a) && AllSpace(b)
    ensures AllSpace(a + b)
  {
    assert forall k :: 0 <= k < |a + b| ==> (a + b)[k] == (if k < |a| then a[k] else b[k - |a|]);
  }

  /** TrimSpace only removes characters: one absent from `s` is absent from the result. */
  lemma NotInTrimSpace(s: string, c: char)
    requires c !in s
    ensures c !in TrimSpace(s)
  {
    var l := TrimLeft(s);
    var r := TrimRight(l);
    forall k | 0 <= k < |r|
      ensures r[k] != c
    {
      assert r[k] == l[k] == s[|s| - |l| + k];
    }
  }

  /** TrimSpace is idempotent. */
  lemma TrimSpaceIdempotent(s: string)
    ensures TrimSpace(TrimSpace(s)) == TrimSpace(s)
  {
    var t := TrimSpace(s);
    assert [] + t + [] == t;
    TrimSpaceOfPadded([], t, []);
  }

  // ---------------------------------------------------------------------------
  // Searching (strings.Index, strings.Contains, strings.Split)
  // ---------------------------------------------------------------------------

  /** `sub` occurs in `s` starting at position `i`. */
  predicate OccursAt(s: string, sub: string, i: int) {
    0 <= i && i + |sub| <= |s| && s[i..i + |sub|] == sub
  }

  function IndexFrom(s: string, sub: string, from: nat): (r: int)
    requires from <= |s| + 1
    decreases |s| + 1 - from
    ensures r == -1 || (from <= r && OccursAt(s, sub, r))
    ensures forall j :: from <= j < (if r == -1 then |s| + 1 else r) ==> !OccursAt(s, sub, j)
  {
    if from + |sub| > |s| then -1
    else if s[from..from + |sub|] == sub then from
    else IndexFrom(s, sub, from + 1)
  }

  /** strings.Index: the first position at which `sub` occurs in `s`, or -1. */
  function IndexOf(s: string, sub: string): (r: int)
    ensures r == -1 || OccursAt(s, sub, r)
    ensures forall j :: 0 <= j < (if r == -1 then |s| + 1 else r) ==> !OccursAt(s, sub, j)
  {
    IndexFrom(s, sub, 0)
  }

  /** strings.Contains */
  function Contains(s: string, sub: string): (b: bool)
    ensures b <==> exists j :: OccursAt(s, sub, j)
  {
    if IndexOf(s, sub) >= 0 then true
    else
      assert forall j :: !OccursAt(s, sub, j) by {
        forall j ensures !OccursAt(s, sub, j) {
          if 0 <= j <= |s| { } else { }
        }
      }
      false
  }

  /** strings.Split(s, sep)[0]: the text before the first `sep`, or all of `s`. */
  function Before(s: string, sep: string): (r: string)
    requires sep != []
    ensures |r| <= |s| && r == s[..|r|]
    ensures !Contains(r, sep)
    ensures Contains(s, sep) ==> |r| == IndexOf(s, sep)
    ensures !Contains(s, sep) ==> r == s
  {
    var i := IndexOf(s, sep);
    var r := if i < 0 then s else s[..i];
    assert forall j :: OccursAt(r, sep, j) ==> OccursAt(s, sep, j) by {
      forall j | OccursAt(r, sep, j) ensures OccursAt(s, sep, j) {
        assert s[j..j + |sep|] == r[j..j + |sep|];
      }
    }
    r
  }

  /** The text after the first `sep` in `s`. */
  function After(s: string, sep: string): (r: string)
    requires Contains(s, sep)
    ensures r == s[IndexOf(s, sep) + |sep|..]
  {
    s[IndexOf(s, sep) + |sep|..]
  }

  /** strings.HasPrefix */
  predicate HasPrefix(s: string, p: string) {
    |p| <= |s| && s[..|p|] == p
  }

  /** strings.HasSuffix */
  predicate HasSuffix(s: string, p: string) {
    |p| <= |s| && s[|s| - |p|..] == p
  }

  /** strings.TrimPrefix: `s` without the prefix `p`, if it has it. */
  function TrimPrefix(s: string, p: string): (r: string)
    ensures HasPrefix(s, p) ==> s == p + r
    ensures !HasPrefix(s, p) ==> r == s
  {
    if HasPrefix(s, p) then
      assert s == s[..|p|] + s[|p|..];
      s[|p|..]
    else s
  }

  /** strings.TrimSuffix: `s` without the suffix `p`, if it has it. */
  function TrimSuffix(s: string, p: string): (r: string)
    ensures HasSuffix(s, p) ==> s == r + p
    ensures !HasSuffix(s, p) ==> r == s
  {
    if HasSuffix(s, p) then
      assert s == s[..|s| - |p|] + s[|s| - |p|..];
      s[..|s| - |p|]
    else s
  }

  // ---------------------------------------------------------------------------
  // Rewriting
  // ---------------------------------------------------------------------------

  /**
   * `s` cut to its first `limit` characters followed by `marker` when it is longer
   * than `limit`; the idiom `if len(s) > limit { s = s[:limit] + marker }`.
   */
  function Shorten(s: string, limit: nat, marker: string): (r: string)
    ensures |r| <= limit + |marker|
    ensures |s| <= limit ==> r == s
    ensures |s| > limit ==> r == s[..limit] + marker
  {
    if |s| > limit then s[..limit] + marker else s
  }

  /** The first `n` characters of `s`, or all of `s` when it is shorter. */
  function Head(s: string, n: nat): string {
    if |s| <= n then s else s[..n]
  }

  /** A shortened text shows the head of the original, and the marker when it was cut. */
  lemma ShortenShowsHead(s: string, limit: nat, marker: string)
    ensures Contains(Shorten(s, limit, marker), Head(s, limit))
    ensures |s| > limit ==> Contains(Shorten(s, limit, marker), marker)
  {
    if |s| > limit {
      ContainsPiece("", s[..limit], marker);
      ContainsPiece(s[..limit], marker, "");
      assert "" + s[..limit] + marker == s[..limit] + marker + "";
    } else {
      ContainsPiece("", s, "");
      assert "" + s + "" == s;
    }
  }

  /** strings.ReplaceAll(s, c, ""): `s` with every `c` deleted. */
  function RemoveAll(s: string, c: char): (r: string)
    ensures c !in r
    ensures |r| <= |s|
    ensures c !in s ==> r == s
    ensures forall x :: x != c ==> multiset(r)[x] == multiset(s)[x]
    ensures |s| == 1 ==> r == (if s[0] == c then [] else s)
  {
    if s == [] then []
    else
      assert s == [s[0]] + s[1..];
      (if s[0] == c then [] else [s[0]]) + RemoveAll(s[1..], c)
  }

  /** Deleting `c` works piece by piece, so the kept characters keep their order. */
  lemma {:induction false} RemoveAllConcat(a: string, b: string, c: char)
    ensures RemoveAll(a + b, c) == RemoveAll(a, c) + RemoveAll(b, c)
  {
    if a == [] {
      assert a + b == b;
    } else {
      var kept := if a[0] == c then [] else [a[0]];
      RemoveAllConcat(a[1..], b, c);
      ConcatSplit(a, b);
      assert RemoveAll(a + b, c) == kept + RemoveAll(a[1..] + b, c);
      ConcatRegroup(kept, RemoveAll(a[1..], c), RemoveAll(b, c));
    }
  }

  lemma ConcatSplit(a: string, b: string)
    requires a != []
    ensures a + b != [] && (a + b)[0] == a[0] && (a + b)[1..] == a[1..] + b
  {
  }

  lemma ConcatRegroup(a: string, b: string, c: string)
    ensures a + (b + c) == a + b + c
  {
  }

  /** unicode.ToLower restricted to ASCII. */
  function LowerChar(c: char): char {
    if 'A' <= c <= 'Z' then (c as int - 'A' as int + 'a' as int) as char else c
  }

  /** strings.ToLower, over ASCII. */
  function ToLower(s: string): (r: string)
    ensures |r| == |s|
    ensures forall i :: 0 <= i < |s| ==> r[i] == LowerChar(s[i])
  {
    seq(|s|, i requires 0 <= i < |s| => LowerChar(s[i]))
  }

  // ---------------------------------------------------------------------------
  // Decimal integers (strconv.Atoi, strconv.Itoa / fmt's %d)
  // ---------------------------------------------------------------------------

  predicate IsDigit(c: char) {
    '0' <= c <= '9'
  }

  predicate AllDigits(s: string) {
    forall i :: 0 <= i < |s| ==> IsDigit(s[i])
  }

  /** The digits of a decimal numeral: `s` without one leading `+` or `-`. */
  function Unsigned(s: string): string {
    if |s| > 0 && (s[0] == '+' || s[0] == '-') then s[1..] else s
  }

  /** The syntax strconv.Atoi accepts: an optional sign then one or more digits. */
  predicate IsDecimal(s: string) {
    |Unsigned(s)| > 0 && AllDigits(Unsigned(s))
  }

  function DigitsValue(ds: string): nat
    requires AllDigits(ds)
  {
    if ds == [] then 0
    else DigitsValue(ds[..|ds| - 1]) * 10 + (ds[|ds| - 1] as int - '0' as int)
  }

  /** strconv.Atoi, without the overflow check of 64-bit `int`. */
  function Atoi(s: string): (r: Result<int, Error>)
    ensures r.Ok? <==> IsDecimal(s)
    ensures r.Err? ==> r.error == InvalidSyntax(s)
  {
    var digits := Unsigned(s);
    if |digits| > 0 && AllDigits(digits) then
      var v: int := DigitsValue(digits);
      Ok(if |s| > 0 && s[0] == '-' then -v else v)
    else
      Err(InvalidSyntax(s))
  }

  function DigitChar(d: nat): (c: char)
    requires d < 10
    ensures IsDigit(c) && c as int - '0' as int == d
  {
    ('0' as int + d) as char
  }

  /** `n / 10`, by repeated subtraction so that the arithmetic stays linear. */
  function Tens(n: nat): (q: nat)
    ensures 10 * q <= n < 10 * q + 10
  {
    if n < 10 then 0 else Tens(n - 10) + 1
  }

  /** The decimal numeral of `n`, without leading zeros. */
  function FormatNat(n: nat): (r: string)
    ensures |r| > 0 && AllDigits(r)
  {
    if n < 10 then [DigitChar(n)] else FormatNat(Tens(n)) + [DigitChar(n - 10 * Tens(n))]
  }

  /** strconv.Itoa, which is also what fmt's %d prints. */
  function FormatInt(n: int): (r: string)
    ensures |r| > 0
    ensures forall i :: 0 <= i < |r| ==> IsDigit(r[i]) || (i == 0 && r[i] == '-')
  {
    if n < 0 then "-" + FormatNat(-n) else FormatNat(n)
  }

  lemma {:induction false} FormatNatValue(n: nat)
    ensures DigitsValue(FormatNat(n)) == n
  {
    if n >= 10 {
      var ds := FormatNat(n);
      assert ds[..|ds| - 1] == FormatNat(Tens(n));
      FormatNatValue(Tens(n));
    }
  }

  /** Atoi reads back every numeral FormatInt writes. */
  lemma AtoiFormatInt(n: int)
    ensures Atoi(FormatInt(n)) == Ok(n)
  {
    if n < 0 {
      assert Unsigned(FormatInt(n)) == FormatNat(-n);
      FormatNatValue(-n);
    } else {
      assert Unsigned(FormatInt(n)) == FormatNat(n);
      FormatNatValue(n);
    }
  }

  /** A numeral contains neither white space nor the given non-numeric character. */
  lemma FormatIntPlain(n: int, c: char)
    requires !IsDigit(c) && c != '-'
    ensures c !in FormatInt(n)
    ensures IsTrimmed(FormatInt(n))
  {
  }

  // ---------------------------------------------------------------------------
  // strings.Builder: a loop of WriteString calls
  // ---------------------------------------------------------------------------

  /** The text a builder holds after writing `render(x)` for each `x` of `xs` in order. */
  function Join<T>(xs: seq<T>, render: T -> string): string {
    if xs == [] then "" else Join(xs[..|xs| - 1], render) + render(xs[|xs| - 1])
  }

  lemma {:induction false} JoinAppend<T>(xs: seq<T>, ys: seq<T>, render: T -> string)
    ensures Join(xs + ys, render) == Join(xs, render) + Join(ys, render)
    decreases |ys|
  {
    if ys != [] {
      assert (xs + ys)[..|xs + ys| - 1] == xs + ys[..|ys| - 1];
      JoinAppend(xs, ys[..|ys| - 1], render);
    } else {
      assert xs + ys == xs;
    }
  }

  /** One more item adds its rendering at the end. */
  lemma JoinSnoc<T>(xs: seq<T>, render: T -> string, i: nat)
    requires i < |xs|
    ensures Join(xs[..i + 1], render) == Join(xs[..i], render) + render(xs[i])
  {
    assert xs[..i + 1][..i] == xs[..i];
  }

  /** Each item's rendering appears in the joined text, after those of the items before it. */
  lemma {:induction false} JoinAt<T>(xs: seq<T>, render: T -> string, k: nat)
    requires k < |xs|
    ensures Join(xs, render) == Join(xs[..k], render) + render(xs[k]) + Join(xs[k + 1..], render)
  {
    assert xs == xs[..k + 1] + xs[k + 1..];
    JoinAppend(xs[..k + 1], xs[k + 1..], render);
    assert xs[..k + 1][..k] == xs[..k];
  }

  lemma OccursInMiddle(a: string, b: string, c: string)
    ensures OccursAt(a + b + c, b, |a|)
  {
    assert (a + b + c)[|a|..|a| + |b|] == b;
  }

  lemma RegroupTail(a: string, b: string, c: string, d: string, e: string)
    ensures a + b + c + d + e == a + b + (c + d + e)
  {
  }

  /** Text found in a piece is found in any text the piece is part of. */
  lemma ContainsWithin(a: string, b: string, c: string, x: string)
    requires Contains(b, x)
    ensures Contains(a + b + c, x)
  {
    var j :| OccursAt(b, x, j);
    assert (a + b + c)[|a| + j..|a| + j + |x|] == b[j..j + |x|];
    assert OccursAt(a + b + c, x, |a| + j);
  }

  /** Every piece of a text is found in it. */
  lemma ContainsPiece(a: string, b: string, c: string)
    ensures Contains(a + b + c, b)
  {
    OccursInMiddle(a, b, c);
  }

  /** What a found text contains, the text it is found in contains too. */
  lemma ContainsTransitive(s: string, mid: string, x: string)
    requires Contains(s, mid) && Contains(mid, x)
    ensures Contains(s, x)
  {
    var i :| OccursAt(s, mid, i);
    var j :| OccursAt(mid, x, j);
    assert mid == s[i..i + |mid|];
    forall k | 0 <= k < |x|
      ensures s[i + j..i + j + |x|][k] == x[k]
    {
      assert x[k] == mid[j + k] == s[i + j + k];
    }
    assert OccursAt(s, x, i + j);
  }

  /** A text without the character `c` does not contain it. */
  lemma NoCharNoOccurrence(s: string, c: char)
    requires c !in s
    ensures !Contains(s, [c])
  {
    forall j | 0 <= j < |s| ensures !OccursAt(s, [c], j) {
      assert s[j..j + 1][0] == s[j];
    }
  }

  /** Splitting at a character the first part lacks gives back that part. */
  lemma BeforeFirstChar(t: string, c: char, rest: string)
    requires c !in t
    ensures Contains(t + [c] + rest, [c])
    ensures Before(t + [c] + rest, [c]) == t
  {
    var s := t + [c] + rest;
    OccursInMiddle(t, [c], rest);
    forall j | 0 <= j < |t| ensures !OccursAt(s, [c], j) {
      assert s[j..j + 1][0] == t[j];
    }
    assert IndexOf(s, [c]) == |t|;
  }
}
