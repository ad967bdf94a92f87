/**
 * Python's `str.strip()` (no argument) and `str.replace(c, "")` on strings,
 * the two text operations every normaliser of the importer is built from.
 */
module Text {

  /** The characters Python's `str.isspace()` accepts, which `str.strip()` removes. */
  predicate IsSpace(c: char) {
    ('\t' <= c <= '\r') || ('\U{1C}' <= c <= ' ') || c == '\U{85}' || c == '\U{A0}'
    || c == '\U{1680}' || ('\U{2000}' <= c <= '\U{200A}') || c == '\U{2028}' || c == '\U{2029}'
    || c == '\U{202F}' || c == '\U{205F}' || c == '\U{3000}'
  }

  predicate AllSpace(s: string) {
    forall i :: 0 <= i < |s| ==> IsSpace(s[i])
  }

  predicate IsAsciiDigit(c: char) {
    '0' <= c <= '9'
  }

  /** Only the ASCII digits 0-9. */
  predicate AllDigits(s: string) {
    forall i :: 0 <= i < |s| ==> IsAsciiDigit(s[i])
  }

  /** Neither end of `s` is whitespace: what `strip()` guarantees of its result. */
  predicate Bordered(s: string) {
    s == [] || (!IsSpace(s[0]) && !IsSpace(s[|s| - 1]))
  }

  /** `s.lstrip()`: what is left after dropping the leading whitespace. */
  function TrimStart(s: string): (r: string)
    ensures |r| <= |s|
    ensures r == [] || !IsSpace(r[0])
    decreases |s|
  {
    if s != [] && IsSpace(s[0]) then TrimStart(s[1..]) else s
  }

  /** `lstrip()` keeps a suffix and cuts only whitespace before it. */
  lemma {:induction false} TrimStartCut(s: string)
    ensures TrimStart(s) == s[|s| - |TrimStart(s)|..]
    ensures AllSpace(s[..|s| - |TrimStart(s)|])
    decreases |s|
  {
    if s != [] && IsSpace(s[0]) {
      TrimStartCut(s[1..]);
      var n := |s| - |TrimStart(s)|;
      assert s[..n] == [s[0]] + s[1..][..n - 1];
    }
  }

  /** `s.rstrip()`: what is left after dropping the trailing whitespace. */
  function TrimEnd(s: string): (r: string)
    ensures |r| <= |s|
    ensures r == [] || !IsSpace(r[|r| - 1])
    decreases |s|
  {
    if s != [] && IsSpace(s[|s| - 1]) then TrimEnd(s[..|s| - 1]) else s
  }

  /** `rstrip()` keeps a prefix and cuts only whitespace after it. */
  lemma {:induction false} TrimEndCut(s: string)
    ensures TrimEnd(s) == s[..|TrimEnd(s)|]
    ensures AllSpace(s[|TrimEnd(s)|..])
    decreases |s|
  {
    if s != [] && IsSpace(s[|s| - 1]) {
      TrimEndCut(s[..|s| - 1]);
      var n := |TrimEnd(s)|;
      assert s[n..] == s[..|s| - 1][n..] + [s[|s| - 1]];
    }
  }

  /** How many leading whitespace characters `strip()` cuts from `s`. */
  function Lead(s: string): nat
  {
    |s| - |TrimStart(s)|
  }

  /** `s.strip()`: no whitespace at either end. */
  function Strip(s: string): (r: string)
    ensures |r| <= |s| && Bordered(r)
  {
    var t := TrimStart(s);
    var r := TrimEnd(t);
    TrimEndCut(t);
    assert r != [] ==> r[0] == t[0];
    r
  }

  /**
   * What `lstrip()` followed by `rstrip()` leaves, from the two steps' own
   * guarantees: an infix of `s` with only whitespace around it.
   */
  lemma TrimmedInfix(s: string, t: string, r: string)
    requires |t| <= |s| && t == s[|s| - |t|..] && AllSpace(s[..|s| - |t|])
    requires |r| <= |t| && r == t[..|r|] && AllSpace(t[|r|..])
    ensures r == s[|s| - |t|..|s| - |t| + |r|]
    ensures AllSpace(s[|s| - |t| + |r|..])
  {
    var i := |s| - |t|;
    assert t[|r|..] == s[i + |r|..];
  }

  /** `strip()` keeps an infix of `s` and cuts only whitespace on either side of it. */
  lemma StripInfix(s: string)
    ensures Lead(s) + |Strip(s)| <= |s| && Strip(s) == s[Lead(s)..Lead(s) + |Strip(s)|]
    ensures AllSpace(s[..Lead(s)]) && AllSpace(s[Lead(s) + |Strip(s)|..])
  {
    var t := TrimStart(s);
    TrimStartCut(s);
    TrimEndCut(t);
    TrimmedInfix(s, t, TrimEnd(t));
  }

  /** Every character of `Strip(s)` comes from `s`. */
  lemma StripFrom(s: string, c: char)
    requires c in Strip(s)
    ensures c in s
  {
    var r := Strip(s);
    StripInfix(s);
    var k :| 0 <= k < |r| && r[k] == c;
    assert s[Lead(s) + k] == c;
  }

  lemma {:induction false} TrimStartExact(p: string, x: string)
    requires AllSpace(p) && (x == [] || !IsSpace(x[0]))
    ensures TrimStart(p + x) == x
    decreases |p|
  {
    if p == [] {
      assert p + x == x;
    } else {
      assert (p + x)[0] == p[0];
      assert (p + x)[1..] == p[1..] + x;
      TrimStartExact(p[1..], x);
    }
  }

  lemma {:induction false} TrimEndExact(x: string, q: string)
    requires AllSpace(q) && (x == [] || !IsSpace(x[|x| - 1]))
    ensures TrimEnd(x + q) == x
    decreases |q|
  {
    if q == [] {
      assert x + q == x;
    } else {
      var s := x + q;
      assert s[|s| - 1] == q[|q| - 1];
      assert s[..|s| - 1] == x + q[..|q| - 1];
      TrimEndExact(x, q[..|q| - 1]);
    }
  }

  /**
   * The reference characterisation of `strip()`: whatever whitespace surrounds a
   * bordered text, stripping gives back exactly that text.
   */
  lemma StripExact(p: string, m: string, q: string)
    requires AllSpace(p) && Bordered(m) && AllSpace(q)
    ensures Strip(p + m + q) == m
  {
    if m == [] {
      var s := p + q;
      assert AllSpace(s);
      assert p + m + q == s + [];
      TrimStartSpacePrefix(s, []);
    } else {
      assert p + m + q == p + (m + q);
      TrimStartExact(p, m + q);
      TrimEndExact(m, q);
    }
  }

  /** `strip()` is idempotent. */
  lemma StripIdempotent(s: string)
    ensures Strip(Strip(s)) == Strip(s)
  {
    var m := Strip(s);
    assert [] + m + [] == m;
    StripExact([], m, []);
  }

  /** Leading whitespace never changes what `lstrip()` leaves. */
  lemma {:induction false} TrimStartSpacePrefix(p: string, h: string)
    requires AllSpace(p)
    ensures TrimStart(p + h) == TrimStart(h)
    decreases |p|
  {
    if p != [] {
      assert (p + h)[0] == p[0];
      assert (p + h)[1..] == p[1..] + h;
      TrimStartSpacePrefix(p[1..], h);
    } else {
      assert p + h == h;
    }
  }

  /** `lstrip()` of a concatenation: the first part's remainder followed by the second part, unless the first part is all whitespace. */
  lemma {:induction false} TrimStartAppend(h: string, q: string)
    ensures TrimStart(h + q) == if TrimStart(h) == [] then TrimStart(q) else TrimStart(h) + q
    decreases |h|
  {
    if h == [] {
      assert h + q == q;
    } else {
      assert (h + q)[0] == h[0];
      assert (h + q)[1..] == h[1..] + q;
      if IsSpace(h[0]) {
        TrimStartAppend(h[1..], q);
      }
    }
  }

  /** Trailing whitespace never changes what `rstrip()` leaves. */
  lemma {:induction false} TrimEndSpaceSuffix(t: string, q: string)
    requires AllSpace(q)
    ensures TrimEnd(t + q) == TrimEnd(t)
    decreases |q|
  {
    if q == [] {
      assert t + q == t;
    } else {
      var s := t + q;
      assert s[|s| - 1] == q[|q| - 1];
      assert s[..|s| - 1] == t + q[..|q| - 1];
      TrimEndSpaceSuffix(t, q[..|q| - 1]);
    }
  }

  /** Leading whitespace never changes the stripped text. */
  lemma StripSpacePrefix(p: string, h: string)
    requires AllSpace(p)
    ensures Strip(p + h) == Strip(h)
  {
    TrimStartSpacePrefix(p, h);
  }

  /** Trailing whitespace never changes the stripped text. */
  lemma StripSpaceSuffix(h: string, q: string)
    requires AllSpace(q)
    ensures Strip(h + q) == Strip(h)
  {
    TrimStartAppend(h, q);
    if TrimStart(h) == [] {
      TrimStartSpacePrefix(q, []);
      assert q + [] == q;
    } else {
      TrimEndSpaceSuffix(TrimStart(h), q);
    }
  }

  /** `s.replace(c, "")`: every occurrence of `c` removed, everything else kept in order. */
  function RemoveChar(s: string, c: char): (r: string)
    ensures c !in r
    decreases |s|
  {
    if s == [] then []
    else
      assert s == [s[0]] + s[1..];
      (if s[0] == c then [] else [s[0]]) + RemoveChar(s[1..], c)
  }

  /** Removing a character keeps only characters of the original text. */
  lemma {:induction false} RemoveCharFrom(s: string, c: char, x: char)
    requires x in RemoveChar(s, c)
    ensures x in s
    decreases |s|
  {
    if s[0] != x {
      assert x in RemoveChar(s[1..], c);
      RemoveCharFrom(s[1..], c, x);
    }
  }

  /** Removing a character commutes with concatenation. */
  lemma {:induction false} RemoveCharConcat(a: string, b: string, c: char)
    ensures RemoveChar(a + b, c) == RemoveChar(a, c) + RemoveChar(b, c)
    decreases |a|
  {
    if a == [] {
      assert a + b == b;
    } else {
      assert (a + b)[0] == a[0];
      assert (a + b)[1..] == a[1..] + b;
      RemoveCharConcat(a[1..], b, c);
    }
  }

  /** Removing a character the text does not hold changes nothing. */
  lemma {:induction false} RemoveCharAbsent(s: string, c: char)
    requires c !in s
    ensures RemoveChar(s, c) == s
    decreases |s|
  {
    if s != [] {
      RemoveCharAbsent(s[1..], c);
    }
  }
}
