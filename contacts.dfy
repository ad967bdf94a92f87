/**
 * The contact splitter of importador.py: a contact cell is stripped, split on
 * `;` or `,` (the regular expression `[;,]`), each piece is stripped again, and
 * the empty pieces are dropped.
 */
module Contacts {
  import opened Types
  import opened Text

  predicate IsSep(c: char) {
    c == ';' || c == ','
  }

  predicate NoSep(s: string) {
    forall i :: 0 <= i < |s| ==> !IsSep(s[i])
  }

  /** `re.split(r'[;,]', s)`: the maximal separator-free runs, empty ones included. */
  function SplitSeps(s: string): (r: seq<string>)
    ensures |r| >= 1
    ensures forall i :: 0 <= i < |r| ==> NoSep(r[i])
    decreases |s|
  {
    if s == [] then [""]
    else
      var rest := SplitSeps(s[1..]);
      if IsSep(s[0]) then [""] + rest
      else [[s[0]] + rest[0]] + rest[1..]
  }

  /** `";".join(ps)`, the partner `SplitSeps` undoes. */
  function Join(ps: seq<string>): string
    requires |ps| >= 1
    decreases |ps|
  {
    if |ps| == 1 then ps[0] else Join(ps[..|ps| - 1]) + ";" + ps[|ps| - 1]
  }

  /** The loop body's filter: the stripped pieces that are not empty, in order. */
  function Keep(parts: seq<string>): (r: seq<string>)
    ensures |r| <= |parts|
    ensures forall i :: 0 <= i < |r| ==> r[i] != [] && Bordered(r[i])
    decreases |parts|
  {
    if parts == [] then []
    else
      var k := Keep(parts[..|parts| - 1]);
      var p := Strip(parts[|parts| - 1]);
      if p == [] then k else k + [p]
  }

  /** The contacts one cell yields; a missing cell (NaN) yields none. */
  function SplitContacts(raw: Option<string>): seq<string>
  {
    match raw
    case None => []
    case Some(s) => Keep(SplitSeps(Strip(s)))
  }

  /** Splitting a text at a separator splits its pieces there. */
  lemma {:induction false} SplitSepsConcat(a: string, sep: char, b: string)
    requires IsSep(sep)
    ensures SplitSeps(a + [sep] + b) == SplitSeps(a) + SplitSeps(b)
    decreases |a|
  {
    var s := a + [sep] + b;
    if a == [] {
      assert s[1..] == b;
    } else {
      assert s[0] == a[0];
      assert s[1..] == a[1..] + [sep] + b;
      SplitSepsConcat(a[1..], sep, b);
    }
  }

  /** A text with no separator is a single piece. */
  lemma {:induction false} SplitSepsNoSep(s: string)
    requires NoSep(s)
    ensures SplitSeps(s) == [s]
    decreases |s|
  {
    if s != [] {
      SplitSepsNoSep(s[1..]);
      assert [s[0]] + s[1..] == s;
    }
  }

  /** Round trip: splitting the `;`-joined pieces gives the pieces back. */
  lemma {:induction false} SplitJoin(ps: seq<string>)
    requires |ps| >= 1
    requires forall i :: 0 <= i < |ps| ==> NoSep(ps[i])
    ensures SplitSeps(Join(ps)) == ps
    decreases |ps|
  {
    if |ps| == 1 {
      SplitSepsNoSep(ps[0]);
    } else {
      var init := ps[..|ps| - 1];
      SplitJoin(init);
      SplitSepsConcat(Join(init), ';', ps[|ps| - 1]);
      SplitSepsNoSep(ps[|ps| - 1]);
      assert init + [ps[|ps| - 1]] == ps;
    }
  }

  /** Every kept contact comes from one piece, so it holds no separator. */
  lemma {:induction false} KeepNoSep(parts: seq<string>)
    requires forall i :: 0 <= i < |parts| ==> NoSep(parts[i])
    ensures forall i :: 0 <= i < |Keep(parts)| ==> NoSep(Keep(parts)[i])
    decreases |parts|
  {
    if parts != [] {
      KeepNoSep(parts[..|parts| - 1]);
      var last := parts[|parts| - 1];
      var p := Strip(last);
      forall j | 0 <= j < |p| ensures !IsSep(p[j]) {
        StripFrom(last, p[j]);
      }
    }
  }

  /** The stripped piece `Keep` appends for `last`, if it is not empty. */
  function KeptPiece(last: string): seq<string> {
    var p := Strip(last);
    if p == [] then [] else [p]
  }

  lemma KeepSnoc(init: seq<string>, last: string)
    ensures Keep(init + [last]) == Keep(init) + KeptPiece(last)
  {
    var s := init + [last];
    assert s[..|s| - 1] == init;
  }

  lemma {:induction false} KeepConcat(x: seq<string>, y: seq<string>)
    ensures Keep(x + y) == Keep(x) + Keep(y)
    decreases |y|
  {
    if y == [] {
      assert x + y == x;
    } else {
      var y0, last := y[..|y| - 1], y[|y| - 1];
      assert y == y0 + [last];
      assert x + y == (x + y0) + [last];
      KeepSnoc(x + y0, last);
      KeepSnoc(y0, last);
      KeepConcat(x, y0);
      var a, b, k := Keep(x), Keep(y0), KeptPiece(last);
      assert (a + b) + k == a + (b + k);
    }
  }

  lemma KeepSingle(p: string)
    ensures Keep([p]) == (if Strip(p) == [] then [] else [Strip(p)])
  {
    assert [p][..0] == [];
  }

  /**
   * What each cell yields: contacts that are non-empty, hold no `;` or `,`, and
   * have no leading or trailing whitespace; a missing cell yields nothing.
   */
  lemma SplitContactsShape(raw: Option<string>)
    ensures raw.None? ==> SplitContacts(raw) == []
    ensures forall i :: 0 <= i < |SplitContacts(raw)| ==>
      var c := SplitContacts(raw)[i]; c != [] && NoSep(c) && Bordered(c)
  {
    if raw.Some? {
      KeepNoSep(SplitSeps(Strip(raw.value)));
    }
  }

  lemma {:induction false} SplitSepsSpacePrefix(p: string, m: string)
    requires AllSpace(p)
    ensures SplitSeps(p + m) == [p + SplitSeps(m)[0]] + SplitSeps(m)[1..]
    decreases |p|
  {
    if p == [] {
      assert p + m == m;
      assert p + SplitSeps(m)[0] == SplitSeps(m)[0];
    } else {
      var s := p + m;
      assert s[0] == p[0];
      assert s[1..] == p[1..] + m;
      SplitSepsSpacePrefix(p[1..], m);
      assert [p[0]] + (p[1..] + SplitSeps(m)[0]) == p + SplitSeps(m)[0];
    }
  }

  /** The pieces `r` with `q` appended to the last one. */
  function AppendToLast(r: seq<string>, q: string): seq<string>
    requires |r| >= 1
  {
    r[..|r| - 1] + [r[|r| - 1] + q]
  }

  lemma AppendToLastCons(e: string, r: seq<string>, q: string)
    requires |r| >= 1
    ensures AppendToLast([e] + r, q) == [e] + AppendToLast(r, q)
  {
    assert ([e] + r)[..|r|] == [e] + r[..|r| - 1];
  }

  lemma AppendToLastHead(c: char, r: seq<string>, q: string)
    requires |r| >= 1
    ensures var x := AppendToLast(r, q);
      [[c] + x[0]] + x[1..] == AppendToLast([[c] + r[0]] + r[1..], q)
  {
    if |r| == 1 {
      assert [c] + (r[0] + q) == ([c] + r[0]) + q;
    } else {
      var x := AppendToLast(r, q);
      assert x[0] == r[0] && x[1..] == r[1..|r| - 1] + [r[|r| - 1] + q];
      assert ([[c] + r[0]] + r[1..])[..|r| - 1] == [[c] + r[0]] + r[1..|r| - 1];
    }
  }

  lemma {:induction false} SplitSepsSpaceSuffix(m: string, q: string)
    requires AllSpace(q)
    ensures SplitSeps(m + q) == AppendToLast(SplitSeps(m), q)
    decreases |m|
  {
    if m == [] {
      assert m + q == q;
      assert NoSep(q);
      SplitSepsNoSep(q);
    } else {
      var s := m + q;
      assert s[0] == m[0];
      assert s[1..] == m[1..] + q;
      SplitSepsSpaceSuffix(m[1..], q);
      var r' := SplitSeps(m[1..]);
      if IsSep(m[0]) {
        AppendToLastCons("", r', q);
      } else {
        AppendToLastHead(m[0], r', q);
      }
    }
  }

  lemma ConsFirst<T>(r: seq<T>)
    requires |r| > 0
    ensures [r[0]] + r[1..] == r
  {
  }

  lemma SnocLast<T>(r: seq<T>)
    requires |r| > 0
    ensures r[..|r| - 1] + [r[|r| - 1]] == r
  {
  }

  lemma KeepSpaceFirst(p: string, x: string, rest: seq<string>)
    requires AllSpace(p)
    ensures Keep([p + x] + rest) == Keep([x] + rest)
  {
    KeepConcat([p + x], rest);
    KeepConcat([x], rest);
    StripSpacePrefix(p, x);
    KeepSingle(p + x);
    KeepSingle(x);
  }

  lemma KeepSpaceLast(init: seq<string>, x: string, q: string)
    requires AllSpace(q)
    ensures Keep(init + [x + q]) == Keep(init + [x])
  {
    KeepSnoc(init, x + q);
    KeepSnoc(init, x);
    StripSpaceSuffix(x, q);
  }

  /** Leading whitespace only lengthens the first piece, which is stripped anyway. */
  lemma KeepSplitSpacePrefix(p: string, x: string)
    requires AllSpace(p)
    ensures Keep(SplitSeps(p + x)) == Keep(SplitSeps(x))
  {
    var r := SplitSeps(x);
    SplitSepsSpacePrefix(p, x);
    KeepSpaceFirst(p, r[0], r[1..]);
    ConsFirst(r);
  }

  /** Trailing whitespace only lengthens the last piece, which is stripped anyway. */
  lemma KeepSplitSpaceSuffix(x: string, q: string)
    requires AllSpace(q)
    ensures Keep(SplitSeps(x + q)) == Keep(SplitSeps(x))
  {
    var r := SplitSeps(x);
    var init, last := r[..|r| - 1], r[|r| - 1];
    SplitSepsSpaceSuffix(x, q);
    KeepSpaceLast(init, last, q);
    SnocLast(r);
  }

  /** The outer `strip()` of importador.py:140 never changes which contacts a cell yields. */
  lemma OuterStripRedundant(s: string)
    ensures Keep(SplitSeps(Strip(s))) == Keep(SplitSeps(s))
  {
    var t := TrimStart(s);
    var r := TrimEnd(t);
    TrimStartCut(s);
    TrimEndCut(t);
    var p, q := s[..|s| - |t|], t[|r|..];
    assert s == p + t;
    assert t == r + q;
    KeepSplitSpacePrefix(p, t);
    KeepSplitSpaceSuffix(r, q);
  }

  /** A cell that holds two parts separated by `;` or `,` yields the contacts of each, in order. */
  lemma SplitContactsConcat(a: string, sep: char, b: string)
    requires IsSep(sep)
    ensures SplitContacts(Some(a + [sep] + b)) == SplitContacts(Some(a)) + SplitContacts(Some(b))
  {
    OuterStripRedundant(a + [sep] + b);
    OuterStripRedundant(a);
    OuterStripRedundant(b);
    SplitSepsConcat(a, sep, b);
    KeepConcat(SplitSeps(a), SplitSeps(b));
  }

  /** A cell with one bordered, separator-free, non-empty value yields exactly that value. */
  lemma SplitContactsSingle(c: string)
    requires c != [] && NoSep(c) && Bordered(c)
    ensures SplitContacts(Some(c)) == [c]
  {
    assert Strip(c) == c by {
      assert [] + c + [] == c;
      StripExact([], c, []);
    }
    SplitSepsNoSep(c);
    KeepSingle(c);
  }

  /** A non-empty run of ASCII digits is a single contact. */
  lemma DigitsSingle(c: string)
    requires c != [] && AllDigits(c)
    ensures SplitContacts(Some(c)) == [c]
  {
    assert NoSep(c) && Bordered(c);
    SplitContactsSingle(c);
  }

  /**
   * Two phone numbers in one cell, such as `11999990000;11988887777`, yield
   * exactly those two contacts, in order.
   */
  lemma TwoNumbers(a: string, b: string)
    requires a != [] && AllDigits(a)
    requires b != [] && AllDigits(b)
    ensures SplitContacts(Some(a + ";" + b)) == [a, b]
  {
    assert a + ";" + b == a + [';'] + b;
    SplitContactsConcat(a, ';', b);
    DigitsSingle(a);
    DigitsSingle(b);
  }
}
