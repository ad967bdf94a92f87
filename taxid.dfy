/**
 * The CPF/CNPJ normaliser of importador.py: separators `.`, `-`, `/` are removed,
 * the text is stripped, and it is accepted only as 11 (CPF) or 14 (CNPJ) digits.
 * There is no check-digit verification.
 */
module TaxId {
  import opened Types
  import opened Text

  predicate IsSeparator(c: char) {
    c == '.' || c == '-' || c == '/'
  }

  /** The two lengths the importer accepts: a CPF has 11 digits, a CNPJ 14. */
  predicate ValidLength(n: nat) {
    n == 11 || n == 14
  }

  /** The three `.replace(sep, "")` calls, in the source's order. */
  function RemoveSeparators(s: string): (r: string)
    ensures forall c :: c in r ==> !IsSeparator(c)
  {
    var s1 := RemoveChar(s, '.');
    var s2 := RemoveChar(s1, '-');
    var r := RemoveChar(s2, '/');
    assert forall c :: c in r ==> !IsSeparator(c) by {
      forall c | c in r ensures !IsSeparator(c) {
        RemoveCharFrom(s2, '/', c);
        RemoveCharFrom(s1, '-', c);
      }
    }
    r
  }

  /** The cleaned identifier: separators removed, then stripped. */
  function Clean(raw: string): string
  {
    Strip(RemoveSeparators(raw))
  }

  /** The cleaned identifier holds no separator and is stripped. */
  lemma CleanShape(raw: string)
    ensures forall c :: c in Clean(raw) ==> !IsSeparator(c)
    ensures Bordered(Clean(raw))
  {
    forall c | c in Clean(raw) ensures !IsSeparator(c) {
      StripFrom(RemoveSeparators(raw), c);
    }
  }

  /**
   * The normaliser with the digit test corrected to ASCII digits (see the
   * as-written variant below): Ok(identifier) or Err(the cleaned text the
   * error message quotes).
   */
  function NormalizeTaxId(raw: string): (r: Result<string, string>)
    ensures r.Ok? <==> (AllDigits(Clean(raw)) && ValidLength(|Clean(raw)|))
    ensures r.Ok? ==> r.value == Clean(raw) && AllDigits(r.value) && ValidLength(|r.value|)
    ensures r.Err? ==> r.error == Clean(raw)
  {
    var c := Clean(raw);
    if |c| > 0 && AllDigits(c) && ValidLength(|c|) then Ok(c) else Err(c)
  }

  lemma RemoveSeparatorsConcat(a: string, b: string)
    ensures RemoveSeparators(a + b) == RemoveSeparators(a) + RemoveSeparators(b)
  {
    RemoveCharConcat(a, b, '.');
    RemoveCharConcat(RemoveChar(a, '.'), RemoveChar(b, '.'), '-');
    RemoveCharConcat(RemoveChar(RemoveChar(a, '.'), '-'), RemoveChar(RemoveChar(b, '.'), '-'), '/');
  }

  lemma RemoveSeparatorsDigits(d: string)
    requires AllDigits(d)
    ensures RemoveSeparators(d) == d
  {
    RemoveCharAbsent(d, '.');
    RemoveCharAbsent(d, '-');
    RemoveCharAbsent(d, '/');
  }

  lemma RemoveSeparatorsSingle(sep: char)
    requires IsSeparator(sep)
    ensures RemoveSeparators([sep]) == []
  {
    var s: string := [sep];
    assert s[1..] == [];
    if sep == '.' {
      assert RemoveChar(s, '.') == [];
    } else if sep == '-' {
      assert RemoveChar(s, '.') == s;
      assert RemoveChar(s, '-') == [];
    } else {
      assert RemoveChar(s, '.') == s;
      assert RemoveChar(s, '-') == s;
      assert RemoveChar(s, '/') == [];
    }
  }

  lemma RemoveSeparatorsDrop(a: string, sep: char, b: string)
    requires IsSeparator(sep)
    ensures RemoveSeparators(a + [sep] + b) == RemoveSeparators(a + b)
  {
    RemoveSeparatorsConcat(a + [sep], b);
    RemoveSeparatorsConcat(a, [sep]);
    RemoveSeparatorsConcat(a, b);
    RemoveSeparatorsSingle(sep);
    assert RemoveSeparators(a) + [] == RemoveSeparators(a);
  }

  /** A separator anywhere in the raw text never changes the cleaned identifier. */
  lemma CleanDrop(a: string, sep: char, b: string)
    requires IsSeparator(sep)
    ensures Clean(a + [sep] + b) == Clean(a + b)
  {
    RemoveSeparatorsDrop(a, sep, b);
  }

  /** Hence a separator anywhere in the raw text never changes the outcome. */
  lemma SeparatorInsensitive(a: string, sep: char, b: string)
    requires IsSeparator(sep)
    ensures NormalizeTaxId(a + [sep] + b) == NormalizeTaxId(a + b)
  {
    CleanDrop(a, sep, b);
  }

  /** An accepted identifier is a fixed point: normalising it again accepts it unchanged. */
  lemma NormalizeIdempotent(raw: string)
    requires NormalizeTaxId(raw).Ok?
    ensures NormalizeTaxId(NormalizeTaxId(raw).value) == NormalizeTaxId(raw)
  {
    var d := NormalizeTaxId(raw).value;
    RemoveSeparatorsDigits(d);
    StripIdempotent(RemoveSeparators(raw));
  }

  /** Digits written with the CPF mask `ddd.ddd.ddd-dd`. */
  function CpfMask(d: string): string
    requires |d| == 11
  {
    d[..3] + "." + d[3..6] + "." + d[6..9] + "-" + d[9..]
  }

  /** Digits written with the CNPJ mask `dd.ddd.ddd/dddd-dd`. */
  function CnpjMask(d: string): string
    requires |d| == 14
  {
    d[..2] + "." + d[2..5] + "." + d[5..8] + "/" + d[8..12] + "-" + d[12..]
  }

  /** Text without separators or surrounding whitespace is its own cleaned form. */
  lemma CleanFixed(w: string)
    requires forall c :: c in w ==> !IsSeparator(c)
    requires Bordered(w)
    ensures Clean(w) == w
  {
    assert RemoveSeparators(w) == w by {
      RemoveCharAbsent(w, '.');
      RemoveCharAbsent(w, '-');
      RemoveCharAbsent(w, '/');
    }
    assert [] + w + [] == w;
    StripExact([], w, []);
  }

  /** A bare digit string is accepted as itself exactly when its length is 11 or 14. */
  lemma DigitsAccepted(d: string)
    requires AllDigits(d)
    ensures NormalizeTaxId(d) == (if ValidLength(|d|) then Ok(d) else Err(d))
  {
    assert forall c :: c in d ==> !IsSeparator(c);
    CleanFixed(d);
  }

  lemma Rejoin4(d: string, i: nat, j: nat, k: nat)
    requires i <= j <= k <= |d|
    ensures d[..i] + (d[i..j] + (d[j..k] + d[k..])) == d
  {
    assert d[j..k] + d[k..] == d[j..];
    assert d[i..j] + d[j..] == d[i..];
    assert d[..i] + d[i..] == d;
  }

  lemma Rejoin5(d: string, i: nat, j: nat, k: nat, l: nat)
    requires i <= j <= k <= l <= |d|
    ensures d[..i] + (d[i..j] + (d[j..k] + (d[k..l] + d[l..]))) == d
  {
    assert d[k..l] + d[l..] == d[k..];
    Rejoin4(d, i, j, k);
  }

  lemma CpfShapeClean(a: string, b: string, c: string, e: string)
    ensures Clean(a + "." + b + "." + c + "-" + e) == Clean(a + (b + (c + e)))
  {
    var x1 := a + "." + b + "." + c;
    var x2 := a + "." + b;
    calc {
      Clean(a + "." + b + "." + c + "-" + e);
      { assert a + "." + b + "." + c + "-" + e == x1 + ['-'] + e; CleanDrop(x1, '-', e); }
      Clean(x1 + e);
      { assert x1 + e == x2 + ['.'] + (c + e); CleanDrop(x2, '.', c + e); }
      Clean(x2 + (c + e));
      { assert x2 + (c + e) == a + ['.'] + (b + (c + e)); CleanDrop(a, '.', b + (c + e)); }
      Clean(a + (b + (c + e)));
    }
  }

  lemma CpfMaskClean(d: string)
    requires |d| == 11
    ensures Clean(CpfMask(d)) == Clean(d)
  {
    CpfShapeClean(d[..3], d[3..6], d[6..9], d[9..]);
    Rejoin4(d, 3, 6, 9);
  }

  /** Masking a CPF and normalising it gives back its 11 digits. */
  lemma CpfRoundTrip(d: string)
    requires |d| == 11 && AllDigits(d)
    ensures NormalizeTaxId(CpfMask(d)) == Ok(d)
  {
    CpfMaskClean(d);
    DigitsAccepted(d);
  }

  lemma CnpjShapeClean(a: string, b: string, c: string, e: string, f: string)
    ensures Clean(a + "." + b + "." + c + "/" + e + "-" + f) == Clean(a + (b + (c + (e + f))))
  {
    var x1 := a + "." + b + "." + c + "/" + e;
    var x2 := a + "." + b + "." + c;
    var x3 := a + "." + b;
    calc {
      Clean(a + "." + b + "." + c + "/" + e + "-" + f);
      { assert a + "." + b + "." + c + "/" + e + "-" + f == x1 + ['-'] + f; CleanDrop(x1, '-', f); }
      Clean(x1 + f);
      { assert x1 + f == x2 + ['/'] + (e + f); CleanDrop(x2, '/', e + f); }
      Clean(x2 + (e + f));
      { assert x2 + (e + f) == x3 + ['.'] + (c + (e + f)); CleanDrop(x3, '.', c + (e + f)); }
      Clean(x3 + (c + (e + f)));
      { assert x3 + (c + (e + f)) == a + ['.'] + (b + (c + (e + f))); CleanDrop(a, '.', b + (c + (e + f))); }
      Clean(a + (b + (c + (e + f))));
    }
  }

  lemma CnpjMaskClean(d: string)
    requires |d| == 14
    ensures Clean(CnpjMask(d)) == Clean(d)
  {
    CnpjShapeClean(d[..2], d[2..5], d[5..8], d[8..12], d[12..]);
    Rejoin5(d, 2, 5, 8, 12);
  }

  /** Masking a CNPJ and normalising it gives back its 14 digits. */
  lemma CnpjRoundTrip(d: string)
    requires |d| == 14 && AllDigits(d)
    ensures NormalizeTaxId(CnpjMask(d)) == Ok(d)
  {
    CnpjMaskClean(d);
    DigitsAccepted(d);
  }

  // ---- As written: Python's str.isdigit() ----

  /**
   * Python's `str.isdigit()` for one character, as far as this model lists it:
   * the ASCII digits, the superscripts one to three, and the Arabic-Indic,
   * Extended Arabic-Indic, Devanagari and full-width digit blocks. Python accepts
   * every character that has a digit value, so this is a subset of what it accepts.
   */
  predicate IsPyDigit(c: char) {
    IsAsciiDigit(c) || c == '\U{B2}' || c == '\U{B3}' || c == '\U{B9}'
    || ('\U{660}' <= c <= '\U{669}') || ('\U{6F0}' <= c <= '\U{6F9}')
    || ('\U{966}' <= c <= '\U{96F}') || ('\U{FF10}' <= c <= '\U{FF19}')
  }

  /** `s.isdigit()` for a non-empty `s`: every character is a digit. */
  predicate AllPyDigits(s: string) {
    forall i :: 0 <= i < |s| ==> IsPyDigit(s[i])
  }

  /** The normaliser exactly as importador.py:89-97 writes it, with `isdigit()`. */
  function NormalizeTaxIdAsWritten(raw: string): (r: Result<string, string>)
    ensures r.Ok? <==> (AllPyDigits(Clean(raw)) && ValidLength(|Clean(raw)|))
    ensures r.Ok? ==> r.value == Clean(raw)
    ensures r.Err? ==> r.error == Clean(raw)
    ensures NormalizeTaxId(raw).Ok? ==> r == NormalizeTaxId(raw)
  {
    var c := Clean(raw);
    if |c| > 0 && AllPyDigits(c) && ValidLength(|c|) then Ok(c) else Err(c)
  }

  /** The CPF 123.456.789-01 typed in full-width digits (U+FF10 is full-width zero). */
  const FullWidthCpf: string := seq(11, i requires 0 <= i < 11 => (0xFF10 + (i + 1) % 10) as char)

  /**
   * The as-written check lets a non-ASCII spelling of a CPF through, so the same
   * CPF can be stored under two identifiers (its ASCII spelling is accepted too,
   * by `DigitsAccepted`); the corrected check refuses it.
   */
  lemma FullWidthDigitsAccepted()
    ensures NormalizeTaxIdAsWritten(FullWidthCpf) == Ok(FullWidthCpf)
    ensures NormalizeTaxId(FullWidthCpf) == Err(FullWidthCpf)
  {
    var w := FullWidthCpf;
    FullWidthShape();
    FullWidthClean(w);
    assert !IsAsciiDigit(w[0]);
  }

  lemma FullWidthShape()
    ensures |FullWidthCpf| == 11
    ensures forall i :: 0 <= i < |FullWidthCpf| ==> '\U{FF10}' <= FullWidthCpf[i] <= '\U{FF19}'
  {
  }

  /** Text made of full-width digits is left alone by the cleaning step. */
  lemma FullWidthClean(w: string)
    requires forall i :: 0 <= i < |w| ==> '\U{FF10}' <= w[i] <= '\U{FF19}'
    ensures Clean(w) == w
    ensures AllPyDigits(w)
  {
    assert forall c :: c in w ==> !IsSeparator(c);
    assert Bordered(w);
    CleanFixed(w);
  }
}
