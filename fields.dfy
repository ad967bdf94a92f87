/**
 * The per-row field rules of importador.py that are not about identity:
 * the mandatory-field check and the derivation of the contract's CEP and
 * `isento` fields.
 */
module Fields {
  import opened Types
  import opened Text
  import opened Schema

  /** The fields the row loop requires, by their column names. */
  datatype Field = Vencimento | Cep | Uf

  /** `['Vencimento', 'CEP', 'UF']`, checked in this order. */
  const Mandatory: seq<Field> := [Vencimento, Cep, Uf]

  function Cell(row: Row, f: Field): Option<string> {
    match f
    case Vencimento => row.vencimento
    case Cep => row.cep
    case Uf => row.uf
  }

  /** The field the loop `for f in fields: if pd.isna(row[f]): raise` stops at, if any. */
  function FirstMissing(row: Row, fields: seq<Field>): (r: Option<Field>)
    ensures r.None? <==> forall i :: 0 <= i < |fields| ==> Cell(row, fields[i]).Some?
    ensures r.Some? ==> exists i :: (0 <= i < |fields| && fields[i] == r.value
      && Cell(row, fields[i]).None? && forall j :: 0 <= j < i ==> Cell(row, fields[j]).Some?)
    decreases |fields|
  {
    if fields == [] then None
    else if Cell(row, fields[0]).None? then Some(fields[0])
    else
      var r := FirstMissing(row, fields[1..]);
      assert r.Some? ==> exists i :: (0 <= i < |fields| && fields[i] == r.value
        && Cell(row, fields[i]).None? && forall j :: 0 <= j < i ==> Cell(row, fields[j]).Some?)
      by {
        if r.Some? {
          var i :| 0 <= i < |fields| - 1 && fields[1..][i] == r.value
            && Cell(row, fields[1..][i]).None? && forall j :: 0 <= j < i ==> Cell(row, fields[1..][j]).Some?;
          assert fields[i + 1] == r.value;
          assert forall j :: 0 <= j < i + 1 ==> Cell(row, fields[j]).Some? by {
            forall j | 0 <= j < i + 1 ensures Cell(row, fields[j]).Some? {
              if j > 0 {
                assert fields[j] == fields[1..][j - 1];
              }
            }
          }
        }
      }
      r
  }

  /** The loop of importador.py:175-177 itself: the field it stops at, if any. */
  method CheckMandatory(row: Row, fields: seq<Field>) returns (missing: Option<Field>)
    ensures missing == FirstMissing(row, fields)
  {
    var k := 0;
    while k < |fields|
      invariant 0 <= k <= |fields|
      invariant FirstMissing(row, fields) == FirstMissing(row, fields[k..])
    {
      if Cell(row, fields[k]).None? {
        return Some(fields[k]);
      }
      assert fields[k..][1..] == fields[k + 1..];
      k := k + 1;
    }
    return None;
  }

  /** Vencimento is checked first, then CEP, then UF; the first missing one is reported. */
  lemma MandatoryOrder(row: Row)
    ensures FirstMissing(row, Mandatory) ==
      if row.vencimento.None? then Some(Vencimento)
      else if row.cep.None? then Some(Cep)
      else if row.uf.None? then Some(Uf)
      else None
  {
    var r := FirstMissing(row, Mandatory);
    if r.Some? {
      var i :| 0 <= i < 3 && Mandatory[i] == r.value && Cell(row, Mandatory[i]).None?
        && forall j :: 0 <= j < i ==> Cell(row, Mandatory[j]).Some?;
      if i == 1 {
        assert Cell(row, Mandatory[0]).Some?;
      } else if i == 2 {
        assert Cell(row, Mandatory[0]).Some? && Cell(row, Mandatory[1]).Some?;
      }
    } else {
      assert Cell(row, Mandatory[0]).Some? && Cell(row, Mandatory[1]).Some? && Cell(row, Mandatory[2]).Some?;
    }
  }

  /** `str(row['CEP']).replace("-", "").strip()`. */
  function CleanCep(cep: string): (r: string)
    ensures '-' !in r && Bordered(r)
  {
    var d := RemoveChar(cep, '-');
    assert '-' !in Strip(d) by {
      if '-' in Strip(d) {
        StripFrom(d, '-');
      }
    }
    Strip(d)
  }

  lemma RemoveDash(a: string, b: string)
    requires '-' !in a && '-' !in b
    ensures RemoveChar(a + "-" + b, '-') == a + b
  {
    calc {
      RemoveChar(a + "-" + b, '-');
      { RemoveCharConcat(a + "-", b, '-'); }
      RemoveChar(a + "-", '-') + RemoveChar(b, '-');
      { RemoveCharConcat(a, "-", '-'); }
      RemoveChar(a, '-') + RemoveChar("-", '-') + RemoveChar(b, '-');
      { assert RemoveChar("-", '-') == []; }
      RemoveChar(a, '-') + RemoveChar(b, '-');
      { RemoveCharAbsent(a, '-'); RemoveCharAbsent(b, '-'); }
      a + b;
    }
  }

  /** A CEP written `ddddd-ddd` is stored as its eight digits. */
  lemma CepRoundTrip(a: string, b: string)
    requires AllDigits(a) && AllDigits(b)
    requires a + b != []
    ensures CleanCep(a + "-" + b) == a + b
  {
    RemoveDash(a, b);
    var d := a + b;
    assert AllDigits(d) by {
      forall i | 0 <= i < |d| ensures IsAsciiDigit(d[i]) {
        if i < |a| { assert d[i] == a[i]; } else { assert d[i] == b[i - |a|]; }
      }
    }
    assert [] + d + [] == d;
    StripExact([], d, []);
  }

  /** `not pd.isna(row['Isento'])`: presence of the cell, whatever it holds. */
  function IsentoFlag(cell: Option<string>): bool {
    cell.Some?
  }
}
