/**
 * `UF_MAP` of importador.py: the 27 federative units of Brazil, by full name,
 * and their two-letter codes (the subdivision codes of ISO 3166-2:BR without
 * the `BR-` prefix).
 */
module States {
  import opened Types
  import opened Text

  const UfMap: map<string, string> := map[
    "Acre" := "AC", "Alagoas" := "AL", "Amapá" := "AP", "Amazonas" := "AM",
    "Bahia" := "BA", "Ceará" := "CE", "Distrito Federal" := "DF",
    "Espírito Santo" := "ES", "Goiás" := "GO", "Maranhão" := "MA",
    "Mato Grosso" := "MT", "Mato Grosso do Sul" := "MS", "Minas Gerais" := "MG",
    "Pará" := "PA", "Paraíba" := "PB", "Paraná" := "PR", "Pernambuco" := "PE",
    "Piauí" := "PI", "Rio de Janeiro" := "RJ", "Rio Grande do Norte" := "RN",
    "Rio Grande do Sul" := "RS", "Rondônia" := "RO", "Roraima" := "RR",
    "Santa Catarina" := "SC", "São Paulo" := "SP", "Sergipe" := "SE",
    "Tocantins" := "TO"
  ]

  predicate IsUpper(c: char) {
    'A' <= c <= 'Z'
  }

  /** A two-letter upper-case code. */
  predicate IsCode(s: string) {
    |s| == 2 && IsUpper(s[0]) && IsUpper(s[1])
  }

  /**
   * `uf_raw = str(row['UF']).strip(); uf = UF_MAP.get(uf_raw); if not uf: raise`:
   * Ok(code), or Err(the stripped name the error message quotes).
   */
  function ResolveUf(raw: string): (r: Result<string, string>)
    ensures r.Ok? ==> Strip(raw) in UfMap && r.value == UfMap[Strip(raw)] && IsCode(r.value)
    ensures r.Err? ==> r.error == Strip(raw) && Strip(raw) !in UfMap
  {
    var name := Strip(raw);
    CodesWellFormed();
    if name in UfMap && UfMap[name] != "" then Ok(UfMap[name]) else Err(name)
  }

  /** Every value of the table is a two-letter code, so `not uf` fails only for unknown names. */
  lemma CodesWellFormed()
    ensures forall name :: name in UfMap ==> IsCode(UfMap[name])
  {
  }

  /** Every name of the table starts with an upper-case letter and ends with a lower-case one, `á` to `í` included. */
  lemma NamesLettered()
    ensures forall name :: name in UfMap ==>
      && |name| >= 4 && 'A' <= name[0] <= 'Z'
      && ('a' <= name[|name| - 1] <= 'z' || 'á' <= name[|name| - 1] <= 'í')
  {
  }

  /** A name framed by letters neither starts nor ends with whitespace. */
  lemma LetteredBordered(name: string)
    requires |name| >= 1 && 'A' <= name[0] <= 'Z'
    requires 'a' <= name[|name| - 1] <= 'z' || 'á' <= name[|name| - 1] <= 'í'
    ensures Bordered(name)
  {
  }

  /** A known name is resolved whatever whitespace surrounds it. */
  lemma ResolveKnown(p: string, name: string, q: string)
    requires AllSpace(p) && AllSpace(q) && name in UfMap
    ensures ResolveUf(p + name + q) == Ok(UfMap[name])
  {
    NamesLettered();
    LetteredBordered(name);
    StripExact(p, name, q);
    CodesWellFormed();
  }
}
