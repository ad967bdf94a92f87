/**
 * The reconciliation engine of importador.py's row loop, as functions of the
 * state: one row's attempt, its commit or rollback, and the whole loop.
 *
 * Two kinds of state are kept apart. The database (`Tables`) is transactional:
 * a failed row is rolled back to the snapshot taken when the row began. The run
 * context (`Ctx`: the three caches, the two counters and the error list) and the
 * id sequence are not: whatever a row did to them before failing stays.
 *
 * The database's own failures that leave the connection usable are not
 * predictable from the source, so they are a parameter: `fails(txn, k)` says whether the k-th statement (counting the
 * commit) of the txn-th row's transaction raises `psycopg2.DatabaseError`.
 */
module Engine {
  import opened Types
  import opened Text
  import opened TaxId
  import opened Contacts
  import opened States
  import opened Schema
  import opened Fields
  import opened Mapping

  /** Why a row failed: the data each of the source's error messages carries. */
  datatype Failure =
    | InvalidTaxId(cleaned: string)       // ValueError "CPF/CNPJ inválido"
    | MissingContactType(rotulo: string)   // KeyError on tipos_contato_map
    | MissingField(field: Field)          // ValueError "Campo obrigatório ... ausente"
    | UnknownUf(linha: int, name: string) // ValueError "UF desconhecida na linha ..."
    | DatabaseFailure                     // psycopg2.DatabaseError from a statement or the commit

  /** One entry of `erros`: the spreadsheet line and the reason. */
  datatype RowError = RowError(linha: int, failure: Failure)

  /** The run context: caches, counters and errors, never rolled back. */
  datatype Ctx = Ctx(
    clienteIds: map<string, int>,  // cpf_cnpj_to_id
    planos: map<string, int>,      // planos_map
    statuses: map<string, int>,    // status_map
    importedClientes: nat,
    importedContratos: nat,
    erros: seq<RowError>)

  /** The state between rows: committed tables, the id sequence, the run context. */
  datatype State = State(db: Tables, nextId: int, ctx: Ctx)

  /** The state inside a row's transaction: working tables, statements issued so far, and the failure raised, if any. */
  datatype Work = Work(t: Tables, nextId: int, ops: nat, ctx: Ctx, failure: Option<Failure>)

  /** `cursor.execute(st)` inside transaction `txn`, and the id `RETURNING id` yields. */
  function Exec(w: Work, st: Stmt, fails: Faults, txn: nat): (Work, int) {
    if fails(txn, w.ops) then (w.(ops := w.ops + 1, failure := Some(DatabaseFailure)), w.nextId)
    else
      (w.(t := Apply(w.t, st, w.nextId),
          nextId := if Returning(st) then w.nextId + 1 else w.nextId,
          ops := w.ops + 1),
       w.nextId)
  }

  /** importador.py:89-129: normalise the identifier, then reuse or insert the customer. */
  function ClientStep(w: Work, row: Row, fails: Faults, txn: nat): (Work, int)
    requires w.failure.None?
  {
    match NormalizeTaxId(row.cpfCnpj)
    case Err(cleaned) => (w.(failure := Some(InvalidTaxId(cleaned))), 0)
    case Ok(cpf) =>
      if cpf in w.ctx.clienteIds then (w, w.ctx.clienteIds[cpf])
      else
        var (w1, id) := Exec(w, InsertCliente(row.nome, row.fantasia, cpf, row.nasc, row.cadastro), fails, txn);
        if w1.failure.Some? then (w1, 0)
        else
          (w1.(ctx := w1.ctx.(clienteIds := w1.ctx.clienteIds[cpf := id],
                              importedClientes := w1.ctx.importedClientes + 1)), id)
  }

  /** The body of the inner loop of importador.py:141-153 for one piece of a contact cell. */
  function PartStep(w: Work, cid: int, rotulo: string, tipos: map<string, int>, part: string,
                    fails: Faults, txn: nat): Work
  {
    if w.failure.Some? then w
    else
      var contato := Strip(part);
      if contato == [] then w
      else if rotulo !in tipos then w.(failure := Some(MissingContactType(rotulo)))
      else Exec(w, InsertContato(Contato(cid, tipos[rotulo], contato)), fails, txn).0
  }

  /** The inner loop over the pieces of one cell; it stops at the first failure. */
  function PartsStep(w: Work, cid: int, rotulo: string, tipos: map<string, int>, parts: seq<string>,
                     fails: Faults, txn: nat): Work
    decreases |parts|
  {
    if parts == [] then w
    else PartStep(PartsStep(w, cid, rotulo, tipos, parts[..|parts| - 1], fails, txn),
                  cid, rotulo, tipos, parts[|parts| - 1], fails, txn)
  }

  /** The first `i + 1` pieces are the first `i`, then piece `i`. */
  lemma PartsPrefix(w: Work, cid: int, rotulo: string, tipos: map<string, int>,
                    parts: seq<string>, i: nat, fails: Faults, txn: nat)
    requires i < |parts|
    ensures PartsStep(w, cid, rotulo, tipos, parts[..i + 1], fails, txn)
            == PartStep(PartsStep(w, cid, rotulo, tipos, parts[..i], fails, txn), cid, rotulo, tipos, parts[i], fails, txn)
  {
    assert parts[..i + 1][..i] == parts[..i];
  }

  /** Once a piece has failed, the remaining pieces change nothing. */
  lemma {:induction false} PartsStuck(w: Work, cid: int, rotulo: string, tipos: map<string, int>,
                                      parts: seq<string>, i: nat, fails: Faults, txn: nat)
    requires i <= |parts| && PartsStep(w, cid, rotulo, tipos, parts[..i], fails, txn).failure.Some?
    ensures PartsStep(w, cid, rotulo, tipos, parts, fails, txn) == PartsStep(w, cid, rotulo, tipos, parts[..i], fails, txn)
    decreases |parts|
  {
    if i < |parts| {
      var init := parts[..|parts| - 1];
      assert init[..i] == parts[..i];
      PartsStuck(w, cid, rotulo, tipos, init, i, fails, txn);
    } else {
      assert parts[..i] == parts;
    }
  }

  /** One contact column: a missing cell is skipped, otherwise its pieces are inserted. */
  function ColumnStep(w: Work, cid: int, row: Row, col: ContactColumn, rotulo: string,
                      tipos: map<string, int>, fails: Faults, txn: nat): Work
  {
    if w.failure.Some? then w
    else
      match ContactCell(row, col)
      case None => w
      case Some(raw) => PartsStep(w, cid, rotulo, tipos, SplitSeps(Strip(raw)), fails, txn)
  }

  /** The outer loop of importador.py:132 over the contact columns. */
  function ColumnsStep(w: Work, cid: int, row: Row, cols: seq<(ContactColumn, string)>,
                       tipos: map<string, int>, fails: Faults, txn: nat): Work
    decreases |cols|
  {
    if cols == [] then w
    else
      var prev := ColumnsStep(w, cid, row, cols[..|cols| - 1], tipos, fails, txn);
      ColumnStep(prev, cid, row, cols[|cols| - 1].0, cols[|cols| - 1].1, tipos, fails, txn)
  }

  /** Once a column has failed, the remaining columns change nothing. */
  lemma {:induction false} ColumnsStuck(w: Work, cid: int, row: Row, cols: seq<(ContactColumn, string)>, i: nat,
                                        tipos: map<string, int>, fails: Faults, txn: nat)
    requires i <= |cols| && ColumnsStep(w, cid, row, cols[..i], tipos, fails, txn).failure.Some?
    ensures ColumnsStep(w, cid, row, cols, tipos, fails, txn) == ColumnsStep(w, cid, row, cols[..i], tipos, fails, txn)
    decreases |cols|
  {
    if i < |cols| {
      var init := cols[..|cols| - 1];
      assert init[..i] == cols[..i];
      ColumnsStuck(w, cid, row, init, i, tipos, fails, txn);
    } else {
      assert cols[..i] == cols;
    }
  }

  /**
   * importador.py:160-165: lookup-or-create of the plan. A plan already cached
   * causes no insert; otherwise one plan row is appended with the next id, its
   * description and value, and that id is cached. A failed insert changes
   * nothing but the failure and the statement count.
   */
  function PlanoStep(w: Work, row: Row, fails: Faults, txn: nat): (r: Work)
    requires w.failure.None?
    ensures r.failure.None? ==> row.plano in r.ctx.planos
    ensures r.failure.Some? ==> r.failure == Some(DatabaseFailure) && row.plano !in w.ctx.planos
    ensures r.failure.Some? ==> r.t == w.t && r.nextId == w.nextId && r.ctx == w.ctx
    ensures row.plano in w.ctx.planos ==> r == w
    ensures row.plano !in w.ctx.planos && r.failure.None? ==>
      && r.t == w.t.(planos := w.t.planos + [Plano(w.nextId, row.plano, row.planoValor)])
      && r.ctx.planos == w.ctx.planos[row.plano := w.nextId] && r.nextId == w.nextId + 1
    ensures forall k :: k in w.ctx.planos ==> k in r.ctx.planos && r.ctx.planos[k] == w.ctx.planos[k]
    ensures r.ctx.statuses == w.ctx.statuses && r.ctx.clienteIds == w.ctx.clienteIds
    ensures r.ctx.importedClientes == w.ctx.importedClientes && r.ctx.importedContratos == w.ctx.importedContratos
    ensures r.ctx.erros == w.ctx.erros
  {
    if row.plano in w.ctx.planos then w
    else
      var (w1, id) := Exec(w, InsertPlano(row.plano, row.planoValor), fails, txn);
      if w1.failure.Some? then w1
      else w1.(ctx := w1.ctx.(planos := w1.ctx.planos[row.plano := id]))
  }

  /** importador.py:167-172: lookup-or-create of the contract status, with the same guarantees. */
  function StatusStep(w: Work, row: Row, fails: Faults, txn: nat): (r: Work)
    requires w.failure.None?
    ensures r.failure.None? ==> row.status in r.ctx.statuses
    ensures r.failure.Some? ==> r.failure == Some(DatabaseFailure) && row.status !in w.ctx.statuses
    ensures r.failure.Some? ==> r.t == w.t && r.nextId == w.nextId && r.ctx == w.ctx
    ensures row.status in w.ctx.statuses ==> r == w
    ensures row.status !in w.ctx.statuses && r.failure.None? ==>
      && r.t == w.t.(status := w.t.status + [StatusContrato(w.nextId, row.status)])
      && r.ctx.statuses == w.ctx.statuses[row.status := w.nextId] && r.nextId == w.nextId + 1
    ensures forall k :: k in w.ctx.statuses ==> k in r.ctx.statuses && r.ctx.statuses[k] == w.ctx.statuses[k]
    ensures r.ctx.planos == w.ctx.planos && r.ctx.clienteIds == w.ctx.clienteIds
    ensures r.ctx.importedClientes == w.ctx.importedClientes && r.ctx.importedContratos == w.ctx.importedContratos
    ensures r.ctx.erros == w.ctx.erros
  {
    if row.status in w.ctx.statuses then w
    else
      var (w1, id) := Exec(w, InsertStatus(row.status), fails, txn);
      if w1.failure.Some? then w1
      else w1.(ctx := w1.ctx.(statuses := w1.ctx.statuses[row.status := id]))
  }

  /** The contract the row yields once its fields are validated (importador.py:186-211). */
  function ContractOf(cid: int, row: Row, planoId: int, statusId: int, venc: string, cep: string, uf: string): Contrato {
    Contrato(cid, planoId, venc, IsentoFlag(row.isento), row.endereco, row.numero, row.bairro,
             row.cidade, row.complemento, CleanCep(cep), uf, statusId)
  }

  /** `conn.commit()`, which the database may refuse too. */
  function CommitStep(w: Work, fails: Faults, txn: nat): Work {
    if fails(txn, w.ops) then w.(ops := w.ops + 1, failure := Some(DatabaseFailure))
    else w.(ops := w.ops + 1)
  }

  /**
   * importador.py:174-183: the mandatory fields in order, then the state's
   * code. The row fails with the first missing field, or with the stripped
   * name when it is not a state.
   */
  function CheckRow(row: Row, linha: int): (r: Result<string, Failure>)
    ensures r.Ok? <==> FirstMissing(row, Mandatory).None? && ResolveUf(row.uf.value).Ok?
    ensures r.Ok? ==> row.vencimento.Some? && row.cep.Some? && row.uf.Some? && r.value == ResolveUf(row.uf.value).value
    ensures r.Err? ==> || (FirstMissing(row, Mandatory).Some? && r.error == MissingField(FirstMissing(row, Mandatory).value))
                       || (FirstMissing(row, Mandatory).None? && row.uf.Some? && r.error == UnknownUf(linha, Strip(row.uf.value)))
  {
    match FirstMissing(row, Mandatory)
    case Some(f) => Err(MissingField(f))
    case None =>
      assert Cell(row, Mandatory[0]).Some? && Cell(row, Mandatory[1]).Some? && Cell(row, Mandatory[2]).Some?;
      match ResolveUf(row.uf.value)
      case Err(name) => Err(UnknownUf(linha, name))
      case Ok(uf) => Ok(uf)
  }

  /** importador.py:189-213: the contract insert, then the contract counter, raised before the commit. */
  function InsertStep(w: Work, c: Contrato, fails: Faults, txn: nat): Work {
    var w1 := Exec(w, InsertContrato(c), fails, txn).0;
    if w1.failure.Some? then w1
    else w1.(ctx := w1.ctx.(importedContratos := w1.ctx.importedContratos + 1))
  }

  /** importador.py:174-213 for a row whose plan and status are cached. */
  function ContractStep(w: Work, cid: int, row: Row, linha: int, fails: Faults, txn: nat): Work
    requires w.failure.None? && row.plano in w.ctx.planos && row.status in w.ctx.statuses
  {
    match CheckRow(row, linha)
    case Err(f) => w.(failure := Some(f))
    case Ok(uf) =>
      InsertStep(w, ContractOf(cid, row, w.ctx.planos[row.plano], w.ctx.statuses[row.status],
                               row.vencimento.value, row.cep.value, uf), fails, txn)
  }

  /** `SELECT id, descricao FROM tbl_planos`. */
  function PlanoRows(t: Tables): seq<(int, string)> {
    seq(|t.planos|, i requires 0 <= i < |t.planos| => (t.planos[i].id, t.planos[i].descricao))
  }

  /** `SELECT id, status FROM tbl_status_contrato`. */
  function StatusRows(t: Tables): seq<(int, string)> {
    seq(|t.status|, i requires 0 <= i < |t.status| => (t.status[i].id, t.status[i].status))
  }

  /** `SELECT cpf_cnpj, id FROM tbl_clientes`. */
  function ClienteRows(t: Tables): seq<(string, int)> {
    seq(|t.clientes|, i requires 0 <= i < |t.clientes| => (t.clientes[i].cpfCnpj, t.clientes[i].id))
  }

  /** The state before the first row (importador.py:54-71): caches preloaded from the tables, counters at zero, no errors. */
  function Initial(db: Tables, nextId: int): State {
    State(db, nextId, Ctx(FromPairs(ClienteRows(db)), LoadMapping(PlanoRows(db)), LoadMapping(StatusRows(db)), 0, 0, []))
  }

  /** The transaction opened for a row: nothing issued yet, nothing failed. */
  function Begin(s: State): Work {
    Work(s.db, s.nextId, 0, s.ctx, None)
  }

  /** The statements of the `try` block of the row loop for the row at index `idx` (line `idx + 2`), up to the commit. */
  function Attempt(w0: Work, row: Row, idx: nat, tipos: map<string, int>, fails: Faults): Work
    requires w0.failure.None?
  {
    var (w1, cid) := ClientStep(w0, row, fails, idx);
    if w1.failure.Some? then w1 else Rest(w1, cid, row, idx, tipos, fails)
  }

  /** What the `try` block does once the customer's id `cid` is known (importador.py:131-213). */
  function Rest(w1: Work, cid: int, row: Row, idx: nat, tipos: map<string, int>, fails: Faults): Work
    requires w1.failure.None?
  {
    var w2 := ColumnsStep(w1, cid, row, ContactColumns, tipos, fails, idx);
    if w2.failure.Some? then w2
    else
      var w3 := PlanoStep(w2, row, fails, idx);
      if w3.failure.Some? then w3
      else
        var w4 := StatusStep(w3, row, fails, idx);
        if w4.failure.Some? then w4
        else ContractStep(w4, cid, row, idx + 2, fails, idx)
  }

  /** The whole `try` block: the statements, then `conn.commit()` if none failed. */
  function Outcome(s: State, row: Row, idx: nat, tipos: map<string, int>, fails: Faults): Work {
    var w := Attempt(Begin(s), row, idx, tipos, fails);
    if w.failure.Some? then w else CommitStep(w, fails, idx)
  }

  /**
   * One iteration of the row loop: on success the transaction's tables are
   * committed; on failure they are rolled back to the row's snapshot and one
   * error is appended, while the run context keeps what the attempt did.
   */
  function RowStep(s: State, row: Row, idx: nat, tipos: map<string, int>, fails: Faults): State {
    var w := Outcome(s, row, idx, tipos, fails);
    match w.failure
    case None => State(w.t, w.nextId, w.ctx)
    case Some(f) => State(s.db, w.nextId, w.ctx.(erros := w.ctx.erros + [RowError(idx + 2, f)]))
  }

  /** Whether the row at `idx` commits. */
  predicate Commits(s: State, row: Row, idx: nat, tipos: map<string, int>, fails: Faults) {
    Outcome(s, row, idx, tipos, fails).failure.None?
  }

  /** The whole loop `for idx, row in df.iterrows()` over the rows, in order. */
  function RunRows(s: State, rows: seq<Row>, tipos: map<string, int>, fails: Faults): State
    decreases |rows|
  {
    if rows == [] then s
    else RowStep(RunRows(s, rows[..|rows| - 1], tipos, fails), rows[|rows| - 1], |rows| - 1, tipos, fails)
  }

  /** Running the first `k + 1` rows is running the first `k`, then row `k`. */
  lemma RunRowsPrefix(s: State, rows: seq<Row>, k: nat, tipos: map<string, int>, fails: Faults)
    requires k < |rows|
    ensures RunRows(s, rows[..k + 1], tipos, fails) == RowStep(RunRows(s, rows[..k], tipos, fails), rows[k], k, tipos, fails)
  {
    assert rows[..k + 1][..k] == rows[..k];
  }
}
