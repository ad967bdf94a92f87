/**
 * The row loop of importador.py `main` as it runs: an importer object holding
 * the caches, counters and error list that the loop updates in place, driving
 * a `Connection`. Each method is proved to do what the matching function of
 * `Engine` says, so every property proved about `Engine` holds of it.
 */
module Importer {
  import opened Types
  import opened Text
  import opened TaxId
  import opened Contacts
  import opened States
  import opened Schema
  import opened Fields
  import opened Mapping
  import opened Engine
  import opened Database

  class Importer {
    const conn: Connection
    const tipos: map<string, int>      // tipos_contato_map
    var clienteIds: map<string, int>   // cpf_cnpj_to_id
    var planos: map<string, int>       // planos_map
    var statuses: map<string, int>     // status_map
    var importedClientes: nat
    var importedContratos: nat
    var erros: seq<RowError>

    ghost function Context(): Ctx
      reads this
    {
      Ctx(clienteIds, planos, statuses, importedClientes, importedContratos, erros)
    }

    /** The state between rows. */
    ghost function Abs(): State
      reads this, conn
    {
      State(conn.committed, conn.nextId, Context())
    }

    /** The state inside the open transaction, with the failure raised so far. */
    ghost function Snap(failure: Option<Failure>): Work
      reads this, conn
    {
      Work(conn.tables, conn.nextId, conn.ops, Context(), failure)
    }

    /** No transaction work pending. */
    predicate Idle()
      reads conn
    {
      conn.tables == conn.committed && conn.ops == 0
    }

    /** importador.py:54-71: the caches are loaded from the committed tables, `tbl_tipos_contato` from its rows. */
    constructor (conn: Connection, tipoRows: seq<(int, string)>)
      ensures this.conn == conn && tipos == LoadMapping(tipoRows)
      ensures Abs() == Initial(conn.committed, conn.nextId)
    {
      this.conn := conn;
      tipos := LoadMapping(tipoRows);
      clienteIds := FromPairs(ClienteRows(conn.committed));
      planos := LoadMapping(PlanoRows(conn.committed));
      statuses := LoadMapping(StatusRows(conn.committed));
      importedClientes, importedContratos := 0, 0;
      erros := [];
    }

    /** importador.py:89-129: the customer's id, reused from the cache or freshly inserted. */
    method ResolveCliente(row: Row) returns (failure: Option<Failure>, cid: int)
      modifies this, conn`tables, conn`nextId, conn`ops
      ensures (Snap(failure), cid) == ClientStep(old(Snap(None)), row, conn.fails, conn.txn)
    {
      failure, cid := None, 0;
      var cpf := NormalizeTaxId(row.cpfCnpj);
      if cpf.Err? {
        failure := Some(InvalidTaxId(cpf.error));
        return;
      }
      if cpf.value in clienteIds {
        cid := clienteIds[cpf.value];
        return;
      }
      var ok, id := conn.Execute(InsertCliente(row.nome, row.fantasia, cpf.value, row.nasc, row.cadastro));
      if !ok {
        failure := Some(DatabaseFailure);
        return;
      }
      cid := id;
      clienteIds := clienteIds[cpf.value := id];
      importedClientes := importedClientes + 1;
    }

    /** importador.py:140-153: the pieces of one contact cell, inserted one by one. */
    method InsertCell(cid: int, rotulo: string, raw: string) returns (failure: Option<Failure>)
      modifies conn`tables, conn`nextId, conn`ops
      ensures Snap(failure) == PartsStep(old(Snap(None)), cid, rotulo, tipos, SplitSeps(Strip(raw)), conn.fails, conn.txn)
    {
      var parts := SplitSeps(Strip(raw));
      failure := None;
      var i := 0;
      while i < |parts| && failure.None?
        invariant 0 <= i <= |parts|
        invariant Snap(failure) == PartsStep(old(Snap(None)), cid, rotulo, tipos, parts[..i], conn.fails, conn.txn)
      {
        ghost var before := Snap(failure);
        var contato := Strip(parts[i]);
        if contato != [] {
          if rotulo !in tipos {
            failure := Some(MissingContactType(rotulo));
          } else {
            var ok, _ := conn.Execute(InsertContato(Contato(cid, tipos[rotulo], contato)));
            if !ok {
              failure := Some(DatabaseFailure);
            }
          }
        }
        assert Snap(failure) == PartStep(before, cid, rotulo, tipos, parts[i], conn.fails, conn.txn);
        PartsPrefix(old(Snap(None)), cid, rotulo, tipos, parts, i, conn.fails, conn.txn);
        i := i + 1;
      }
      if i < |parts| {
        PartsStuck(old(Snap(None)), cid, rotulo, tipos, parts, i, conn.fails, conn.txn);
      } else {
        assert parts[..i] == parts;
      }
    }

    /** importador.py:133-153 for one column: a missing cell is skipped. */
    method InsertColumn(cid: int, row: Row, col: ContactColumn, rotulo: string) returns (failure: Option<Failure>)
      modifies conn`tables, conn`nextId, conn`ops
      ensures Snap(failure) == ColumnStep(old(Snap(None)), cid, row, col, rotulo, tipos, conn.fails, conn.txn)
    {
      failure := None;
      var raw := ContactCell(row, col);
      if raw.Some? {
        failure := InsertCell(cid, rotulo, raw.value);
      }
    }

    /** importador.py:132-153: the contact columns in order, a missing cell skipped. */
    method InsertContacts(cid: int, row: Row) returns (failure: Option<Failure>)
      modifies conn`tables, conn`nextId, conn`ops
      ensures Snap(failure) == ColumnsStep(old(Snap(None)), cid, row, ContactColumns, tipos, conn.fails, conn.txn)
    {
      failure := None;
      var k := 0;
      while k < |ContactColumns| && failure.None?
        invariant 0 <= k <= |ContactColumns|
        invariant Snap(failure) == ColumnsStep(old(Snap(None)), cid, row, ContactColumns[..k], tipos, conn.fails, conn.txn)
      {
        failure := InsertColumn(cid, row, ContactColumns[k].0, ContactColumns[k].1);
        assert ContactColumns[..k + 1][..k] == ContactColumns[..k];
        k := k + 1;
      }
      if k < |ContactColumns| {
        ColumnsStuck(old(Snap(None)), cid, row, ContactColumns, k, tipos, conn.fails, conn.txn);
      } else {
        assert ContactColumns[..k] == ContactColumns;
      }
    }

    /** importador.py:160-165. */
    method ResolvePlano(row: Row) returns (failure: Option<Failure>)
      modifies this, conn`tables, conn`nextId, conn`ops
      ensures Snap(failure) == PlanoStep(old(Snap(None)), row, conn.fails, conn.txn)
    {
      failure := None;
      if row.plano !in planos {
        var ok, id := conn.Execute(InsertPlano(row.plano, row.planoValor));
        if !ok {
          failure := Some(DatabaseFailure);
          return;
        }
        planos := planos[row.plano := id];
      }
    }

    /** importador.py:167-172. */
    method ResolveStatus(row: Row) returns (failure: Option<Failure>)
      modifies this, conn`tables, conn`nextId, conn`ops
      ensures Snap(failure) == StatusStep(old(Snap(None)), row, conn.fails, conn.txn)
    {
      failure := None;
      if row.status !in statuses {
        var ok, id := conn.Execute(InsertStatus(row.status));
        if !ok {
          failure := Some(DatabaseFailure);
          return;
        }
        statuses := statuses[row.status := id];
      }
    }

    /** importador.py:189-213: the contract insert and the contract counter. */
    method InsertContrato(c: Contrato) returns (failure: Option<Failure>)
      modifies this, conn`tables, conn`nextId, conn`ops
      ensures Snap(failure) == InsertStep(old(Snap(None)), c, conn.fails, conn.txn)
    {
      failure := None;
      var ok, _ := conn.Execute(Stmt.InsertContrato(c));
      if !ok {
        failure := Some(DatabaseFailure);
        return;
      }
      importedContratos := importedContratos + 1;
    }

    /** importador.py:174-213: validation, then the contract insert. */
    method AddContract(cid: int, row: Row, linha: int) returns (failure: Option<Failure>)
      requires row.plano in planos && row.status in statuses
      modifies this, conn`tables, conn`nextId, conn`ops
      ensures Snap(failure) == ContractStep(old(Snap(None)), cid, row, linha, conn.fails, conn.txn)
    {
      var missing := CheckMandatory(row, Mandatory);
      if missing.Some? {
        return Some(MissingField(missing.value));
      }
      assert Cell(row, Mandatory[0]).Some? && Cell(row, Mandatory[1]).Some? && Cell(row, Mandatory[2]).Some?;
      var uf := ResolveUf(row.uf.value);
      if uf.Err? {
        return Some(UnknownUf(linha, uf.error));
      }
      var c := ContractOf(cid, row, planos[row.plano], statuses[row.status],
                          row.vencimento.value, row.cep.value, uf.value);
      failure := InsertContrato(c);
    }

    /** The statements of the `try` block of importador.py:88-213, up to the commit. */
    method TryRow(row: Row, idx: nat) returns (failure: Option<Failure>)
      requires conn.txn == idx
      modifies this, conn`tables, conn`nextId, conn`ops
      ensures Snap(failure) == Attempt(old(Snap(None)), row, idx, tipos, conn.fails)
    {
      var cid;
      failure, cid := ResolveCliente(row);
      if failure.Some? {
        return;
      }
      failure := InsertContacts(cid, row);
      if failure.Some? {
        return;
      }
      ghost var w2 := Snap(failure);
      failure := ResolvePlano(row);
      if failure.Some? {
        return;
      }
      failure := ResolveStatus(row);
      if failure.Some? {
        return;
      }
      ghost var w4 := Snap(failure);
      assert w4 == StatusStep(PlanoStep(w2, row, conn.fails, idx), row, conn.fails, idx);
      failure := AddContract(cid, row, idx + 2);
    }

    /**
     * One iteration of importador.py:85-224 for the row at index `idx`: the
     * row is committed, or rolled back and logged at line `idx + 2`.
     */
    method ImportRow(row: Row, idx: nat)
      requires Idle() && conn.txn == idx
      modifies this, conn
      ensures Idle() && conn.txn == idx + 1
      ensures Abs() == RowStep(old(Abs()), row, idx, tipos, conn.fails)
    {
      var failure := TryRow(row, idx);
      if failure.None? {
        var committed := conn.Commit();
        if !committed {
          failure := Some(DatabaseFailure);
        }
      }
      if failure.Some? {
        conn.Rollback();
        erros := erros + [RowError(idx + 2, failure.value)];
      }
    }

    /** The loop `for idx, row in df.iterrows()` of importador.py:85. */
    method Run(rows: seq<Row>)
      requires Idle() && conn.txn == 0
      modifies this, conn
      ensures Idle() && conn.txn == |rows|
      ensures Abs() == RunRows(old(Abs()), rows, tipos, conn.fails)
    {
      var i := 0;
      while i < |rows|
        invariant 0 <= i <= |rows| && Idle() && conn.txn == i
        invariant Abs() == RunRows(old(Abs()), rows[..i], tipos, conn.fails)
      {
        ImportRow(rows[i], i);
        RunRowsPrefix(old(Abs()), rows, i, tipos, conn.fails);
        i := i + 1;
      }
      assert rows[..i] == rows;
    }
  }
}
