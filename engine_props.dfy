/**
 * What the row loop guarantees, proved about the functions of `Engine` (and so
 * about the `Importer` class, whose methods are proved equal to them).
 */
module EngineProps {
  import opened Types
  import opened Text
  import opened TaxId
  import opened Contacts
  import opened States
  import opened Schema
  import opened Fields
  import opened Mapping
  import opened Engine

  /** Every row of `a` is still in `b`, in place: the tables only grow. */
  predicate Extends(a: Tables, b: Tables) {
    && a.clientes <= b.clientes && a.contatos <= b.contatos && a.planos <= b.planos
    && a.status <= b.status && a.contratos <= b.contratos
  }

  /** Every key cached in `a` is still cached in `b`, with the same id. */
  predicate Keeps(a: map<string, int>, b: map<string, int>) {
    forall k :: k in a ==> k in b && b[k] == a[k]
  }

  /** The run context only grows: caches keep their entries, counters and errors never shrink. */
  predicate CtxGrows(a: Ctx, b: Ctx) {
    && Keeps(a.clienteIds, b.clienteIds) && Keeps(a.planos, b.planos) && Keeps(a.statuses, b.statuses)
    && a.importedClientes <= b.importedClientes && a.importedContratos <= b.importedContratos
    && a.erros <= b.erros
  }

  /** The contacts one cell yields for customer `cid` under contact type `tipoId`. */
  function CellContacts(cid: int, tipoId: int, pieces: seq<string>): set<Contato> {
    set x | x in pieces :: Contato(cid, tipoId, x)
  }

  /** The contacts the columns `cols` of `row` yield; a type missing from `tipos` yields none. */
  function Planned(cid: int, row: Row, cols: seq<(ContactColumn, string)>, tipos: map<string, int>): set<Contato>
    decreases |cols|
  {
    if cols == [] then {}
    else
      var (col, rotulo) := cols[|cols| - 1];
      Planned(cid, row, cols[..|cols| - 1], tipos)
        + (if rotulo in tipos then CellContacts(cid, tipos[rotulo], SplitContacts(ContactCell(row, col))) else {})
  }

  // ---- contacts -------------------------------------------------------------

  /** The contact loop touches only the contacts table (which only grows) and the statement count. */
  lemma {:induction false} PartsFrame(w: Work, cid: int, rotulo: string, tipos: map<string, int>,
                                      parts: seq<string>, fails: Faults, txn: nat)
    ensures var r := PartsStep(w, cid, rotulo, tipos, parts, fails, txn);
      && r.ctx == w.ctx && r.nextId == w.nextId && w.t.contatos <= r.t.contatos
      && r.t == w.t.(contatos := r.t.contatos) && (w.failure.Some? ==> r == w)
    decreases |parts|
  {
    if parts != [] {
      PartsFrame(w, cid, rotulo, tipos, parts[..|parts| - 1], fails, txn);
    }
  }

  /**
   * A cell whose pieces all went in adds exactly its contacts, and it can only
   * have gone in without its contact type when it yields no contact.
   */
  lemma {:induction false} PartsAdds(w: Work, cid: int, rotulo: string, tipos: map<string, int>,
                                     parts: seq<string>, fails: Faults, txn: nat)
    requires w.failure.None? && PartsStep(w, cid, rotulo, tipos, parts, fails, txn).failure.None?
    ensures rotulo !in tipos ==> Keep(parts) == []
    ensures PartsStep(w, cid, rotulo, tipos, parts, fails, txn).t.contatos
            == w.t.contatos + (if rotulo in tipos then CellContacts(cid, tipos[rotulo], Keep(parts)) else {})
    decreases |parts|
  {
    if parts != [] {
      var init := parts[..|parts| - 1];
      var prev := PartsStep(w, cid, rotulo, tipos, init, fails, txn);
      PartsFrame(w, cid, rotulo, tipos, init, fails, txn);
      PartsAdds(w, cid, rotulo, tipos, init, fails, txn);
      var p := Strip(parts[|parts| - 1]);
      if p != [] && rotulo in tipos {
        var k := Keep(init);
        assert Keep(parts) == k + [p];
        assert CellContacts(cid, tipos[rotulo], k + [p]) == CellContacts(cid, tipos[rotulo], k) + {Contato(cid, tipos[rotulo], p)};
      }
    }
  }

  /** The contact columns touch only the contacts table, which only grows. */
  lemma {:induction false} ColumnsFrame(w: Work, cid: int, row: Row, cols: seq<(ContactColumn, string)>,
                                        tipos: map<string, int>, fails: Faults, txn: nat)
    ensures var r := ColumnsStep(w, cid, row, cols, tipos, fails, txn);
      && r.ctx == w.ctx && r.nextId == w.nextId && w.t.contatos <= r.t.contatos
      && r.t == w.t.(contatos := r.t.contatos) && (w.failure.Some? ==> r == w)
    decreases |cols|
  {
    if cols != [] {
      var init := cols[..|cols| - 1];
      var prev := ColumnsStep(w, cid, row, init, tipos, fails, txn);
      ColumnsFrame(w, cid, row, init, tipos, fails, txn);
      var (col, rotulo) := cols[|cols| - 1];
      if prev.failure.None? && ContactCell(row, col).Some? {
        PartsFrame(prev, cid, rotulo, tipos, SplitSeps(Strip(ContactCell(row, col).value)), fails, txn);
      }
    }
  }

  /** One contact column that went in adds exactly the contacts its cell yields. */
  lemma ColumnAdds(w: Work, cid: int, row: Row, col: ContactColumn, rotulo: string,
                   tipos: map<string, int>, fails: Faults, txn: nat)
    requires w.failure.None? && ColumnStep(w, cid, row, col, rotulo, tipos, fails, txn).failure.None?
    ensures ColumnStep(w, cid, row, col, rotulo, tipos, fails, txn).t.contatos
            == w.t.contatos + (if rotulo in tipos then CellContacts(cid, tipos[rotulo], SplitContacts(ContactCell(row, col))) else {})
  {
    if ContactCell(row, col).Some? {
      PartsAdds(w, cid, rotulo, tipos, SplitSeps(Strip(ContactCell(row, col).value)), fails, txn);
    }
  }

  /** Contact columns that all went in add exactly the contacts their cells yield. */
  lemma {:induction false} ColumnsAdds(w: Work, cid: int, row: Row, cols: seq<(ContactColumn, string)>,
                                       tipos: map<string, int>, fails: Faults, txn: nat)
    requires w.failure.None? && ColumnsStep(w, cid, row, cols, tipos, fails, txn).failure.None?
    ensures ColumnsStep(w, cid, row, cols, tipos, fails, txn).t.contatos == w.t.contatos + Planned(cid, row, cols, tipos)
    decreases |cols|
  {
    if cols != [] {
      var init := cols[..|cols| - 1];
      var prev := ColumnsStep(w, cid, row, init, tipos, fails, txn);
      ColumnsFrame(w, cid, row, init, tipos, fails, txn);
      ColumnsAdds(w, cid, row, init, tipos, fails, txn);
      ColumnAdds(prev, cid, row, cols[|cols| - 1].0, cols[|cols| - 1].1, tipos, fails, txn);
    }
  }

  // ---- one row ---------------------------------------------------------------

  lemma ExtendsTrans(a: Tables, b: Tables, c: Tables)
    requires Extends(a, b) && Extends(b, c)
    ensures Extends(a, c)
  {
  }

  lemma ExtendsContacts(a: Tables, b: Tables)
    requires b == a.(contatos := b.contatos) && a.contatos <= b.contatos
    ensures Extends(a, b)
  {
  }

  /** A statement only appends to the one table it inserts into; only `RETURNING id` draws an id. */
  lemma ExecFrame(w: Work, st: Stmt, fails: Faults, txn: nat)
    ensures var (r, id) := Exec(w, st, fails, txn);
      && Extends(w.t, r.t) && w.nextId <= r.nextId && r.ctx == w.ctx && id == w.nextId
      && (!Returning(st) ==> r.nextId == w.nextId)
      && (!st.InsertCliente? ==> r.t.clientes == w.t.clientes)
      && (!st.InsertContrato? ==> r.t.contratos == w.t.contratos)
      && (!st.InsertContato? ==> r.t.contatos == w.t.contatos)
      && (r.failure.None? && st.InsertCliente? ==> r.t.clientes[|w.t.clientes|].id == id)
  {
  }

  lemma PlanoFrame(w: Work, row: Row, fails: Faults, txn: nat)
    requires w.failure.None?
    ensures var r := PlanoStep(w, row, fails, txn);
      Extends(w.t, r.t) && r.t.clientes == w.t.clientes && r.t.contratos == w.t.contratos && w.nextId <= r.nextId
  {
    if row.plano !in w.ctx.planos {
      ExecFrame(w, InsertPlano(row.plano, row.planoValor), fails, txn);
    }
  }

  lemma StatusFrame(w: Work, row: Row, fails: Faults, txn: nat)
    requires w.failure.None?
    ensures var r := StatusStep(w, row, fails, txn);
      Extends(w.t, r.t) && r.t.clientes == w.t.clientes && r.t.contratos == w.t.contratos && w.nextId <= r.nextId
  {
    if row.status !in w.ctx.statuses {
      ExecFrame(w, InsertStatus(row.status), fails, txn);
    }
  }

  lemma InsertFrame(w: Work, c: Contrato, fails: Faults, txn: nat)
    ensures var r := InsertStep(w, c, fails, txn);
      && r.ctx == w.ctx.(importedContratos := r.ctx.importedContratos)
      && w.ctx.importedContratos <= r.ctx.importedContratos <= w.ctx.importedContratos + 1
      && Extends(w.t, r.t) && r.t.clientes == w.t.clientes && r.t.contatos == w.t.contatos && w.nextId == r.nextId
  {
    ExecFrame(w, InsertContrato(c), fails, txn);
  }

  /** The contract step changes only the contract table and the contract counter, each by at most one. */
  lemma ContractFrame(w: Work, cid: int, row: Row, linha: int, fails: Faults, txn: nat)
    requires w.failure.None? && row.plano in w.ctx.planos && row.status in w.ctx.statuses
    ensures var r := ContractStep(w, cid, row, linha, fails, txn);
      && r.ctx == w.ctx.(importedContratos := r.ctx.importedContratos)
      && w.ctx.importedContratos <= r.ctx.importedContratos <= w.ctx.importedContratos + 1
      && Extends(w.t, r.t) && r.t.clientes == w.t.clientes && r.t.contatos == w.t.contatos && w.nextId == r.nextId
  {
    match CheckRow(row, linha)
    case Err(_) =>
    case Ok(uf) =>
      InsertFrame(w, ContractOf(cid, row, w.ctx.planos[row.plano], w.ctx.statuses[row.status],
                                row.vencimento.value, row.cep.value, uf), fails, txn);
  }

  /**
   * The customer step only adds: the identifier cache keeps its entries, and on
   * success the row's identifier maps to the id it returns. It raises the
   * customer counter at most once and inserts no contract.
   */
  lemma ClientFrame(w0: Work, row: Row, fails: Faults, txn: nat)
    requires w0.failure.None?
    ensures var (r, cid) := ClientStep(w0, row, fails, txn);
      && Keeps(w0.ctx.clienteIds, r.ctx.clienteIds)
      && r.ctx.planos == w0.ctx.planos && r.ctx.statuses == w0.ctx.statuses
      && r.ctx.importedContratos == w0.ctx.importedContratos && r.ctx.erros == w0.ctx.erros
      && w0.ctx.importedClientes <= r.ctx.importedClientes <= w0.ctx.importedClientes + 1
      && Extends(w0.t, r.t) && r.t.contratos == w0.t.contratos && r.t.contatos == w0.t.contatos
      && w0.nextId <= r.nextId
      && (r.failure.None? ==> (NormalizeTaxId(row.cpfCnpj).Ok?
            && NormalizeTaxId(row.cpfCnpj).value in r.ctx.clienteIds
            && r.ctx.clienteIds[NormalizeTaxId(row.cpfCnpj).value] == cid))
  {
    match NormalizeTaxId(row.cpfCnpj)
    case Err(_) =>
    case Ok(cpf) =>
      if cpf !in w0.ctx.clienteIds {
        var st := InsertCliente(row.nome, row.fantasia, cpf, row.nasc, row.cadastro);
        ExecFrame(w0, st, fails, txn);
        var (w1, id) := Exec(w0, st, fails, txn);
        if w1.failure.None? {
          var m := w1.ctx.clienteIds[cpf := id];
          assert Keeps(w0.ctx.clienteIds, m);
          assert ClientStep(w0, row, fails, txn) ==
            (w1.(ctx := w1.ctx.(clienteIds := m, importedClientes := w1.ctx.importedClientes + 1)), id);
        } else {
          assert ClientStep(w0, row, fails, txn) == (w1, 0);
        }
      }
  }

  /**
   * After the customer step nothing touches the identifier cache, the customer
   * counter or the customer table; the other caches keep their entries and at
   * most one contract is counted.
   */
  lemma RestFrame(w1: Work, cid: int, row: Row, idx: nat, tipos: map<string, int>, fails: Faults)
    requires w1.failure.None?
    ensures var r := Rest(w1, cid, row, idx, tipos, fails);
      && r.ctx.clienteIds == w1.ctx.clienteIds && r.ctx.importedClientes == w1.ctx.importedClientes
      && r.ctx.erros == w1.ctx.erros
      && Keeps(w1.ctx.planos, r.ctx.planos) && Keeps(w1.ctx.statuses, r.ctx.statuses)
      && w1.ctx.importedContratos <= r.ctx.importedContratos <= w1.ctx.importedContratos + 1
      && r.t.clientes == w1.t.clientes && Extends(w1.t, r.t) && w1.nextId <= r.nextId
  {
    var w2 := ColumnsStep(w1, cid, row, ContactColumns, tipos, fails, idx);
    ColumnsFrame(w1, cid, row, ContactColumns, tipos, fails, idx);
    ExtendsContacts(w1.t, w2.t);
    if w2.failure.None? {
      var w3 := PlanoStep(w2, row, fails, idx);
      PlanoFrame(w2, row, fails, idx);
      if w3.failure.None? {
        var w4 := StatusStep(w3, row, fails, idx);
        StatusFrame(w3, row, fails, idx);
        if w4.failure.None? {
          ContractFrame(w4, cid, row, idx + 2, fails, idx);
          var r := ContractStep(w4, cid, row, idx + 2, fails, idx);
          ExtendsTrans(w1.t, w2.t, w3.t);
          ExtendsTrans(w1.t, w3.t, w4.t);
          ExtendsTrans(w1.t, w4.t, r.t);
        } else {
          ExtendsTrans(w1.t, w2.t, w3.t);
          ExtendsTrans(w1.t, w3.t, w4.t);
        }
      } else {
        ExtendsTrans(w1.t, w2.t, w3.t);
      }
    }
  }

  /** A whole attempt only adds to the tables and to the run context, each counter by at most one. */
  lemma AttemptFrame(w0: Work, row: Row, idx: nat, tipos: map<string, int>, fails: Faults)
    requires w0.failure.None?
    ensures var r := Attempt(w0, row, idx, tipos, fails);
      && CtxGrows(w0.ctx, r.ctx) && r.ctx.erros == w0.ctx.erros
      && r.ctx.importedClientes <= w0.ctx.importedClientes + 1
      && r.ctx.importedContratos <= w0.ctx.importedContratos + 1
      && Extends(w0.t, r.t) && w0.nextId <= r.nextId
  {
    var (w1, cid) := ClientStep(w0, row, fails, idx);
    ClientFrame(w0, row, fails, idx);
    if w1.failure.None? {
      RestFrame(w1, cid, row, idx, tipos, fails);
    }
  }

  /** The whole `try` block, commit included, only adds to the tables and to the run context, each counter by at most one. */
  lemma OutcomeFrame(s: State, row: Row, idx: nat, tipos: map<string, int>, fails: Faults)
    ensures var w := Outcome(s, row, idx, tipos, fails);
      && CtxGrows(s.ctx, w.ctx) && w.ctx.erros == s.ctx.erros
      && w.ctx.importedClientes <= s.ctx.importedClientes + 1
      && w.ctx.importedContratos <= s.ctx.importedContratos + 1
      && Extends(s.db, w.t) && s.nextId <= w.nextId
  {
    AttemptFrame(Begin(s), row, idx, tipos, fails);
  }

  /**
   * One iteration of the row loop: the committed tables only grow, and a row
   * that fails leaves them as they were and adds exactly one error, at line
   * `idx + 2`; the caches and counters grow whether or not the row commits.
   */
  lemma RowFrame(s: State, row: Row, idx: nat, tipos: map<string, int>, fails: Faults)
    ensures var r := RowStep(s, row, idx, tipos, fails);
      && CtxGrows(s.ctx, r.ctx) && Extends(s.db, r.db) && s.nextId <= r.nextId
      && r.ctx.importedClientes <= s.ctx.importedClientes + 1
      && r.ctx.importedContratos <= s.ctx.importedContratos + 1
      && (Commits(s, row, idx, tipos, fails) ==> r.ctx.erros == s.ctx.erros)
      && (!Commits(s, row, idx, tipos, fails) ==>
            && r.db == s.db && |r.ctx.erros| == |s.ctx.erros| + 1
            && r.ctx.erros[..|s.ctx.erros|] == s.ctx.erros && r.ctx.erros[|s.ctx.erros|].linha == idx + 2)
  {
    OutcomeFrame(s, row, idx, tipos, fails);
  }

  // ---- what one row does ------------------------------------------------------

  /** The contract insert appends its contract and counts it, or fails with a database error and counts nothing. */
  lemma InsertAdds(w: Work, c: Contrato, fails: Faults, txn: nat)
    requires w.failure.None?
    ensures var r := InsertStep(w, c, fails, txn);
      && (r.failure.None? ==> r.t.contratos == w.t.contratos + [c] && r.ctx.importedContratos == w.ctx.importedContratos + 1)
      && (r.failure.Some? ==> r.failure == Some(DatabaseFailure) && r.ctx.importedContratos == w.ctx.importedContratos)
  {
  }

  /**
   * The contract step counts a contract only for a row that passes validation;
   * it fails with the validation error or a database error, and otherwise
   * appends the contract built from the row's fields.
   */
  lemma ContractAdds(w: Work, cid: int, row: Row, linha: int, fails: Faults, txn: nat)
    requires w.failure.None? && row.plano in w.ctx.planos && row.status in w.ctx.statuses
    ensures var r := ContractStep(w, cid, row, linha, fails, txn);
      && (r.failure.None? || r.ctx.importedContratos > w.ctx.importedContratos ==> CheckRow(row, linha).Ok?)
      && (r.failure.Some? ==> (r.failure == Some(DatabaseFailure)
            || (CheckRow(row, linha).Err? && r.failure == Some(CheckRow(row, linha).error))))
      && (r.failure.None? ==> (r.ctx.importedContratos == w.ctx.importedContratos + 1
            && r.t.contratos == w.t.contratos + [ContractOf(cid, row, w.ctx.planos[row.plano], w.ctx.statuses[row.status],
                                                            row.vencimento.value, row.cep.value, CheckRow(row, linha).value)]))
  {
    match CheckRow(row, linha)
    case Err(_) =>
    case Ok(uf) =>
      InsertAdds(w, ContractOf(cid, row, w.ctx.planos[row.plano], w.ctx.statuses[row.status],
                               row.vencimento.value, row.cep.value, uf), fails, txn);
  }

  /**
   * Everything after the customer step fails only with a missing contact type,
   * a database error or the row's validation error, and counts a contract only
   * for a row that passes validation.
   */
  lemma RestFailure(w1: Work, cid: int, row: Row, idx: nat, tipos: map<string, int>, fails: Faults)
    requires w1.failure.None?
    ensures var r := Rest(w1, cid, row, idx, tipos, fails);
      && (r.failure.None? || r.ctx.importedContratos > w1.ctx.importedContratos ==> CheckRow(row, idx + 2).Ok?)
      && (r.failure.Some? ==> (r.failure.value.MissingContactType? || r.failure == Some(DatabaseFailure)
            || (CheckRow(row, idx + 2).Err? && r.failure == Some(CheckRow(row, idx + 2).error))))
  {
    var w2 := ColumnsStep(w1, cid, row, ContactColumns, tipos, fails, idx);
    ColumnsFrame(w1, cid, row, ContactColumns, tipos, fails, idx);
    if w2.failure.Some? {
      ColumnsFailure(w1, cid, row, ContactColumns, tipos, fails, idx);
    } else {
      var w3 := PlanoStep(w2, row, fails, idx);
      if w3.failure.None? {
        var w4 := StatusStep(w3, row, fails, idx);
        if w4.failure.None? {
          assert Rest(w1, cid, row, idx, tipos, fails) == ContractStep(w4, cid, row, idx + 2, fails, idx);
          ContractAdds(w4, cid, row, idx + 2, fails, idx);
        }
      }
    }
  }

  /**
   * On success, everything after the customer step has added exactly the
   * cells' contacts and the row's contract, with the plan's and status's cached
   * ids, and counted the contract.
   */
  lemma RestAdds(w1: Work, cid: int, row: Row, idx: nat, tipos: map<string, int>, fails: Faults)
    requires w1.failure.None? && Rest(w1, cid, row, idx, tipos, fails).failure.None?
    ensures var r := Rest(w1, cid, row, idx, tipos, fails);
      && CheckRow(row, idx + 2).Ok? && row.plano in r.ctx.planos && row.status in r.ctx.statuses
      && r.ctx.importedContratos == w1.ctx.importedContratos + 1
      && r.t.contatos == w1.t.contatos + Planned(cid, row, ContactColumns, tipos)
      && r.t.contratos == w1.t.contratos + [ContractOf(cid, row, r.ctx.planos[row.plano], r.ctx.statuses[row.status],
                                                       row.vencimento.value, row.cep.value, CheckRow(row, idx + 2).value)]
  {
    var w2 := ColumnsStep(w1, cid, row, ContactColumns, tipos, fails, idx);
    ColumnsFrame(w1, cid, row, ContactColumns, tipos, fails, idx);
    ColumnsAdds(w1, cid, row, ContactColumns, tipos, fails, idx);
    var w3 := PlanoStep(w2, row, fails, idx);
    PlanoTables(w2, row, fails, idx);
    var w4 := StatusStep(w3, row, fails, idx);
    StatusTables(w3, row, fails, idx);
    var r := ContractStep(w4, cid, row, idx + 2, fails, idx);
    assert Rest(w1, cid, row, idx, tipos, fails) == r;
    ContractAdds(w4, cid, row, idx + 2, fails, idx);
    ContractFrame(w4, cid, row, idx + 2, fails, idx);
    assert r.t.contatos == w2.t.contatos;
  }

  /** The contact loop fails only for a missing contact type or a database error. */
  lemma {:induction false} PartsFailure(w: Work, cid: int, rotulo: string, tipos: map<string, int>,
                                        parts: seq<string>, fails: Faults, txn: nat)
    requires w.failure.None?
    ensures var r := PartsStep(w, cid, rotulo, tipos, parts, fails, txn);
      r.failure.Some? ==> r.failure == Some(MissingContactType(rotulo)) || r.failure == Some(DatabaseFailure)
    decreases |parts|
  {
    if parts != [] {
      PartsFailure(w, cid, rotulo, tipos, parts[..|parts| - 1], fails, txn);
    }
  }

  /** The contact columns fail only for a missing contact type or a database error. */
  lemma {:induction false} ColumnsFailure(w: Work, cid: int, row: Row, cols: seq<(ContactColumn, string)>,
                                          tipos: map<string, int>, fails: Faults, txn: nat)
    requires w.failure.None?
    ensures var r := ColumnsStep(w, cid, row, cols, tipos, fails, txn);
      r.failure.Some? ==> r.failure.value.MissingContactType? || r.failure == Some(DatabaseFailure)
    decreases |cols|
  {
    if cols != [] {
      var init := cols[..|cols| - 1];
      var prev := ColumnsStep(w, cid, row, init, tipos, fails, txn);
      ColumnsFailure(w, cid, row, init, tipos, fails, txn);
      var (col, rotulo) := cols[|cols| - 1];
      if prev.failure.None? && ContactCell(row, col).Some? {
        PartsFailure(prev, cid, rotulo, tipos, SplitSeps(Strip(ContactCell(row, col).value)), fails, txn);
      }
    }
  }

  /** The plan step leaves the contact and contract tables alone. */
  lemma PlanoTables(w: Work, row: Row, fails: Faults, txn: nat)
    requires w.failure.None?
    ensures var r := PlanoStep(w, row, fails, txn);
      r.t.contatos == w.t.contatos && r.t.contratos == w.t.contratos
  {
  }

  /** The status step leaves the contact and contract tables alone. */
  lemma StatusTables(w: Work, row: Row, fails: Faults, txn: nat)
    requires w.failure.None?
    ensures var r := StatusStep(w, row, fails, txn);
      r.t.contatos == w.t.contatos && r.t.contratos == w.t.contratos
  {
  }

  // ---- rows --------------------------------------------------------------------

  /** A row whose identifier is malformed changes nothing but the error list, which gains its line and the cleaned text. */
  lemma InvalidTaxIdRow(s: State, row: Row, idx: nat, tipos: map<string, int>, fails: Faults)
    requires NormalizeTaxId(row.cpfCnpj).Err?
    ensures RowStep(s, row, idx, tipos, fails)
            == State(s.db, s.nextId, s.ctx.(erros := s.ctx.erros + [RowError(idx + 2, InvalidTaxId(Clean(row.cpfCnpj)))]))
  {
  }

  /**
   * A committed row: its identifier and fields were valid, and the tables gained
   * exactly its contacts and its contract, both under the customer id the
   * identifier cache now holds; the contract counter rose by one and no error
   * was logged.
   */
  lemma CommittedRow(s: State, row: Row, idx: nat, tipos: map<string, int>, fails: Faults)
    requires Commits(s, row, idx, tipos, fails)
    ensures var r := RowStep(s, row, idx, tipos, fails);
      && NormalizeTaxId(row.cpfCnpj).Ok? && CheckRow(row, idx + 2).Ok?
      && NormalizeTaxId(row.cpfCnpj).value in r.ctx.clienteIds
      && row.plano in r.ctx.planos && row.status in r.ctx.statuses
      && r.ctx.importedContratos == s.ctx.importedContratos + 1 && r.ctx.erros == s.ctx.erros
      && var cid := r.ctx.clienteIds[NormalizeTaxId(row.cpfCnpj).value];
      && r.db.contatos == s.db.contatos + Planned(cid, row, ContactColumns, tipos)
      && r.db.contratos == s.db.contratos + [ContractOf(cid, row, r.ctx.planos[row.plano], r.ctx.statuses[row.status],
                                                        row.vencimento.value, row.cep.value, CheckRow(row, idx + 2).value)]
  {
    var w0 := Begin(s);
    var (w1, cid) := ClientStep(w0, row, fails, idx);
    ClientFrame(w0, row, fails, idx);
    RestAdds(w1, cid, row, idx, tipos, fails);
    RestFrame(w1, cid, row, idx, tipos, fails);
  }

  /**
   * The contract a committed row adds, field by field: the customer's cached
   * id, the plan's and status's cached ids, `isento` set exactly when the cell
   * is filled, the CEP without dashes and outer whitespace, and the two-letter
   * code of the state named in the UF cell.
   */
  lemma CommittedContract(s: State, row: Row, idx: nat, tipos: map<string, int>, fails: Faults)
    requires Commits(s, row, idx, tipos, fails)
    ensures var r := RowStep(s, row, idx, tipos, fails);
      && NormalizeTaxId(row.cpfCnpj).Ok? && NormalizeTaxId(row.cpfCnpj).value in r.ctx.clienteIds
      && row.plano in r.ctx.planos && row.status in r.ctx.statuses
      && |r.db.contratos| == |s.db.contratos| + 1 && r.db.contratos[..|s.db.contratos|] == s.db.contratos
      && var c := r.db.contratos[|s.db.contratos|];
      && c.clienteId == r.ctx.clienteIds[NormalizeTaxId(row.cpfCnpj).value]
      && c.planoId == r.ctx.planos[row.plano] && c.statusId == r.ctx.statuses[row.status]
      && row.vencimento == Some(c.vencimento) && c.isento == row.isento.Some?
      && row.cep.Some? && c.cep == CleanCep(row.cep.value)
      && row.uf.Some? && Strip(row.uf.value) in UfMap && c.uf == UfMap[Strip(row.uf.value)] && IsCode(c.uf)
      && c.logradouro == row.endereco && c.numero == row.numero && c.bairro == row.bairro
      && c.cidade == row.cidade && c.complemento == row.complemento
  {
    CommittedRow(s, row, idx, tipos, fails);
  }

  /** A row whose identifier is already cached reuses its id: no customer is inserted or counted. */
  lemma KnownClientRow(s: State, row: Row, idx: nat, tipos: map<string, int>, fails: Faults)
    requires NormalizeTaxId(row.cpfCnpj).Ok? && NormalizeTaxId(row.cpfCnpj).value in s.ctx.clienteIds
    ensures var r := RowStep(s, row, idx, tipos, fails);
      && r.ctx.clienteIds == s.ctx.clienteIds && r.ctx.importedClientes == s.ctx.importedClientes
      && r.db.clientes == s.db.clientes
  {
    var w0 := Begin(s);
    var (w1, cid) := ClientStep(w0, row, fails, idx);
    assert w1 == w0;
    RestFrame(w1, cid, row, idx, tipos, fails);
  }

  /**
   * A row with a new identifier whose customer insert succeeds caches the id
   * it drew and counts the customer, and both stay even when a later
   * statement of the row fails and the insert is rolled back.
   */
  lemma NewClientRow(s: State, row: Row, idx: nat, tipos: map<string, int>, fails: Faults)
    requires NormalizeTaxId(row.cpfCnpj).Ok? && NormalizeTaxId(row.cpfCnpj).value !in s.ctx.clienteIds
    requires !fails(idx, 0)
    ensures var r := RowStep(s, row, idx, tipos, fails);
      && var cpf := NormalizeTaxId(row.cpfCnpj).value;
      && r.ctx.clienteIds == s.ctx.clienteIds[cpf := s.nextId]
      && r.ctx.importedClientes == s.ctx.importedClientes + 1
      && (Commits(s, row, idx, tipos, fails) ==>
            r.db.clientes == s.db.clientes + [Cliente(s.nextId, row.nome, row.fantasia, cpf, row.nasc, row.cadastro)])
      && (!Commits(s, row, idx, tipos, fails) ==> r.db.clientes == s.db.clientes)
  {
    var w0 := Begin(s);
    var (w1, cid) := ClientStep(w0, row, fails, idx);
    NewClientStep(w0, row, fails, idx);
    RestFrame(w1, cid, row, idx, tipos, fails);
    var w := Attempt(w0, row, idx, tipos, fails);
    assert w == Rest(w1, cid, row, idx, tipos, fails);
  }

  /** The customer step for a new identifier whose insert succeeds. */
  lemma NewClientStep(w0: Work, row: Row, fails: Faults, txn: nat)
    requires w0.failure.None? && !fails(txn, w0.ops)
    requires NormalizeTaxId(row.cpfCnpj).Ok? && NormalizeTaxId(row.cpfCnpj).value !in w0.ctx.clienteIds
    ensures var (r, cid) := ClientStep(w0, row, fails, txn);
      && var cpf := NormalizeTaxId(row.cpfCnpj).value;
      && r.failure.None? && cid == w0.nextId
      && r.ctx.clienteIds == w0.ctx.clienteIds[cpf := w0.nextId]
      && r.ctx.importedClientes == w0.ctx.importedClientes + 1
      && r.t.clientes == w0.t.clientes + [Cliente(w0.nextId, row.nome, row.fantasia, cpf, row.nasc, row.cadastro)]
  {
  }

  /**
   * The cache outlives the rollback: after such a row fails, the identifier
   * cache maps its identifier to an id that no committed customer has.
   */
  lemma StaleCache(s: State, row: Row, idx: nat, tipos: map<string, int>, fails: Faults)
    requires IdsBelow(s.db, s.nextId)
    requires NormalizeTaxId(row.cpfCnpj).Ok? && NormalizeTaxId(row.cpfCnpj).value !in s.ctx.clienteIds
    requires !fails(idx, 0) && !Commits(s, row, idx, tipos, fails)
    ensures var r := RowStep(s, row, idx, tipos, fails);
      && NormalizeTaxId(row.cpfCnpj).value in r.ctx.clienteIds
      && forall i :: 0 <= i < |r.db.clientes| ==> r.db.clientes[i].id != r.ctx.clienteIds[NormalizeTaxId(row.cpfCnpj).value]
  {
    NewClientRow(s, row, idx, tipos, fails);
  }

  /**
   * Two consecutive rows with the same new identifier: one customer is
   * inserted and counted, and the second row's contract, if committed, carries
   * the id the first row drew.
   */
  lemma SameIdentifierTwice(s: State, row1: Row, row2: Row, idx: nat, tipos: map<string, int>, fails: Faults)
    requires NormalizeTaxId(row1.cpfCnpj).Ok? && NormalizeTaxId(row2.cpfCnpj) == NormalizeTaxId(row1.cpfCnpj)
    requires NormalizeTaxId(row1.cpfCnpj).value !in s.ctx.clienteIds && !fails(idx, 0)
    ensures var s1 := RowStep(s, row1, idx, tipos, fails);
      && var s2 := RowStep(s1, row2, idx + 1, tipos, fails);
      && s2.ctx.clienteIds == s.ctx.clienteIds[NormalizeTaxId(row1.cpfCnpj).value := s.nextId]
      && s2.ctx.importedClientes == s.ctx.importedClientes + 1
      && |s2.db.clientes| <= |s.db.clientes| + 1
      && (Commits(s1, row2, idx + 1, tipos, fails) ==>
            |s2.db.contratos| == |s1.db.contratos| + 1 && s2.db.contratos[|s1.db.contratos|].clienteId == s.nextId)
  {
    var cpf := NormalizeTaxId(row1.cpfCnpj).value;
    var s1 := RowStep(s, row1, idx, tipos, fails);
    NewClientRow(s, row1, idx, tipos, fails);
    assert s1.ctx.clienteIds == s.ctx.clienteIds[cpf := s.nextId];
    assert |s1.db.clientes| <= |s.db.clientes| + 1;
    var s2 := RowStep(s1, row2, idx + 1, tipos, fails);
    KnownClientRow(s1, row2, idx + 1, tipos, fails);
    assert s2.ctx.clienteIds == s1.ctx.clienteIds;
    if Commits(s1, row2, idx + 1, tipos, fails) {
      CommittedContract(s1, row2, idx + 1, tipos, fails);
      assert s2.db.contratos[|s1.db.contratos|].clienteId == s2.ctx.clienteIds[cpf];
    }
  }

  /** The customer step fails only for a malformed identifier or a database error. */
  lemma ClientFailure(w0: Work, row: Row, fails: Faults, txn: nat)
    requires w0.failure.None?
    ensures var r := ClientStep(w0, row, fails, txn).0;
      r.failure.Some? ==> (r.failure == Some(DatabaseFailure) && NormalizeTaxId(row.cpfCnpj).Ok?)
                          || (NormalizeTaxId(row.cpfCnpj).Err? && r.failure == Some(InvalidTaxId(Clean(row.cpfCnpj))))
  {
  }

  /**
   * Why a row fails: a malformed identifier (reported with its cleaned text), a
   * missing contact type, a database error, or the row's validation error; and a
   * contract is counted only for a row whose identifier and fields are valid.
   */
  lemma RowOutcome(s: State, row: Row, idx: nat, tipos: map<string, int>, fails: Faults)
    ensures var r := RowStep(s, row, idx, tipos, fails);
      && (r.ctx.importedContratos > s.ctx.importedContratos ==> NormalizeTaxId(row.cpfCnpj).Ok? && CheckRow(row, idx + 2).Ok?)
      && (!Commits(s, row, idx, tipos, fails) ==> (|r.ctx.erros| == |s.ctx.erros| + 1
            && var f := r.ctx.erros[|s.ctx.erros|].failure;
            || f.MissingContactType? || f == DatabaseFailure
            || (NormalizeTaxId(row.cpfCnpj).Err? && f == InvalidTaxId(Clean(row.cpfCnpj)))
            || (NormalizeTaxId(row.cpfCnpj).Ok? && CheckRow(row, idx + 2).Err? && f == CheckRow(row, idx + 2).error)))
  {
    var w0 := Begin(s);
    var (w1, cid) := ClientStep(w0, row, fails, idx);
    ClientFrame(w0, row, fails, idx);
    ClientFailure(w0, row, fails, idx);
    RowFrame(s, row, idx, tipos, fails);
    if w1.failure.None? {
      RestFailure(w1, cid, row, idx, tipos, fails);
      RestFrame(w1, cid, row, idx, tipos, fails);
    }
  }

  /**
   * A row missing a mandatory field never commits and counts no contract; the
   * error it logs names the first missing field of Vencimento, CEP and UF,
   * unless an earlier step of the row failed first.
   */
  lemma MissingFieldRow(s: State, row: Row, idx: nat, tipos: map<string, int>, fails: Faults)
    requires FirstMissing(row, Mandatory).Some?
    ensures !Commits(s, row, idx, tipos, fails)
    ensures var r := RowStep(s, row, idx, tipos, fails);
      && r.db == s.db && r.ctx.importedContratos == s.ctx.importedContratos
      && |r.ctx.erros| == |s.ctx.erros| + 1
      && var f := r.ctx.erros[|s.ctx.erros|].failure;
      (f == MissingField(FirstMissing(row, Mandatory).value) || f.InvalidTaxId? || f.MissingContactType? || f == DatabaseFailure)
  {
    if Commits(s, row, idx, tipos, fails) {
      CommittedRow(s, row, idx, tipos, fails);
    }
    RowOutcome(s, row, idx, tipos, fails);
    RowFrame(s, row, idx, tipos, fails);
  }

  /**
   * A row with every mandatory field whose UF cell names no state never commits
   * and counts no contract; the error it logs carries the row's line and the
   * stripped name, unless an earlier step of the row failed first.
   */
  lemma UnknownUfRow(s: State, row: Row, idx: nat, tipos: map<string, int>, fails: Faults)
    requires FirstMissing(row, Mandatory).None? && row.uf.Some? && Strip(row.uf.value) !in UfMap
    ensures !Commits(s, row, idx, tipos, fails)
    ensures var r := RowStep(s, row, idx, tipos, fails);
      && r.db == s.db && r.ctx.importedContratos == s.ctx.importedContratos
      && |r.ctx.erros| == |s.ctx.erros| + 1
      && var f := r.ctx.erros[|s.ctx.erros|].failure;
      (f == UnknownUf(idx + 2, Strip(row.uf.value)) || f.InvalidTaxId? || f.MissingContactType? || f == DatabaseFailure)
  {
    if Commits(s, row, idx, tipos, fails) {
      CommittedRow(s, row, idx, tipos, fails);
    }
    RowOutcome(s, row, idx, tipos, fails);
    RowFrame(s, row, idx, tipos, fails);
  }

  /**
   * The contract counter is raised before the commit: a row whose statements
   * all succeed but whose commit fails is rolled back and logged, yet its
   * contract stays counted.
   */
  lemma CountedWithoutCommit(s: State, row: Row, idx: nat, tipos: map<string, int>, fails: Faults)
    requires Attempt(Begin(s), row, idx, tipos, fails).failure.None?
    requires fails(idx, Attempt(Begin(s), row, idx, tipos, fails).ops)
    ensures !Commits(s, row, idx, tipos, fails)
    ensures var r := RowStep(s, row, idx, tipos, fails);
      && r.db == s.db && r.ctx.importedContratos == s.ctx.importedContratos + 1
      && r.ctx.erros == s.ctx.erros + [RowError(idx + 2, DatabaseFailure)]
  {
    var w0 := Begin(s);
    var (w1, cid) := ClientStep(w0, row, fails, idx);
    ClientFrame(w0, row, fails, idx);
    var w := Attempt(w0, row, idx, tipos, fails);
    assert w == Rest(w1, cid, row, idx, tipos, fails);
    RestAdds(w1, cid, row, idx, tipos, fails);
    RestFrame(w1, cid, row, idx, tipos, fails);
    var o := Outcome(s, row, idx, tipos, fails);
    assert o.failure == Some(DatabaseFailure) && o.ctx == w.ctx;
  }

  /**
   * A row that reaches validation has cached its plan and status, and a plan or
   * status it inserted carries an id drawn during the row; no error is logged yet.
   */
  lemma RejectedAttempt(w0: Work, row: Row, idx: nat, tipos: map<string, int>, fails: Faults)
    requires w0.failure.None? && CheckRow(row, idx + 2).Err?
    requires Attempt(w0, row, idx, tipos, fails).failure == Some(CheckRow(row, idx + 2).error)
    ensures var w := Attempt(w0, row, idx, tipos, fails);
      && row.plano in w.ctx.planos && row.status in w.ctx.statuses && w.ctx.erros == w0.ctx.erros
      && (row.plano !in w0.ctx.planos ==> w.ctx.planos[row.plano] >= w0.nextId)
      && (row.status !in w0.ctx.statuses ==> w.ctx.statuses[row.status] >= w0.nextId)
  {
    var (w1, cid) := ClientStep(w0, row, fails, idx);
    ClientFrame(w0, row, fails, idx);
    ClientFailure(w0, row, fails, idx);
    assert w1.failure.None?;
    var w2 := ColumnsStep(w1, cid, row, ContactColumns, tipos, fails, idx);
    ColumnsFrame(w1, cid, row, ContactColumns, tipos, fails, idx);
    ColumnsFailure(w1, cid, row, ContactColumns, tipos, fails, idx);
    assert w2.failure.None?;
    var w3 := PlanoStep(w2, row, fails, idx);
    assert w3.failure.None?;
    var w4 := StatusStep(w3, row, fails, idx);
    assert w4.failure.None?;
    ContractFrame(w4, cid, row, idx + 2, fails, idx);
    assert Attempt(w0, row, idx, tipos, fails) == ContractStep(w4, cid, row, idx + 2, fails, idx);
  }

  /**
   * The plan and status caches outlive the rollback too: a row that fails its
   * validation (a missing field or an unknown state) leaves the committed tables
   * as they were, yet its plan and status stay cached; an entry the row created
   * names no committed plan or status.
   */
  lemma RejectedRowCaches(s: State, row: Row, idx: nat, tipos: map<string, int>, fails: Faults)
    requires CheckRow(row, idx + 2).Err?
    requires Attempt(Begin(s), row, idx, tipos, fails).failure == Some(CheckRow(row, idx + 2).error)
    ensures var r := RowStep(s, row, idx, tipos, fails);
      && r.db == s.db && row.plano in r.ctx.planos && row.status in r.ctx.statuses
      && r.ctx.erros == s.ctx.erros + [RowError(idx + 2, CheckRow(row, idx + 2).error)]
      && (IdsBelow(s.db, s.nextId) && row.plano !in s.ctx.planos ==>
            forall i :: 0 <= i < |r.db.planos| ==> r.db.planos[i].id != r.ctx.planos[row.plano])
      && (IdsBelow(s.db, s.nextId) && row.status !in s.ctx.statuses ==>
            forall i :: 0 <= i < |r.db.status| ==> r.db.status[i].id != r.ctx.statuses[row.status])
  {
    RejectedAttempt(Begin(s), row, idx, tipos, fails);
  }

  // ---- the caches against the tables ----------------------------------------------

  /** Every cached identifier names a customer row with that identifier and that id. */
  predicate ClientesSound(t: Tables, m: map<string, int>) {
    forall k :: k in m ==> exists i :: 0 <= i < |t.clientes| && t.clientes[i].cpfCnpj == k && t.clientes[i].id == m[k]
  }

  /** Every cached plan names a plan row with that description and that id. */
  predicate PlanosSound(t: Tables, m: map<string, int>) {
    forall k :: k in m ==> exists i :: 0 <= i < |t.planos| && t.planos[i].descricao == k && t.planos[i].id == m[k]
  }

  /** Every cached status names a status row with that text and that id. */
  predicate StatusSound(t: Tables, m: map<string, int>) {
    forall k :: k in m ==> exists i :: 0 <= i < |t.status| && t.status[i].status == k && t.status[i].id == m[k]
  }

  /** The three caches agree with the tables. */
  predicate Sound(t: Tables, c: Ctx) {
    ClientesSound(t, c.clienteIds) && PlanosSound(t, c.planos) && StatusSound(t, c.statuses)
  }

  /** Rows only appended keep the caches' witnesses in place. */
  lemma SoundExtends(a: Tables, b: Tables, c: Ctx)
    requires Sound(a, c) && Extends(a, b)
    ensures Sound(b, c)
  {
    forall k | k in c.clienteIds
      ensures exists i :: 0 <= i < |b.clientes| && b.clientes[i].cpfCnpj == k && b.clientes[i].id == c.clienteIds[k]
    {
      var i :| 0 <= i < |a.clientes| && a.clientes[i].cpfCnpj == k && a.clientes[i].id == c.clienteIds[k];
      assert b.clientes[i] == a.clientes[i];
    }
    forall k | k in c.planos
      ensures exists i :: 0 <= i < |b.planos| && b.planos[i].descricao == k && b.planos[i].id == c.planos[k]
    {
      var i :| 0 <= i < |a.planos| && a.planos[i].descricao == k && a.planos[i].id == c.planos[k];
      assert b.planos[i] == a.planos[i];
    }
    forall k | k in c.statuses
      ensures exists i :: 0 <= i < |b.status| && b.status[i].status == k && b.status[i].id == c.statuses[k]
    {
      var i :| 0 <= i < |a.status| && a.status[i].status == k && a.status[i].id == c.statuses[k];
      assert b.status[i] == a.status[i];
    }
  }

  /** The preloaded caches agree with the tables they were loaded from. */
  lemma InitialSound(db: Tables, nextId: int)
    ensures Sound(db, Initial(db, nextId).ctx)
  {
    var c := Initial(db, nextId).ctx;
    forall k | k in c.clienteIds
      ensures exists i :: 0 <= i < |db.clientes| && db.clientes[i].cpfCnpj == k && db.clientes[i].id == c.clienteIds[k]
    {
      FromPairsWitness(ClienteRows(db), k);
      var i :| 0 <= i < |db.clientes| && ClienteRows(db)[i] == (k, c.clienteIds[k]);
    }
    var ps := PlanoRows(db);
    var pkv := seq(|ps|, i requires 0 <= i < |ps| => (ps[i].1, ps[i].0));
    forall k | k in c.planos
      ensures exists i :: 0 <= i < |db.planos| && db.planos[i].descricao == k && db.planos[i].id == c.planos[k]
    {
      FromPairsWitness(pkv, k);
      var i :| 0 <= i < |pkv| && pkv[i] == (k, c.planos[k]);
      assert db.planos[i].descricao == k && db.planos[i].id == c.planos[k];
    }
    var ss := StatusRows(db);
    var skv := seq(|ss|, i requires 0 <= i < |ss| => (ss[i].1, ss[i].0));
    forall k | k in c.statuses
      ensures exists i :: 0 <= i < |db.status| && db.status[i].status == k && db.status[i].id == c.statuses[k]
    {
      FromPairsWitness(skv, k);
      var i :| 0 <= i < |skv| && skv[i] == (k, c.statuses[k]);
      assert db.status[i].status == k && db.status[i].id == c.statuses[k];
    }
  }

  /** The customer step keeps the caches in agreement with the working tables. */
  lemma ClientSound(w0: Work, row: Row, fails: Faults, txn: nat)
    requires w0.failure.None? && Sound(w0.t, w0.ctx)
    ensures var r := ClientStep(w0, row, fails, txn).0; Sound(r.t, r.ctx)
  {
    var (r, cid) := ClientStep(w0, row, fails, txn);
    ClientFrame(w0, row, fails, txn);
    SoundExtends(w0.t, r.t, w0.ctx);
    if NormalizeTaxId(row.cpfCnpj).Ok? && NormalizeTaxId(row.cpfCnpj).value !in w0.ctx.clienteIds && !fails(txn, w0.ops) {
      NewClientStep(w0, row, fails, txn);
      var cpf := NormalizeTaxId(row.cpfCnpj).value;
      var n := |w0.t.clientes|;
      forall k | k in r.ctx.clienteIds
        ensures exists i :: 0 <= i < |r.t.clientes| && r.t.clientes[i].cpfCnpj == k && r.t.clientes[i].id == r.ctx.clienteIds[k]
      {
        if k == cpf {
          assert r.t.clientes[n].cpfCnpj == k && r.t.clientes[n].id == r.ctx.clienteIds[k];
        } else {
          assert k in w0.ctx.clienteIds && r.ctx.clienteIds[k] == w0.ctx.clienteIds[k];
        }
      }
    }
  }

  /** The plan step keeps the caches in agreement with the working tables. */
  lemma PlanoSound(w: Work, row: Row, fails: Faults, txn: nat)
    requires w.failure.None? && Sound(w.t, w.ctx)
    ensures var r := PlanoStep(w, row, fails, txn); Sound(r.t, r.ctx)
  {
    var r := PlanoStep(w, row, fails, txn);
    PlanoFrame(w, row, fails, txn);
    SoundExtends(w.t, r.t, w.ctx);
    if row.plano !in w.ctx.planos && !fails(txn, w.ops) {
      var n := |w.t.planos|;
      assert r.t.planos == w.t.planos + [Plano(w.nextId, row.plano, row.planoValor)];
      assert r.ctx.planos == w.ctx.planos[row.plano := w.nextId];
      forall k | k in r.ctx.planos
        ensures exists i :: 0 <= i < |r.t.planos| && r.t.planos[i].descricao == k && r.t.planos[i].id == r.ctx.planos[k]
      {
        if k == row.plano {
          assert r.t.planos[n].descricao == k && r.t.planos[n].id == r.ctx.planos[k];
        } else {
          assert k in w.ctx.planos;
        }
      }
    }
  }

  /** The status step keeps the caches in agreement with the working tables. */
  lemma StatusSoundStep(w: Work, row: Row, fails: Faults, txn: nat)
    requires w.failure.None? && Sound(w.t, w.ctx)
    ensures var r := StatusStep(w, row, fails, txn); Sound(r.t, r.ctx)
  {
    var r := StatusStep(w, row, fails, txn);
    StatusFrame(w, row, fails, txn);
    SoundExtends(w.t, r.t, w.ctx);
    if row.status !in w.ctx.statuses && !fails(txn, w.ops) {
      var n := |w.t.status|;
      assert r.t.status == w.t.status + [StatusContrato(w.nextId, row.status)];
      assert r.ctx.statuses == w.ctx.statuses[row.status := w.nextId];
      forall k | k in r.ctx.statuses
        ensures exists i :: 0 <= i < |r.t.status| && r.t.status[i].status == k && r.t.status[i].id == r.ctx.statuses[k]
      {
        if k == row.status {
          assert r.t.status[n].status == k && r.t.status[n].id == r.ctx.statuses[k];
        } else {
          assert k in w.ctx.statuses;
        }
      }
    }
  }

  /** Within the row's transaction, every step keeps the caches in agreement with the working tables. */
  lemma AttemptSound(w0: Work, row: Row, idx: nat, tipos: map<string, int>, fails: Faults)
    requires w0.failure.None? && Sound(w0.t, w0.ctx)
    ensures var r := Attempt(w0, row, idx, tipos, fails); Sound(r.t, r.ctx)
  {
    var (w1, cid) := ClientStep(w0, row, fails, idx);
    ClientSound(w0, row, fails, idx);
    if w1.failure.None? {
      var w2 := ColumnsStep(w1, cid, row, ContactColumns, tipos, fails, idx);
      ColumnsFrame(w1, cid, row, ContactColumns, tipos, fails, idx);
      ExtendsContacts(w1.t, w2.t);
      SoundExtends(w1.t, w2.t, w1.ctx);
      if w2.failure.None? {
        var w3 := PlanoStep(w2, row, fails, idx);
        PlanoSound(w2, row, fails, idx);
        if w3.failure.None? {
          var w4 := StatusStep(w3, row, fails, idx);
          StatusSoundStep(w3, row, fails, idx);
          if w4.failure.None? {
            var r := ContractStep(w4, cid, row, idx + 2, fails, idx);
            ContractFrame(w4, cid, row, idx + 2, fails, idx);
            SoundExtends(w4.t, r.t, w4.ctx);
            assert Sound(r.t, r.ctx) by {
              assert r.ctx.clienteIds == w4.ctx.clienteIds && r.ctx.planos == w4.ctx.planos && r.ctx.statuses == w4.ctx.statuses;
            }
          }
        }
      }
    }
  }

  /**
   * A committed row keeps every cached id pointing at a committed row with its
   * key; this is what a rolled-back row can break (`StaleCache`).
   */
  lemma CommitSound(s: State, row: Row, idx: nat, tipos: map<string, int>, fails: Faults)
    requires Sound(s.db, s.ctx) && Commits(s, row, idx, tipos, fails)
    ensures var r := RowStep(s, row, idx, tipos, fails); Sound(r.db, r.ctx)
  {
    AttemptSound(Begin(s), row, idx, tipos, fails);
  }

  // ---- ids against the sequence -----------------------------------------------

  lemma IdsBelowMono(t: Tables, a: int, b: int)
    requires IdsBelow(t, a) && a <= b
    ensures IdsBelow(t, b)
  {
  }

  /** A statement keeps every id of the working tables below the sequence. */
  lemma ExecIdsBelow(w: Work, st: Stmt, fails: Faults, txn: nat)
    requires IdsBelow(w.t, w.nextId)
    ensures var r := Exec(w, st, fails, txn).0; IdsBelow(r.t, r.nextId)
  {
    if !fails(txn, w.ops) && Returning(st) {
      ApplyIdsBelow(w.t, st, w.nextId);
    }
  }

  lemma ClientIdsBelow(w0: Work, row: Row, fails: Faults, txn: nat)
    requires w0.failure.None? && IdsBelow(w0.t, w0.nextId)
    ensures var r := ClientStep(w0, row, fails, txn).0; IdsBelow(r.t, r.nextId)
  {
    match NormalizeTaxId(row.cpfCnpj)
    case Err(_) =>
    case Ok(cpf) =>
      if cpf !in w0.ctx.clienteIds {
        ExecIdsBelow(w0, InsertCliente(row.nome, row.fantasia, cpf, row.nasc, row.cadastro), fails, txn);
      }
  }

  lemma ContractIdsBelow(w: Work, cid: int, row: Row, linha: int, fails: Faults, txn: nat)
    requires w.failure.None? && row.plano in w.ctx.planos && row.status in w.ctx.statuses
    requires IdsBelow(w.t, w.nextId)
    ensures var r := ContractStep(w, cid, row, linha, fails, txn); IdsBelow(r.t, r.nextId)
  {
    match CheckRow(row, linha)
    case Err(_) =>
    case Ok(uf) =>
      ExecIdsBelow(w, InsertContrato(ContractOf(cid, row, w.ctx.planos[row.plano], w.ctx.statuses[row.status],
                                                row.vencimento.value, row.cep.value, uf)), fails, txn);
  }

  lemma PlanoIdsBelow(w: Work, row: Row, fails: Faults, txn: nat)
    requires w.failure.None? && IdsBelow(w.t, w.nextId)
    ensures var r := PlanoStep(w, row, fails, txn); IdsBelow(r.t, r.nextId)
  {
    if row.plano !in w.ctx.planos {
      ExecIdsBelow(w, InsertPlano(row.plano, row.planoValor), fails, txn);
    }
  }

  lemma StatusIdsBelow(w: Work, row: Row, fails: Faults, txn: nat)
    requires w.failure.None? && IdsBelow(w.t, w.nextId)
    ensures var r := StatusStep(w, row, fails, txn); IdsBelow(r.t, r.nextId)
  {
    if row.status !in w.ctx.statuses {
      ExecIdsBelow(w, InsertStatus(row.status), fails, txn);
    }
  }

  lemma RestIdsBelow(w1: Work, cid: int, row: Row, idx: nat, tipos: map<string, int>, fails: Faults)
    requires w1.failure.None? && IdsBelow(w1.t, w1.nextId)
    ensures var r := Rest(w1, cid, row, idx, tipos, fails); IdsBelow(r.t, r.nextId)
  {
    var w2 := ColumnsStep(w1, cid, row, ContactColumns, tipos, fails, idx);
    ColumnsFrame(w1, cid, row, ContactColumns, tipos, fails, idx);
    assert IdsBelow(w2.t, w2.nextId);
    if w2.failure.None? {
      var w3 := PlanoStep(w2, row, fails, idx);
      PlanoIdsBelow(w2, row, fails, idx);
      if w3.failure.None? {
        var w4 := StatusStep(w3, row, fails, idx);
        StatusIdsBelow(w3, row, fails, idx);
        if w4.failure.None? {
          ContractIdsBelow(w4, cid, row, idx + 2, fails, idx);
        }
      }
    }
  }

  lemma AttemptIdsBelow(w0: Work, row: Row, idx: nat, tipos: map<string, int>, fails: Faults)
    requires w0.failure.None? && IdsBelow(w0.t, w0.nextId)
    ensures var w := Attempt(w0, row, idx, tipos, fails); IdsBelow(w.t, w.nextId)
  {
    var (w1, cid) := ClientStep(w0, row, fails, idx);
    ClientIdsBelow(w0, row, fails, idx);
    if w1.failure.None? {
      RestIdsBelow(w1, cid, row, idx, tipos, fails);
    }
  }

  /**
   * One row keeps every committed id below the sequence: a committed insert
   * drew its id from it, and a rollback keeps the sequence where it got to.
   */
  lemma RowIdsBelow(s: State, row: Row, idx: nat, tipos: map<string, int>, fails: Faults)
    requires IdsBelow(s.db, s.nextId)
    ensures var r := RowStep(s, row, idx, tipos, fails); IdsBelow(r.db, r.nextId)
  {
    AttemptIdsBelow(Begin(s), row, idx, tipos, fails);
    OutcomeFrame(s, row, idx, tipos, fails);
    var w := Outcome(s, row, idx, tipos, fails);
    if w.failure.Some? {
      IdsBelowMono(s.db, s.nextId, w.nextId);
    }
  }

  lemma LastRowIdsBelow(s: State, rows: seq<Row>, tipos: map<string, int>, fails: Faults)
    requires rows != []
    requires var m := RunRows(s, rows[..|rows| - 1], tipos, fails); IdsBelow(m.db, m.nextId)
    ensures var r := RunRows(s, rows, tipos, fails); IdsBelow(r.db, r.nextId)
  {
    RowIdsBelow(RunRows(s, rows[..|rows| - 1], tipos, fails), rows[|rows| - 1], |rows| - 1, tipos, fails);
  }

  /**
   * Over a whole run the committed ids stay below the sequence, so the
   * hypothesis of `StaleCache` and `RejectedRowCaches` holds before every row.
   */
  lemma {:induction false} RunIdsBelow(s: State, rows: seq<Row>, tipos: map<string, int>, fails: Faults)
    requires IdsBelow(s.db, s.nextId)
    ensures var r := RunRows(s, rows, tipos, fails); IdsBelow(r.db, r.nextId)
    decreases |rows|
  {
    if rows != [] {
      RunIdsBelow(s, rows[..|rows| - 1], tipos, fails);
      LastRowIdsBelow(s, rows, tipos, fails);
    }
  }

  // ---- the whole loop ---------------------------------------------------------

  /**
   * From `a` to `b` the caches and tables only grew, the id sequence did not go
   * back, and each counter rose by at most `n`.
   */
  predicate Grown(a: State, b: State, n: nat) {
    && CtxGrows(a.ctx, b.ctx) && Extends(a.db, b.db) && a.nextId <= b.nextId
    && b.ctx.importedClientes <= a.ctx.importedClientes + n
    && b.ctx.importedContratos <= a.ctx.importedContratos + n
  }

  lemma GrownTrans(a: State, b: State, c: State, m: nat, n: nat)
    requires Grown(a, b, m) && Grown(b, c, n)
    ensures Grown(a, c, m + n)
  {
    ExtendsTrans(a.db, b.db, c.db);
  }

  /** The last row of a run grows what the rows before it left by at most one of each counter. */
  lemma LastRowGrows(s: State, rows: seq<Row>, tipos: map<string, int>, fails: Faults)
    requires rows != []
    ensures Grown(RunRows(s, rows[..|rows| - 1], tipos, fails), RunRows(s, rows, tipos, fails), 1)
  {
    RowFrame(RunRows(s, rows[..|rows| - 1], tipos, fails), rows[|rows| - 1], |rows| - 1, tipos, fails);
  }

  /**
   * The whole loop: the committed tables and the run context only grow, and
   * each counter rises at most once per row.
   */
  lemma {:induction false} RunGrows(s: State, rows: seq<Row>, tipos: map<string, int>, fails: Faults)
    ensures Grown(s, RunRows(s, rows, tipos, fails), |rows|)
    decreases |rows|
  {
    if rows == [] {
      assert Extends(s.db, s.db);
    } else {
      var init := rows[..|rows| - 1];
      RunGrows(s, init, tipos, fails);
      LastRowGrows(s, rows, tipos, fails);
      GrownTrans(s, RunRows(s, init, tipos, fails), RunRows(s, rows, tipos, fails), |init|, 1);
    }
  }

  /**
   * Between any two points of a run the committed tables and the run context
   * only grew: a row committed early is never undone by a later row, and a
   * cache entry made early is still there, with the same id, later on.
   */
  lemma {:induction false} RunSegmentGrows(s: State, rows: seq<Row>, i: nat, j: nat, tipos: map<string, int>, fails: Faults)
    requires i <= j <= |rows|
    ensures Grown(RunRows(s, rows[..i], tipos, fails), RunRows(s, rows[..j], tipos, fails), j - i)
    decreases j - i
  {
    var a := RunRows(s, rows[..i], tipos, fails);
    if i == j {
      assert Extends(a.db, a.db);
    } else {
      RunSegmentGrows(s, rows, i, j - 1, tipos, fails);
      assert rows[..j][..j - 1] == rows[..j - 1];
      LastRowGrows(s, rows[..j], tipos, fails);
      GrownTrans(a, RunRows(s, rows[..j - 1], tipos, fails), RunRows(s, rows[..j], tipos, fails), j - 1 - i, 1);
    }
  }

  /**
   * Any two rows `i < j` of a run with the same identifier, new when row `i`
   * starts: row `i` caches it with the id it draws and counts one customer;
   * that entry is still cached when row `j` starts; row `j` inserts and counts
   * no customer, and its contract, if committed, carries the id row `i` drew.
   */
  lemma SameIdentifierInRun(s: State, rows: seq<Row>, i: nat, j: nat, tipos: map<string, int>, fails: Faults)
    requires i < j < |rows|
    requires NormalizeTaxId(rows[i].cpfCnpj).Ok? && NormalizeTaxId(rows[j].cpfCnpj) == NormalizeTaxId(rows[i].cpfCnpj)
    requires NormalizeTaxId(rows[i].cpfCnpj).value !in RunRows(s, rows[..i], tipos, fails).ctx.clienteIds
    requires !fails(i, 0)
    ensures var cpf := NormalizeTaxId(rows[i].cpfCnpj).value;
      && var start := RunRows(s, rows[..i], tipos, fails);
      && var first := RunRows(s, rows[..i + 1], tipos, fails);
      && var before := RunRows(s, rows[..j], tipos, fails);
      && var after := RunRows(s, rows[..j + 1], tipos, fails);
      && first.ctx.importedClientes == start.ctx.importedClientes + 1
      && cpf in before.ctx.clienteIds && before.ctx.clienteIds[cpf] == start.nextId
      && after.ctx.clienteIds == before.ctx.clienteIds && after.ctx.importedClientes == before.ctx.importedClientes
      && after.db.clientes == before.db.clientes
      && (Commits(before, rows[j], j, tipos, fails) ==>
            |after.db.contratos| == |before.db.contratos| + 1 && after.db.contratos[|before.db.contratos|].clienteId == start.nextId)
  {
    var cpf := NormalizeTaxId(rows[i].cpfCnpj).value;
    var start := RunRows(s, rows[..i], tipos, fails);
    var first := RunRows(s, rows[..i + 1], tipos, fails);
    var before := RunRows(s, rows[..j], tipos, fails);
    RunRowsPrefix(s, rows, i, tipos, fails);
    NewClientRow(start, rows[i], i, tipos, fails);
    assert first.ctx.clienteIds[cpf] == start.nextId;
    RunSegmentGrows(s, rows, i + 1, j, tipos, fails);
    assert Keeps(first.ctx.clienteIds, before.ctx.clienteIds);
    assert cpf in before.ctx.clienteIds && before.ctx.clienteIds[cpf] == start.nextId;
    RunRowsPrefix(s, rows, j, tipos, fails);
    KnownClientRow(before, rows[j], j, tipos, fails);
    if Commits(before, rows[j], j, tipos, fails) {
      CommittedContract(before, rows[j], j, tipos, fails);
    }
  }

  /** A row leaves the error list as it was or appends one error, at the row's line. */
  lemma RowErrors(s: State, row: Row, idx: nat, tipos: map<string, int>, fails: Faults)
    ensures var e := s.ctx.erros; var e2 := RowStep(s, row, idx, tipos, fails).ctx.erros;
      e2 == e || (|e2| == |e| + 1 && e2[..|e|] == e && e2[|e|].linha == idx + 2)
  {
    RowFrame(s, row, idx, tipos, fails);
  }

  /** The last row of a run leaves the error list as the rows before it left it, or appends one error, at its own line. */
  lemma LastRowErrors(s: State, rows: seq<Row>, tipos: map<string, int>, fails: Faults)
    requires rows != []
    ensures var e := RunRows(s, rows[..|rows| - 1], tipos, fails).ctx.erros;
      var e2 := RunRows(s, rows, tipos, fails).ctx.erros;
      e2 == e || (|e2| == |e| + 1 && e2[..|e|] == e && e2[|e|].linha == |rows| + 1)
  {
    RowErrors(RunRows(s, rows[..|rows| - 1], tipos, fails), rows[|rows| - 1], |rows| - 1, tipos, fails);
  }

  /** The errors from index `base` on sit on lines 2 to `hi`, in strictly increasing line order. */
  predicate InLineOrder(e: seq<RowError>, base: nat, hi: int) {
    && (forall j :: base <= j < |e| ==> 2 <= e[j].linha <= hi)
    && (forall j, k :: base <= j < k < |e| ==> e[j].linha < e[k].linha)
  }

  /**
   * Adding at most one error, at line `n + 2`, to errors that extend `e0` by at
   * most `n` entries on lines 2 to `n + 1` in increasing order keeps all of that,
   * with one entry and one line more.
   */
  lemma ErrorsAppend(e0: seq<RowError>, e: seq<RowError>, e2: seq<RowError>, n: nat)
    requires e0 <= e && |e| <= |e0| + n && InLineOrder(e, |e0|, n + 1)
    requires e2 == e || (|e2| == |e| + 1 && e2[..|e|] == e && e2[|e|].linha == n + 2)
    ensures e0 <= e2 && |e2| <= |e0| + n + 1 && InLineOrder(e2, |e0|, n + 2)
  {
    forall j | |e0| <= j < |e2| ensures 2 <= e2[j].linha <= n + 2 {
      if j < |e| {
        assert e2[j] == e[j];
      }
    }
    forall j, k | |e0| <= j < k < |e2| ensures e2[j].linha < e2[k].linha {
      assert e2[j] == e[j];
      if k < |e| {
        assert e2[k] == e[k];
      }
    }
  }

  /**
   * The errors of the whole loop: each row adds at most one, at its own line
   * (2 to `|rows| + 1`), so they come out in line order; earlier errors stay.
   */
  lemma {:induction false} RunErrors(s: State, rows: seq<Row>, tipos: map<string, int>, fails: Faults)
    ensures var r := RunRows(s, rows, tipos, fails);
      && s.ctx.erros <= r.ctx.erros && |r.ctx.erros| <= |s.ctx.erros| + |rows|
      && InLineOrder(r.ctx.erros, |s.ctx.erros|, |rows| + 1)
    decreases |rows|
  {
    if rows != [] {
      var init := rows[..|rows| - 1];
      RunErrors(s, init, tipos, fails);
      LastRowErrors(s, rows, tipos, fails);
      ErrorsAppend(s.ctx.erros, RunRows(s, init, tipos, fails).ctx.erros, RunRows(s, rows, tipos, fails).ctx.erros, |init|);
    }
  }
}
