/**
 * The PostgreSQL connection as the row loop uses it (`autocommit = False`):
 * statements change the open transaction's tables, `commit` makes them durable,
 * `rollback` restores the last committed tables. The id sequence is not
 * transactional: ids drawn by a rolled-back insert are not handed out again.
 */
module Database {
  import opened Schema

  class Connection {
    var committed: Tables  // what the last commit made durable
    var tables: Tables     // what the open transaction sees
    var nextId: int        // the next id the sequences hand out
    var txn: nat           // transactions ended so far (commits and rollbacks)
    var ops: nat           // statements issued in the open transaction
    const fails: Faults

    constructor (db: Tables, firstId: int, fails: Faults)
      ensures committed == db && tables == db && nextId == firstId
      ensures txn == 0 && ops == 0 && this.fails == fails
    {
      committed, tables, nextId := db, db, firstId;
      txn, ops := 0, 0;
      this.fails := fails;
    }

    /** `cursor.execute(st)`; `id` is what `RETURNING id` yields when the statement has it. */
    method Execute(st: Stmt) returns (ok: bool, id: int)
      modifies this`tables, this`nextId, this`ops
      ensures ok == !fails(txn, old(ops)) && ops == old(ops) + 1 && id == old(nextId)
      ensures tables == (if ok then Apply(old(tables), st, old(nextId)) else old(tables))
      ensures nextId == (if ok && Returning(st) then old(nextId) + 1 else old(nextId))
    {
      ok := !fails(txn, ops);
      id := nextId;
      if ok {
        tables := Apply(tables, st, nextId);
        if Returning(st) {
          nextId := nextId + 1;
        }
      }
      ops := ops + 1;
    }

    /** `conn.commit()`: on success the open transaction's tables become durable. */
    method Commit() returns (ok: bool)
      modifies this`committed, this`txn, this`ops
      ensures ok == !fails(old(txn), old(ops))
      ensures ok ==> committed == tables && txn == old(txn) + 1 && ops == 0
      ensures !ok ==> committed == old(committed) && txn == old(txn) && ops == old(ops) + 1
    {
      ok := !fails(txn, ops);
      if ok {
        committed := tables;
        txn, ops := txn + 1, 0;
      } else {
        ops := ops + 1;
      }
    }

    /** `conn.rollback()`: the open transaction's writes are discarded; on a usable connection it does not fail. */
    method Rollback()
      modifies this`tables, this`txn, this`ops
      ensures tables == committed && txn == old(txn) + 1 && ops == 0
    {
      tables := committed;
      txn, ops := txn + 1, 0;
    }
  }
}
