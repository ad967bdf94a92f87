# Spreadsheet importer of customers, contacts and contracts — Dafny model

`Teste/importador.py` reads a spreadsheet of customer contracts and loads it into a
PostgreSQL database. It first preloads three lookup tables (plans, contract statuses,
contact types) and the existing customers, keyed by CPF/CNPJ. Then it handles each row
in its own transaction:

- normalise the CPF/CNPJ and reject it unless it has 11 or 14 digits;
- reuse the cached customer id, or insert the customer and cache the new id;
- split the three contact columns on `;` and `,` and insert each piece, ignoring duplicates;
- insert the plan or status when the cache does not know it yet;
- check the mandatory fields and map the state name to its two-letter code;
- insert the contract and commit.

Any exception rolls back the row's tables and records the spreadsheet line and the
reason in the error list.

The model has two layers:

- **Specification functions.** These are pure functions of the state (module `Engine`).
  A `State` holds the committed `Tables`, the id sequence `nextId`, and the run context
  `Ctx`. The run context is made of the three caches, the two counters and the error
  list. Inside a row a `Work` value also carries the working tables, the number of
  statements issued and the failure raised, if any.
- **Imperative layer.** It mirrors the script's structure, with the corrected identifier check. Class `Database.Connection`
  holds the working and committed tables, the sequence and a transaction counter. Class
  `Importer.Importer` holds the caches, counters and error list as fields that its
  methods update. Every method is proved equal to its specification function, and
  `Importer.Importer.Run` is proved equal to `Engine.RunRows`.

The lemmas of `EngineProps` state what a row does in each case. A key point is the
asymmetry the source has: a rollback restores the tables, but not the caches, the
counters or the sequence.

The database's own failures cannot be predicted from the source, so they are a
parameter. `fails(txn, k)` says whether the `k`-th statement of the `txn`-th row's
transaction raises `psycopg2.DatabaseError`; the commit counts as a statement.

Pure text handling lives in its own modules:

- `Text`: Python `strip()` and `replace()`;
- `TaxId`: the CPF/CNPJ normaliser;
- `Contacts`: `re.split('[;,]')` followed by dropping blank pieces;
- `States`: `UF_MAP`;
- `Mapping`: the dictionary comprehensions;
- `Fields`: the mandatory-field loop, CEP cleaning and the `isento` flag.

## Model

| member | source | states |
|---|---|---|
| Text.Strip | Teste/importador.py:94 | the result is no longer than the input and has no whitespace at either end |
| Text.StripInfix | Teste/importador.py:94 | the result is a contiguous slice of the input, with only whitespace before and after it |
| Text.StripIdempotent | Teste/importador.py:140-142 | stripping twice is stripping once |
| Text.StripExact | Teste/importador.py:94 | whitespace around a bordered text is exactly what `strip()` removes |
| Text.RemoveChar | Teste/importador.py:91-93 | `replace(c, "")` leaves no `c` in the result |
| Text.RemoveCharConcat | Teste/importador.py:91-93 | removing a character distributes over concatenation |
| TaxId.NormalizeTaxId | Teste/importador.py:89-97 | accepted iff the cleaned text is all digits with length 11 or 14; the value accepted is that cleaned text; a rejection carries the cleaned text the message quotes |
| TaxId.CleanShape | Teste/importador.py:89-95 | the cleaned identifier has no `.`, `-` or `/` and no whitespace at either end |
| TaxId.SeparatorInsensitive | Teste/importador.py:91-93 | inserting a separator anywhere does not change the verdict or the identifier |
| TaxId.NormalizeIdempotent | Teste/importador.py:89-97 | normalising an accepted identifier again gives the same identifier |
| TaxId.DigitsAccepted | Teste/importador.py:96 | a digit string is accepted exactly when its length is 11 or 14, and then unchanged |
| TaxId.CpfRoundTrip | Teste/importador.py:89-97 | a CPF masked as `ddd.ddd.ddd-dd` normalises back to its 11 digits |
| TaxId.CnpjRoundTrip | Teste/importador.py:89-97 | a CNPJ masked as `dd.ddd.ddd/dddd-dd` normalises back to its 14 digits |
| TaxId.NormalizeTaxIdAsWritten | Teste/importador.py:89-97 | the check as written with `isdigit()`: accepted iff every character of the cleaned text is a digit and its length is 11 or 14; the value accepted and the error quoted are the cleaned text; it agrees with the corrected check whenever that one accepts |
| TaxId.FullWidthDigitsAccepted | Teste/importador.py:96 | an 11-character CPF in full-width digits is accepted as written and rejected by the corrected check |
| Contacts.SplitSeps | Teste/importador.py:141 | `re.split(r'[;,]')` yields at least one piece, and no piece contains a separator |
| Contacts.SplitJoin | Teste/importador.py:141 | splitting pieces joined by `;` gives back those pieces |
| Contacts.SplitSepsConcat | Teste/importador.py:141 | splitting around one separator is the concatenation of the two halves' splits |
| Contacts.Keep | Teste/importador.py:142-143 | each kept piece is stripped and non-empty, and no more pieces are kept than were split |
| Contacts.KeepConcat | Teste/importador.py:141-143 | filtering blank pieces distributes over concatenation |
| Contacts.OuterStripRedundant | Teste/importador.py:140-143 | the outer `strip()` of the cell does not change the contacts inserted |
| Contacts.SplitContactsShape | Teste/importador.py:134-143 | a missing cell yields no contact; every contact is non-empty, stripped and free of separators |
| Contacts.SplitContactsConcat | Teste/importador.py:140-143 | a cell of two parts around a separator yields the contacts of each part in order |
| Contacts.TwoNumbers | Teste/importador.py:140-143 | `"a;b"` of two digit strings yields exactly `[a, b]` |
| States.ResolveUf | Teste/importador.py:180-183 | `Ok` exactly when the stripped name is a key of `UF_MAP`, with its code; otherwise the error quotes the stripped name |
| States.CodesWellFormed | Teste/importador.py:14-24 | every code in `UF_MAP` is two upper-case letters |
| States.NamesLettered | Teste/importador.py:14-24 | every state name in `UF_MAP` starts with an upper-case letter and ends with a lower-case one, so none has whitespace to strip |
| States.ResolveKnown | Teste/importador.py:180-181 | a known state name with whitespace around it resolves to its code |
| Mapping.FromPairs | Teste/importador.py:33 | the dictionary's keys are exactly the first components of the pairs |
| Mapping.LastWins | Teste/importador.py:33 | a key is mapped to the value of its last occurrence |
| Mapping.FromPairsWitness | Teste/importador.py:33 | every entry of the dictionary comes from one of the pairs |
| Mapping.LoadMappingSpec | Teste/importador.py:26-33 | `carregar_mapeamento`'s keys are the descriptions, and each one maps to the id of its last row |
| Fields.FirstMissing | Teste/importador.py:175-177 | `None` iff every listed field is present; otherwise the first absent one |
| Fields.CheckMandatory | Teste/importador.py:175-177 | the loop over the mandatory fields reports the first missing field, or none |
| Fields.MandatoryOrder | Teste/importador.py:175-177 | Vencimento is reported before CEP, and CEP before UF |
| Fields.CleanCep | Teste/importador.py:208 | the stored CEP has no `-` and no whitespace at either end |
| Fields.CepRoundTrip | Teste/importador.py:208 | a CEP written `ddddd-ddd` is stored as its digits |
| Schema.ContactInsertIdempotent | Teste/importador.py:145-153 | inserting the same contact twice equals inserting it once (`ON CONFLICT DO NOTHING`) |
| Schema.ApplyIdsBelow | Teste/importador.py:112-127 | ids drawn from the sequence stay below its next value |
| Engine.PartsStuck | Teste/importador.py:141-153 | once a contact insert fails, the remaining pieces of the cell change nothing |
| Engine.ColumnsStuck | Teste/importador.py:132-153 | once a contact column fails, the remaining columns change nothing |
| Engine.PlanoStep | Teste/importador.py:160-165 | a known plan changes nothing; an unknown plan appends exactly one row `Plano(nextId, plano, Plano Valor)`, caches that id and advances the sequence; a failed insert is a database failure that changes neither tables, sequence nor caches; earlier cache entries are kept; the other caches, the counters and the error list are unchanged |
| Engine.StatusStep | Teste/importador.py:167-172 | a known status changes nothing; an unknown status appends exactly one row `StatusContrato(nextId, status)`, caches that id and advances the sequence; a failed insert is a database failure that changes neither tables, sequence nor caches; the other caches, the counters and the error list are unchanged |
| Engine.CheckRow | Teste/importador.py:174-183 | passes iff no mandatory field is missing and the state name is known; on success it yields that state's code; on failure the error is the first missing field or the stripped unknown name with the row's line |
| Database.Connection.constructor | Teste/importador.py:46-48 | a new connection has both table views equal to the database, and no statements yet |
| Database.Connection.Execute | Teste/importador.py:112-127 | a statement either fails and leaves the tables unchanged, or applies to them and draws an id when it returns one |
| Database.Connection.Commit | Teste/importador.py:214 | a successful commit makes the working tables the committed ones and starts the next transaction; a failed commit changes neither |
| Database.Connection.Rollback | Teste/importador.py:217 | the working tables return to the last committed ones and the next transaction starts; the sequence is not rolled back |
| Importer.Importer.constructor | Teste/importador.py:54-71 | the run starts from the preloaded caches (`Engine.Initial`) with zero counters and no errors |
| Importer.Importer.ResolveCliente | Teste/importador.py:89-129 | the identifier check and the customer lookup or insert equal `Engine.ClientStep` |
| Importer.Importer.InsertCell | Teste/importador.py:140-153 | the loop over one cell's pieces equals `Engine.PartsStep` on the split of the stripped cell |
| Importer.Importer.InsertColumn | Teste/importador.py:133-153 | one contact column equals `Engine.ColumnStep` |
| Importer.Importer.InsertContacts | Teste/importador.py:132-153 | the loop over the three contact columns equals `Engine.ColumnsStep` |
| Importer.Importer.ResolvePlano | Teste/importador.py:160-165 | equals `Engine.PlanoStep` |
| Importer.Importer.ResolveStatus | Teste/importador.py:167-172 | equals `Engine.StatusStep` |
| Importer.Importer.InsertContrato | Teste/importador.py:189-213 | the contract insert and the counter increment equal `Engine.InsertStep` |
| Importer.Importer.AddContract | Teste/importador.py:174-213 | validation, UF mapping and the contract insert equal `Engine.ContractStep` |
| Importer.Importer.TryRow | Teste/importador.py:88-213 | the statements of one row equal `Engine.Attempt` |
| Importer.Importer.ImportRow | Teste/importador.py:86-224 | one iteration (commit, or rollback and an error entry) equals `Engine.RowStep` and leaves the connection ready for the next row |
| Importer.Importer.Run | Teste/importador.py:85-224 | the whole loop equals `Engine.RunRows` over the rows in order |
| EngineProps.PartsAdds | Teste/importador.py:141-153 | a cell that succeeds adds exactly its kept pieces, as contacts of the column's type, to the contact table |
| EngineProps.ColumnsAdds | Teste/importador.py:132-153 | contact columns that succeed add exactly the planned contacts of all three columns |
| EngineProps.ExecFrame | Teste/importador.py:112-212 | a statement only extends the tables, touches only its own table, keeps the run context, and draws an id only when it returns one |
| EngineProps.InsertAdds | Teste/importador.py:189-213 | a successful contract insert appends the contract and counts it; a failed one is a database failure and counts nothing |
| EngineProps.ContractAdds | Teste/importador.py:174-213 | a contract step fails only with a database failure or the validation error; on success it appends the contract built from the row |
| EngineProps.RestFailure | Teste/importador.py:132-213 | after the customer step, a row fails only for a missing contact type, a database failure or a validation error |
| EngineProps.RestAdds | Teste/importador.py:132-213 | after the customer step, a successful row adds exactly the planned contacts and exactly one contract |
| EngineProps.ClientFrame | Teste/importador.py:99-129 | the customer step keeps the cached ids, touches only the customer table, and on success yields the cached id of the normalised identifier |
| EngineProps.ClientFailure | Teste/importador.py:96-129 | the customer step fails only with the invalid-identifier error or a database failure |
| EngineProps.OutcomeFrame | Teste/importador.py:88-214 | the whole `try` block, commit included, only adds to the tables and the run context, records no error, and raises each counter by at most one |
| EngineProps.RowFrame | Teste/importador.py:85-224 | a row only grows the caches and tables and raises each counter by at most one; a failed row leaves the committed tables unchanged and appends one error for line `idx + 2` |
| EngineProps.InvalidTaxIdRow | Teste/importador.py:96-97 | a row with an invalid CPF/CNPJ changes nothing but appending that error for its line |
| EngineProps.CommittedRow | Teste/importador.py:99-214 | a committed row adds exactly its planned contacts and one contract, counts it, and records no error |
| EngineProps.CommittedContract | Teste/importador.py:186-212 | the committed contract's fields, one by one: ids from the caches, due date, exemption flag, address, cleaned CEP, state code |
| EngineProps.KnownClientRow | Teste/importador.py:99-100 | a cached identifier inserts no customer and counts none |
| EngineProps.NewClientRow | Teste/importador.py:101-129 | a new identifier is cached with the next sequence id and counted, even when the row later rolls back; the customer row is kept only on commit |
| EngineProps.StaleCache | Teste/importador.py:128-129 | when the row that cached a new customer rolls back, the cached id names no committed customer |
| EngineProps.SameIdentifierTwice | Teste/importador.py:99-129 | two consecutive rows with the same identifier count and cache one customer, and the second row's contract references it |
| EngineProps.SameIdentifierInRun | Teste/importador.py:85-129 | any two rows `i < j` of a run with the same identifier: row `i` caches the id it draws and counts one customer, the entry survives the rows between, and row `j` inserts and counts no customer and its committed contract references that id |
| EngineProps.RowOutcome | Teste/importador.py:213-224 | a counted contract implies a valid identifier and valid fields; a failed row appends exactly one error, whose reason is one of the row's possible failures |
| EngineProps.MissingFieldRow | Teste/importador.py:175-177 | a row missing a mandatory field never commits or counts a contract, and its error is that field unless an earlier step failed |
| EngineProps.UnknownUfRow | Teste/importador.py:180-183 | a row with an unknown state name never commits or counts a contract, and its error quotes the name and line unless an earlier step failed |
| EngineProps.RejectedRowCaches | Teste/importador.py:160-221 | a row that fails validation after its plan and status steps is rolled back and logged with its validation error, yet its plan and status stay cached; a plan or status it created has an id that no committed row has |
| EngineProps.CountedWithoutCommit | Teste/importador.py:213-214 | when the commit fails, the contract is still counted while the tables are rolled back and a database error is recorded |
| EngineProps.InitialSound | Teste/importador.py:60-71 | the preloaded caches agree with the tables they were loaded from |
| EngineProps.ClientSound | Teste/importador.py:99-129 | the customer step keeps the caches in agreement with the working tables |
| EngineProps.PlanoSound | Teste/importador.py:160-165 | the plan step keeps the caches in agreement with the working tables |
| EngineProps.StatusSoundStep | Teste/importador.py:167-172 | the status step keeps the caches in agreement with the working tables |
| EngineProps.AttemptSound | Teste/importador.py:88-213 | a whole row attempt keeps the caches in agreement with the working tables |
| EngineProps.CommitSound | Teste/importador.py:214 | after a committed row, the caches agree with the committed tables |
| EngineProps.RowIdsBelow | Teste/importador.py:86-224 | every committed customer, plan and status id stays below the sequence's next value across one row, committed or rolled back |
| EngineProps.RunIdsBelow | Teste/importador.py:85-224 | the same holds after any number of rows, so the stale-cache lemmas apply before every row |
| EngineProps.RunGrows | Teste/importador.py:85-224 | over a run the caches and tables only grow, and each counter rises by at most the number of rows |
| EngineProps.RunSegmentGrows | Teste/importador.py:85-224 | between any two points of a run the committed tables and caches only grow: a committed row is never undone by a later row and a cached id never changes |
| EngineProps.RunErrors | Teste/importador.py:85-86 | the error list is only appended to, by at most one entry per row, with lines between 2 and the row count + 1, in strictly increasing order |

## Left out

- Reading the spreadsheet (`pd.read_excel`) and connecting to PostgreSQL, with their early returns (lines 37-52): the rows and the initial tables are parameters.
- The three preload queries failing (lines 59-75): the model starts after a successful preload.
- `cursor.close()`, `conn.close()` and the printed summary (lines 226-238): output only; the counters and the error list it prints are modelled.
- `DB_CONFIG`: connection settings only.
- Which database statement fails is a parameter (`fails`), because PostgreSQL's constraint checks and locks are not part of the source. It covers only failures that leave the connection usable.
- A broken connection: then `conn.rollback()` in the `except` clauses (lines 216-224) itself raises, which escapes the loop and ends `main()` before the summary is printed. `Database.Connection.Rollback` never fails, so `Engine.RunRows` always processes every row.
- One id counter (`nextId`) stands for the three tables' own sequences, and a failed insert draws no id from it. PostgreSQL consumes a `nextval` even on a failed insert and numbers each table separately. No lemma depends on the exact ids beyond their freshness.
- Engine.ClientStep and Importer.Importer.ResolveCliente run the corrected ASCII-only check `TaxId.NormalizeTaxId`, not the `isdigit()` check as written (see Findings). A CPF/CNPJ in non-ASCII digits, which the script inserts as a customer, is recorded by the model as `InvalidTaxId`.
- Date coercion with `pd.to_datetime(..., errors='coerce')` (lines 102-109): a date is an opaque optional string that is already coerced.
- Integral floats turned into `int` before `str()` (lines 137-138): a contact cell is the text `str()` would print.
- Plan and status cells that are NaN (lines 157-158): every plan and status cell is modelled as text. For an empty cell, the dictionary lookups at lines 160 and 167 depend on the identity of the NaN object pandas supplies, and the INSERT depends on how the database driver adapts a float into a text column; neither is modelled.
- `str()` of non-text cells (CPF/CNPJ, UF, CEP): each cell is the string `str()` produces.
- Error message wording: each error keeps the data its message quotes (`Engine.Failure`), not the text or the `except` clause that formats it.
- `TaxId.NormalizeTaxIdAsWritten`: models `isdigit()` on the ASCII digits, superscripts one to three, and the Arabic-Indic, Devanagari and full-width digit blocks. Python accepts more characters with a digit value.
- Concurrency and other clients of the database: the model assumes one importer per database.
- Run-level cache soundness: this holds only while rows commit. After a rollback a cached customer id can name no row (`EngineProps.StaleCache`), so no whole-run soundness lemma is stated.

## Findings

| source | as written | input that shows it | evidently intended | confidence | as-written member | corrected member |
|---|---|---|---|---|---|---|
| Teste/importador.py:96 | `cpf_cnpj.isdigit()` accepts any Unicode digit, such as full-width, Arabic-Indic or superscript digits | the CPF `12345678901` typed in full-width digits (U+FF11 … U+FF10 U+FF11) is accepted and stored under a second identifier beside its ASCII spelling | accept only the ASCII digits 0-9 | not executed; medium | TaxId.NormalizeTaxIdAsWritten, TaxId.FullWidthDigitsAccepted | TaxId.NormalizeTaxId |
