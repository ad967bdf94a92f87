/**
 * The spreadsheet row and the database tables the importer writes, as values.
 * Tables are modelled abstractly: rows in insertion order, contacts as a set
 * (the `ON CONFLICT (cliente_id, tipo_contato_id, contato) DO NOTHING` insert),
 * and generated ids passed in from the outside.
 */
module Schema {
  import opened Types

  /**
   * One spreadsheet row: one field per column the importer reads. A missing cell
   * is `None`. The two dates are the values after `pd.to_datetime(..., errors='coerce')`,
   * kept opaque.
   */
  datatype Row = Row(
    nome: Option<string>,        // Nome/Razão Social
    fantasia: Option<string>,    // Nome Fantasia
    cpfCnpj: string,             // CPF/CNPJ, as `str()` renders the cell
    nasc: Option<string>,        // Data Nasc.
    cadastro: Option<string>,    // Data Cadastro cliente
    celulares: Option<string>,   // Celulares
    telefones: Option<string>,   // Telefones
    emails: Option<string>,      // Emails
    plano: string,               // Plano
    planoValor: Option<string>,  // Plano Valor
    status: string,              // Status
    vencimento: Option<string>,  // Vencimento
    isento: Option<string>,      // Isento
    endereco: Option<string>,    // Endereço
    numero: Option<string>,      // Número
    bairro: Option<string>,      // Bairro
    cidade: Option<string>,      // Cidade
    complemento: Option<string>, // Complemento
    cep: Option<string>,         // CEP
    uf: Option<string>)          // UF

  /** The three contact columns, in the order of `DF_to_DB_tipos`. */
  datatype ContactColumn = Celulares | Telefones | Emails

  function ContactCell(row: Row, col: ContactColumn): Option<string> {
    match col
    case Celulares => row.celulares
    case Telefones => row.telefones
    case Emails => row.emails
  }

  /** `DF_to_DB_tipos`: each contact column with its label in `tbl_tipos_contato`. */
  const ContactColumns: seq<(ContactColumn, string)> :=
    [(Celulares, "Celular"), (Telefones, "Telefone"), (Emails, "E-Mail")]

  datatype Cliente = Cliente(id: int, nome: Option<string>, fantasia: Option<string>,
                             cpfCnpj: string, nasc: Option<string>, cadastro: Option<string>)

  datatype Contato = Contato(clienteId: int, tipoId: int, contato: string)

  datatype Plano = Plano(id: int, descricao: string, valor: Option<string>)

  datatype StatusContrato = StatusContrato(id: int, status: string)

  /** The 12 positional fields of the contract insert. */
  datatype Contrato = Contrato(
    clienteId: int, planoId: int, vencimento: string, isento: bool,
    logradouro: Option<string>, numero: Option<string>, bairro: Option<string>,
    cidade: Option<string>, complemento: Option<string>, cep: string, uf: string,
    statusId: int)

  /** tbl_clientes, tbl_cliente_contatos, tbl_planos, tbl_status_contrato, tbl_cliente_contratos. */
  datatype Tables = Tables(
    clientes: seq<Cliente>,
    contatos: set<Contato>,
    planos: seq<Plano>,
    status: seq<StatusContrato>,
    contratos: seq<Contrato>)

  /** The five INSERT statements the row loop issues. */
  datatype Stmt =
    | InsertCliente(nome: Option<string>, fantasia: Option<string>, cpfCnpj: string,
                    nasc: Option<string>, cadastro: Option<string>)
    | InsertContato(contato: Contato)
    | InsertPlano(descricao: string, valor: Option<string>)
    | InsertStatus(status: string)
    | InsertContrato(contrato: Contrato)

  /** The statements with `RETURNING id`, which draw a fresh id. */
  predicate Returning(st: Stmt) {
    st.InsertCliente? || st.InsertPlano? || st.InsertStatus?
  }

  /** The effect of one successful statement; `id` is the id the table's sequence yields. */
  function Apply(t: Tables, st: Stmt, id: int): Tables {
    match st
    case InsertCliente(nome, fantasia, cpf, nasc, cadastro) =>
      t.(clientes := t.clientes + [Cliente(id, nome, fantasia, cpf, nasc, cadastro)])
    case InsertContato(c) => t.(contatos := t.contatos + {c})
    case InsertPlano(d, v) => t.(planos := t.planos + [Plano(id, d, v)])
    case InsertStatus(s) => t.(status := t.status + [StatusContrato(id, s)])
    case InsertContrato(c) => t.(contratos := t.contratos + [c])
  }

  /**
   * The database's own failures that leave the connection usable (constraint
   * violations, serialization failures), which the source cannot predict:
   * `fails(txn, k)` holds when the k-th statement of the txn-th transaction,
   * counting its commit, raises `psycopg2.DatabaseError`.
   */
  type Faults = (nat, nat) -> bool

  /** Every id the tables hold was drawn before `next`. */
  predicate IdsBelow(t: Tables, next: int) {
    && (forall i :: 0 <= i < |t.clientes| ==> t.clientes[i].id < next)
    && (forall i :: 0 <= i < |t.planos| ==> t.planos[i].id < next)
    && (forall i :: 0 <= i < |t.status| ==> t.status[i].id < next)
  }

  /** `ON CONFLICT ... DO NOTHING`: inserting a contact that is already stored changes nothing. */
  lemma ContactInsertIdempotent(t: Tables, c: Contato, id1: int, id2: int)
    ensures Apply(Apply(t, InsertContato(c), id1), InsertContato(c), id2) == Apply(t, InsertContato(c), id1)
    ensures c in t.contatos ==> Apply(t, InsertContato(c), id1) == t
  {
  }

  /** A statement never draws an id at or above the next one, so ids stay below the sequence. */
  lemma ApplyIdsBelow(t: Tables, st: Stmt, id: int)
    requires IdsBelow(t, id)
    ensures IdsBelow(Apply(t, st, id), id + 1)
  {
  }
}
