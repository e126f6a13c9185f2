/** The values that every part of a node exchanges: identifiers, currency
    inputs and outputs, SQL updates, transactions and blocks. */
module Types {

  /** Block hashes, transaction ids and public key hashes have fixed length and
      are never all zeros; 0 stands for the empty (or all-zero) byte string. */
  type Hash = nat
  type TxId = nat
  type KeyHash = nat

  const NoHash: Hash := 0
  const NoTx: TxId := 0
  const NoKey: KeyHash := 0

  datatype Option<+T> = None | Some(value: T)

  datatype Result<+T> = Ok(value: T) | Err(error: Error)

  datatype Error =
    | EmptyHash
    | HashNotFound
    | HasNextHash
    | NotLastHash
    | BlockNotFound
    | GenesisBranch
    | Disconnected
    | SqlError
    | NilBlock

  /** A transaction input, which is also the name of an output. Amounts are
      counted in units of 1e-8 of a coin. */
  datatype OutPoint = OutPoint(txid: TxId, vout: int)

  datatype TxOut = TxOut(value: int, owner: KeyHash)

  /** ReferenceID: names a row or a whole table. */
  datatype RefId = NoRef | RowRef(table: string, key: string) | TableRef(table: string)

  /** A parsed statement: rows are addressed by table and primary key. */
  datatype Statement =
    | CreateTable(table: string)
    | DropTable(table: string)
    | InsertRow(table: string, key: string, cols: map<string, string>)
    | UpdateRow(table: string, key: string, cols: map<string, string>)
    | DeleteRow(table: string, key: string)

  /** ReferenceID, query and prepared rollback of an SQL command. */
  datatype Sql = NoSql | Sql(ref: RefId, query: Statement, rollback: Option<Statement>)

  datatype Tx = Tx(id: TxId, signer: KeyHash, vin: seq<OutPoint>, vout: seq<TxOut>, sql: Sql, base: TxId)
  {
    /** IsCoinbaseTransfer: a single input that names no transaction. */
    predicate IsCoinbase() {
      |vin| == 1 && vin[0].txid == NoTx && vin[0].vout == -1
    }

    predicate IsCurrencyTransfer() {
      |vin| > 0 || |vout| > 0
    }

    predicate IsSql() {
      sql != NoSql
    }
  }

  datatype Block = Block(hash: Hash, prev: Hash, height: nat, txs: seq<Tx>)

  type Blocks = map<Hash, Block>

  lemma {:induction false} CoinbaseIff(tx: Tx)
    ensures tx.IsCoinbase() <==> tx.vin == [OutPoint(NoTx, -1)]
  {
  }

  lemma {:induction false} InitAndLast<T>(s: seq<T>)
    requires s != []
    ensures s == s[..|s| - 1] + [s[|s| - 1]]
  {
  }
}
