/**
 * Instructions (`Transaction`) and the ledger that remembers the first
 * instruction seen under each transaction id (`TransactionLedger`).
 */
module Transactions {
  import opened Common

  /** The instruction kind (`Type` in the source). */
  datatype Type = Deposit | Withdrawal | Dispute | Resolve | Chargeback

  /**
   * One instruction. For a deposit or withdrawal `id` is its own id; for a
   * dispute, resolve or chargeback it names the transaction it refers to.
   * `amount` is absent when the input row had none; `isDispute` is only ever
   * set on a record stored in the ledger.
   */
  datatype Transaction = Transaction(
    kind: Type,
    accountId: ClientId,
    id: TxId,
    amount: Option<Money>,
    isDispute: bool)
  {
    /** `Transaction::amount` unwraps the amount: reading an absent one panics. */
    function Amount(): (r: Money)
      requires amount.Some?
      ensures amount == Some(r)
    {
      amount.value
    }
  }

  /** `Transaction::new`: an undisputed instruction that carries its amount. */
  function NewTransaction(id: TxId, kind: Type, accountId: ClientId, amount: Money): (r: Transaction)
    ensures r.id == id && r.kind == kind && r.accountId == accountId
    ensures r.amount == Some(amount) && r.amount.Some? && !r.isDispute
  {
    Transaction(kind, accountId, id, Some(amount), false)
  }

  /** `append` on values: first write wins. */
  function Appended(m: map<TxId, Transaction>, tx: Transaction): (r: map<TxId, Transaction>)
    ensures tx.id in m ==> r == m
    ensures r.Keys == m.Keys + {tx.id}
    ensures tx.id !in m ==> r[tx.id] == tx
    ensures forall id :: id in m ==> r[id] == m[id]
  {
    if tx.id in m then m else m[tx.id := tx]
  }

  /** `dispute_tx` / `undispute_tx` on values: only the flag of one record changes. */
  function Flagged(m: map<TxId, Transaction>, id: TxId, flag: bool): (r: map<TxId, Transaction>)
    requires id in m
    ensures r.Keys == m.Keys
    ensures r[id].isDispute == flag && r[id].(isDispute := m[id].isDispute) == m[id]
    ensures forall k :: k in m && k != id ==> r[k] == m[k]
  {
    m[id := m[id].(isDispute := flag)]
  }

  /** Appending is idempotent: the second append of the same instruction changes nothing. */
  lemma AppendedTwice(m: map<TxId, Transaction>, tx: Transaction)
    ensures Appended(Appended(m, tx), tx) == Appended(m, tx)
  {
  }

  class TransactionLedger {
    var transactions: map<TxId, Transaction>

    constructor ()
      ensures transactions == map[]
    {
      transactions := map[];
    }

    method Append(tx: Transaction)
      modifies this
      ensures transactions == Appended(old(transactions), tx)
    {
      if tx.id !in transactions {
        transactions := transactions[tx.id := tx];
      }
    }

    function Get(id: TxId): (r: Option<Transaction>)
      reads this
      ensures r.Some? <==> id in transactions
      ensures r.Some? ==> r.value == transactions[id]
    {
      if id in transactions then Some(transactions[id]) else None
    }

    /** The source unwraps the lookup; its only caller has just found the record. */
    method DisputeTx(id: TxId)
      requires id in transactions
      modifies this
      ensures transactions == Flagged(old(transactions), id, true)
    {
      var tx := transactions[id];
      transactions := transactions[id := tx.(isDispute := true)];
    }

    method UndisputeTx(id: TxId)
      requires id in transactions
      modifies this
      ensures transactions == Flagged(old(transactions), id, false)
    {
      var tx := transactions[id];
      transactions := transactions[id := tx.(isDispute := false)];
    }
  }
}
