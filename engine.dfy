/**
 * The engine: dispatches each instruction by kind against the accounts and
 * the ledger, then appends the instruction to the ledger.
 *
 * `DepositStep` … `ChargebackStep`, `Step` and `Run` are the value-level
 * specification; the `Engine` class mutates an `AccountsRepository` and a
 * `TransactionLedger` in place and is proved against them. A result of
 * `None` marks the point where the source panics: `Transaction::amount`
 * unwrapping an instruction or record that carries no amount.
 */
module Processing {
  import opened Common
  import opened Transactions
  import Accounts

  /** Everything the engine owns: every account by client id, and the ledger. */
  datatype EngineState = EngineState(
    accounts: map<ClientId, Accounts.AccountState>,
    ledger: map<TxId, Transaction>)

  /** The state the program starts from: no accounts, no recorded transactions. */
  function Initial(): EngineState {
    EngineState(map[], map[])
  }

  /** Every account is stored under its own client id. */
  predicate WellKeyed(accounts: map<ClientId, Accounts.AccountState>) {
    forall c :: c in accounts ==> accounts[c].clientId == c
  }

  /** `Engine::deposit`: skipped as a duplicate when the id is already recorded. */
  function DepositStep(s: EngineState, tx: Transaction): Option<EngineState> {
    var accounts := Accounts.EnsureAccount(s.accounts, tx.accountId);
    if tx.id in s.ledger then Some(s.(accounts := accounts))
    else if tx.amount.None? then None
    else
      var applied := Accounts.Apply(accounts[tx.accountId], Accounts.Deposit(tx.amount.value));
      Some(s.(accounts := accounts[tx.accountId := applied.after]))
  }

  /** `Engine::withdrawal`: the same duplicate guard as a deposit. */
  function WithdrawalStep(s: EngineState, tx: Transaction): Option<EngineState> {
    var accounts := Accounts.EnsureAccount(s.accounts, tx.accountId);
    if tx.id in s.ledger then Some(s.(accounts := accounts))
    else if tx.amount.None? then None
    else
      var applied := Accounts.Apply(accounts[tx.accountId], Accounts.Withdrawal(tx.amount.value));
      Some(s.(accounts := accounts[tx.accountId := applied.after]))
  }

  /**
   * `Engine::dispute`: the referenced record must exist, must not be disputed
   * already and must belong to the addressed account; its flag is set only if
   * the account accepted the hold.
   */
  function DisputeStep(s: EngineState, tx: Transaction): Option<EngineState> {
    var accounts := Accounts.EnsureAccount(s.accounts, tx.accountId);
    var skipped := Some(s.(accounts := accounts));
    if tx.id !in s.ledger then skipped
    else
      var orig := s.ledger[tx.id];
      if orig.isDispute || accounts[tx.accountId].clientId != orig.accountId then skipped
      else if orig.amount.None? then None
      else
        var applied := Accounts.Apply(accounts[tx.accountId], Accounts.Dispute(orig.amount.value));
        if applied.outcome.Err? then skipped
        else Some(EngineState(accounts[tx.accountId := applied.after], Flagged(s.ledger, tx.id, true)))
  }

  /**
   * `Engine::resolve`: the referenced record must exist, be disputed and
   * belong to the addressed account; its flag is cleared only if the account
   * released the funds.
   */
  function ResolveStep(s: EngineState, tx: Transaction): Option<EngineState> {
    var accounts := Accounts.EnsureAccount(s.accounts, tx.accountId);
    var skipped := Some(s.(accounts := accounts));
    if tx.id !in s.ledger then skipped
    else
      var orig := s.ledger[tx.id];
      if !(orig.isDispute && orig.accountId == accounts[tx.accountId].clientId) then skipped
      else if orig.amount.None? then None
      else
        var applied := Accounts.Apply(accounts[tx.accountId], Accounts.Resolve(orig.amount.value));
        if applied.outcome.Err? then skipped
        else Some(EngineState(accounts[tx.accountId := applied.after], Flagged(s.ledger, tx.id, false)))
  }

  /**
   * `Engine::chargeback`: the same guard as a resolve; the record keeps its
   * dispute flag.
   */
  function ChargebackStep(s: EngineState, tx: Transaction): Option<EngineState> {
    var accounts := Accounts.EnsureAccount(s.accounts, tx.accountId);
    var skipped := Some(s.(accounts := accounts));
    if tx.id !in s.ledger then skipped
    else
      var orig := s.ledger[tx.id];
      if !(orig.isDispute && orig.accountId == accounts[tx.accountId].clientId) then skipped
      else if orig.amount.None? then None
      else
        var applied := Accounts.Apply(accounts[tx.accountId], Accounts.Chargeback(orig.amount.value));
        Some(s.(accounts := accounts[tx.accountId := applied.after]))
  }

  function Dispatch(s: EngineState, tx: Transaction): Option<EngineState> {
    match tx.kind
    case Deposit => DepositStep(s, tx)
    case Withdrawal => WithdrawalStep(s, tx)
    case Dispute => DisputeStep(s, tx)
    case Resolve => ResolveStep(s, tx)
    case Chargeback => ChargebackStep(s, tx)
  }

  /** One iteration of `Engine::process`: dispatch, then append the instruction whatever its kind. */
  function Step(s: EngineState, tx: Transaction): Option<EngineState> {
    match Dispatch(s, tx)
    case None => None
    case Some(d) => Some(d.(ledger := Appended(d.ledger, tx)))
  }

  /**
   * Unless it panics, one step creates the addressed account if missing and
   * changes no other account; the ledger gains at most the instruction's id;
   * every account stays under its own client id.
   */
  lemma StepFrame(s: EngineState, tx: Transaction)
    ensures Step(s, tx).Some? ==> Step(s, tx).value.accounts.Keys == s.accounts.Keys + {tx.accountId}
    ensures Step(s, tx).Some? ==>
      forall c :: c in s.accounts && c != tx.accountId ==> Step(s, tx).value.accounts[c] == s.accounts[c]
    ensures Step(s, tx).Some? ==> Step(s, tx).value.ledger.Keys == s.ledger.Keys + {tx.id}
    ensures Step(s, tx).Some? && WellKeyed(s.accounts) ==> WellKeyed(Step(s, tx).value.accounts)
  {
    // One case per handler keeps each obligation small.
    match tx.kind {
      case Deposit =>
      case Withdrawal =>
      case Dispute =>
      case Resolve =>
      case Chargeback =>
    }
  }

  /** `Engine::process`: the instructions strictly in order, stopping at a panic. */
  function Run(s: EngineState, txs: seq<Transaction>): Option<EngineState>
    decreases |txs|
  {
    if txs == [] then Some(s)
    else match Run(s, txs[..|txs| - 1])
      case None => None
      case Some(m) => Step(m, txs[|txs| - 1])
  }

  /** Once an instruction panics, the rest of the input is never reached. */
  lemma {:induction false} RunStopsAtPanic(s: EngineState, txs: seq<Transaction>, k: nat)
    requires k <= |txs| && Run(s, txs[..k]) == None
    ensures Run(s, txs) == None
    decreases |txs| - k
  {
    if k < |txs| {
      var prefix := txs[..|txs| - 1];
      assert prefix[..k] == txs[..k];
      RunStopsAtPanic(s, prefix, k);
    } else {
      assert txs[..k] == txs;
    }
  }

  class Engine {
    const ledger: TransactionLedger
    const accounts: Accounts.AccountsRepository

    constructor (ledger: TransactionLedger, accounts: Accounts.AccountsRepository)
      ensures this.ledger == ledger && this.accounts == accounts
    {
      this.ledger := ledger;
      this.accounts := accounts;
    }

    ghost predicate Valid()
      reads accounts
    {
      accounts.Valid()
    }

    ghost function State(): EngineState
      reads accounts, accounts.accounts.Values, ledger
    {
      EngineState(accounts.Snapshot(), ledger.transactions)
    }

    method Deposit(tx: Transaction) returns (panicked: bool)
      requires Valid()
      modifies accounts, accounts.accounts.Values
      ensures Valid() && fresh(accounts.accounts.Values - old(accounts.accounts.Values))
      ensures panicked <==> DepositStep(old(State()), tx).None?
      ensures !panicked ==> Some(State()) == DepositStep(old(State()), tx)
    {
      var account := accounts.GetOrCreate(tx.accountId);
      if ledger.Get(tx.id).Some? {
        return false;
      }
      if tx.amount.None? {
        return true;
      }
      label Updating:
      var _ := account.Deposit(tx.Amount());
      accounts.SnapshotAfterUpdate@Updating(tx.accountId);
      return false;
    }

    method Withdrawal(tx: Transaction) returns (panicked: bool)
      requires Valid()
      modifies accounts, accounts.accounts.Values
      ensures Valid() && fresh(accounts.accounts.Values - old(accounts.accounts.Values))
      ensures panicked <==> WithdrawalStep(old(State()), tx).None?
      ensures !panicked ==> Some(State()) == WithdrawalStep(old(State()), tx)
    {
      var account := accounts.GetOrCreate(tx.accountId);
      if ledger.Get(tx.id).Some? {
        return false;
      }
      if tx.amount.None? {
        return true;
      }
      label Updating:
      var _ := account.Withdrawal(tx.Amount());
      accounts.SnapshotAfterUpdate@Updating(tx.accountId);
      return false;
    }

    method Dispute(tx: Transaction) returns (panicked: bool)
      requires Valid()
      modifies accounts, accounts.accounts.Values, ledger
      ensures Valid() && fresh(accounts.accounts.Values - old(accounts.accounts.Values))
      ensures panicked <==> DisputeStep(old(State()), tx).None?
      ensures !panicked ==> Some(State()) == DisputeStep(old(State()), tx)
    {
      var account := accounts.GetOrCreate(tx.accountId);
      var found := ledger.Get(tx.id);
      if found.None? {
        return false;
      }
      var orig := found.value;
      if orig.isDispute || account.clientId != orig.accountId {
        return false;
      }
      if orig.amount.None? {
        return true;
      }
      ghost var before := accounts.Snapshot();
      label Updating:
      var outcome := account.Dispute(orig.Amount());
      accounts.SnapshotAfterUpdate@Updating(tx.accountId);
      if outcome.Err? {
        assert accounts.Snapshot() == before;
        return false;
      }
      ledger.DisputeTx(tx.id);
      return false;
    }

    method Resolve(tx: Transaction) returns (panicked: bool)
      requires Valid()
      modifies accounts, accounts.accounts.Values, ledger
      ensures Valid() && fresh(accounts.accounts.Values - old(accounts.accounts.Values))
      ensures panicked <==> ResolveStep(old(State()), tx).None?
      ensures !panicked ==> Some(State()) == ResolveStep(old(State()), tx)
    {
      var account := accounts.GetOrCreate(tx.accountId);
      var found := ledger.Get(tx.id);
      if found.None? {
        return false;
      }
      var orig := found.value;
      if orig.isDispute && orig.accountId == account.clientId {
        if orig.amount.None? {
          return true;
        }
        ghost var before := accounts.Snapshot();
        label Updating:
        var outcome := account.Resolve(orig.Amount());
        accounts.SnapshotAfterUpdate@Updating(tx.accountId);
        if outcome.Err? {
          assert accounts.Snapshot() == before;
          return false;
        }
        ledger.UndisputeTx(tx.id);
      }
      return false;
    }

    method Chargeback(tx: Transaction) returns (panicked: bool)
      requires Valid()
      modifies accounts, accounts.accounts.Values
      ensures Valid() && fresh(accounts.accounts.Values - old(accounts.accounts.Values))
      ensures panicked <==> ChargebackStep(old(State()), tx).None?
      ensures !panicked ==> Some(State()) == ChargebackStep(old(State()), tx)
    {
      var account := accounts.GetOrCreate(tx.accountId);
      var found := ledger.Get(tx.id);
      if found.None? {
        return false;
      }
      var orig := found.value;
      if orig.isDispute && orig.accountId == account.clientId {
        if orig.amount.None? {
          return true;
        }
        label Updating:
        var _ := account.Chargeback(orig.Amount());
        accounts.SnapshotAfterUpdate@Updating(tx.accountId);
      }
      return false;
    }

    /**
     * The body of the loop in `Engine::process`: dispatch on the kind, then
     * append the instruction to the ledger whatever happened.
     */
    method ProcessOne(tx: Transaction) returns (panicked: bool)
      requires Valid()
      modifies accounts, accounts.accounts.Values, ledger
      ensures Valid() && fresh(accounts.accounts.Values - old(accounts.accounts.Values))
      ensures panicked <==> Step(old(State()), tx).None?
      ensures !panicked ==> Some(State()) == Step(old(State()), tx)
    {
      match tx.kind {
        case Deposit => panicked := Deposit(tx);
        case Withdrawal => panicked := Withdrawal(tx);
        case Dispute => panicked := Dispute(tx);
        case Resolve => panicked := Resolve(tx);
        case Chargeback => panicked := Chargeback(tx);
      }
      if panicked {
        return;
      }
      ghost var dispatched := State();
      assert Dispatch(old(State()), tx) == Some(dispatched);
      ledger.Append(tx);
    }

    /**
     * Applies the instructions strictly in order. `panicked` is true exactly
     * when the source would have panicked part-way; otherwise the new state is
     * `Run` of the old one.
     */
    method Process(input: seq<Transaction>) returns (panicked: bool)
      requires Valid()
      modifies accounts, accounts.accounts.Values, ledger
      ensures Valid()
      ensures panicked <==> Run(old(State()), input).None?
      ensures !panicked ==> Some(State()) == Run(old(State()), input)
    {
      panicked := false;
      for i := 0 to |input|
        invariant Valid()
        invariant fresh(accounts.accounts.Values - old(accounts.accounts.Values))
        invariant Run(old(State()), input[..i]) == Some(State())
      {
        assert input[..i + 1][..i] == input[..i];
        panicked := ProcessOne(input[i]);
        if panicked {
          RunStopsAtPanic(old(State()), input, i + 1);
          return;
        }
      }
      assert input[..|input|] == input;
    }
  }
}
