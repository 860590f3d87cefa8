/**
 * What the dispatch policy of the engine guarantees: the exact effect of
 * each instruction kind, the balance invariant over a whole run, which
 * accounts a run can touch, the terminal lock, the first-write-wins ledger
 * and the idempotence of repeated instructions.
 */
module EngineProperties {
  import opened Common
  import opened Transactions
  import opened Processing
  import Accounts

  /** The account an instruction addresses, as the handler sees it after `get_or_create`. */
  function Addressed(s: EngineState, tx: Transaction): (a: Accounts.AccountState)
    requires WellKeyed(s.accounts)
    ensures a.clientId == tx.accountId
    ensures tx.accountId in s.accounts ==> a == s.accounts[tx.accountId]
    ensures tx.accountId !in s.accounts ==> a == Accounts.NewAccount(tx.accountId)
  {
    Accounts.EnsureAccount(s.accounts, tx.accountId)[tx.accountId]
  }

  /** The state after an instruction that was skipped: the account exists, the instruction is appended. */
  function Skipped(s: EngineState, tx: Transaction): EngineState {
    EngineState(Accounts.EnsureAccount(s.accounts, tx.accountId), Appended(s.ledger, tx))
  }

  /** The state after an instruction whose account operation succeeded. */
  function Changed(s: EngineState, tx: Transaction, a: Accounts.AccountState, ledger: map<TxId, Transaction>): EngineState {
    EngineState(Accounts.EnsureAccount(s.accounts, tx.accountId)[tx.accountId := a], ledger)
  }

  /** The referenced record exists and is open to a dispute by this client. */
  predicate Disputable(s: EngineState, tx: Transaction) {
    tx.id in s.ledger && !s.ledger[tx.id].isDispute && s.ledger[tx.id].accountId == tx.accountId
  }

  /** The referenced record exists, is disputed and belongs to this client. */
  predicate UnderDispute(s: EngineState, tx: Transaction) {
    tx.id in s.ledger && s.ledger[tx.id].isDispute && s.ledger[tx.id].accountId == tx.accountId
  }

  // ---------------------------------------------------------------------
  // The dispatch rules, one lemma per kind.
  // ---------------------------------------------------------------------

  /**
   * A deposit or withdrawal whose id is already recorded changes no balance;
   * a new one is applied to the account (whose own guards may still refuse
   * it) and recorded.
   */
  lemma DepositOrWithdrawalRule(s: EngineState, tx: Transaction)
    requires WellKeyed(s.accounts) && (tx.kind == Deposit || tx.kind == Withdrawal)
    ensures tx.id in s.ledger ==> Step(s, tx) == Some(Skipped(s, tx))
    ensures tx.id !in s.ledger && tx.amount.None? ==> Step(s, tx) == None
    ensures tx.id !in s.ledger && tx.amount.Some? ==>
      var op := if tx.kind == Deposit then Accounts.Deposit(tx.amount.value) else Accounts.Withdrawal(tx.amount.value);
      Step(s, tx) == Some(Changed(s, tx, Accounts.Apply(Addressed(s, tx), op).after, s.ledger[tx.id := tx]))
  {
  }

  /**
   * A dispute holds the referenced amount and sets the record's flag exactly
   * when the record is disputable by this client and the account can hold the
   * amount; otherwise it is skipped (and appended if its id is new).
   */
  lemma DisputeRule(s: EngineState, tx: Transaction)
    requires WellKeyed(s.accounts) && tx.kind == Dispute
    ensures Disputable(s, tx) && s.ledger[tx.id].amount.None? ==> Step(s, tx) == None
    ensures Disputable(s, tx) && s.ledger[tx.id].amount.Some? ==>
      var a, x := Addressed(s, tx), s.ledger[tx.id].amount.value;
      if !a.locked && x <= a.available then
        Step(s, tx) == Some(Changed(s, tx, a.(available := a.available - x, held := a.held + x),
                                    Flagged(s.ledger, tx.id, true)))
      else
        Step(s, tx) == Some(Skipped(s, tx))
    ensures !Disputable(s, tx) ==> Step(s, tx) == Some(Skipped(s, tx))
  {
    if Disputable(s, tx) && s.ledger[tx.id].amount.Some? {
      Accounts.DisputeSpec(Addressed(s, tx), s.ledger[tx.id].amount.value);
    }
  }

  /**
   * A resolve releases the referenced amount and clears the record's flag
   * exactly when the record is under dispute by this client and enough is
   * held; otherwise it is skipped. In particular a resolve of an undisputed
   * record is a no-op.
   */
  lemma ResolveRule(s: EngineState, tx: Transaction)
    requires WellKeyed(s.accounts) && tx.kind == Resolve
    ensures UnderDispute(s, tx) && s.ledger[tx.id].amount.None? ==> Step(s, tx) == None
    ensures UnderDispute(s, tx) && s.ledger[tx.id].amount.Some? ==>
      var a, x := Addressed(s, tx), s.ledger[tx.id].amount.value;
      if !a.locked && x <= a.held then
        Step(s, tx) == Some(Changed(s, tx, a.(held := a.held - x, available := a.available + x),
                                    Flagged(s.ledger, tx.id, false)))
      else
        Step(s, tx) == Some(Skipped(s, tx))
    ensures !UnderDispute(s, tx) ==> Step(s, tx) == Some(Skipped(s, tx))
  {
    if UnderDispute(s, tx) && s.ledger[tx.id].amount.Some? {
      Accounts.ResolveSpec(Addressed(s, tx), s.ledger[tx.id].amount.value);
    }
  }

  /**
   * A chargeback removes the referenced amount from held and total and locks
   * the account exactly when the record is under dispute by this client and
   * enough is held. The ledger, and so the record's flag, is left as it was.
   */
  lemma ChargebackRule(s: EngineState, tx: Transaction)
    requires WellKeyed(s.accounts) && tx.kind == Chargeback
    ensures UnderDispute(s, tx) && s.ledger[tx.id].amount.None? ==> Step(s, tx) == None
    ensures UnderDispute(s, tx) && s.ledger[tx.id].amount.Some? ==>
      var a, x := Addressed(s, tx), s.ledger[tx.id].amount.value;
      if !a.locked && x <= a.held then
        Step(s, tx) == Some(Changed(s, tx, a.(held := a.held - x, total := a.total - x, locked := true), s.ledger))
      else
        Step(s, tx) == Some(Skipped(s, tx))
    ensures !UnderDispute(s, tx) ==> Step(s, tx) == Some(Skipped(s, tx))
  {
    if UnderDispute(s, tx) && s.ledger[tx.id].amount.Some? {
      Accounts.ChargebackSpec(Addressed(s, tx), s.ledger[tx.id].amount.value);
      var m := Accounts.EnsureAccount(s.accounts, tx.accountId);
      assert m[tx.accountId := m[tx.accountId]] == m;
    }
  }

  /**
   * A record's dispute flag changes only together with a successful dispute
   * or resolve of the addressed account, never on its own.
   */
  lemma FlagFollowsAccount(s: EngineState, tx: Transaction)
    requires WellKeyed(s.accounts) && tx.id in s.ledger
    requires Step(s, tx).Some? && Step(s, tx).value.ledger[tx.id].isDispute != s.ledger[tx.id].isDispute
    ensures s.ledger[tx.id].amount.Some?
    ensures var x := s.ledger[tx.id].amount.value;
      var op := if tx.kind == Dispute then Accounts.Dispute(x) else Accounts.Resolve(x);
      && (tx.kind == Dispute || tx.kind == Resolve)
      && Accounts.Apply(Addressed(s, tx), op).outcome == Accounts.Ok
      && Step(s, tx).value.accounts[tx.accountId] == Accounts.Apply(Addressed(s, tx), op).after
  {
    match tx.kind
    case Deposit => DepositOrWithdrawalRule(s, tx);
    case Withdrawal => DepositOrWithdrawalRule(s, tx);
    case Dispute =>
      DisputeRule(s, tx);
      Accounts.DisputeSpec(Addressed(s, tx), s.ledger[tx.id].amount.value);
    case Resolve =>
      ResolveRule(s, tx);
      Accounts.ResolveSpec(Addressed(s, tx), s.ledger[tx.id].amount.value);
    case Chargeback => ChargebackRule(s, tx);
  }

  // ---------------------------------------------------------------------
  // The balance invariant.
  // ---------------------------------------------------------------------

  predicate AllConsistent(accounts: map<ClientId, Accounts.AccountState>) {
    forall c :: c in accounts ==> Accounts.Consistent(accounts[c])
  }

  predicate AllSound(accounts: map<ClientId, Accounts.AccountState>) {
    forall c :: c in accounts ==> Accounts.Sound(accounts[c])
  }

  /** Every amount present on a recorded transaction is non-negative. */
  predicate RecordsNonNegative(ledger: map<TxId, Transaction>) {
    forall id :: id in ledger && ledger[id].amount.Some? ==> ledger[id].amount.value >= 0
  }

  predicate InputNonNegative(txs: seq<Transaction>) {
    forall i :: 0 <= i < |txs| && txs[i].amount.Some? ==> txs[i].amount.value >= 0
  }

  lemma StepKeepsConsistent(s: EngineState, tx: Transaction)
    requires AllConsistent(s.accounts)
    ensures Step(s, tx).Some? ==> AllConsistent(Step(s, tx).value.accounts)
  {
    StepFrame(s, tx);
  }

  /** If every account has `total == available + held` before a run, every account has it after. */
  lemma {:induction false} RunKeepsConsistent(s: EngineState, txs: seq<Transaction>)
    requires AllConsistent(s.accounts)
    ensures Run(s, txs).Some? ==> AllConsistent(Run(s, txs).value.accounts)
    decreases |txs|
  {
    if txs != [] {
      RunKeepsConsistent(s, txs[..|txs| - 1]);
      if Run(s, txs[..|txs| - 1]).Some? {
        StepKeepsConsistent(Run(s, txs[..|txs| - 1]).value, txs[|txs| - 1]);
      }
    }
  }

  /** The account operation a handler would apply for this instruction, if it gets that far. */
  function OpOf(s: EngineState, tx: Transaction): Option<Accounts.Op> {
    match tx.kind
    case Deposit => if tx.amount.Some? then Some(Accounts.Deposit(tx.amount.value)) else None
    case Withdrawal => if tx.amount.Some? then Some(Accounts.Withdrawal(tx.amount.value)) else None
    case Dispute =>
      if tx.id in s.ledger && s.ledger[tx.id].amount.Some? then Some(Accounts.Dispute(s.ledger[tx.id].amount.value)) else None
    case Resolve =>
      if tx.id in s.ledger && s.ledger[tx.id].amount.Some? then Some(Accounts.Resolve(s.ledger[tx.id].amount.value)) else None
    case Chargeback =>
      if tx.id in s.ledger && s.ledger[tx.id].amount.Some? then Some(Accounts.Chargeback(s.ledger[tx.id].amount.value)) else None
  }

  /** The addressed account after a step is the one found (or created), or the result of the handler's operation on it. */
  lemma StepAccountIsApplied(s: EngineState, tx: Transaction)
    ensures Step(s, tx).Some? ==>
      var a := Accounts.EnsureAccount(s.accounts, tx.accountId)[tx.accountId];
      var b := Step(s, tx).value.accounts[tx.accountId];
      b == a || (OpOf(s, tx).Some? && b == Accounts.Apply(a, OpOf(s, tx).value).after)
  {
  }

  lemma StepKeepsSound(s: EngineState, tx: Transaction)
    requires AllSound(s.accounts) && RecordsNonNegative(s.ledger)
    requires tx.amount.Some? ==> tx.amount.value >= 0
    ensures Step(s, tx).Some? ==> AllSound(Step(s, tx).value.accounts)
    ensures Step(s, tx).Some? ==> RecordsNonNegative(Step(s, tx).value.ledger)
  {
    if Step(s, tx).Some? {
      StepFrame(s, tx);
      var t := Step(s, tx).value;
      var a := Accounts.EnsureAccount(s.accounts, tx.accountId)[tx.accountId];
      StepAccountIsApplied(s, tx);
      if OpOf(s, tx).Some? {
        Accounts.ApplyKeepsSound(a, OpOf(s, tx).value);
      }
      assert Accounts.Sound(t.accounts[tx.accountId]);
      StepLedgerIsAppend(s, tx);
      assert forall id :: id in t.ledger ==> t.ledger[id].amount == Unflagged(t.ledger[id]).amount;
    }
  }

  /**
   * With non-negative amounts no run overdraws an account: every account
   * stays consistent with non-negative available and held funds.
   */
  lemma {:induction false} RunKeepsSound(s: EngineState, txs: seq<Transaction>)
    requires AllSound(s.accounts) && RecordsNonNegative(s.ledger) && InputNonNegative(txs)
    ensures Run(s, txs).Some? ==> AllSound(Run(s, txs).value.accounts)
    ensures Run(s, txs).Some? ==> RecordsNonNegative(Run(s, txs).value.ledger)
    decreases |txs|
  {
    if txs != [] {
      var prefix := txs[..|txs| - 1];
      assert InputNonNegative(prefix);
      RunKeepsSound(s, prefix);
      if Run(s, prefix).Some? {
        StepKeepsSound(Run(s, prefix).value, txs[|txs| - 1]);
      }
    }
  }

  /** From the initial state, every run with non-negative amounts leaves every account sound. */
  lemma InitialRunIsSound(txs: seq<Transaction>)
    requires InputNonNegative(txs)
    ensures Run(Initial(), txs).Some? ==> AllSound(Run(Initial(), txs).value.accounts)
  {
    RunKeepsSound(Initial(), txs);
  }

  /** Every account of a run stays stored under its own client id. */
  lemma {:induction false} RunKeepsWellKeyed(s: EngineState, txs: seq<Transaction>)
    requires WellKeyed(s.accounts)
    ensures Run(s, txs).Some? ==> WellKeyed(Run(s, txs).value.accounts)
    decreases |txs|
  {
    if txs != [] {
      var prefix := txs[..|txs| - 1];
      RunKeepsWellKeyed(s, prefix);
      if Run(s, prefix).Some? {
        StepFrame(Run(s, prefix).value, txs[|txs| - 1]);
      }
    }
  }

  /** From the initial state, every run keeps each account under its own client id. */
  lemma InitialRunIsWellKeyed(txs: seq<Transaction>)
    ensures Run(Initial(), txs).Some? ==> WellKeyed(Run(Initial(), txs).value.accounts)
  {
    RunKeepsWellKeyed(Initial(), txs);
  }

  // ---------------------------------------------------------------------
  // Which accounts a run touches.
  // ---------------------------------------------------------------------

  function ClientsOf(txs: seq<Transaction>): set<ClientId> {
    set i | 0 <= i < |txs| :: txs[i].accountId
  }

  /** A run creates an account for every client it mentions, even for skipped instructions, and no other. */
  lemma {:induction false} RunCreatesReferencedAccounts(s: EngineState, txs: seq<Transaction>)
    ensures Run(s, txs).Some? ==> Run(s, txs).value.accounts.Keys == s.accounts.Keys + ClientsOf(txs)
    decreases |txs|
  {
    if txs != [] {
      var prefix := txs[..|txs| - 1];
      RunCreatesReferencedAccounts(s, prefix);
      if Run(s, prefix).Some? {
        StepFrame(Run(s, prefix).value, txs[|txs| - 1]);
      }
      assert ClientsOf(txs) == ClientsOf(prefix) + {txs[|txs| - 1].accountId} by {
        forall c | c in ClientsOf(txs) ensures c in ClientsOf(prefix) + {txs[|txs| - 1].accountId} {
          var i :| 0 <= i < |txs| && txs[i].accountId == c;
          if i < |txs| - 1 {
            assert prefix[i] == txs[i];
          }
        }
        forall c | c in ClientsOf(prefix) ensures c in ClientsOf(txs) {
          var i :| 0 <= i < |prefix| && prefix[i].accountId == c;
          assert txs[i] == prefix[i];
        }
      }
    }
  }

  /** An account no instruction of the run mentions is left exactly as it was. */
  lemma {:induction false} RunLeavesOtherAccounts(s: EngineState, txs: seq<Transaction>, c: ClientId)
    requires c in s.accounts && c !in ClientsOf(txs)
    ensures Run(s, txs).Some? ==> c in Run(s, txs).value.accounts && Run(s, txs).value.accounts[c] == s.accounts[c]
    decreases |txs|
  {
    if txs != [] {
      var prefix := txs[..|txs| - 1];
      assert c !in ClientsOf(prefix);
      RunLeavesOtherAccounts(s, prefix, c);
      assert txs[|txs| - 1].accountId != c;
      if Run(s, prefix).Some? {
        StepFrame(Run(s, prefix).value, txs[|txs| - 1]);
      }
    }
  }

  // ---------------------------------------------------------------------
  // The lock is terminal.
  // ---------------------------------------------------------------------

  /** No instruction changes a locked account. */
  lemma StepLeavesLockedAccount(s: EngineState, tx: Transaction, c: ClientId)
    requires c in s.accounts && s.accounts[c].locked
    ensures Step(s, tx).Some? ==> c in Step(s, tx).value.accounts && Step(s, tx).value.accounts[c] == s.accounts[c]
  {
    StepFrame(s, tx);
    if tx.accountId == c {
      Accounts.LockedAccountRefusesEverything(s.accounts[c], Accounts.Deposit(0));
    }
  }

  /** After a chargeback has locked an account, no later instruction changes its balances or its lock. */
  lemma {:induction false} LockedAccountStaysFrozen(s: EngineState, txs: seq<Transaction>, c: ClientId)
    requires c in s.accounts && s.accounts[c].locked
    ensures Run(s, txs).Some? ==> c in Run(s, txs).value.accounts && Run(s, txs).value.accounts[c] == s.accounts[c]
    decreases |txs|
  {
    if txs != [] {
      var prefix := txs[..|txs| - 1];
      LockedAccountStaysFrozen(s, prefix, c);
      if Run(s, prefix).Some? {
        StepLeavesLockedAccount(Run(s, prefix).value, txs[|txs| - 1], c);
      }
    }
  }

  // ---------------------------------------------------------------------
  // The ledger holds the first instruction seen under each id.
  // ---------------------------------------------------------------------

  /** The ledger built by `append` alone, one instruction after another. */
  function Recorded(ledger: map<TxId, Transaction>, txs: seq<Transaction>): map<TxId, Transaction>
    decreases |txs|
  {
    if txs == [] then ledger else Appended(Recorded(ledger, txs[..|txs| - 1]), txs[|txs| - 1])
  }

  /** A record with its dispute flag cleared: what the ledger stores apart from the flag. */
  function Unflagged(tx: Transaction): Transaction {
    tx.(isDispute := false)
  }

  /** Two ledgers that hold the same records, ignoring dispute flags. */
  predicate SameRecords(m: map<TxId, Transaction>, n: map<TxId, Transaction>) {
    m.Keys == n.Keys && forall id :: id in m ==> Unflagged(m[id]) == Unflagged(n[id])
  }

  /** Apart from dispute flags, one step changes the ledger exactly as `append` does. */
  lemma StepLedgerIsAppend(s: EngineState, tx: Transaction)
    ensures Step(s, tx).Some? ==> SameRecords(Step(s, tx).value.ledger, Appended(s.ledger, tx))
  {
    if Dispatch(s, tx).Some? {
      assert SameRecords(Dispatch(s, tx).value.ledger, s.ledger);
    }
  }

  /** After a run the ledger holds, ignoring dispute flags, what `append` alone would have built. */
  lemma {:induction false} RunLedgerIsRecorded(s: EngineState, txs: seq<Transaction>)
    ensures Run(s, txs).Some? ==> SameRecords(Run(s, txs).value.ledger, Recorded(s.ledger, txs))
    decreases |txs|
  {
    if txs != [] {
      var prefix := txs[..|txs| - 1];
      RunLedgerIsRecorded(s, prefix);
      if Run(s, prefix).Some? {
        var m := Run(s, prefix).value;
        StepLedgerIsAppend(m, txs[|txs| - 1]);
      }
    }
  }

  /** A recorded id keeps its record whatever is appended later. */
  lemma {:induction false} RecordedKeepsExisting(ledger: map<TxId, Transaction>, txs: seq<Transaction>, id: TxId)
    requires id in ledger
    ensures id in Recorded(ledger, txs) && Recorded(ledger, txs)[id] == ledger[id]
    decreases |txs|
  {
    if txs != [] {
      RecordedKeepsExisting(ledger, txs[..|txs| - 1], id);
    }
  }

  /** An id first seen at position `i` holds exactly the instruction at `i`: first write wins. */
  lemma {:induction false} RecordedKeepsFirst(ledger: map<TxId, Transaction>, txs: seq<Transaction>, i: nat)
    requires i < |txs| && txs[i].id !in ledger
    requires forall j :: 0 <= j < i ==> txs[j].id != txs[i].id
    ensures txs[i].id in Recorded(ledger, txs) && Recorded(ledger, txs)[txs[i].id] == txs[i]
    decreases |txs|
  {
    var prefix := txs[..|txs| - 1];
    if i < |txs| - 1 {
      assert prefix[i] == txs[i];
      RecordedKeepsFirst(ledger, prefix, i);
    } else {
      assert txs[i].id !in Recorded(ledger, prefix) by {
        if txs[i].id in Recorded(ledger, prefix) {
          RecordedHasOnlySeenIds(ledger, prefix, txs[i].id);
        }
      }
    }
  }

  /** Every recorded id was either there before or is the id of some instruction. */
  lemma {:induction false} RecordedHasOnlySeenIds(ledger: map<TxId, Transaction>, txs: seq<Transaction>, id: TxId)
    requires id in Recorded(ledger, txs)
    ensures id in ledger || exists j :: 0 <= j < |txs| && txs[j].id == id
    decreases |txs|
  {
    if txs != [] {
      var prefix := txs[..|txs| - 1];
      if id in Recorded(ledger, prefix) {
        RecordedHasOnlySeenIds(ledger, prefix, id);
        if id !in ledger {
          var j :| 0 <= j < |prefix| && prefix[j].id == id;
          assert txs[j] == prefix[j];
        }
      } else {
        assert txs[|txs| - 1].id == id;
      }
    }
  }

  /** Every instruction's id is recorded, whatever came before it. */
  lemma {:induction false} RecordedHasSeenIds(ledger: map<TxId, Transaction>, txs: seq<Transaction>, j: nat)
    requires j < |txs|
    ensures txs[j].id in Recorded(ledger, txs)
    decreases |txs|
  {
    var prefix := txs[..|txs| - 1];
    if j < |txs| - 1 {
      assert prefix[j] == txs[j];
      RecordedHasSeenIds(ledger, prefix, j);
    }
  }

  // ---------------------------------------------------------------------
  // Which runs finish.
  // ---------------------------------------------------------------------

  /** Every recorded transaction carries an amount. */
  predicate RecordsHaveAmounts(ledger: map<TxId, Transaction>) {
    forall id :: id in ledger ==> ledger[id].amount.Some?
  }

  /**
   * An instruction with an amount, or one whose id is already recorded, never
   * panics while every record has an amount, and keeps that so.
   */
  lemma StepCompletes(s: EngineState, tx: Transaction)
    requires RecordsHaveAmounts(s.ledger)
    requires tx.amount.Some? || tx.id in s.ledger
    ensures Step(s, tx).Some? && RecordsHaveAmounts(Step(s, tx).value.ledger)
  {
    StepLedgerIsAppend(s, tx);
    var n := Step(s, tx).value.ledger;
    forall id | id in n ensures n[id].amount.Some? {
      assert Unflagged(n[id]).amount == Unflagged(Appended(s.ledger, tx)[id]).amount;
    }
  }

  /**
   * A sufficient condition for a run to finish: every record starts with an
   * amount, and every instruction has an amount or an id already in the
   * ledger or on an earlier instruction.
   */
  lemma {:induction false} RunCompletes(s: EngineState, txs: seq<Transaction>)
    requires RecordsHaveAmounts(s.ledger)
    requires forall i :: 0 <= i < |txs| ==>
      txs[i].amount.Some? || txs[i].id in s.ledger || exists j :: 0 <= j < i && txs[j].id == txs[i].id
    ensures Run(s, txs).Some? && RecordsHaveAmounts(Run(s, txs).value.ledger)
    decreases |txs|
  {
    if txs != [] {
      var prefix := txs[..|txs| - 1];
      forall i | 0 <= i < |prefix|
        ensures prefix[i].amount.Some? || prefix[i].id in s.ledger || exists j :: 0 <= j < i && prefix[j].id == prefix[i].id
      {
        assert prefix[i] == txs[i];
        if !(txs[i].amount.Some? || txs[i].id in s.ledger) {
          var j :| 0 <= j < i && txs[j].id == txs[i].id;
          assert prefix[j] == txs[j];
        }
      }
      RunCompletes(s, prefix);
      var m := Run(s, prefix).value;
      var tx := txs[|txs| - 1];
      RunLedgerIsRecorded(s, prefix);
      if tx.amount.None? {
        if tx.id in s.ledger {
          RecordedKeepsExisting(s.ledger, prefix, tx.id);
        } else {
          var j :| 0 <= j < |prefix| && txs[j].id == tx.id;
          assert prefix[j] == txs[j];
          RecordedHasSeenIds(s.ledger, prefix, j);
        }
      }
      StepCompletes(m, tx);
    }
  }

  /** From the initial state, a run finishes if every instruction has an amount or repeats an earlier id. */
  lemma InitialRunCompletes(txs: seq<Transaction>)
    requires forall i :: 0 <= i < |txs| ==> txs[i].amount.Some? || exists j :: 0 <= j < i && txs[j].id == txs[i].id
    ensures Run(Initial(), txs).Some?
  {
    RunCompletes(Initial(), txs);
  }

  // ---------------------------------------------------------------------
  // Repeating an instruction.
  // ---------------------------------------------------------------------

  /**
   * Applying the same instruction twice in a row has the effect of applying
   * it once — except a dispute whose id was never recorded: the first copy
   * records the dispute itself, which the second copy can then dispute.
   */
  lemma StepIsIdempotent(s: EngineState, tx: Transaction)
    requires !tx.isDispute && !(tx.kind == Dispute && tx.id !in s.ledger)
    requires Step(s, tx).Some?
    ensures Step(Step(s, tx).value, tx) == Step(s, tx)
  {
    var t := Step(s, tx).value;
    assert Accounts.EnsureAccount(t.accounts, tx.accountId) == t.accounts;
    match tx.kind
    case Deposit =>
    case Withdrawal =>
    case Dispute =>
      assert tx.id in s.ledger;
    case Resolve =>
    case Chargeback =>
      var m := Accounts.EnsureAccount(s.accounts, tx.accountId);
      if tx.id in s.ledger && s.ledger[tx.id].isDispute && s.ledger[tx.id].accountId == m[tx.accountId].clientId {
        var op := Accounts.Chargeback(s.ledger[tx.id].amount.value);
        var first := Accounts.Apply(m[tx.accountId], op);
        assert t == EngineState(m[tx.accountId := first.after], s.ledger);
        if first.outcome.Ok? {
          Accounts.LockedAccountRefusesEverything(first.after, op);
        }
        assert Accounts.Apply(first.after, op).after == first.after;
        assert t.accounts[tx.accountId := first.after] == t.accounts;
      }
  }

  /** Running one more instruction continues from where the shorter run stopped. */
  lemma RunOneMore(s: EngineState, txs: seq<Transaction>, tx: Transaction)
    ensures Run(s, txs + [tx]) == if Run(s, txs).Some? then Step(Run(s, txs).value, tx) else None
  {
    assert (txs + [tx])[..|txs|] == txs;
  }

  /**
   * A deposit or withdrawal whose id is already in the starting ledger, or
   * belongs to any earlier instruction of the input — whatever its kind and
   * whether or not it took effect — is skipped.
   */
  lemma DuplicateIdIsSkipped(s: EngineState, txs: seq<Transaction>, k: nat)
    requires WellKeyed(s.accounts)
    requires k < |txs| && (txs[k].kind == Deposit || txs[k].kind == Withdrawal)
    requires txs[k].id in s.ledger || exists j :: 0 <= j < k && txs[j].id == txs[k].id
    ensures Run(s, txs[..k]).Some? ==> Run(s, txs[..k + 1]) == Some(Skipped(Run(s, txs[..k]).value, txs[k]))
  {
    var prefix := txs[..k];
    var tx := txs[k];
    assert txs[..k + 1] == prefix + [tx];
    RunOneMore(s, prefix, tx);
    if Run(s, prefix).Some? {
      var m := Run(s, prefix).value;
      RunKeepsWellKeyed(s, prefix);
      RunLedgerIsRecorded(s, prefix);
      if tx.id in s.ledger {
        RecordedKeepsExisting(s.ledger, prefix, tx.id);
      } else {
        var j :| 0 <= j < k && txs[j].id == tx.id;
        assert prefix[j] == txs[j];
        RecordedHasSeenIds(s.ledger, prefix, j);
      }
      assert tx.id in m.ledger;
      DepositOrWithdrawalRule(m, tx);
    }
  }

  /** `n` copies of one instruction. */
  function Repeat(tx: Transaction, n: nat): (r: seq<Transaction>)
    ensures |r| == n
    ensures forall i :: 0 <= i < n ==> r[i] == tx
  {
    if n == 0 then [] else Repeat(tx, n - 1) + [tx]
  }

  /**
   * However many times an instruction is repeated, it takes effect once: a
   * duplicate deposit or withdrawal, a second dispute of a recorded id, a
   * second resolve or chargeback.
   */
  lemma {:induction false} RepeatedInstructionTakesEffectOnce(s: EngineState, tx: Transaction, n: nat)
    requires !tx.isDispute && !(tx.kind == Dispute && tx.id !in s.ledger)
    ensures Run(s, Repeat(tx, n + 1)) == Step(s, tx)
  {
    RunOneMore(s, Repeat(tx, n), tx);
    if n == 0 {
      assert Repeat(tx, 0) == [];
    } else {
      RepeatedInstructionTakesEffectOnce(s, tx, n - 1);
      if Step(s, tx).Some? {
        StepIsIdempotent(s, tx);
      }
    }
  }

}
