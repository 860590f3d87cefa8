/**
 * The engine's own test cases, stated over `Run` from the initial state for
 * every client, every choice of distinct transaction ids and every amount the
 * test's outcome depends on (the source's tests use client 1, ids 1 to 3 and
 * amounts such as 5.0 and 3.0), and three runs that show how the engine
 * treats a dispute of an id it has never recorded.
 */
module EngineScenarios {
  import opened Common
  import opened Transactions
  import opened Processing
  import Accounts
  import EngineProperties

  /** An account that was never disputed or locked, holding `available`. */
  function Plain(c: ClientId, available: Money): Accounts.AccountState {
    Accounts.AccountState(c, available, 0, available, false)
  }

  lemma DepositScenario(c: ClientId, id: TxId, x: Money)
    ensures var r := Run(Initial(), [NewTransaction(id, Deposit, c, x)]);
      r.Some? && c in r.value.accounts && r.value.accounts[c] == Plain(c, x)
  {
    var t1 := NewTransaction(id, Deposit, c, x);
    assert [] + [t1] == [t1];
    EngineProperties.RunOneMore(Initial(), [], t1);
  }

  lemma WithdrawalScenario(c: ClientId, id1: TxId, id2: TxId, d: Money, w: Money)
    requires id1 != id2 && w <= d
    ensures var r := Run(Initial(), [NewTransaction(id1, Deposit, c, d), NewTransaction(id2, Withdrawal, c, w)]);
      r.Some? && c in r.value.accounts && r.value.accounts[c] == Plain(c, d - w)
  {
    var t1, t2 := NewTransaction(id1, Deposit, c, d), NewTransaction(id2, Withdrawal, c, w);
    assert [] + [t1] == [t1];
    assert [t1] + [t2] == [t1, t2];
    EngineProperties.RunOneMore(Initial(), [], t1);
    EngineProperties.RunOneMore(Initial(), [t1], t2);
  }

  lemma WithdrawalWithInsufficientScenario(c: ClientId, id1: TxId, id2: TxId, d: Money, w: Money)
    requires id1 != id2 && w > d
    ensures var r := Run(Initial(), [NewTransaction(id1, Deposit, c, d), NewTransaction(id2, Withdrawal, c, w)]);
      r.Some? && c in r.value.accounts && r.value.accounts[c] == Plain(c, d)
  {
    var t1, t2 := NewTransaction(id1, Deposit, c, d), NewTransaction(id2, Withdrawal, c, w);
    assert [] + [t1] == [t1];
    assert [t1] + [t2] == [t1, t2];
    EngineProperties.RunOneMore(Initial(), [], t1);
    EngineProperties.RunOneMore(Initial(), [t1], t2);
  }

  /** Two deposits under distinct ids: the state every dispute scenario starts from. */
  lemma TwoDeposits(c: ClientId, id1: TxId, id2: TxId, a: Money, b: Money)
    requires id1 != id2
    ensures var r := Run(Initial(), [NewTransaction(id1, Deposit, c, a), NewTransaction(id2, Deposit, c, b)]);
      r == Some(EngineState(map[c := Plain(c, a + b)],
                            map[id1 := NewTransaction(id1, Deposit, c, a), id2 := NewTransaction(id2, Deposit, c, b)]))
  {
    var t1, t2 := NewTransaction(id1, Deposit, c, a), NewTransaction(id2, Deposit, c, b);
    assert [] + [t1] == [t1];
    assert [t1] + [t2] == [t1, t2];
    EngineProperties.RunOneMore(Initial(), [], t1);
    EngineProperties.RunOneMore(Initial(), [t1], t2);
    assert Run(Initial(), [t1]).value.accounts == map[c := Plain(c, a)];
    assert Run(Initial(), [t1]).value.ledger == map[id1 := t1];
    assert map[c := Plain(c, a)][c := Plain(c, a + b)] == map[c := Plain(c, a + b)];
  }

  lemma DisputeScenario(c: ClientId, id1: TxId, id2: TxId, a: Money, b: Money)
    requires id1 != id2 && 0 <= a
    ensures var r := Run(Initial(), [NewTransaction(id1, Deposit, c, a), NewTransaction(id2, Deposit, c, b),
                                     NewTransaction(id2, Dispute, c, 0)]);
      && r.Some? && c in r.value.accounts && r.value.accounts[c] == Accounts.AccountState(c, a, b, a + b, false)
      && id2 in r.value.ledger && r.value.ledger[id2].isDispute
  {
    var t1, t2, t3 := NewTransaction(id1, Deposit, c, a), NewTransaction(id2, Deposit, c, b), NewTransaction(id2, Dispute, c, 0);
    TwoDeposits(c, id1, id2, a, b);
    assert [t1, t2] + [t3] == [t1, t2, t3];
    EngineProperties.RunOneMore(Initial(), [t1, t2], t3);
  }

  /**
   * From a single plain account, its owner's dispute of an undisputed record
   * of at most the account's funds holds the record's amount.
   */
  lemma DisputeOfOwnRecord(c: ClientId, funds: Money, ledger: map<TxId, Transaction>, id: TxId, x: Money)
    requires id in ledger && ledger[id].accountId == c && !ledger[id].isDispute
    requires ledger[id].amount == Some(x) && x <= funds
    ensures Step(EngineState(map[c := Plain(c, funds)], ledger), NewTransaction(id, Dispute, c, 0)) ==
      Some(EngineState(map[c := Accounts.AccountState(c, funds - x, x, funds, false)], Flagged(ledger, id, true)))
  {
    var after := Accounts.AccountState(c, funds - x, x, funds, false);
    EngineProperties.DisputeRule(EngineState(map[c := Plain(c, funds)], ledger), NewTransaction(id, Dispute, c, 0));
    assert map[c := Plain(c, funds)][c := after] == map[c := after];
  }

  /** Two deposits under distinct ids, then a dispute of one of them by its owner. */
  lemma DisputedAfterTwoDeposits(c: ClientId, id1: TxId, id2: TxId, a: Money, b: Money, disputed: TxId)
    requires id1 != id2 && 0 <= a && 0 <= b && (disputed == id1 || disputed == id2)
    ensures var x := if disputed == id1 then a else b;
      var t1, t2 := NewTransaction(id1, Deposit, c, a), NewTransaction(id2, Deposit, c, b);
      var m := map[id1 := t1, id2 := t2];
      Run(Initial(), [t1, t2, NewTransaction(disputed, Dispute, c, 0)]) ==
        Some(EngineState(map[c := Accounts.AccountState(c, a + b - x, x, a + b, false)], Flagged(m, disputed, true)))
  {
    var t1, t2, t3 := NewTransaction(id1, Deposit, c, a), NewTransaction(id2, Deposit, c, b), NewTransaction(disputed, Dispute, c, 0);
    var funds, ledger := a + b, map[id1 := t1, id2 := t2];
    TwoDeposits(c, id1, id2, a, b);
    var s2 := EngineState(map[c := Plain(c, funds)], ledger);
    assert Run(Initial(), [t1, t2]) == Some(s2);
    assert [t1, t2, t3][..2] == [t1, t2];
    assert Run(Initial(), [t1, t2, t3]) == Step(s2, t3);
    var x := if disputed == id1 then a else b;
    DisputeOfOwnRecord(c, funds, ledger, disputed, x);
  }

  lemma ResolveScenario(c: ClientId, id1: TxId, id2: TxId, a: Money, b: Money)
    requires id1 != id2 && 0 <= a && 0 <= b
    ensures var r := Run(Initial(), [NewTransaction(id1, Deposit, c, a), NewTransaction(id2, Deposit, c, b),
                                     NewTransaction(id2, Dispute, c, 0), NewTransaction(id2, Resolve, c, 0)]);
      && r.Some? && c in r.value.accounts && r.value.accounts[c] == Plain(c, a + b)
      && id2 in r.value.ledger && !r.value.ledger[id2].isDispute
  {
    var t1, t2, t3, t4 := NewTransaction(id1, Deposit, c, a), NewTransaction(id2, Deposit, c, b),
                          NewTransaction(id2, Dispute, c, 0), NewTransaction(id2, Resolve, c, 0);
    DisputedAfterTwoDeposits(c, id1, id2, a, b, id2);
    assert [t1, t2, t3] + [t4] == [t1, t2, t3, t4];
    EngineProperties.RunOneMore(Initial(), [t1, t2, t3], t4);
    var s3 := Run(Initial(), [t1, t2, t3]).value;
    EngineProperties.ResolveRule(s3, t4);
  }

  /** A resolve by another client is skipped, although that client's account is created. */
  lemma ResolveWithDifferentAccountScenario(c: ClientId, c2: ClientId, id1: TxId, id2: TxId, a: Money, b: Money)
    requires c != c2 && id1 != id2 && 0 <= a && 0 <= b
    ensures var r := Run(Initial(), [NewTransaction(id1, Deposit, c, a), NewTransaction(id2, Deposit, c, b),
                                     NewTransaction(id2, Dispute, c, 0), NewTransaction(id2, Resolve, c2, 0)]);
      && r.Some? && r.value.accounts.Keys == {c, c2}
      && r.value.accounts[c] == Accounts.AccountState(c, a, b, a + b, false)
      && r.value.accounts[c2] == Plain(c2, 0)
      && id2 in r.value.ledger && r.value.ledger[id2].isDispute
  {
    var t1, t2, t3, t4 := NewTransaction(id1, Deposit, c, a), NewTransaction(id2, Deposit, c, b),
                          NewTransaction(id2, Dispute, c, 0), NewTransaction(id2, Resolve, c2, 0);
    DisputedAfterTwoDeposits(c, id1, id2, a, b, id2);
    assert [t1, t2, t3] + [t4] == [t1, t2, t3, t4];
    EngineProperties.RunOneMore(Initial(), [t1, t2, t3], t4);
  }

  /**
   * A chargeback removes the disputed funds and locks the account. The final
   * deposit reuses id `id1`, so it is skipped as a duplicate before the lock
   * is ever consulted; that a locked account refuses a deposit with a new id
   * is `EngineProperties.LockedAccountStaysFrozen`.
   */
  lemma ChargebackScenario(c: ClientId, id1: TxId, id2: TxId, a: Money, b: Money)
    requires id1 != id2 && 0 <= a && 0 <= b
    ensures var r := Run(Initial(), [NewTransaction(id1, Deposit, c, a), NewTransaction(id2, Deposit, c, b),
                                     NewTransaction(id2, Dispute, c, 0), NewTransaction(id2, Chargeback, c, 0),
                                     NewTransaction(id1, Deposit, c, a)]);
      r.Some? && c in r.value.accounts && r.value.accounts[c] == Accounts.AccountState(c, a, 0, a, true)
  {
    var t1, t2, t3, t4, t5 := NewTransaction(id1, Deposit, c, a), NewTransaction(id2, Deposit, c, b),
                              NewTransaction(id2, Dispute, c, 0), NewTransaction(id2, Chargeback, c, 0),
                              NewTransaction(id1, Deposit, c, a);
    DisputedAfterTwoDeposits(c, id1, id2, a, b, id2);
    assert [t1, t2, t3] + [t4] == [t1, t2, t3, t4];
    assert [t1, t2, t3, t4] + [t5] == [t1, t2, t3, t4, t5];
    EngineProperties.RunOneMore(Initial(), [t1, t2, t3], t4);
    EngineProperties.RunOneMore(Initial(), [t1, t2, t3, t4], t5);
  }

  /** A dispute by another client is skipped: no funds are held and the record stays undisputed. */
  lemma DisputeWithDifferentAccountScenario(c: ClientId, c2: ClientId, id1: TxId, id2: TxId, a: Money, b: Money)
    requires c != c2 && id1 != id2
    ensures var r := Run(Initial(), [NewTransaction(id1, Deposit, c, a), NewTransaction(id2, Deposit, c, b),
                                     NewTransaction(id2, Dispute, c2, 0)]);
      && r.Some? && c in r.value.accounts && r.value.accounts[c] == Plain(c, a + b)
      && id2 in r.value.ledger && !r.value.ledger[id2].isDispute
  {
    var t1, t2, t3 := NewTransaction(id1, Deposit, c, a), NewTransaction(id2, Deposit, c, b), NewTransaction(id2, Dispute, c2, 0);
    TwoDeposits(c, id1, id2, a, b);
    assert [t1, t2] + [t3] == [t1, t2, t3];
    EngineProperties.RunOneMore(Initial(), [t1, t2], t3);
  }

  lemma ThreeDeposits(c: ClientId, id1: TxId, id2: TxId, id3: TxId, x: Money)
    requires id1 != id2 && id1 != id3 && id2 != id3
    ensures var t1, t2, t3 := NewTransaction(id1, Deposit, c, x), NewTransaction(id2, Deposit, c, x), NewTransaction(id3, Deposit, c, x);
      Run(Initial(), [t1, t2, t3]) == Some(EngineState(map[c := Plain(c, 3 * x)], map[id1 := t1, id2 := t2, id3 := t3]))
  {
    var t1, t2, t3 := NewTransaction(id1, Deposit, c, x), NewTransaction(id2, Deposit, c, x), NewTransaction(id3, Deposit, c, x);
    TwoDeposits(c, id1, id2, x, x);
    assert [t1, t2] + [t3] == [t1, t2, t3];
    EngineProperties.RunOneMore(Initial(), [t1, t2], t3);
    var s2 := Run(Initial(), [t1, t2]).value;
    assert Accounts.EnsureAccount(s2.accounts, c)[c := Plain(c, 3 * x)] == map[c := Plain(c, 3 * x)];
  }

  /** Disputing the same record twice holds its amount once. */
  lemma DisputeTwoTimesScenario(c: ClientId, id1: TxId, id2: TxId, id3: TxId, x: Money)
    requires id1 != id2 && id1 != id3 && id2 != id3 && 0 <= x
    ensures var r := Run(Initial(), [NewTransaction(id1, Deposit, c, x), NewTransaction(id2, Deposit, c, x),
                                     NewTransaction(id3, Deposit, c, x), NewTransaction(id1, Dispute, c, 0),
                                     NewTransaction(id1, Dispute, c, 0)]);
      && r.Some? && c in r.value.accounts && r.value.accounts[c] == Accounts.AccountState(c, 2 * x, x, 3 * x, false)
      && id1 in r.value.ledger && r.value.ledger[id1].isDispute
  {
    var t1, t2, t3, t4 := NewTransaction(id1, Deposit, c, x), NewTransaction(id2, Deposit, c, x),
                          NewTransaction(id3, Deposit, c, x), NewTransaction(id1, Dispute, c, 0);
    ThreeDeposits(c, id1, id2, id3, x);
    assert [t1, t2, t3] + [t4] == [t1, t2, t3, t4];
    assert [t1, t2, t3, t4] + [t4] == [t1, t2, t3, t4, t4];
    EngineProperties.RunOneMore(Initial(), [t1, t2, t3], t4);
    var s3 := Run(Initial(), [t1, t2, t3]).value;
    EngineProperties.DisputeRule(s3, t4);
    EngineProperties.RunOneMore(Initial(), [t1, t2, t3, t4], t4);
    var s4 := Run(Initial(), [t1, t2, t3, t4]).value;
    assert s4.accounts[c] == Accounts.AccountState(c, 2 * x, x, 3 * x, false) && s4.ledger[id1].isDispute;
    EngineProperties.DisputeRule(s4, t4);
  }

  lemma WithdrawalSameTxTwiceScenario(c: ClientId, id1: TxId, id2: TxId, d: Money, w: Money)
    requires id1 != id2 && w <= d
    ensures var r := Run(Initial(), [NewTransaction(id1, Deposit, c, d), NewTransaction(id2, Withdrawal, c, w),
                                     NewTransaction(id2, Withdrawal, c, w)]);
      r.Some? && c in r.value.accounts && r.value.accounts[c] == Plain(c, d - w)
  {
    var t1, t2 := NewTransaction(id1, Deposit, c, d), NewTransaction(id2, Withdrawal, c, w);
    WithdrawalScenario(c, id1, id2, d, w);
    assert [t1, t2] + [t2] == [t1, t2, t2];
    EngineProperties.RunOneMore(Initial(), [t1, t2], t2);
  }

  lemma DepositSameTxTwiceScenario(c: ClientId, id: TxId, x: Money)
    ensures var r := Run(Initial(), [NewTransaction(id, Deposit, c, x), NewTransaction(id, Deposit, c, x)]);
      r.Some? && c in r.value.accounts && r.value.accounts[c] == Plain(c, x)
  {
    var t1 := NewTransaction(id, Deposit, c, x);
    DepositScenario(c, id, x);
    assert [t1] + [t1] == [t1, t1];
    EngineProperties.RunOneMore(Initial(), [t1], t1);
  }

  lemma DisputeSameTxTwiceScenario(c: ClientId, id: TxId, x: Money)
    requires 0 <= x
    ensures var r := Run(Initial(), [NewTransaction(id, Deposit, c, x), NewTransaction(id, Dispute, c, 0),
                                     NewTransaction(id, Dispute, c, 0)]);
      && r.Some? && c in r.value.accounts && r.value.accounts[c] == Accounts.AccountState(c, 0, x, x, false)
      && id in r.value.ledger && r.value.ledger[id].isDispute
  {
    var t1, t2 := NewTransaction(id, Deposit, c, x), NewTransaction(id, Dispute, c, 0);
    DepositScenario(c, id, x);
    assert [t1] + [t2] == [t1, t2];
    assert [t1, t2] + [t2] == [t1, t2, t2];
    EngineProperties.RunOneMore(Initial(), [t1], t2);
    EngineProperties.RunOneMore(Initial(), [t1, t2], t2);
  }

  /**
   * After `id1` is disputed and resolved, a resolve of `id2`, which was never
   * disputed, is skipped; all funds end available and `id1`'s flag is clear.
   * No record is resolved twice here: a repeated resolve of one record is
   * covered by `EngineProperties.ResolveRule` and
   * `EngineProperties.StepIsIdempotent`.
   */
  lemma ResolveSameTxTwiceScenario(c: ClientId, id1: TxId, id2: TxId, x: Money, y: Money)
    requires id1 != id2 && 0 <= x && 0 <= y
    ensures var r := Run(Initial(), [NewTransaction(id1, Deposit, c, x), NewTransaction(id2, Deposit, c, y),
                                     NewTransaction(id1, Dispute, c, 0), NewTransaction(id1, Resolve, c, 0),
                                     NewTransaction(id2, Resolve, c, 0)]);
      && r.Some? && c in r.value.accounts && r.value.accounts[c] == Plain(c, x + y)
      && id1 in r.value.ledger && !r.value.ledger[id1].isDispute
  {
    var t1, t2, t3, t4, t5 := NewTransaction(id1, Deposit, c, x), NewTransaction(id2, Deposit, c, y),
                              NewTransaction(id1, Dispute, c, 0), NewTransaction(id1, Resolve, c, 0),
                              NewTransaction(id2, Resolve, c, 0);
    DisputedAfterTwoDeposits(c, id1, id2, x, y, id1);
    assert [t1, t2, t3] + [t4] == [t1, t2, t3, t4];
    assert [t1, t2, t3, t4] + [t5] == [t1, t2, t3, t4, t5];
    EngineProperties.RunOneMore(Initial(), [t1, t2, t3], t4);
    var s3 := Run(Initial(), [t1, t2, t3]).value;
    EngineProperties.ResolveRule(s3, t4);
    EngineProperties.RunOneMore(Initial(), [t1, t2, t3, t4], t5);
    var s4 := Run(Initial(), [t1, t2, t3, t4]).value;
    assert s4.accounts[c] == Plain(c, x + y) && !s4.ledger[id1].isDispute && !s4.ledger[id2].isDispute;
    EngineProperties.ResolveRule(s4, t5);
  }

  lemma ResolveSameTxWithDiffAccScenario(c: ClientId, c2: ClientId, id1: TxId, id2: TxId, x: Money, y: Money)
    requires c != c2 && id1 != id2 && 0 <= x && 0 <= y
    ensures var r := Run(Initial(), [NewTransaction(id1, Deposit, c, x), NewTransaction(id2, Deposit, c, y),
                                     NewTransaction(id1, Dispute, c, 0), NewTransaction(id1, Resolve, c2, 0)]);
      && r.Some? && c in r.value.accounts && r.value.accounts[c] == Accounts.AccountState(c, y, x, x + y, false)
      && id1 in r.value.ledger && r.value.ledger[id1].isDispute
  {
    var t1, t2, t3, t4 := NewTransaction(id1, Deposit, c, x), NewTransaction(id2, Deposit, c, y),
                          NewTransaction(id1, Dispute, c, 0), NewTransaction(id1, Resolve, c2, 0);
    DisputedAfterTwoDeposits(c, id1, id2, x, y, id1);
    assert [t1, t2, t3] + [t4] == [t1, t2, t3, t4];
    EngineProperties.RunOneMore(Initial(), [t1, t2, t3], t4);
  }

  lemma ChargebackSameTxWithDiffAccScenario(c: ClientId, c2: ClientId, id1: TxId, id2: TxId, x: Money, y: Money)
    requires c != c2 && id1 != id2 && 0 <= x && 0 <= y
    ensures var r := Run(Initial(), [NewTransaction(id1, Deposit, c, x), NewTransaction(id2, Deposit, c, y),
                                     NewTransaction(id1, Dispute, c, 0), NewTransaction(id1, Chargeback, c2, 0)]);
      && r.Some? && c in r.value.accounts && r.value.accounts[c] == Accounts.AccountState(c, y, x, x + y, false)
      && id1 in r.value.ledger && r.value.ledger[id1].isDispute
  {
    var t1, t2, t3, t4 := NewTransaction(id1, Deposit, c, x), NewTransaction(id2, Deposit, c, y),
                          NewTransaction(id1, Dispute, c, 0), NewTransaction(id1, Chargeback, c2, 0);
    DisputedAfterTwoDeposits(c, id1, id2, x, y, id1);
    assert [t1, t2, t3] + [t4] == [t1, t2, t3, t4];
    EngineProperties.RunOneMore(Initial(), [t1, t2, t3], t4);
  }

  // ---------------------------------------------------------------------
  // A dispute of an id that was never recorded.
  // ---------------------------------------------------------------------

  /** A dispute row as read from the input: it carries no amount. */
  function DisputeRow(c: ClientId, id: TxId): Transaction {
    Transaction(Dispute, c, id, None, false)
  }

  /**
   * The dispute changes no balance, but `append` records it under the id it
   * names, so a later deposit with that id is skipped as a duplicate.
   */
  lemma UnseenDisputeShadowsLaterDeposit(c: ClientId, id: TxId, x: Money)
    ensures var r := Run(Initial(), [DisputeRow(c, id), NewTransaction(id, Deposit, c, x)]);
      && r.Some? && c in r.value.accounts && r.value.accounts[c] == Plain(c, 0)
      && id in r.value.ledger && r.value.ledger[id] == DisputeRow(c, id)
  {
    var t1, t2 := DisputeRow(c, id), NewTransaction(id, Deposit, c, x);
    assert [] + [t1] == [t1];
    assert [t1] + [t2] == [t1, t2];
    EngineProperties.RunOneMore(Initial(), [], t1);
    EngineProperties.RunOneMore(Initial(), [t1], t2);
  }

  /** Repeating a dispute row for an unseen id makes the second one read the recorded row's absent amount: a panic. */
  lemma RepeatedUnseenDisputePanics(c: ClientId, id: TxId)
    ensures Run(Initial(), [DisputeRow(c, id), DisputeRow(c, id)]) == None
  {
    var t1 := DisputeRow(c, id);
    assert [] + [t1] == [t1];
    assert [t1] + [t1] == [t1, t1];
    EngineProperties.RunOneMore(Initial(), [], t1);
    EngineProperties.RunOneMore(Initial(), [t1], t1);
  }

  /**
   * A dispute built with an amount and naming an unseen id is recorded; the
   * same dispute repeated then holds that amount, although no transaction
   * with that id was ever deposited.
   */
  lemma RepeatedUnseenDisputeHoldsItsOwnAmount(c: ClientId, id1: TxId, id2: TxId, a: Money, y: Money)
    requires id1 != id2 && y <= a
    ensures var r := Run(Initial(), [NewTransaction(id1, Deposit, c, a), NewTransaction(id2, Dispute, c, y),
                                     NewTransaction(id2, Dispute, c, y)]);
      && r.Some? && c in r.value.accounts && r.value.accounts[c] == Accounts.AccountState(c, a - y, y, a, false)
      && id2 in r.value.ledger && r.value.ledger[id2].isDispute
  {
    var t1, t2 := NewTransaction(id1, Deposit, c, a), NewTransaction(id2, Dispute, c, y);
    DepositScenario(c, id1, a);
    assert [t1] + [t2] == [t1, t2];
    assert [t1, t2] + [t2] == [t1, t2, t2];
    EngineProperties.RunOneMore(Initial(), [t1], t2);
    EngineProperties.RunOneMore(Initial(), [t1, t2], t2);
  }
}
