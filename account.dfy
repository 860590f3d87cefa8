/**
 * One client's balances (`Account`) and the lazily populated collection of
 * accounts (`AccountsRepository`).
 *
 * `AccountState` and `Apply` are the value-level specification of the five
 * guarded operations; the `Account` class updates its fields in place and
 * each of its methods is proved against `Apply`.
 */
module Accounts {
  import opened Common

  datatype Error = InsufficientFunds | LockedAccount

  /** The `Result<(), Error>` the account operations return. */
  datatype Outcome = Ok | Err(error: Error)

  /** The observable value of an account. */
  datatype AccountState = AccountState(
    clientId: ClientId,
    available: Money,
    held: Money,
    total: Money,
    locked: bool)

  /** The balance invariant: the total is what is available plus what is held. */
  predicate Consistent(a: AccountState) {
    a.total == a.available + a.held
  }

  /** Consistent, and neither pool is overdrawn. */
  predicate Sound(a: AccountState) {
    Consistent(a) && a.available >= 0 && a.held >= 0
  }

  /** `Account::new`: a zeroed, unlocked account. */
  function NewAccount(clientId: ClientId): (r: AccountState)
    ensures r.clientId == clientId && !r.locked
    ensures Sound(r) && r.total == 0
  {
    AccountState(clientId, 0, 0, 0, false)
  }

  /** The five operations, each with the amount it is given. */
  datatype Op =
    | Deposit(amount: Money)
    | Withdrawal(amount: Money)
    | Dispute(amount: Money)
    | Resolve(amount: Money)
    | Chargeback(amount: Money)

  datatype Applied = Applied(outcome: Outcome, after: AccountState)

  /**
   * The effect of one operation: the lock is checked first, then the pool the
   * operation draws from, and only then are the balances changed.
   */
  function Apply(a: AccountState, op: Op): (r: Applied)
    ensures r.after.clientId == a.clientId
    ensures r.outcome.Err? ==> r.after == a
    ensures a.locked ==> r.outcome == Err(LockedAccount)
    ensures r.after.locked <==> a.locked || (op.Chargeback? && r.outcome.Ok?)
    ensures r.after.total - r.after.available - r.after.held == a.total - a.available - a.held
  {
    if a.locked then Applied(Err(LockedAccount), a)
    else match op
      case Deposit(x) =>
        Applied(Ok, a.(available := a.available + x, total := a.total + x))
      case Withdrawal(x) =>
        if x > a.available then Applied(Err(InsufficientFunds), a)
        else Applied(Ok, a.(available := a.available - x, total := a.total - x))
      case Dispute(x) =>
        if x > a.available then Applied(Err(InsufficientFunds), a)
        else Applied(Ok, a.(available := a.available - x, held := a.held + x))
      case Resolve(x) =>
        if x > a.held then Applied(Err(InsufficientFunds), a)
        else Applied(Ok, a.(held := a.held - x, available := a.available + x))
      case Chargeback(x) =>
        if x > a.held then Applied(Err(InsufficientFunds), a)
        else Applied(Ok, a.(held := a.held - x, total := a.total - x, locked := true))
  }

  /** A locked account refuses every operation, before any funds check, and stays as it is. */
  lemma LockedAccountRefusesEverything(a: AccountState, op: Op)
    requires a.locked
    ensures Apply(a, op) == Applied(Err(LockedAccount), a)
  {
  }

  lemma DepositSpec(a: AccountState, x: Money)
    ensures Apply(a, Deposit(x)).outcome == Ok <==> !a.locked
    ensures !a.locked ==>
      Apply(a, Deposit(x)).after == a.(available := a.available + x, total := a.total + x)
  {
  }

  lemma WithdrawalSpec(a: AccountState, x: Money)
    ensures Apply(a, Withdrawal(x)).outcome == Err(InsufficientFunds) <==> !a.locked && x > a.available
    ensures Apply(a, Withdrawal(x)).outcome == Ok <==> !a.locked && x <= a.available
    ensures Apply(a, Withdrawal(x)).outcome == Ok ==>
      Apply(a, Withdrawal(x)).after == a.(available := a.available - x, total := a.total - x)
  {
  }

  lemma DisputeSpec(a: AccountState, x: Money)
    ensures Apply(a, Dispute(x)).outcome == Err(InsufficientFunds) <==> !a.locked && x > a.available
    ensures Apply(a, Dispute(x)).outcome == Ok <==> !a.locked && x <= a.available
    ensures Apply(a, Dispute(x)).outcome == Ok ==>
      Apply(a, Dispute(x)).after == a.(available := a.available - x, held := a.held + x)
  {
  }

  lemma ResolveSpec(a: AccountState, x: Money)
    ensures Apply(a, Resolve(x)).outcome == Err(InsufficientFunds) <==> !a.locked && x > a.held
    ensures Apply(a, Resolve(x)).outcome == Ok <==> !a.locked && x <= a.held
    ensures Apply(a, Resolve(x)).outcome == Ok ==>
      Apply(a, Resolve(x)).after == a.(held := a.held - x, available := a.available + x)
  {
  }

  lemma ChargebackSpec(a: AccountState, x: Money)
    ensures Apply(a, Chargeback(x)).outcome == Err(InsufficientFunds) <==> !a.locked && x > a.held
    ensures Apply(a, Chargeback(x)).outcome == Ok <==> !a.locked && x <= a.held
    ensures Apply(a, Chargeback(x)).outcome == Ok ==>
      Apply(a, Chargeback(x)).after == a.(held := a.held - x, total := a.total - x, locked := true)
  {
  }

  /** Once locked, no sequence of operations changes the account again. */
  lemma {:induction false} LockIsTerminal(a: AccountState, ops: seq<Op>)
    requires a.locked
    ensures ApplyAll(a, ops) == a
  {
    if ops != [] {
      LockIsTerminal(a, ops[..|ops| - 1]);
    }
  }

  /** The account after a run of operations, whatever each one returned. */
  function ApplyAll(a: AccountState, ops: seq<Op>): AccountState
    decreases |ops|
  {
    if ops == [] then a else Apply(ApplyAll(a, ops[..|ops| - 1]), ops[|ops| - 1]).after
  }

  /** Every operation keeps the balance invariant, whatever the amount. */
  lemma ApplyKeepsConsistent(a: AccountState, op: Op)
    requires Consistent(a)
    ensures Consistent(Apply(a, op).after)
  {
  }

  /** With a non-negative amount, no operation overdraws either pool. */
  lemma ApplyKeepsSound(a: AccountState, op: Op)
    requires Sound(a) && op.amount >= 0
    ensures Sound(Apply(a, op).after)
  {
  }

  /** From a new account, any run of operations with non-negative amounts stays sound. */
  lemma {:induction false} ApplyAllFromNewIsSound(id: ClientId, ops: seq<Op>)
    requires forall i :: 0 <= i < |ops| ==> ops[i].amount >= 0
    ensures Sound(ApplyAll(NewAccount(id), ops))
  {
    if ops != [] {
      ApplyAllFromNewIsSound(id, ops[..|ops| - 1]);
      ApplyKeepsSound(ApplyAll(NewAccount(id), ops[..|ops| - 1]), ops[|ops| - 1]);
    }
  }

  class Account {
    const clientId: ClientId
    var available: Money
    var held: Money
    var total: Money
    var locked: bool

    function State(): AccountState
      reads this
    {
      AccountState(clientId, available, held, total, locked)
    }

    constructor (clientId: ClientId)
      ensures State() == NewAccount(clientId)
    {
      this.clientId := clientId;
      available, held, total := 0, 0, 0;
      locked := false;
    }

    function IsLocked(): (r: Outcome)
      reads this
      ensures r.Err? <==> locked
      ensures r.Err? ==> r.error == LockedAccount
    {
      if locked then Err(LockedAccount) else Ok
    }

    function HasSufficientFunds(amount: Money): (r: Outcome)
      reads this
      ensures r.Err? <==> amount > available
      ensures r.Err? ==> r.error == InsufficientFunds
    {
      if amount > available then Err(InsufficientFunds) else Ok
    }

    function HasSufficientHoldBalance(amount: Money): (r: Outcome)
      reads this
      ensures r.Err? <==> amount > held
      ensures r.Err? ==> r.error == InsufficientFunds
    {
      if amount > held then Err(InsufficientFunds) else Ok
    }

    method Deposit(amount: Money) returns (r: Outcome)
      modifies this
      ensures Applied(r, State()) == Apply(old(State()), Op.Deposit(amount))
    {
      r := IsLocked();
      if r.Err? { return; }
      available := available + amount;
      total := total + amount;
      r := Ok;
    }

    method Withdrawal(amount: Money) returns (r: Outcome)
      modifies this
      ensures Applied(r, State()) == Apply(old(State()), Op.Withdrawal(amount))
    {
      r := IsLocked();
      if r.Err? { return; }
      r := HasSufficientFunds(amount);
      if r.Err? { return; }
      available := available - amount;
      total := total - amount;
      r := Ok;
    }

    method Dispute(amount: Money) returns (r: Outcome)
      modifies this
      ensures Applied(r, State()) == Apply(old(State()), Op.Dispute(amount))
    {
      r := IsLocked();
      if r.Err? { return; }
      r := HasSufficientFunds(amount);
      if r.Err? { return; }
      available := available - amount;
      held := held + amount;
      r := Ok;
    }

    method Resolve(amount: Money) returns (r: Outcome)
      modifies this
      ensures Applied(r, State()) == Apply(old(State()), Op.Resolve(amount))
    {
      r := IsLocked();
      if r.Err? { return; }
      r := HasSufficientHoldBalance(amount);
      if r.Err? { return; }
      held := held - amount;
      available := available + amount;
      r := Ok;
    }

    method Chargeback(amount: Money) returns (r: Outcome)
      modifies this
      ensures Applied(r, State()) == Apply(old(State()), Op.Chargeback(amount))
    {
      r := IsLocked();
      if r.Err? { return; }
      r := HasSufficientHoldBalance(amount);
      if r.Err? { return; }
      held := held - amount;
      total := total - amount;
      locked := true;
      r := Ok;
    }
  }

  /** `get_or_create` on values: the map gains the client's zeroed account if it had none. */
  function EnsureAccount(m: map<ClientId, AccountState>, id: ClientId): (r: map<ClientId, AccountState>)
    ensures r.Keys == m.Keys + {id}
    ensures forall c :: c in m ==> r[c] == m[c]
    ensures id !in m ==> r[id] == NewAccount(id)
  {
    if id in m then m else m[id := NewAccount(id)]
  }

  class AccountsRepository {
    var accounts: map<ClientId, Account>

    /** Each account sits under its own client id, so no two keys share an object. */
    ghost predicate Valid()
      reads this
    {
      forall id :: id in accounts ==> accounts[id].clientId == id
    }

    ghost function Snapshot(): map<ClientId, AccountState>
      reads this, accounts.Values
    {
      map id | id in accounts :: accounts[id].State()
    }

    constructor ()
      ensures Valid() && accounts == map[] && Snapshot() == map[]
    {
      accounts := map[];
    }

    method GetOrCreate(id: ClientId) returns (a: Account)
      requires Valid()
      modifies this
      ensures Valid()
      ensures id in accounts && accounts[id] == a && a.clientId == id
      ensures id in old(accounts) ==> accounts == old(accounts)
      ensures id !in old(accounts) ==> fresh(a) && accounts == old(accounts)[id := a]
      ensures a in old(accounts.Values) || fresh(a)
      ensures fresh(accounts.Values - old(accounts.Values))
      ensures Snapshot() == EnsureAccount(old(Snapshot()), id)
    {
      if id in accounts {
        a := accounts[id];
      } else {
        a := new Account(id);
        accounts := accounts[id := a];
      }
    }

    /** When only the account stored under `id` has changed, so has only its entry in the snapshot. */
    twostate lemma SnapshotAfterUpdate(id: ClientId)
      requires Valid() && unchanged(this) && id in accounts
      requires forall a :: a in accounts.Values && a != accounts[id] ==> unchanged(a)
      ensures Snapshot() == old(Snapshot())[id := accounts[id].State()]
    {
      forall c | c in accounts && c != id
        ensures Snapshot()[c] == old(Snapshot())[c]
      {
        assert accounts[c].clientId != accounts[id].clientId;
        assert accounts[c] in accounts.Values;
      }
    }
  }

  // The unit tests of `Account`, one lemma each, stated for every amount that
  // meets the test's condition (the source's tests use 19.0 of funds and
  // amounts such as 10.0 and 50.9; 1.0 is 10000 here).

  lemma DepositTest(c: ClientId, x: Money)
    ensures Apply(NewAccount(c), Deposit(x)) == Applied(Ok, AccountState(c, x, 0, x, false))
  {
  }

  lemma DebitNoFundsTest(c: ClientId, x: Money)
    requires x > 0
    ensures Apply(NewAccount(c), Withdrawal(x)) == Applied(Err(InsufficientFunds), NewAccount(c))
  {
  }

  lemma DebitTooMuchTest(funds: Money, x: Money)
    requires x > funds
    ensures Apply(Funded(funds), Withdrawal(x)) == Applied(Err(InsufficientFunds), Funded(funds))
  {
  }

  lemma DebitTest(funds: Money, x: Money)
    requires x <= funds
    ensures Apply(Funded(funds), Withdrawal(x)) == Applied(Ok, Funded(funds - x))
  {
  }

  lemma HoldTest(funds: Money, x: Money)
    requires x <= funds
    ensures Apply(Funded(funds), Dispute(x)) == Applied(Ok, AccountState(1, funds - x, x, funds, false))
  {
  }

  lemma HoldNoFundsTest(funds: Money, x: Money)
    requires x > funds
    ensures Apply(Funded(funds), Dispute(x)) == Applied(Err(InsufficientFunds), Funded(funds))
  {
  }

  /** A hold followed by a release of the same amount restores the account. */
  lemma ReleaseTest(funds: Money, x: Money)
    requires x <= funds
    ensures Apply(Apply(Funded(funds), Dispute(x)).after, Resolve(x)) == Applied(Ok, Funded(funds))
  {
    HoldTest(funds, x);
  }

  lemma ReleaseNoFundsTest(funds: Money, x: Money)
    requires x > 0
    ensures Apply(Funded(funds), Resolve(x)) == Applied(Err(InsufficientFunds), Funded(funds))
  {
  }

  /** The chargeback locks the account; the deposit after it is refused and changes nothing. */
  lemma ChargebackTest(funds: Money, x: Money, y: Money)
    requires x <= funds
    ensures Apply(Apply(Apply(Funded(funds), Dispute(x)).after, Chargeback(x)).after, Deposit(y)) ==
      Applied(Err(LockedAccount), AccountState(1, funds - x, 0, funds - x, true))
  {
    HoldTest(funds, x);
    ChargebackSpec(AccountState(1, funds - x, x, funds, false), x);
  }

  /** Client 1 with `funds` available and nothing held, as the tests build it. */
  function Funded(funds: Money): (r: AccountState)
    ensures Consistent(r) && r.available == funds && r.held == 0 && !r.locked
  {
    AccountState(1, funds, 0, funds, false)
  }
}
