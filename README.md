# Payments engine — Dafny model

A model of the core of a small payments engine. The engine reads client
instructions in order: deposit, withdrawal, dispute, resolve and chargeback.
It keeps one account per client and a ledger of the instructions it has seen.

- An **account** (`Accounts.Account`) holds available, held and total funds and a lock.
  - A deposit adds to available and total.
  - A withdrawal takes from available and total.
  - A dispute moves funds from available to held.
  - A resolve moves them back.
  - A chargeback removes held funds from the total and locks the account for good.
  - A locked account refuses everything.
  - A withdrawal or dispute larger than the available funds is refused. So is a resolve or chargeback larger than the held funds.
- The **ledger** (`Transactions.TransactionLedger`) maps a transaction id to the first instruction seen under it (first write wins). Each record carries a "disputed" flag.
- The **engine** (`Processing.Engine`) creates the addressed account if needed for every instruction, then dispatches on the instruction's kind:
  - A deposit or withdrawal whose id is already recorded is skipped as a duplicate.
  - A dispute needs a recorded, undisputed transaction of the same client. The flag is set only if the account accepted the hold.
  - A resolve or chargeback needs a recorded, disputed transaction of the same client. A resolve clears the flag when it succeeds; a chargeback leaves the flag as it is.
  - After dispatching, the instruction is appended to the ledger.

Layout:

- `common.dfy`: `Option`, the `u16` client id and `u32` transaction id as subset types, and `Money`.
  - `Money` is an exact integer count of 1/10000 units.
- `account.dfy`:
  - the value-level specification of one account operation, `Accounts.Apply`;
  - the `Account` class, whose methods mutate its fields and are proved against `Apply`;
  - the `AccountsRepository` class, a map from client id to `Account` objects;
  - the account unit tests.
- `transaction.dfy`: instructions, and the `TransactionLedger` class with its value-level counterparts `Appended` and `Flagged`.
- `engine.dfy`:
  - the value-level handlers `DepositStep` … `ChargebackStep`, `Step` (one loop iteration) and `Run` (the whole input);
  - the `Engine` class, whose methods mutate the repository and the ledger in place and are proved equal to those functions.
- `properties.dfy`:
  - the effect of each instruction kind;
  - the balance invariant over any run;
  - which accounts a run creates or leaves alone;
  - the lock is terminal;
  - the ledger keeps the first record;
  - a repeated instruction takes effect once.
- `scenarios.dfy`:
  - the engine's test cases, generalised to every client, every choice of distinct ids and every amount that meets the test's condition;
  - three runs showing how a dispute of a never-recorded id behaves.

Panics are modelled, not excluded. `Transaction::amount` unwraps an absent amount (a row with an empty amount column), and that panic is modelled as:

- `None` from the step functions;
- `panicked == true` from the `Engine` methods. `Process` stops at the first panic.

`EngineProperties.RunCompletes` gives a sufficient condition for a run to finish: every record starts with an amount, and every row has an amount or an id already in the ledger or on an earlier row.

**Every new id is recorded.**

- `Engine::process` appends every instruction whose id is new, whatever its kind (src/engine.rs:94 with src/transaction.rs:74-76), not only deposits and withdrawals.
- So a dispute naming an unknown id is recorded under that id. Three lemmas show the consequences:
  - `EngineScenarios.UnseenDisputeShadowsLaterDeposit`: a later deposit with that id is skipped as a duplicate.
  - `EngineScenarios.RepeatedUnseenDisputePanics`: a repeated dispute row reads the recorded row's missing amount, which is a panic.
  - `EngineScenarios.RepeatedUnseenDisputeHoldsItsOwnAmount`: a repeated dispute built with an amount holds that amount.
- This is also why `EngineProperties.StepIsIdempotent` excludes a dispute of an unrecorded id.

## Model

| member | source | states |
|---|---|---|
| Accounts.NewAccount | src/account.rs:73-81 | a new account belongs to the given client, is unlocked, and has zero total with the balance invariant holding |
| Accounts.Apply | src/account.rs:87-148 | every operation keeps the client id; a refused operation changes nothing; a locked account refuses everything with `LockedAccount`; the account becomes locked exactly by a successful chargeback; `total - available - held` is unchanged |
| Accounts.LockedAccountRefusesEverything | src/account.rs:87-93 | on a locked account every operation fails with `LockedAccount`, before any funds check, and leaves the account as it was |
| Accounts.DepositSpec | src/account.rs:103-108 | a deposit succeeds iff the account is unlocked, and then adds the amount to available and total |
| Accounts.WithdrawalSpec | src/account.rs:110-116 | a withdrawal fails with `InsufficientFunds` iff unlocked and the amount exceeds available; succeeds iff unlocked and amount ≤ available, then subtracts from available and total |
| Accounts.DisputeSpec | src/account.rs:118-124 | a dispute fails with `InsufficientFunds` iff unlocked and the amount exceeds available; on success moves the amount from available to held |
| Accounts.ResolveSpec | src/account.rs:126-139 | a resolve fails with `InsufficientFunds` iff unlocked and the amount exceeds held; on success moves the amount from held to available |
| Accounts.ChargebackSpec | src/account.rs:141-148 | a chargeback fails with `InsufficientFunds` iff unlocked and the amount exceeds held; on success subtracts it from held and total and locks |
| Accounts.LockIsTerminal | src/account.rs:87-148 | once locked, no sequence of operations changes the account |
| Accounts.ApplyKeepsConsistent | src/account.rs:103-148 | every operation, with any amount, keeps `total == available + held` |
| Accounts.ApplyKeepsSound | src/account.rs:95-148 | with a non-negative amount no operation makes available or held negative |
| Accounts.ApplyAllFromNewIsSound | src/account.rs:73-148 | any sequence of operations with non-negative amounts on a new account leaves it consistent with non-negative pools |
| Accounts.Account.constructor | src/account.rs:73-81 | the new object's state is `NewAccount` |
| Accounts.Account.IsLocked | src/account.rs:87-93 | fails iff the account is locked, with `LockedAccount` |
| Accounts.Account.HasSufficientFunds | src/account.rs:95-101 | fails iff the amount exceeds available, with `InsufficientFunds` |
| Accounts.Account.HasSufficientHoldBalance | src/account.rs:126-132 | fails iff the amount exceeds held, with `InsufficientFunds` |
| Accounts.Account.Deposit | src/account.rs:103-108 | result and new fields are those of `Apply` on the old fields |
| Accounts.Account.Withdrawal | src/account.rs:110-116 | result and new fields are those of `Apply` on the old fields |
| Accounts.Account.Dispute | src/account.rs:118-124 | result and new fields are those of `Apply` on the old fields |
| Accounts.Account.Resolve | src/account.rs:133-139 | result and new fields are those of `Apply` on the old fields |
| Accounts.Account.Chargeback | src/account.rs:141-148 | result and new fields are those of `Apply` on the old fields |
| Accounts.EnsureAccount | src/account.rs:21-23 | the map gains exactly the requested client; existing accounts are untouched; a missing one is created zeroed |
| Accounts.AccountsRepository.constructor | src/account.rs:15-19 | starts with no accounts |
| Accounts.AccountsRepository.GetOrCreate | src/account.rs:21-23 | returns the object stored under the id, creating a fresh zeroed one only if absent; the accounts' states change exactly as `EnsureAccount`; each id still maps to its own client's object |
| Accounts.Funded | src/account.rs:176-181 | an unlocked consistent account with the given funds available and nothing held |
| Accounts.DepositTest | src/account.rs:183-189 | for every client and amount x, a deposit on a new account succeeds and makes x the available funds and the total |
| Accounts.DebitNoFundsTest | src/account.rs:191-199 | for every x > 0, withdrawing x from a new account fails with `InsufficientFunds` and changes nothing |
| Accounts.DebitTooMuchTest | src/account.rs:201-209 | for every x above the available funds, a withdrawal fails with `InsufficientFunds` and changes nothing |
| Accounts.DebitTest | src/account.rs:211-217 | for every x up to the available funds, a withdrawal leaves funds - x available and as total |
| Accounts.HoldTest | src/account.rs:219-229 | for every x up to the available funds, a dispute leaves funds - x available, x held and the total unchanged |
| Accounts.HoldNoFundsTest | src/account.rs:231-241 | for every x above the available funds, a dispute fails with `InsufficientFunds` and changes nothing |
| Accounts.ReleaseTest | src/account.rs:243-259 | for every x up to the available funds, a dispute of x followed by a resolve of x restores the account |
| Accounts.ReleaseNoFundsTest | src/account.rs:261-270 | for every x > 0, a resolve with nothing held fails with `InsufficientFunds` and changes nothing |
| Accounts.ChargebackTest | src/account.rs:272-282 | for every x up to the available funds, dispute then chargeback of x locks the account with funds - x left, and a later deposit of any amount fails with `LockedAccount` |
| Transactions.Transaction.Amount | src/transaction.rs:42-44 | defined only when the amount is present, and returns it |
| Transactions.NewTransaction | src/transaction.rs:28-36 | the instruction carries the given id, kind, client and amount, and is not disputed |
| Transactions.Appended | src/transaction.rs:74-76 | first write wins: an id already present leaves the ledger unchanged; otherwise exactly that id is added, mapped to the instruction |
| Transactions.Flagged | src/transaction.rs:82-90 | only the disputed flag of the named record changes; keys and all other records are unchanged |
| Transactions.AppendedTwice | src/transaction.rs:74-76 | appending the same instruction twice is the same as appending it once |
| Transactions.TransactionLedger.constructor | src/transaction.rs:69-73 | starts empty |
| Transactions.TransactionLedger.Append | src/transaction.rs:74-76 | the new ledger is `Appended` of the old one |
| Transactions.TransactionLedger.Get | src/transaction.rs:78-80 | returns a record iff the id is present, and then the stored record |
| Transactions.TransactionLedger.DisputeTx | src/transaction.rs:82-85 | sets the flag of the named record and nothing else (`Flagged` with true) |
| Transactions.TransactionLedger.UndisputeTx | src/transaction.rs:87-90 | clears the flag of the named record and nothing else (`Flagged` with false) |
| Processing.StepFrame | src/engine.rs:84-95 | unless it panics, one instruction creates the addressed account if missing, changes no other account, adds at most its own id to the ledger, and keeps every account under its own client id |
| Processing.RunStopsAtPanic | src/engine.rs:84-96 | once a prefix of the input panics, the whole input panics |
| Processing.Engine.constructor | src/engine.rs:10-18 | the engine refers to the given ledger and repository |
| Processing.Engine.Deposit | src/engine.rs:20-28 | panics iff `DepositStep` does; otherwise the new accounts and ledger are `DepositStep` of the old ones |
| Processing.Engine.Withdrawal | src/engine.rs:30-38 | panics iff `WithdrawalStep` does; otherwise the new state is `WithdrawalStep` of the old one |
| Processing.Engine.Dispute | src/engine.rs:40-52 | panics iff `DisputeStep` does; otherwise the new state is `DisputeStep` of the old one |
| Processing.Engine.Resolve | src/engine.rs:54-68 | panics iff `ResolveStep` does; otherwise the new state is `ResolveStep` of the old one |
| Processing.Engine.Chargeback | src/engine.rs:70-82 | panics iff `ChargebackStep` does; otherwise the new state is `ChargebackStep` of the old one |
| Processing.Engine.ProcessOne | src/engine.rs:85-95 | panics iff `Step` does; otherwise the new state is `Step` of the old one |
| Processing.Engine.Process | src/engine.rs:84-96 | panics iff `Run` of the input does; otherwise the new state is `Run` of the old state over the whole input |
| EngineProperties.Addressed | src/engine.rs:21 | the account a handler works on is the stored one for that client, or a new zeroed one |
| EngineProperties.DepositOrWithdrawalRule | src/engine.rs:20-38 | a recorded id is skipped (account only created, ledger unchanged); a new id without an amount panics; a new id with an amount applies the operation and records the instruction |
| EngineProperties.DisputeRule | src/engine.rs:40-52 | a dispute holds the recorded amount and sets the flag exactly when the record is undisputed, belongs to this client, the account is unlocked and has the amount available; a missing amount panics; otherwise it is skipped and appended |
| EngineProperties.ResolveRule | src/engine.rs:54-68 | a resolve releases the recorded amount and clears the flag exactly when the record is disputed, belongs to this client, and the account is unlocked and holds the amount; otherwise it is skipped |
| EngineProperties.ChargebackRule | src/engine.rs:70-82 | a chargeback removes the recorded amount from held and total and locks exactly under the same conditions as a resolve; on success the ledger, and so the record's flag, is left as it was; a skipped chargeback is appended like any instruction |
| EngineProperties.FlagFollowsAccount | src/engine.rs:40-68 | a record's flag changes only through a dispute or resolve that the account accepted, and the account then is the result of that operation |
| EngineProperties.StepAccountIsApplied | src/engine.rs:20-82 | after a step the addressed account is the found (or created) one, or the result of the handler's one operation on it |
| EngineProperties.StepKeepsConsistent | src/engine.rs:84-95 | one step keeps `total == available + held` for every account |
| EngineProperties.RunKeepsConsistent | src/engine.rs:84-96 | any run keeps `total == available + held` for every account |
| EngineProperties.StepKeepsSound | src/engine.rs:84-95 | with non-negative amounts one step keeps every account's pools non-negative and records only non-negative amounts |
| EngineProperties.RunKeepsSound | src/engine.rs:84-96 | with non-negative amounts no run overdraws any account |
| EngineProperties.InitialRunIsSound | src/engine.rs:84-96 | from the initial state, any run with non-negative amounts leaves every account sound |
| EngineProperties.RunKeepsWellKeyed | src/engine.rs:84-96 | a run keeps every account stored under its own client id |
| EngineProperties.InitialRunIsWellKeyed | src/engine.rs:84-96 | from the initial state, every run keeps each account under its own client id |
| EngineProperties.RunCreatesReferencedAccounts | src/engine.rs:84-96 | after a run the accounts are exactly the old ones plus one per client mentioned by any instruction, skipped ones included |
| EngineProperties.RunLeavesOtherAccounts | src/engine.rs:84-96 | an account that no instruction mentions is unchanged by the run |
| EngineProperties.StepLeavesLockedAccount | src/engine.rs:20-82 | no instruction changes a locked account |
| EngineProperties.LockedAccountStaysFrozen | src/engine.rs:84-96 | a locked account is unchanged by any later run |
| EngineProperties.StepLedgerIsAppend | src/engine.rs:84-95 | apart from dispute flags, one step changes the ledger exactly as `append` does |
| EngineProperties.RunLedgerIsRecorded | src/engine.rs:84-96 | apart from dispute flags, the ledger after a run is what `append` alone builds from the input |
| EngineProperties.RecordedKeepsExisting | src/transaction.rs:74-76 | a record already present is never replaced by later appends |
| EngineProperties.RecordedKeepsFirst | src/transaction.rs:74-76 | an id first seen at position i holds exactly the instruction at i |
| EngineProperties.RecordedHasOnlySeenIds | src/transaction.rs:74-76 | every recorded id was present before or is the id of some instruction |
| EngineProperties.RecordedHasSeenIds | src/transaction.rs:74-76 | the id of every instruction of the input ends up recorded |
| EngineProperties.StepIsIdempotent | src/engine.rs:84-95 | for an input row with its flag clear, as every parsed or constructed row is, applying an instruction twice in a row is the same as once, for every kind except a dispute of an unrecorded id |
| EngineProperties.RunOneMore | src/engine.rs:84-96 | processing one more instruction continues from where the shorter run stopped |
| EngineProperties.DuplicateIdIsSkipped | src/engine.rs:20-38 | a deposit or withdrawal whose id is in the starting ledger or belongs to any earlier instruction of the input, of any kind and whether or not it took effect, is skipped: its account is only created if missing and the ledger keeps the first record |
| EngineProperties.RepeatedInstructionTakesEffectOnce | src/engine.rs:84-96 | for an input row with its flag clear, as every parsed or constructed row is, any number of copies of an instruction has the effect of one, except a dispute of an unrecorded id |
| EngineProperties.StepCompletes | src/engine.rs:20-96 | while every record has an amount, an instruction with an amount or an already recorded id never reaches a failing unwrap, and every record still has an amount afterwards |
| EngineProperties.RunCompletes | src/engine.rs:84-96 | a run does not panic if every record starts with an amount and every row has an amount or an id already in the ledger or on an earlier row; every record still has an amount at the end |
| EngineProperties.InitialRunCompletes | src/engine.rs:84-96 | from the initial state, a run does not panic if every row has an amount or repeats an earlier row's id |
| EngineScenarios.DepositScenario | src/engine.rs:104-113 | a deposit of x to a new client leaves x available and total |
| EngineScenarios.WithdrawalScenario | src/engine.rs:115-127 | deposit d then withdraw w ≤ d leaves d - w |
| EngineScenarios.WithdrawalWithInsufficientScenario | src/engine.rs:129-141 | deposit d then withdraw w > d leaves d |
| EngineScenarios.TwoDeposits | src/engine.rs:147-150 | two deposits under distinct ids give one account holding the sum, and a ledger of exactly those two records |
| EngineScenarios.DisputeScenario | src/engine.rs:143-160 | disputing the second deposit holds its amount and sets its flag; the total is unchanged |
| EngineScenarios.DisputeOfOwnRecord | src/engine.rs:40-52 | on a single plain account, its owner's dispute of an undisputed record of at most the funds moves the record's amount to held and sets the record's flag |
| EngineScenarios.DisputedAfterTwoDeposits | src/engine.rs:166-171 | the exact state after two deposits and a dispute of either one by its owner |
| EngineScenarios.ResolveScenario | src/engine.rs:162-178 | dispute then resolve restores the available funds and clears the flag |
| EngineScenarios.ResolveWithDifferentAccountScenario | src/engine.rs:180-196 | a resolve by another client is skipped (funds stay held, flag stays set), yet that client's empty account is created |
| EngineScenarios.ChargebackScenario | src/engine.rs:198-216 | after dispute and chargeback of the second deposit only the first remains, the account is locked, and a later deposit changes nothing |
| EngineScenarios.DisputeWithDifferentAccountScenario | src/engine.rs:218-235 | a dispute by another client holds nothing and leaves the record undisputed |
| EngineScenarios.ThreeDeposits | src/engine.rs:242-246 | three deposits under distinct ids give one account holding the sum and a ledger of the three records |
| EngineScenarios.DisputeTwoTimesScenario | src/engine.rs:237-256 | disputing the same record twice holds its amount once |
| EngineScenarios.WithdrawalSameTxTwiceScenario | src/engine.rs:258-272 | a repeated withdrawal id is taken once |
| EngineScenarios.DepositSameTxTwiceScenario | src/engine.rs:274-287 | a repeated deposit id is credited once |
| EngineScenarios.DisputeSameTxTwiceScenario | src/engine.rs:289-306 | a repeated dispute of the only deposit holds it once, leaving nothing available |
| EngineScenarios.ResolveSameTxTwiceScenario | src/engine.rs:308-327 | after id1 is disputed and resolved, a resolve of id2, which was never disputed, is skipped; all funds end available and id1's flag is clear |
| EngineScenarios.ResolveSameTxWithDiffAccScenario | src/engine.rs:329-347 | a resolve by another client leaves the funds held and the flag set |
| EngineScenarios.ChargebackSameTxWithDiffAccScenario | src/engine.rs:349-367 | a chargeback by another client leaves the funds held, the flag set and the account unlocked |
| EngineScenarios.UnseenDisputeShadowsLaterDeposit | src/engine.rs:86-94 | a dispute row naming an unknown id changes no balance but is recorded under that id, so a later deposit with the id is skipped |
| EngineScenarios.RepeatedUnseenDisputePanics | src/engine.rs:42-46 | the second of two identical dispute rows naming an unknown id reads the recorded row's absent amount: the run panics |
| EngineScenarios.RepeatedUnseenDisputeHoldsItsOwnAmount | src/engine.rs:42-50 | a dispute carrying an amount and naming an unknown id, repeated, holds that amount and sets the flag of the recorded dispute |

## Left out

- Reading the CSV input (src/parser.rs) and the command line (src/main.rs) are not part of this model. An input row is a `Transaction` whose amount may be absent.
- `AccountsRepository::display_all` and the `Serialize` implementation are left out: they are output formatting (sorting by client, rounding to four decimals, CSV writing).
- Floating point is left out. Amounts are exact integers in units of 1/10000, so `f64` rounding error is not modelled. Neither are the test-only accessors that round to four decimals (src/account.rs:154-165).
- Accounts.DepositTest: states the deposit for every amount. It does not state the source test's 1.88889 → 1.8889 rounding, because the model has no amounts finer than 1/10000.
- Amounts are unbounded signed integers. The engine accepts negative amounts, so the soundness lemmas (`RunKeepsSound` and the others) assume non-negative amounts in the input and the ledger.
- The `log::warn!` calls are dropped: logging has no effect on state.
- The `Default` implementations are the same as `new` and are not modelled separately.
- The plain getters (`client_id`, `locked`, `r#type`, `id`, `account_id`, `is_dispute`) are field reads in the model.
- Rust lifetimes and `&mut` borrows are not modelled. `Engine` holds references to one ledger and one repository as constants.
- A panic is a `None` result or `panicked == true`, not an abort. The panic in `dispute_tx`/`undispute_tx` (an unwrap of a missing record) is a precondition instead, because their only caller has just found the record.
- Processing.Engine.ProcessOne is the loop body of `Engine::process`, split out as its own method. It is not a separate function in the source.
