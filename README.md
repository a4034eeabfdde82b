# Banking ledger engine, modelled in Dafny

This project models the money-movement engine of `src/banking_system.py`: one shared
store of customers, accounts and transaction records, and the four operations that
change it — opening an account (`create_account`), `deposit`, `withdrawal` and
`fund_transfer`. Money is `Decimal` in the program and is held here as integer cents;
`MIN_BALANCE` (1000) is `MinBalance` = 100000 cents.

Two files, two modules:

- `banking_system.dfy`, module `BankingSystem`: the tables (`State`: a customers
  sequence, a map from account number to `Account` with balance and status, a
  transaction log, and the store's auto-increment counters); one pure step function
  per operation, whose contract gives its guards (as if-and-only-if), its effect on
  the touched accounts, the frame on every other account, the records it appends, and
  preservation of the store invariant `Consistent` (in particular: every active account
  holds at least the floor); and the `Ledger` class, whose fields are the tables and
  whose methods perform the program's inserts and updates in the program's order, each
  proved to end in exactly the state and outcome the step function gives.
- `ledger_properties.dfy`, module `LedgerProperties`: total money (sum of balances),
  how each operation moves it (a transfer conserves it), what holds after any sequence
  of menu operations (invariant, floor, accounts never removed or deactivated, log and
  customers append-only), the deposit/withdrawal round trip, and the boundary examples.

Every operation either returns early with nothing written (an `Outcome` of
`Rejected(reason)`, one reason per message the program prints) or applies all of its
writes and commits (`Created(customerId, accountNo)` or `Done`).

Where the code and the design description of the system differ, the model follows
the code:

- opening an account writes no transaction record (the description has an opening
  `deposit` record);
- transfer records carry only account, type and amount, with no from/to fields;
- the two rows of a transfer are read source first, then destination, not in sorted
  order;
- nothing validates name, email or phone, and nothing rejects a duplicate customer.

## Model

| member | source | states |
|---|---|---|
| BankingSystem.ParseAccountType | src/banking_system.py:24-28 | the lower-cased type text is accepted exactly when it is `savings` or `current`, and the accepted type's name is that text |
| BankingSystem.CreateAccountStep | src/banking_system.py:26-51 | a bad type or an opening balance below the floor is rejected with the store unchanged; otherwise exactly one customer and one active account with the opening balance are added under fresh ids, existing accounts and the log are unchanged, and the invariant is preserved |
| BankingSystem.DepositStep | src/banking_system.py:70-95 | commits iff the amount is positive and the account exists and is active; otherwise nothing changes; on commit the balance grows by exactly the amount, no other account or customer changes, one deposit record is appended, invariant preserved |
| BankingSystem.WithdrawalStep | src/banking_system.py:109-138 | commits iff the amount is positive, the account is active and the balance minus the amount is at least the floor; otherwise nothing changes; on commit the balance drops by exactly the amount and stays at or above the floor, nothing else changes, one withdrawal record is appended |
| BankingSystem.FundTransferStep | src/banking_system.py:153-200 | commits iff the amount is positive, the accounts differ, both are active and the source keeps the floor; otherwise nothing changes (with the reason the program reports); on commit the source loses and the destination gains exactly the amount, their sum is unchanged, no other account changes, and two transfer records (source, then destination) are appended |
| BankingSystem.Ledger.CreateAccount | src/banking_system.py:18-51 | the in-place inserts of customer and account end in the state and outcome of `CreateAccountStep`, keeping the invariant |
| BankingSystem.Ledger.Deposit | src/banking_system.py:65-95 | the in-place record insert and balance update end in the state and outcome of `DepositStep`, keeping the invariant |
| BankingSystem.Ledger.Withdrawal | src/banking_system.py:104-138 | the in-place record insert and balance update end in the state and outcome of `WithdrawalStep`, keeping the invariant |
| BankingSystem.Ledger.FundTransfer | src/banking_system.py:147-200 | the two in-place balance updates and two record inserts end in the state and outcome of `FundTransferStep`, keeping the invariant |
| LedgerProperties.CreateAccountAddsOpening | src/banking_system.py:42-46 | opening an account adds exactly the opening balance to the total money held, and a rejected one adds nothing |
| LedgerProperties.DepositAddsAmount | src/banking_system.py:90-93 | a committed deposit adds exactly the amount to the total money held; a rejected one leaves it |
| LedgerProperties.WithdrawalRemovesAmount | src/banking_system.py:133-136 | a committed withdrawal removes exactly the amount from the total money held; a rejected one leaves it |
| LedgerProperties.TransferConservesTotal | src/banking_system.py:178-186 | a transfer, committed or rejected, leaves the total money held unchanged |
| LedgerProperties.Apply | src/banking_system.py:322-330 | a committed menu operation appends exactly its own number of records (0, 1, 1 or 2) to the log, keeping the earlier ones; a rejected one changes nothing; the invariant is preserved |
| LedgerProperties.RunPreservesConsistent | src/banking_system.py:306-341 | the store invariant holds after any sequence of menu operations |
| LedgerProperties.ActiveFloorAlwaysHolds | src/banking_system.py:123-125 | after any sequence of operations on a fresh store, every active account holds at least the minimum balance |
| LedgerProperties.RunKeepsAccounts | src/banking_system.py:42-46 | an account, once created, is never removed and keeps its owner, type and status (no operation deactivates an account) |
| LedgerProperties.RunAppendsOnly | src/banking_system.py:188-198 | the transaction log and the customers table only grow: the old contents stay as a prefix |
| LedgerProperties.DepositThenWithdrawalRestores | src/banking_system.py:65-138 | depositing an amount and withdrawing it again always succeeds and restores every balance, leaving two records in the log |
| LedgerProperties.AccountTypeNameRoundTrip | src/banking_system.py:26-28 | each account type's own name is accepted as that type |
| LedgerProperties.AccountTypeIgnoresCase | src/banking_system.py:24-24 | the type is read after lower-casing, so `SAVINGS` and `Current` are accepted |
| LedgerProperties.OpeningBalanceBoundary | src/banking_system.py:31-33 | an opening balance of 999.99 is rejected with nothing written; exactly 1000.00 is accepted |
| LedgerProperties.WithdrawalFloorExample | src/banking_system.py:123-125 | from 1500.00, withdrawing 600.00 is rejected with nothing written; withdrawing 500.00 commits and leaves exactly 1000.00 |

## Left out

- The database connection, its setup failure and process exit, and closing it: I/O against MySQL.
- The interactive menu loop, every `input()` and `print()`: user interface. The menu's dispatch is modelled only as `Apply` and `Run` over already-parsed operations.
- `transaction_history` and `search_menu`: read-only queries and formatting, with no state change and no invariant.
- Row locking with `SELECT ... FOR UPDATE`: concurrency control; the model is sequential, so deadlock freedom is not claimed (the code locks source then destination, not in sorted order).
- Parsing of account numbers and amounts, and the `InvalidOperation`/`ValueError` paths: amounts are already-parsed integer cents, so sub-cent amounts and the `Decimal` context's 28-digit precision are not modelled, nor is the width of the balance column.
- Rollback after an unexpected store error: modelled as the operation having no effect, which is the state before the call; store errors themselves are not modelled.
- The transaction timestamp and the record's own id: assigned by the store; the record's position in the log stands for its id.
- BankingSystem.ParseAccountType: lower-cases ASCII letters only, whereas Python's `lower()` is Unicode-wide; no text containing a non-ASCII character lower-cases to exactly `savings` or `current`, so acceptance is the same.
- Uniqueness and format of customer email and phone: no code checks them.
