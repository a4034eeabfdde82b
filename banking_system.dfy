/** The money-movement engine of the banking system: one shared ledger of
    customers, accounts and transaction records, changed by four operations
    (open an account, deposit, withdraw, transfer).

    Each operation is given twice: as a pure step function on a `State`
    (`CreateAccountStep`, `DepositStep`, `WithdrawalStep`, `FundTransferStep`),
    whose contract states the operation's guards and effects, and as a method
    of the `Ledger` class, which updates the tables in place in the order the
    program issues its statements and is proved to end in the state the step
    function gives. Every operation either returns early having written
    nothing, or applies all of its writes (the commit). */
module BankingSystem {

  /** The floor 1000.00 in currency units, held as integer cents. */
  const MinBalance: int := 100000

  datatype Option<T> = None | Some(value: T)

  datatype AccountType = Savings | Current
  datatype Status = Active | Inactive

  /** A row of the customers table; `id` is assigned by the store. */
  datatype Customer = Customer(id: int, fullName: string, email: string, phone: string, address: string)

  /** A row of the accounts table, keyed by account number in `State.accounts`. */
  datatype Account = Account(customerId: int, accountType: AccountType, balance: int, status: Status)

  datatype TxKind = DepositTx | WithdrawalTx | TransferTx

  /** A row of the transactions table: the account it is filed under, its type and amount. */
  datatype TxRecord = TxRecord(accountNo: int, kind: TxKind, amount: int)

  /** The three tables, plus the next identifiers the store's auto-increment will hand out. */
  datatype State = State(
    customers: seq<Customer>,
    accounts: map<int, Account>,
    transactions: seq<TxRecord>,
    nextCustomerId: int,
    nextAccountNo: int)

  /** Why an operation returned early without writing anything. */
  datatype Reason =
    | InvalidAccountType    // "Invalid account type."
    | BelowMinimumOpening   // "Minimum opening balance is ..."
    | InvalidAmount         // deposit or withdrawal amount not positive
    | AccountUnavailable    // "not found or inactive"
    | InsufficientBalance   // "Minimum balance ... must be maintained."
    | InvalidTransfer       // "Invalid transfer details."

  datatype Outcome = Created(customerId: int, accountNo: int) | Done | Rejected(reason: Reason)

  datatype Step = Step(outcome: Outcome, state: State)

  /** The store before any account is opened. */
  function Empty(): State {
    State([], map[], [], 1, 1)
  }

  // ---------------------------------------------------------------- invariant

  function CustomerIds(cs: seq<Customer>): set<int> {
    set c | c in cs :: c.id
  }

  /** Every active account holds at least the minimum balance. */
  ghost predicate FloorHolds(accounts: map<int, Account>) {
    forall k :: k in accounts && accounts[k].status == Active ==> accounts[k].balance >= MinBalance
  }

  /** What the store keeps true between operations: identifiers below the
      auto-increment counters, customer ids increasing, every account owned by
      a customer, the floor on active accounts, and every transaction record
      positive and filed under an existing account. */
  ghost predicate Consistent(s: State) {
    && 1 <= s.nextCustomerId
    && 1 <= s.nextAccountNo
    && (forall i :: 0 <= i < |s.customers| ==> 1 <= s.customers[i].id < s.nextCustomerId)
    && (forall i, j :: 0 <= i < j < |s.customers| ==> s.customers[i].id < s.customers[j].id)
    && (forall k :: k in s.accounts ==> 1 <= k < s.nextAccountNo)
    && (forall k :: k in s.accounts ==> s.accounts[k].customerId in CustomerIds(s.customers))
    && FloorHolds(s.accounts)
    && (forall i :: 0 <= i < |s.transactions| ==>
          s.transactions[i].amount > 0 && s.transactions[i].accountNo in s.accounts)
  }

  predicate IsActive(s: State, accNo: int) {
    accNo in s.accounts && s.accounts[accNo].status == Active
  }

  /** Only balances move: the same account numbers, each account keeps its
      owner, type and status, and accounts outside `touched` keep their balance. */
  ghost predicate OnlyBalancesOf(before: map<int, Account>, after: map<int, Account>, touched: set<int>) {
    && after.Keys == before.Keys
    && (forall k :: k in before ==> after[k] == before[k].(balance := after[k].balance))
    && (forall k :: k in before && k !in touched ==> after[k] == before[k])
  }

  /** The customers table and the identifier counters are untouched. */
  ghost predicate SameCustomers(s: State, t: State) {
    t.customers == s.customers && t.nextCustomerId == s.nextCustomerId && t.nextAccountNo == s.nextAccountNo
  }

  // ------------------------------------------------------------- account type

  function LowerChar(c: char): char {
    if 'A' <= c <= 'Z' then (c as int + 32) as char else c
  }

  function Lower(t: string): string {
    if t == [] then [] else [LowerChar(t[0])] + Lower(t[1..])
  }

  function TypeName(t: AccountType): string {
    match t
    case Savings => "savings"
    case Current => "current"
  }

  /** The account type the user typed, lower-cased, if it is one of the two the bank offers. */
  function ParseAccountType(text: string): (r: Option<AccountType>)
    ensures r.Some? <==> Lower(text) in {"savings", "current"}
    ensures r.Some? ==> TypeName(r.value) == Lower(text)
  {
    var t := Lower(text);
    if t == "savings" then Some(Savings)
    else if t == "current" then Some(Current)
    else None
  }

  // ------------------------------------------------------------- the four steps

  /** Opening an account: the type must be savings or current and the opening
      balance at least the floor; then one customer and one active account are
      inserted, under fresh identifiers, and no transaction record is written. */
  function CreateAccountStep(s: State, name: string, email: string, phone: string, address: string,
                             typeText: string, opening: int): (r: Step)
    ensures ParseAccountType(typeText).None? ==> r == Step(Rejected(InvalidAccountType), s)
    ensures ParseAccountType(typeText).Some? && opening < MinBalance ==> r == Step(Rejected(BelowMinimumOpening), s)
    ensures r.outcome.Created? <==> ParseAccountType(typeText).Some? && opening >= MinBalance
    ensures r.outcome.Created? ==>
      && r.state.customers == s.customers + [Customer(r.outcome.customerId, name, email, phone, address)]
      && r.state.accounts.Keys == s.accounts.Keys + {r.outcome.accountNo}
      && r.state.accounts[r.outcome.accountNo]
           == Account(r.outcome.customerId, ParseAccountType(typeText).value, opening, Active)
      && r.state.transactions == s.transactions
    ensures Consistent(s) && r.outcome.Created? ==>
      && r.outcome.accountNo !in s.accounts
      && r.outcome.customerId !in CustomerIds(s.customers)
      && (forall k :: k in s.accounts ==> r.state.accounts[k] == s.accounts[k])
    ensures Consistent(s) ==> Consistent(r.state)
  {
    match ParseAccountType(typeText)
    case None => Step(Rejected(InvalidAccountType), s)
    case Some(kind) =>
      if opening < MinBalance then Step(Rejected(BelowMinimumOpening), s)
      else
        var cid := s.nextCustomerId;
        var accNo := s.nextAccountNo;
        var customer := Customer(cid, name, email, phone, address);
        assert customer in s.customers + [customer];
        Step(Created(cid, accNo),
             s.(customers := s.customers + [customer],
                accounts := s.accounts[accNo := Account(cid, kind, opening, Active)],
                nextCustomerId := cid + 1,
                nextAccountNo := accNo + 1))
  }

  /** Deposit: the amount must be positive and the account active; the balance
      then grows by exactly the amount and one deposit record is appended. */
  function DepositStep(s: State, accNo: int, amt: int): (r: Step)
    ensures r.outcome.Done? <==> amt > 0 && IsActive(s, accNo)
    ensures amt <= 0 ==> r.outcome == Rejected(InvalidAmount)
    ensures amt > 0 && !IsActive(s, accNo) ==> r.outcome == Rejected(AccountUnavailable)
    ensures !r.outcome.Done? ==> r.state == s
    ensures r.outcome.Done? ==>
      && accNo in r.state.accounts
      && r.state.accounts[accNo].balance == s.accounts[accNo].balance + amt
      && OnlyBalancesOf(s.accounts, r.state.accounts, {accNo})
      && SameCustomers(s, r.state)
      && r.state.transactions == s.transactions + [TxRecord(accNo, DepositTx, amt)]
    ensures Consistent(s) ==> Consistent(r.state)
  {
    if amt <= 0 then Step(Rejected(InvalidAmount), s)
    else if !IsActive(s, accNo) then Step(Rejected(AccountUnavailable), s)
    else
      var acct := s.accounts[accNo];
      Step(Done, s.(transactions := s.transactions + [TxRecord(accNo, DepositTx, amt)],
                    accounts := s.accounts[accNo := acct.(balance := acct.balance + amt)]))
  }

  /** Withdrawal: the amount must be positive, the account active, and the
      balance left behind at least the floor; the balance then drops by exactly
      the amount and one withdrawal record is appended. */
  function WithdrawalStep(s: State, accNo: int, amt: int): (r: Step)
    ensures r.outcome.Done? <==>
      amt > 0 && IsActive(s, accNo) && s.accounts[accNo].balance - amt >= MinBalance
    ensures amt <= 0 ==> r.outcome == Rejected(InvalidAmount)
    ensures amt > 0 && !IsActive(s, accNo) ==> r.outcome == Rejected(AccountUnavailable)
    ensures amt > 0 && IsActive(s, accNo) && s.accounts[accNo].balance - amt < MinBalance ==>
      r.outcome == Rejected(InsufficientBalance)
    ensures !r.outcome.Done? ==> r.state == s
    ensures r.outcome.Done? ==>
      && accNo in r.state.accounts
      && r.state.accounts[accNo].balance == s.accounts[accNo].balance - amt
      && r.state.accounts[accNo].balance >= MinBalance
      && OnlyBalancesOf(s.accounts, r.state.accounts, {accNo})
      && SameCustomers(s, r.state)
      && r.state.transactions == s.transactions + [TxRecord(accNo, WithdrawalTx, amt)]
    ensures Consistent(s) ==> Consistent(r.state)
  {
    if amt <= 0 then Step(Rejected(InvalidAmount), s)
    else if !IsActive(s, accNo) then Step(Rejected(AccountUnavailable), s)
    else
      var acct := s.accounts[accNo];
      if acct.balance < amt || acct.balance - amt < MinBalance then Step(Rejected(InsufficientBalance), s)
      else
        Step(Done, s.(transactions := s.transactions + [TxRecord(accNo, WithdrawalTx, amt)],
                      accounts := s.accounts[accNo := acct.(balance := acct.balance - amt)]))
  }

  /** Transfer: the amount must be positive and the two accounts distinct, both
      must exist and be active, and the source must keep the floor; then the
      source is debited, the destination credited, and one transfer record is
      appended for each of them, source first. */
  function FundTransferStep(s: State, fromAcc: int, toAcc: int, amt: int): (r: Step)
    ensures r.outcome.Done? <==>
      && amt > 0 && fromAcc != toAcc
      && IsActive(s, fromAcc) && IsActive(s, toAcc)
      && s.accounts[fromAcc].balance - amt >= MinBalance
    ensures amt <= 0 || fromAcc == toAcc ==> r.outcome == Rejected(InvalidTransfer)
    ensures amt > 0 && fromAcc != toAcc && !(IsActive(s, fromAcc) && IsActive(s, toAcc)) ==>
      r.outcome == Rejected(AccountUnavailable)
    ensures amt > 0 && fromAcc != toAcc && IsActive(s, fromAcc) && IsActive(s, toAcc)
            && s.accounts[fromAcc].balance - amt < MinBalance ==>
      r.outcome == Rejected(InsufficientBalance)
    ensures !r.outcome.Done? ==> r.state == s
    ensures r.outcome.Done? ==>
      && fromAcc in r.state.accounts && toAcc in r.state.accounts
      && r.state.accounts[fromAcc].balance == s.accounts[fromAcc].balance - amt
      && r.state.accounts[toAcc].balance == s.accounts[toAcc].balance + amt
      && r.state.accounts[fromAcc].balance + r.state.accounts[toAcc].balance
         == s.accounts[fromAcc].balance + s.accounts[toAcc].balance
      && r.state.accounts[fromAcc].balance >= MinBalance
      && OnlyBalancesOf(s.accounts, r.state.accounts, {fromAcc, toAcc})
      && SameCustomers(s, r.state)
      && r.state.transactions
         == s.transactions + [TxRecord(fromAcc, TransferTx, amt), TxRecord(toAcc, TransferTx, amt)]
    ensures Consistent(s) ==> Consistent(r.state)
  {
    if amt <= 0 || fromAcc == toAcc then Step(Rejected(InvalidTransfer), s)
    else if !IsActive(s, fromAcc) || !IsActive(s, toAcc) then Step(Rejected(AccountUnavailable), s)
    else
      var src := s.accounts[fromAcc];
      var dst := s.accounts[toAcc];
      if src.balance < amt || src.balance - amt < MinBalance then Step(Rejected(InsufficientBalance), s)
      else
        Step(Done, s.(accounts := s.accounts[fromAcc := src.(balance := src.balance - amt)]
                                            [toAcc := dst.(balance := dst.balance + amt)],
                      transactions := s.transactions + [TxRecord(fromAcc, TransferTx, amt),
                                                        TxRecord(toAcc, TransferTx, amt)]))
  }

  // ------------------------------------------------------------- the ledger

  /** The shared store, updated in place by the four operations. */
  class Ledger {
    var customers: seq<Customer>
    var accounts: map<int, Account>
    var transactions: seq<TxRecord>
    var nextCustomerId: int
    var nextAccountNo: int

    function Snapshot(): State
      reads this
    {
      State(customers, accounts, transactions, nextCustomerId, nextAccountNo)
    }

    ghost predicate Valid()
      reads this
    {
      Consistent(Snapshot())
    }

    constructor ()
      ensures Valid() && Snapshot() == Empty()
    {
      customers, accounts, transactions := [], map[], [];
      nextCustomerId, nextAccountNo := 1, 1;
    }

    method CreateAccount(name: string, email: string, phone: string, address: string,
                         typeText: string, opening: int) returns (outcome: Outcome)
      requires Valid()
      modifies this
      ensures Valid()
      ensures Step(outcome, Snapshot())
              == CreateAccountStep(old(Snapshot()), name, email, phone, address, typeText, opening)
    {
      var kind := ParseAccountType(typeText);
      if kind.None? {
        return Rejected(InvalidAccountType);
      }
      if opening < MinBalance {
        return Rejected(BelowMinimumOpening);
      }
      // INSERT INTO customers, then read back the assigned id
      var customerId := nextCustomerId;
      customers := customers + [Customer(customerId, name, email, phone, address)];
      nextCustomerId := nextCustomerId + 1;
      // INSERT INTO accounts with status 'active', then LAST_INSERT_ID()
      var accountNo := nextAccountNo;
      accounts := accounts[accountNo := Account(customerId, kind.value, opening, Active)];
      nextAccountNo := nextAccountNo + 1;
      outcome := Created(customerId, accountNo);
    }

    method Deposit(accNo: int, amt: int) returns (outcome: Outcome)
      requires Valid()
      modifies this
      ensures Valid()
      ensures Step(outcome, Snapshot()) == DepositStep(old(Snapshot()), accNo, amt)
    {
      if amt <= 0 {
        return Rejected(InvalidAmount);
      }
      if accNo !in accounts || accounts[accNo].status != Active {
        return Rejected(AccountUnavailable);
      }
      // the record is inserted before the balance is updated
      transactions := transactions + [TxRecord(accNo, DepositTx, amt)];
      accounts := accounts[accNo := accounts[accNo].(balance := accounts[accNo].balance + amt)];
      outcome := Done;
    }

    method Withdrawal(accNo: int, amt: int) returns (outcome: Outcome)
      requires Valid()
      modifies this
      ensures Valid()
      ensures Step(outcome, Snapshot()) == WithdrawalStep(old(Snapshot()), accNo, amt)
    {
      if amt <= 0 {
        return Rejected(InvalidAmount);
      }
      if accNo !in accounts || accounts[accNo].status != Active {
        return Rejected(AccountUnavailable);
      }
      var balance := accounts[accNo].balance;
      if balance < amt || balance - amt < MinBalance {
        return Rejected(InsufficientBalance);
      }
      transactions := transactions + [TxRecord(accNo, WithdrawalTx, amt)];
      accounts := accounts[accNo := accounts[accNo].(balance := accounts[accNo].balance - amt)];
      outcome := Done;
    }

    method FundTransfer(fromAcc: int, toAcc: int, amt: int) returns (outcome: Outcome)
      requires Valid()
      modifies this
      ensures Valid()
      ensures Step(outcome, Snapshot()) == FundTransferStep(old(Snapshot()), fromAcc, toAcc, amt)
    {
      if amt <= 0 || fromAcc == toAcc {
        return Rejected(InvalidTransfer);
      }
      // both rows are read, source first, before either is checked
      var src := if fromAcc in accounts then Some(accounts[fromAcc]) else None;
      var dst := if toAcc in accounts then Some(accounts[toAcc]) else None;
      if src.None? || dst.None? || src.value.status != Active || dst.value.status != Active {
        return Rejected(AccountUnavailable);
      }
      if src.value.balance < amt || src.value.balance - amt < MinBalance {
        return Rejected(InsufficientBalance);
      }
      ghost var before := Snapshot();
      // debit, credit, then one record per leg
      accounts := accounts[fromAcc := src.value.(balance := src.value.balance - amt)];
      accounts := accounts[toAcc := dst.value.(balance := dst.value.balance + amt)];
      transactions := transactions + [TxRecord(fromAcc, TransferTx, amt)];
      transactions := transactions + [TxRecord(toAcc, TransferTx, amt)];
      assert Snapshot() == FundTransferStep(before, fromAcc, toAcc, amt).state;
      outcome := Done;
    }
  }
}
