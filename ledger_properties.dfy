/** Properties of the ledger that relate several states or several operations:
    how each operation moves the total money held, and what holds after any
    sequence of operations issued from the menu. */
module LedgerProperties {
  import opened BankingSystem

  // ------------------------------------------------------------- total money

  function BalanceOr0(m: map<int, Account>, k: int): int {
    if k in m then m[k].balance else 0
  }

  /** The sum of the balances of the accounts numbered lo .. hi-1. */
  function SumRange(m: map<int, Account>, lo: int, hi: int): int
    decreases hi - lo
  {
    if hi <= lo then 0 else SumRange(m, lo, hi - 1) + BalanceOr0(m, hi - 1)
  }

  /** All money held by the bank: every account number ever assigned. */
  function Total(s: State): int {
    SumRange(s.accounts, 1, s.nextAccountNo)
  }

  /** Writing one account row changes a range sum by the change in that row's
      balance when the row lies in the range, and not at all otherwise. */
  lemma {:induction false} SumRangeUpdate(m: map<int, Account>, k: int, a: Account, lo: int, hi: int)
    ensures SumRange(m[k := a], lo, hi)
            == SumRange(m, lo, hi) + (if lo <= k < hi then a.balance - BalanceOr0(m, k) else 0)
    decreases hi - lo
  {
    if hi > lo {
      SumRangeUpdate(m, k, a, lo, hi - 1);
    }
  }

  lemma CreateAccountAddsOpening(s: State, name: string, email: string, phone: string, address: string,
                                 typeText: string, opening: int)
    requires Consistent(s)
    ensures var r := CreateAccountStep(s, name, email, phone, address, typeText, opening);
            Total(r.state) == Total(s) + (if r.outcome.Created? then opening else 0)
  {
    var r := CreateAccountStep(s, name, email, phone, address, typeText, opening);
    if r.outcome.Created? {
      var n := s.nextAccountNo;
      SumRangeUpdate(s.accounts, n, r.state.accounts[n], 1, n);
    }
  }

  lemma DepositAddsAmount(s: State, accNo: int, amt: int)
    requires Consistent(s)
    ensures var r := DepositStep(s, accNo, amt);
            Total(r.state) == Total(s) + (if r.outcome.Done? then amt else 0)
  {
    var r := DepositStep(s, accNo, amt);
    if r.outcome.Done? {
      SumRangeUpdate(s.accounts, accNo, r.state.accounts[accNo], 1, s.nextAccountNo);
    }
  }

  lemma WithdrawalRemovesAmount(s: State, accNo: int, amt: int)
    requires Consistent(s)
    ensures var r := WithdrawalStep(s, accNo, amt);
            Total(r.state) == Total(s) - (if r.outcome.Done? then amt else 0)
  {
    var r := WithdrawalStep(s, accNo, amt);
    if r.outcome.Done? {
      SumRangeUpdate(s.accounts, accNo, r.state.accounts[accNo], 1, s.nextAccountNo);
    }
  }

  /** A transfer, committed or not, never changes the total money held. */
  lemma TransferConservesTotal(s: State, fromAcc: int, toAcc: int, amt: int)
    requires Consistent(s)
    ensures Total(FundTransferStep(s, fromAcc, toAcc, amt).state) == Total(s)
  {
    var r := FundTransferStep(s, fromAcc, toAcc, amt);
    if r.outcome.Done? {
      var n := s.nextAccountNo;
      var debited := s.accounts[fromAcc := r.state.accounts[fromAcc]];
      SumRangeUpdate(s.accounts, fromAcc, r.state.accounts[fromAcc], 1, n);
      SumRangeUpdate(debited, toAcc, r.state.accounts[toAcc], 1, n);
      assert r.state.accounts == debited[toAcc := r.state.accounts[toAcc]];
    }
  }

  // ------------------------------------------------------------- the menu

  /** One choice of the main menu that changes the store, with its inputs already parsed. */
  datatype Op =
    | OpenAccount(name: string, email: string, phone: string, address: string, typeText: string, opening: int)
    | DepositOp(accNo: int, amt: int)
    | WithdrawalOp(accNo: int, amt: int)
    | TransferOp(fromAcc: int, toAcc: int, amt: int)

  /** How many transaction records the operation writes when it commits. */
  function RecordsWritten(op: Op): nat {
    match op
    case OpenAccount(_, _, _, _, _, _) => 0
    case DepositOp(_, _) => 1
    case WithdrawalOp(_, _) => 1
    case TransferOp(_, _, _) => 2
  }

  function Committed(o: Outcome): bool {
    o.Created? || o.Done?
  }

  /** Dispatch one menu choice; a committed choice appends exactly its records
      to the log, a rejected one leaves the store as it was. */
  function Apply(s: State, op: Op): (r: Step)
    ensures Committed(r.outcome) ==>
      && |r.state.transactions| == |s.transactions| + RecordsWritten(op)
      && r.state.transactions[..|s.transactions|] == s.transactions
    ensures !Committed(r.outcome) ==> r.state == s
    ensures Consistent(s) ==> Consistent(r.state)
  {
    match op
    case OpenAccount(name, email, phone, address, typeText, opening) =>
      CreateAccountStep(s, name, email, phone, address, typeText, opening)
    case DepositOp(accNo, amt) => DepositStep(s, accNo, amt)
    case WithdrawalOp(accNo, amt) => WithdrawalStep(s, accNo, amt)
    case TransferOp(fromAcc, toAcc, amt) => FundTransferStep(s, fromAcc, toAcc, amt)
  }

  function Run(s: State, ops: seq<Op>): State
    decreases |ops|
  {
    if ops == [] then s else Run(Apply(s, ops[0]).state, ops[1..])
  }

  lemma {:induction false} RunPreservesConsistent(s: State, ops: seq<Op>)
    requires Consistent(s)
    ensures Consistent(Run(s, ops))
    decreases |ops|
  {
    if ops != [] {
      RunPreservesConsistent(Apply(s, ops[0]).state, ops[1..]);
    }
  }

  /** After any sequence of operations on a fresh store, every active account
      holds at least the minimum balance. */
  lemma ActiveFloorAlwaysHolds(ops: seq<Op>)
    ensures FloorHolds(Run(Empty(), ops).accounts)
  {
    RunPreservesConsistent(Empty(), ops);
  }

  /** Accounts are never removed, and an account's owner, type and status
      never change; in particular no operation deactivates an account. */
  lemma {:induction false} RunKeepsAccounts(s: State, ops: seq<Op>, k: int)
    requires k in s.accounts
    requires Consistent(s)
    ensures k in Run(s, ops).accounts
    ensures Run(s, ops).accounts[k].customerId == s.accounts[k].customerId
    ensures Run(s, ops).accounts[k].accountType == s.accounts[k].accountType
    ensures Run(s, ops).accounts[k].status == s.accounts[k].status
    decreases |ops|
  {
    if ops != [] {
      var t := Apply(s, ops[0]).state;
      assert k in t.accounts && t.accounts[k] == s.accounts[k].(balance := t.accounts[k].balance);
      RunKeepsAccounts(t, ops[1..], k);
    }
  }

  /** The transaction log and the customers table are append-only. */
  lemma {:induction false} RunAppendsOnly(s: State, ops: seq<Op>)
    ensures |s.transactions| <= |Run(s, ops).transactions|
    ensures Run(s, ops).transactions[..|s.transactions|] == s.transactions
    ensures |s.customers| <= |Run(s, ops).customers|
    ensures Run(s, ops).customers[..|s.customers|] == s.customers
    decreases |ops|
  {
    if ops != [] {
      var t := Apply(s, ops[0]).state;
      assert |s.customers| <= |t.customers| && t.customers[..|s.customers|] == s.customers;
      RunAppendsOnly(t, ops[1..]);
      var u := Run(s, ops);
      assert u.transactions[..|s.transactions|] == u.transactions[..|t.transactions|][..|s.transactions|];
      assert u.customers[..|s.customers|] == u.customers[..|t.customers|][..|s.customers|];
    }
  }

  // ------------------------------------------------------------- round trip and examples

  /** Depositing an amount and then withdrawing it again always succeeds and
      restores every balance; the log gains the two records. */
  lemma DepositThenWithdrawalRestores(s: State, accNo: int, amt: int)
    requires Consistent(s)
    requires DepositStep(s, accNo, amt).outcome.Done?
    ensures var d := DepositStep(s, accNo, amt);
            var w := WithdrawalStep(d.state, accNo, amt);
            && w.outcome.Done?
            && w.state.accounts == s.accounts
            && w.state.transactions
               == s.transactions + [TxRecord(accNo, DepositTx, amt), TxRecord(accNo, WithdrawalTx, amt)]
  {
  }

  /** A type's own name is read back as that type. */
  lemma AccountTypeNameRoundTrip(t: AccountType)
    ensures ParseAccountType(TypeName(t)) == Some(t)
  {
    LowerKeepsLowercase(TypeName(t));
  }

  /** The type is read case-insensitively. */
  lemma AccountTypeIgnoresCase()
    ensures ParseAccountType("SAVINGS") == Some(Savings)
    ensures ParseAccountType("Current") == Some(Current)
  {
    LowerAt("SAVINGS");
    assert Lower("SAVINGS") == "savings";
    LowerAt("Current");
    assert Lower("Current") == "current";
  }

  lemma {:induction false} LowerAt(t: string)
    ensures |Lower(t)| == |t|
    ensures forall i :: 0 <= i < |t| ==> Lower(t)[i] == LowerChar(t[i])
  {
    if t != [] {
      LowerAt(t[1..]);
      assert forall i :: 1 <= i < |t| ==> Lower(t)[i] == Lower(t[1..])[i - 1];
    }
  }

  lemma {:induction false} LowerKeepsLowercase(t: string)
    requires forall i :: 0 <= i < |t| ==> !('A' <= t[i] <= 'Z')
    ensures Lower(t) == t
  {
    if t != [] {
      LowerKeepsLowercase(t[1..]);
    }
  }

  /** An opening balance of 999.99 is refused and one of exactly 1000.00 accepted. */
  lemma OpeningBalanceBoundary(s: State, name: string, email: string, phone: string, address: string)
    ensures CreateAccountStep(s, name, email, phone, address, "savings", 99999)
            == Step(Rejected(BelowMinimumOpening), s)
    ensures CreateAccountStep(s, name, email, phone, address, "savings", 100000).outcome.Created?
  {
  }

  /** From a balance of 1500.00, withdrawing 600.00 is refused and withdrawing
      500.00 leaves exactly 1000.00. */
  lemma WithdrawalFloorExample(s: State, accNo: int)
    requires IsActive(s, accNo) && s.accounts[accNo].balance == 150000
    ensures WithdrawalStep(s, accNo, 60000) == Step(Rejected(InsufficientBalance), s)
    ensures WithdrawalStep(s, accNo, 50000).outcome.Done?
    ensures WithdrawalStep(s, accNo, 50000).state.accounts[accNo].balance == MinBalance
  {
  }
}
