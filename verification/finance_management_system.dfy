/**
 * The finance demo: accounts whose balance a transaction debits, a savings
 * account that refuses a debit larger than its balance, and the app that
 * applies three transactions and logs them.
 *
 * Amounts are C# decimals in the source; here they are whole minor units
 * (pesewas), so 5000m is 500000.
 */
module FinanceManagementSystem {

  /** A clock value (DateTime.Now); it plays no part in the logic. */
  type Date = int

  datatype Transaction = Transaction(id: int, date: Date, amount: int, category: string)

  /** The balance after a savings debit: unchanged when the amount exceeds the balance. */
  function SavingsDebit(balance: int, amount: int): (r: int)
    ensures balance >= 0 ==> r >= 0
    ensures amount > balance ==> r == balance
    ensures amount <= balance ==> r == balance - amount && (amount == balance ==> r == 0)
  {
    if amount > balance then balance else balance - amount
  }

  /** The sum of the amounts of ts. */
  function TotalAmount(ts: seq<Transaction>): int {
    if ts == [] then 0 else TotalAmount(ts[..|ts| - 1]) + ts[|ts| - 1].amount
  }

  /** Every amount in ts is a debit, not a credit. */
  predicate AllDebits(ts: seq<Transaction>) {
    forall i :: 0 <= i < |ts| ==> ts[i].amount >= 0
  }

  /** The balance of a plain account after applying ts in order; debits only lower it. */
  function AccountBalanceAfter(balance: int, ts: seq<Transaction>): (r: int)
    ensures AllDebits(ts) ==> r <= balance
  {
    if ts == [] then balance
    else
      assert AllDebits(ts) ==> AllDebits(ts[..|ts| - 1]);
      AccountBalanceAfter(balance, ts[..|ts| - 1]) - ts[|ts| - 1].amount
  }

  /**
   * The balance of a savings account after applying ts in order. With debits
   * only, it ends between where a plain account would end and where it started:
   * a refused debit never lowers it, an accepted one lowers both alike.
   */
  function SavingsBalanceAfter(balance: int, ts: seq<Transaction>): (r: int)
    ensures AllDebits(ts) ==> AccountBalanceAfter(balance, ts) <= r <= balance
  {
    if ts == [] then balance
    else
      assert AllDebits(ts) ==> AllDebits(ts[..|ts| - 1]);
      SavingsDebit(SavingsBalanceAfter(balance, ts[..|ts| - 1]), ts[|ts| - 1].amount)
  }

  /** A plain account always debits: its balance falls by the total, and may go negative. */
  lemma {:induction false} AccountDebitsTotal(balance: int, ts: seq<Transaction>)
    ensures AccountBalanceAfter(balance, ts) == balance - TotalAmount(ts)
  {
    if ts != [] {
      AccountDebitsTotal(balance, ts[..|ts| - 1]);
    }
  }

  /** A savings account that starts non-negative never goes negative, whatever is applied. */
  lemma {:induction false} SavingsNeverNegative(balance: int, ts: seq<Transaction>)
    requires balance >= 0
    ensures SavingsBalanceAfter(balance, ts) >= 0
  {
    if ts != [] {
      SavingsNeverNegative(balance, ts[..|ts| - 1]);
    }
  }

  /**
   * When the amounts are non-negative and the total fits in the balance,
   * every debit fits, so a savings account ends where a plain one does.
   */
  lemma {:induction false} SavingsAgreesWhenFunded(balance: int, ts: seq<Transaction>)
    requires AllDebits(ts)
    requires TotalAmount(ts) <= balance
    ensures SavingsBalanceAfter(balance, ts) == balance - TotalAmount(ts)
  {
    if ts != [] {
      var init := ts[..|ts| - 1];
      assert AllDebits(init) by {
        forall i | 0 <= i < |init| ensures init[i].amount >= 0 { assert init[i] == ts[i]; }
      }
      SavingsAgreesWhenFunded(balance, init);
    }
  }

  /** Account: the number is fixed by the constructor; only transactions change the balance. */
  class Account {
    const accountNumber: string
    var balance: int

    constructor (accountNumber: string, initialBalance: int)
      ensures this.accountNumber == accountNumber && balance == initialBalance
    {
      this.accountNumber := accountNumber;
      balance := initialBalance;
    }

    /** Account.ApplyTransaction: debit unconditionally. */
    method ApplyTransaction(transaction: Transaction)
      modifies this`balance
      ensures balance == old(balance) - transaction.amount
    {
      balance := balance - transaction.amount;
    }
  }

  /** SavingsAccount: an account whose debits must fit in the balance. */
  class SavingsAccount {
    const accountNumber: string
    var balance: int

    constructor (accountNumber: string, initialBalance: int)
      ensures this.accountNumber == accountNumber && balance == initialBalance
    {
      this.accountNumber := accountNumber;
      balance := initialBalance;
    }

    /** SavingsAccount.ApplyTransaction: "Insufficient funds" leaves the balance as it was. */
    method ApplyTransaction(transaction: Transaction)
      modifies this`balance
      ensures balance == SavingsDebit(old(balance), transaction.amount)
      ensures old(balance) >= 0 ==> balance >= 0
    {
      if transaction.amount > balance {
      } else {
        balance := balance - transaction.amount;
      }
    }
  }

  const T1Amount := 50000
  const T2Amount := 25000
  const T3Amount := 10000

  /** FinanceApp: the transaction log that Run appends to. */
  class FinanceApp {
    var transactions: seq<Transaction>

    constructor ()
      ensures transactions == []
    {
      transactions := [];
    }

    /**
     * Run: apply three transactions to a new savings account holding 5000,
     * then log them in order; every debit fits, so 4150 is left.
     * `now1`, `now2`, `now3` are the three readings of DateTime.Now.
     */
    method Run(now1: Date, now2: Date, now3: Date) returns (savingsAccount: SavingsAccount)
      modifies this`transactions
      ensures fresh(savingsAccount)
      ensures savingsAccount.accountNumber == "CAL10001"
      ensures savingsAccount.balance == 415000
      ensures transactions == old(transactions) + [
        Transaction(1, now1, T1Amount, "Groceries"),
        Transaction(2, now2, T2Amount, "Utilities"),
        Transaction(3, now3, T3Amount, "Entertainment")]
    {
      savingsAccount := new SavingsAccount("CAL10001", 500000);

      var t1 := Transaction(1, now1, T1Amount, "Groceries");
      var t2 := Transaction(2, now2, T2Amount, "Utilities");
      var t3 := Transaction(3, now3, T3Amount, "Entertainment");

      savingsAccount.ApplyTransaction(t1);
      savingsAccount.ApplyTransaction(t2);
      savingsAccount.ApplyTransaction(t3);

      transactions := transactions + [t1];
      transactions := transactions + [t2];
      transactions := transactions + [t3];
    }
  }
}
