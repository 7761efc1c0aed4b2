/** The local ledger of the dashboard page: a balance, the two amount inputs
    and the transaction history, newest first.  A deposit or a withdrawal is
    checked, then moves the balance and puts one entry at the head of the
    history. */
module Dashboard {
  import opened Amounts
  import opened QuickStats

  /** The notice an operation ends with. */
  datatype Notice = InvalidAmount | InsufficientFunds | Done

  /** The signed effect of a history on the balance. */
  function NetFlow(ts: seq<Entry>): Amount {
    if ts == [] then 0.0
    else (if ts[0].kind == DepositEntry then ts[0].amount else -ts[0].amount) + NetFlow(ts[1..])
  }

  /** The ids of a history are distinct and lie in 1..|ts|. */
  ghost predicate IdsCompact(ts: seq<Entry>) {
    && (forall i :: 0 <= i < |ts| ==> 1 <= ts[i].id <= |ts|)
    && (forall i, j :: 0 <= i < j < |ts| ==> ts[i].id != ts[j].id)
  }

  /** The id given to the next entry, `transactions.length + 1`, is not in
      use, and the history stays compact once it is added. */
  lemma NextIdIsFresh(e: Entry, ts: seq<Entry>)
    requires IdsCompact(ts) && e.id == |ts| + 1
    ensures forall i :: 0 <= i < |ts| ==> ts[i].id != e.id
    ensures IdsCompact([e] + ts)
  {
    var ts' := [e] + ts;
    forall i, j | 0 <= i < j < |ts'| ensures ts'[i].id != ts'[j].id {
      if i > 0 {
        assert ts'[i] == ts[i - 1] && ts'[j] == ts[j - 1];
      }
    }
  }

  const InitialBalance: Amount := 2500.75

  const InitialHistory: seq<Entry> := [
    Entry(1, DepositEntry, 1000.0, "Direct Deposit - Salary"),
    Entry(2, WithdrawalEntry, 250.0, "ATM Withdrawal"),
    Entry(3, DepositEntry, 500.0, "Mobile Check Deposit")
  ]

  /** How far the balance is from the signed sum of the history: the
      balance is ahead of the sample history by this much. */
  const Opening: Amount := InitialBalance - NetFlow(InitialHistory)

  class Ledger {
    var balance: Amount
    var depositAmount: seq<char>
    var withdrawAmount: seq<char>
    var transactions: seq<Entry>

    /** The balance is non-negative and moves exactly with the history;
        every entry has a positive amount and a distinct id. */
    ghost predicate Valid()
      reads this
    {
      && balance >= 0.0
      && balance == Opening + NetFlow(transactions)
      && (forall i :: 0 <= i < |transactions| ==> transactions[i].amount > 0.0)
      && IdsCompact(transactions)
    }

    constructor ()
      ensures Valid()
      ensures balance == InitialBalance && transactions == InitialHistory
      ensures depositAmount == "" && withdrawAmount == ""
    {
      balance := InitialBalance;
      depositAmount, withdrawAmount := "", "";
      transactions := InitialHistory;
    }

    method SetDepositAmount(typed: seq<char>)
      modifies this`depositAmount
      ensures depositAmount == typed
    {
      depositAmount := typed;
    }

    method SetWithdrawAmount(typed: seq<char>)
      modifies this`withdrawAmount
      ensures withdrawAmount == typed
    {
      withdrawAmount := typed;
    }

    /** `handleDeposit` */
    method HandleDeposit(parse: Parser) returns (notice: Notice)
      requires Valid()
      modifies this`balance, this`transactions, this`depositAmount
      ensures Valid()
      ensures notice == (if IsPositive(parse(old(depositAmount))) then Done else InvalidAmount)
      ensures notice == Done ==>
        var amount := parse(old(depositAmount)).value;
        && balance == old(balance) + amount
        && transactions == [Entry(|old(transactions)| + 1, DepositEntry, amount, "Mobile App Deposit")]
                           + old(transactions)
        && depositAmount == ""
        && DepositCount(transactions) == DepositCount(old(transactions)) + 1
        && TotalDeposited(transactions) == TotalDeposited(old(transactions)) + amount
      ensures notice != Done ==>
        balance == old(balance) && transactions == old(transactions) && depositAmount == old(depositAmount)
    {
      var parsed := parse(depositAmount);
      if !IsPositive(parsed) {
        return InvalidAmount;
      }
      var amount := parsed.value;
      var entry := Entry(|transactions| + 1, DepositEntry, amount, "Mobile App Deposit");
      NextIdIsFresh(entry, transactions);
      PrependEntry(entry, transactions);
      assert ([entry] + transactions)[1..] == transactions;
      balance := balance + amount;
      transactions := [entry] + transactions;
      depositAmount := "";
      notice := Done;
    }

    /** `handleWithdraw` */
    method HandleWithdraw(parse: Parser) returns (notice: Notice)
      requires Valid()
      modifies this`balance, this`transactions, this`withdrawAmount
      ensures Valid()
      ensures notice == InvalidAmount <==> !IsPositive(parse(old(withdrawAmount)))
      ensures notice == InsufficientFunds <==>
        IsPositive(parse(old(withdrawAmount))) && parse(old(withdrawAmount)).value > old(balance)
      ensures notice == Done ==>
        var amount := parse(old(withdrawAmount)).value;
        && balance == old(balance) - amount
        && transactions == [Entry(|old(transactions)| + 1, WithdrawalEntry, amount, "Mobile App Withdrawal")]
                           + old(transactions)
        && withdrawAmount == ""
        && WithdrawalCount(transactions) == WithdrawalCount(old(transactions)) + 1
        && TotalDeposited(transactions) == TotalDeposited(old(transactions))
      ensures notice != Done ==>
        balance == old(balance) && transactions == old(transactions) && withdrawAmount == old(withdrawAmount)
    {
      var parsed := parse(withdrawAmount);
      if !IsPositive(parsed) {
        return InvalidAmount;
      }
      var amount := parsed.value;
      if amount > balance {
        return InsufficientFunds;
      }
      var entry := Entry(|transactions| + 1, WithdrawalEntry, amount, "Mobile App Withdrawal");
      NextIdIsFresh(entry, transactions);
      PrependEntry(entry, transactions);
      assert ([entry] + transactions)[1..] == transactions;
      balance := balance - amount;
      transactions := [entry] + transactions;
      withdrawAmount := "";
      notice := Done;
    }
  }
}
