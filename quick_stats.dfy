/** The dashboard's history entries and the three statistics shown under it:
    how many deposits, how many withdrawals, and the total deposited. */
module QuickStats {
  import opened Amounts

  datatype EntryKind = DepositEntry | WithdrawalEntry

  /** One history entry; its date and time strings come from the clock and
      are not part of the model. */
  datatype Entry = Entry(id: int, kind: EntryKind, amount: Amount, description: seq<char>)

  /** `transactions.filter(t => t.type === kind)` */
  function OfKind(ts: seq<Entry>, kind: EntryKind): (r: seq<Entry>)
    ensures |r| <= |ts|
    ensures forall e :: e in r <==> e in ts && e.kind == kind
  {
    if ts == [] then []
    else if ts[0].kind == kind then [ts[0]] + OfKind(ts[1..], kind)
    else OfKind(ts[1..], kind)
  }

  /** `.reduce((sum, t) => sum + t.amount, 0)` */
  function SumAmounts(ts: seq<Entry>): (total: Amount)
    ensures (forall i :: 0 <= i < |ts| ==> ts[i].amount >= 0.0) ==> total >= 0.0
  {
    if ts == [] then 0.0 else ts[0].amount + SumAmounts(ts[1..])
  }

  /** `depositCount`: the number of deposit entries. */
  function DepositCount(ts: seq<Entry>): (n: nat)
    ensures n <= |ts|
    ensures n == 0 <==> forall i :: 0 <= i < |ts| ==> ts[i].kind != DepositEntry
  {
    var d := OfKind(ts, DepositEntry);
    assert d != [] ==> d[0] in ts;
    |d|
  }

  /** `withdrawalCount`: the number of withdrawal entries. */
  function WithdrawalCount(ts: seq<Entry>): (n: nat)
    ensures n <= |ts|
    ensures n == 0 <==> forall i :: 0 <= i < |ts| ==> ts[i].kind != WithdrawalEntry
  {
    var w := OfKind(ts, WithdrawalEntry);
    assert w != [] ==> w[0] in ts;
    |w|
  }

  /** `totalDeposited`: the sum of the deposit amounts; withdrawals do not
      enter it. */
  function TotalDeposited(ts: seq<Entry>): (total: Amount)
    ensures (forall i :: 0 <= i < |ts| ==> ts[i].kind != DepositEntry) ==> total == 0.0
  {
    var d := OfKind(ts, DepositEntry);
    assert d != [] ==> d[0] in ts;
    SumAmounts(d)
  }

  /** Every entry is a deposit or a withdrawal, so the two counts add up to
      the length of the history. */
  lemma {:induction false} CountsPartition(ts: seq<Entry>)
    ensures DepositCount(ts) + WithdrawalCount(ts) == |ts|
  {
    if ts != [] {
      CountsPartition(ts[1..]);
    }
  }

  /** A new entry at the head moves exactly the statistics of its kind. */
  lemma PrependEntry(e: Entry, ts: seq<Entry>)
    ensures e.kind == DepositEntry ==>
      && DepositCount([e] + ts) == DepositCount(ts) + 1
      && WithdrawalCount([e] + ts) == WithdrawalCount(ts)
      && TotalDeposited([e] + ts) == TotalDeposited(ts) + e.amount
    ensures e.kind == WithdrawalEntry ==>
      && DepositCount([e] + ts) == DepositCount(ts)
      && WithdrawalCount([e] + ts) == WithdrawalCount(ts) + 1
      && TotalDeposited([e] + ts) == TotalDeposited(ts)
  {
    assert ([e] + ts)[1..] == ts;
  }

  /** With positive amounts the total deposited is never negative, and it is
      zero only when there is no deposit. */
  lemma {:induction false} TotalDepositedSign(ts: seq<Entry>)
    requires forall i :: 0 <= i < |ts| ==> ts[i].amount > 0.0
    ensures TotalDeposited(ts) >= 0.0
    ensures TotalDeposited(ts) == 0.0 <==> DepositCount(ts) == 0
  {
    if ts != [] {
      TotalDepositedSign(ts[1..]);
    }
  }
}
