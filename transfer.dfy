/** The transfer page: the submit moves money out of the local balance when
    the amount is positive and covered, then goes to the success screen; the
    submit button is disabled by a separate predicate over the inputs. */
module Transfer {
  import opened Wrappers
  import opened Amounts

  /** The state handed to the success screen. */
  datatype Receipt = Receipt(
    amount: Amount,
    recipientAccount: seq<char>,
    recipientName: seq<char>,
    description: seq<char>,
    transactionId: int)

  /** `transferDescription || 'Transfer'` */
  function DescriptionOrDefault(d: seq<char>): (r: seq<char>)
    ensures r != ""
    ensures d != "" ==> r == d
    ensures d == "" ==> r == "Transfer"
  {
    if d == "" then "Transfer" else d
  }

  /** The guard of `handleSubmitTransfer`, `amount > 0 && amount <= balance`,
      which NaN fails. */
  predicate Covered(parsed: Option<Amount>, balance: Amount) {
    IsPositive(parsed) && parsed.value <= balance
  }

  /** The `disabled` expression of the submit button.  `parseFloat` is
      applied to `transferAmount || '0'`, and both comparisons with NaN are
      false, so an unparsable amount does not disable the button. */
  function SubmitDisabled(transferAmount: seq<char>, recipientAccount: seq<char>,
                          balance: Amount, parse: Parser): (disabled: bool)
    ensures disabled <==>
      || transferAmount == "" || recipientAccount == ""
      || (parse(transferAmount).Some? && !Covered(parse(transferAmount), balance))
  {
    var parsed := parse(if transferAmount == "" then "0" else transferAmount);
    || transferAmount == ""
    || recipientAccount == ""
    || (parsed.Some? && parsed.value <= 0.0)
    || (parsed.Some? && parsed.value > balance)
  }

  /** An enabled button submits successfully whenever the amount parses, and
      a successful submit with both fields filled came from an enabled button. */
  lemma ButtonMatchesGuard(transferAmount: seq<char>, recipientAccount: seq<char>,
                           balance: Amount, parse: Parser)
    ensures !SubmitDisabled(transferAmount, recipientAccount, balance, parse) && parse(transferAmount).Some? ==>
      Covered(parse(transferAmount), balance)
    ensures Covered(parse(transferAmount), balance) && transferAmount != "" && recipientAccount != "" ==>
      !SubmitDisabled(transferAmount, recipientAccount, balance, parse)
  {
  }

  class TransferPage {
    var balance: Amount
    var transferAmount: seq<char>
    var recipientAccount: seq<char>
    var recipientName: seq<char>
    var transferDescription: seq<char>
    /** How many times the transaction list was reloaded. */
    var reloads: nat
    /** Where the page navigated, with the state it passed. */
    var navigatedTo: Option<Receipt>

    constructor (balance: Amount)
      ensures this.balance == balance && navigatedTo == None && reloads == 0
      ensures transferAmount == "" && recipientAccount == "" && recipientName == "" && transferDescription == ""
    {
      this.balance := balance;
      transferAmount, recipientAccount, recipientName, transferDescription := "", "", "", "";
      reloads := 0;
      navigatedTo := None;
    }

    /** `handleSubmitTransfer`, with `Date.now()` given as `now`. */
    method HandleSubmitTransfer(parse: Parser, now: int) returns (receipt: Option<Receipt>)
      modifies this`balance, this`reloads, this`navigatedTo
      ensures receipt.Some? <==> Covered(parse(transferAmount), old(balance))
      ensures receipt.Some? ==>
        && balance == old(balance) - parse(transferAmount).value
        && receipt.value == Receipt(parse(transferAmount).value, recipientAccount, recipientName,
                                    DescriptionOrDefault(transferDescription), now)
        && navigatedTo == receipt
        && reloads == old(reloads) + 1
      ensures receipt.None? ==>
        balance == old(balance) && navigatedTo == old(navigatedTo) && reloads == old(reloads)
      ensures old(balance) >= 0.0 ==> balance >= 0.0
    {
      var amount := parse(transferAmount);
      if Covered(amount, balance) {
        balance := balance - amount.value;
        reloads := reloads + 1;
        receipt := Some(Receipt(amount.value, recipientAccount, recipientName,
                                DescriptionOrDefault(transferDescription), now));
        navigatedTo := receipt;
      } else {
        receipt := None;
      }
    }
  }
}
