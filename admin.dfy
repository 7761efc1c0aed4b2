/** The admin deposit form: three text fields, a missing-field check, then
    an amount check; success clears the fields. */
module Admin {
  import opened Wrappers
  import opened Amounts

  datatype Notice = MissingInformation | InvalidAmount | Deposited(amount: Amount)

  /** `!depositAmount || !accountNumber || !description`, which is also the
      `disabled` expression of the button. */
  predicate AnyFieldMissing(depositAmount: seq<char>, accountNumber: seq<char>, description: seq<char>) {
    depositAmount == "" || accountNumber == "" || description == ""
  }

  /** The checks of `handleDeposit`, missing fields first. */
  function DepositCheck(depositAmount: seq<char>, accountNumber: seq<char>, description: seq<char>,
                        parse: Parser): (n: Notice)
    ensures n == MissingInformation <==> AnyFieldMissing(depositAmount, accountNumber, description)
    ensures n == InvalidAmount <==>
      !AnyFieldMissing(depositAmount, accountNumber, description) && !IsPositive(parse(depositAmount))
    ensures n.Deposited? ==> Some(n.amount) == parse(depositAmount) && n.amount > 0.0
  {
    if AnyFieldMissing(depositAmount, accountNumber, description) then MissingInformation
    else
      var amount := parse(depositAmount);
      if !IsPositive(amount) then InvalidAmount
      else Deposited(amount.value)
  }

  class AdminPage {
    var depositAmount: seq<char>
    var accountNumber: seq<char>
    var description: seq<char>

    constructor ()
      ensures depositAmount == "" && accountNumber == "" && description == ""
    {
      depositAmount, accountNumber, description := "", "", "";
    }

    method SetFields(amount: seq<char>, account: seq<char>, text: seq<char>)
      modifies this
      ensures depositAmount == amount && accountNumber == account && description == text
    {
      depositAmount, accountNumber, description := amount, account, text;
    }

    /** `handleDeposit`: the deposit itself is only announced; success clears
        the three fields and every rejection leaves them as they were. */
    method HandleDeposit(parse: Parser) returns (notice: Notice)
      modifies this
      ensures notice == DepositCheck(old(depositAmount), old(accountNumber), old(description), parse)
      ensures notice == MissingInformation <==> AnyFieldMissing(old(depositAmount), old(accountNumber), old(description))
      ensures notice.Deposited? ==> depositAmount == "" && accountNumber == "" && description == ""
      ensures !notice.Deposited? ==>
        depositAmount == old(depositAmount) && accountNumber == old(accountNumber)
        && description == old(description)
    {
      if depositAmount == "" || accountNumber == "" || description == "" {
        return MissingInformation;
      }
      var amount := parse(depositAmount);
      if !IsPositive(amount) {
        return InvalidAmount;
      }
      notice := Deposited(amount.value);
      depositAmount := "";
      accountNumber := "";
      description := "";
    }
  }
}
