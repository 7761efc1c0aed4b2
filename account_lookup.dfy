/** Looking up the holder of a recipient account before a transfer: a length
    check, then one query to the data service whose outcome is classified
    into a result with either a name or an error message. */
module AccountLookup {
  import opened Wrappers

  /** How the query for the account ends. */
  datatype QueryOutcome =
    | QueryError            // the service returns an error object
    | NoRow                 // no account has that number
    | Row(name: Option<seq<char>>)  // the account, with its holder's name, which may be null
    | QueryThrew            // the call throws

  datatype LookupResult = LookupResult(success: bool, name: Option<seq<char>>, error: Option<seq<char>>)

  const InvalidNumberMessage := "Please enter a valid 10-digit account number"
  const UnableToVerifyMessage := "Unable to verify account. Please try again."
  const NotFoundMessage := "Account not found. Please check the account number."
  const LookupErrorMessage := "An error occurred while looking up the account."

  /** `!accountNumber || accountNumber.length !== 10`: missing, or not ten
      characters long.  Only the length is checked, not that they are digits. */
  predicate Malformed(accountNumber: Option<seq<char>>) {
    accountNumber.None? || |accountNumber.value| != 10
  }

  function Failure(message: seq<char>): LookupResult {
    LookupResult(false, None, Some(message))
  }

  /** `lookupAccountName`, with the query's outcome given. */
  function LookupAccountName(accountNumber: Option<seq<char>>, query: QueryOutcome): (r: LookupResult)
    ensures r.success <==> !Malformed(accountNumber) && query.Row?
    ensures r.success ==> r.name == query.name && r.error == None
    ensures !r.success ==> r.name == None && r.error.Some?
    ensures Malformed(accountNumber) ==> r.error == Some(InvalidNumberMessage)
    ensures !Malformed(accountNumber) && query == QueryError ==> r.error == Some(UnableToVerifyMessage)
    ensures !Malformed(accountNumber) && query == NoRow ==> r.error == Some(NotFoundMessage)
    ensures !Malformed(accountNumber) && query == QueryThrew ==> r.error == Some(LookupErrorMessage)
  {
    if Malformed(accountNumber) then Failure(InvalidNumberMessage)
    else match query
      case QueryError => Failure(UnableToVerifyMessage)
      case NoRow => Failure(NotFoundMessage)
      case Row(name) => LookupResult(true, name, None)
      case QueryThrew => Failure(LookupErrorMessage)
  }

  /** A malformed number is refused before the query: the result is the
      same whatever the data service would have answered. */
  lemma MalformedIsNotQueried(accountNumber: Option<seq<char>>, q1: QueryOutcome, q2: QueryOutcome)
    requires Malformed(accountNumber)
    ensures LookupAccountName(accountNumber, q1) == LookupAccountName(accountNumber, q2)
  {
  }

  /** The state of `useAccountLookup`. */
  class Lookup {
    var isLookingUp: bool
    var lookupResult: Option<LookupResult>

    constructor ()
      ensures !isLookingUp && lookupResult == None
    {
      isLookingUp := false;
      lookupResult := None;
    }

    /** `lookupAccount`: clear the old result, look up, store and return the
        new one. */
    method LookupAccount(accountNumber: Option<seq<char>>, query: QueryOutcome) returns (result: LookupResult)
      modifies this
      ensures result == LookupAccountName(accountNumber, query)
      ensures lookupResult == Some(result) && !isLookingUp
    {
      isLookingUp := true;
      lookupResult := None;
      result := LookupAccountName(accountNumber, query);
      lookupResult := Some(result);
      isLookingUp := false;
    }

    /** `clearLookup` */
    method ClearLookup()
      modifies this`lookupResult
      ensures lookupResult == None
    {
      lookupResult := None;
    }
  }
}
