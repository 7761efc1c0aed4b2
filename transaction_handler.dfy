/** The password-gated transaction flow: a transfer is checked and parked as
    pending, the password prompt opens, and a correct password settles it
    with two writes to the data service, the transaction insert and then the
    balance update.  The data service is reduced to the outcome of each
    call; the writes it accepted are kept in order in `log`. */
module TransactionHandler {
  import opened Wrappers
  import opened Text
  import opened Amounts

  datatype TransactionKind = Transfer | Deposit

  datatype PendingTransaction = PendingTransaction(
    kind: TransactionKind,
    amount: Amount,
    recipientAccount: Option<seq<char>>,
    description: seq<char>)

  /** The signed-in user, as far as this flow reads it; the stored password
      is optional. */
  datatype User = User(id: int, password: Option<seq<char>>)

  /** `password === user?.password`: a signed-in user with a stored password
      equal to the typed one.  A typed string never equals `undefined`. */
  predicate PasswordMatches(typed: seq<char>, user: Option<User>) {
    user.Some? && user.value.password == Some(typed)
  }

  /** A write the data service accepted. */
  datatype RemoteWrite =
    | InsertTransaction(userId: int, kind: TransactionKind, amount: Amount,
                        recipientAccount: Option<seq<char>>, description: seq<char>)
    | UpdateBalance(userId: int, balance: Amount)

  /** How an awaited call to the data service ends: it returns without an
      error, it returns an error object, or it throws. */
  datatype CallOutcome = Succeeded | Failed | Threw

  /** The notice `initiateTransaction` ends with. */
  datatype InitiateResult =
    | InvalidAmount | InsufficientFunds | MissingAccountNumber | MissingDescription
    | AwaitingPassword

  /** The path `verifyPassword` takes. */
  datatype VerifyResult =
    | InvalidPassword | NothingPending | InsertFailed | BalanceUpdateFailed
    | UnexpectedError | Completed

  /** `!recipientAccount` is false: present and non-empty. */
  predicate HasRecipient(recipientAccount: Option<seq<char>>) {
    recipientAccount.Some? && recipientAccount.value != ""
  }

  /** The checks of `initiateTransaction`, in their order: amount, funds,
      recipient, description.  Each result names the first check that fails. */
  function InitiateCheck(parsed: Option<Amount>, balance: Amount,
                         recipientAccount: Option<seq<char>>, description: seq<char>): (r: InitiateResult)
    ensures r == InvalidAmount <==> !IsPositive(parsed)
    ensures r == InsufficientFunds <==> IsPositive(parsed) && parsed.value > balance
    ensures r == MissingAccountNumber <==>
      IsPositive(parsed) && parsed.value <= balance && !HasRecipient(recipientAccount)
    ensures r == MissingDescription <==>
      IsPositive(parsed) && parsed.value <= balance && HasRecipient(recipientAccount) && IsBlank(description)
    ensures r == AwaitingPassword <==>
      IsPositive(parsed) && parsed.value <= balance && HasRecipient(recipientAccount) && !IsBlank(description)
  {
    if !IsPositive(parsed) then InvalidAmount
    else if parsed.value > balance then InsufficientFunds
    else if !HasRecipient(recipientAccount) then MissingAccountNumber
    else if IsBlank(description) then MissingDescription
    else AwaitingPassword
  }

  /** `handleTransfer` passes no recipient, so whatever the amount and the
      description, it never parks a transaction. */
  lemma HandleTransferNeverPends(parsed: Option<Amount>, balance: Amount, description: seq<char>)
    ensures InitiateCheck(parsed, balance, None, description) != AwaitingPassword
    ensures IsPositive(parsed) && parsed.value <= balance ==>
      InitiateCheck(parsed, balance, None, description) == MissingAccountNumber
  {
  }

  /** Which path `verifyPassword` takes.  Without a signed-in user, or with
      one who has no stored password, the typed password is compared with
      `undefined`, which never matches. */
  function VerifyPath(password: seq<char>, user: Option<User>, pending: Option<PendingTransaction>,
                      insert: CallOutcome, update: CallOutcome): (r: VerifyResult)
    ensures r == InvalidPassword <==> !PasswordMatches(password, user)
    ensures r in {InsertFailed, BalanceUpdateFailed, Completed} ==>
      PasswordMatches(password, user) && pending.Some?
    ensures r == Completed <==>
      PasswordMatches(password, user) && pending.Some? && insert == Succeeded && update == Succeeded
    ensures r == NothingPending <==> PasswordMatches(password, user) && pending.None?
    ensures r == InsertFailed <==> PasswordMatches(password, user) && pending.Some? && insert == Failed
    ensures r == BalanceUpdateFailed <==>
      PasswordMatches(password, user) && pending.Some? && insert == Succeeded && update == Failed
    ensures r == UnexpectedError <==>
      PasswordMatches(password, user) && pending.Some?
      && (insert == Threw || (insert == Succeeded && update == Threw))
  {
    if !PasswordMatches(password, user) then InvalidPassword
    else if pending.None? then NothingPending
    else match insert
      case Failed => InsertFailed
      case Threw => UnexpectedError
      case Succeeded =>
        match update
        case Failed => BalanceUpdateFailed
        case Threw => UnexpectedError
        case Succeeded => Completed
  }

  /** The record the first write inserts for a pending transaction. */
  function InsertOf(user: User, p: PendingTransaction): (w: RemoteWrite)
    ensures w.InsertTransaction? && w.userId == user.id && w.amount == p.amount
  {
    InsertTransaction(user.id, p.kind, p.amount, p.recipientAccount, p.description)
  }

  /** Every balance update in the data service's log directly follows a
      transaction insert. */
  ghost predicate InsertsPrecedeUpdates(log: seq<RemoteWrite>) {
    forall i :: 0 <= i < |log| && log[i].UpdateBalance? ==> i > 0 && log[i - 1].InsertTransaction?
  }

  class Handler {
    /** The caller's state, written through the setters the hook receives. */
    var balance: Amount
    var transferAmount: seq<char>
    var recipientAccount: seq<char>
    /** How many times the transaction list was reloaded. */
    var reloads: nat

    /** The session's user, fixed while the hook is mounted. */
    const user: Option<User>

    /** The hook's own state. */
    var showPasswordModal: bool
    var password: seq<char>
    var pending: Option<PendingTransaction>

    /** The writes the data service accepted, oldest first. */
    var log: seq<RemoteWrite>

    /** A parked transaction is always positive and covered by the balance,
        and no balance update is ever written without its transaction record
        just before it.  The stored balance itself may be negative: the hook
        takes whatever the session holds. */
    ghost predicate Valid()
      reads this
    {
      && (pending.Some? ==> 0.0 < pending.value.amount <= balance)
      && InsertsPrecedeUpdates(log)
    }

    /** The prompt is closed and nothing is pending. */
    ghost predicate Idle()
      reads this
    {
      !showPasswordModal && password == "" && pending.None?
    }

    constructor (user: Option<User>, balance: Amount)
      ensures Valid() && Idle()
      ensures this.user == user && this.balance == balance && log == [] && reloads == 0
    {
      this.user := user;
      this.balance := balance;
      transferAmount, recipientAccount, reloads := "", "", 0;
      showPasswordModal, password, pending := false, "", None;
      log := [];
    }

    /** `setPassword`, bound to the prompt's input. */
    method SetPassword(typed: seq<char>)
      modifies this`password
      ensures password == typed
    {
      password := typed;
    }

    /** `initiateTransaction('transfer', amount, description, recipientAccount)`. */
    method InitiateTransaction(amount: seq<char>, description: seq<char>,
                               recipientAccount: Option<seq<char>>, parse: Parser)
      returns (result: InitiateResult)
      requires Valid()
      modifies this`pending, this`showPasswordModal
      ensures Valid()
      ensures result == InitiateCheck(parse(amount), balance, recipientAccount, description)
      ensures result == AwaitingPassword ==>
        && pending == Some(PendingTransaction(Transfer, parse(amount).value, recipientAccount, description))
        && showPasswordModal
      ensures result != AwaitingPassword ==>
        pending == old(pending) && showPasswordModal == old(showPasswordModal)
    {
      var parsedAmount := parse(amount);
      result := InitiateCheck(parsedAmount, balance, recipientAccount, description);
      if result != AwaitingPassword {
        return;
      }
      pending := Some(PendingTransaction(Transfer, parsedAmount.value, recipientAccount, description));
      showPasswordModal := true;
    }

    /** `handleTransfer`: initiate a transfer of `transferAmount` with no
        recipient, which is always refused before anything is parked. */
    method HandleTransfer(description: seq<char>, parse: Parser) returns (result: InitiateResult)
      requires Valid()
      modifies this`pending, this`showPasswordModal
      ensures Valid()
      ensures result != AwaitingPassword
      ensures pending == old(pending) && showPasswordModal == old(showPasswordModal)
    {
      result := InitiateTransaction(transferAmount, description, None, parse);
      HandleTransferNeverPends(parse(transferAmount), balance, description);
    }

    /** `cancelTransaction`: close the prompt and drop the pending transaction. */
    method CancelTransaction()
      modifies this`showPasswordModal, this`password, this`pending
      ensures Idle()
    {
      showPasswordModal := false;
      password := "";
      pending := None;
    }

    /** `verifyPassword`, with the outcome of each of its two remote calls
        given.  The early returns (wrong password, nothing pending, either
        call returning an error) leave the prompt as it was; a path that runs
        to the end, including one through the `catch`, closes it. */
    method VerifyPassword(insert: CallOutcome, update: CallOutcome) returns (result: VerifyResult)
      requires Valid()
      modifies this
      ensures Valid()
      ensures result == VerifyPath(old(password), user, old(pending), insert, update)
      ensures result in {InvalidPassword, NothingPending, InsertFailed} ==>
        && log == old(log) && balance == old(balance)
        && pending == old(pending) && showPasswordModal == old(showPasswordModal)
        && password == old(password)
      ensures result == BalanceUpdateFailed ==>
        && log == old(log) + [InsertOf(user.value, old(pending).value)]
        && balance == old(balance)
        && pending == old(pending) && showPasswordModal == old(showPasswordModal)
        && password == old(password)
      ensures result == UnexpectedError ==>
        && log == (if insert == Threw then old(log) else old(log) + [InsertOf(user.value, old(pending).value)])
        && balance == old(balance) && Idle()
      ensures result == Completed ==>
        && log == old(log) + [InsertOf(user.value, old(pending).value),
                              UpdateBalance(user.value.id, old(balance) - old(pending).value.amount)]
        && balance == old(balance) - old(pending).value.amount
        && reloads == old(reloads) + 1
        && Idle()
      ensures result == Completed && old(pending).value.kind == Transfer ==>
        transferAmount == "" && recipientAccount == ""
      ensures result == Completed && old(pending).value.kind != Transfer ==>
        transferAmount == old(transferAmount) && recipientAccount == old(recipientAccount)
      ensures old(balance) >= 0.0 ==> balance >= 0.0
      ensures result != Completed ==> reloads == old(reloads)
      ensures result != Completed ==>
        transferAmount == old(transferAmount) && recipientAccount == old(recipientAccount)
    {
      result := VerifyPath(password, user, pending, insert, update);
      if !PasswordMatches(password, user) {
        return;
      }
      if pending.None? {
        return;
      }
      var p := pending.value;
      var u := user.value;
      // A call that throws lands in the `catch`, which reports the error
      // and falls through to the reset at the end.
      if insert != Threw {
        if insert == Failed {
          return;
        }
        log := log + [InsertOf(u, p)];
        var newBalance := balance - p.amount;
        if update != Threw {
          if update == Failed {
            return;
          }
          log := log + [UpdateBalance(u.id, newBalance)];
          balance := newBalance;
          if p.kind == Transfer {
            transferAmount := "";
            recipientAccount := "";
          }
          reloads := reloads + 1;
        }
      }
      showPasswordModal := false;
      password := "";
      pending := None;
    }
  }
}
