/** The "New Transaction" form: six text fields, a per-field validation rule,
    input rewriting as the user types, error display on blur, and a submit
    that only proceeds when every field is valid. */
module TransactionForm {
  import opened Wrappers
  import opened Text
  import opened Amounts

  datatype Field = BankName | SortCode | SenderName | AccountNumber | AmountField | Description

  /** The order of `Object.keys(formData)`, the order in which the form is
      validated. */
  const FieldOrder: seq<Field> := [BankName, SortCode, SenderName, AccountNumber, AmountField, Description]

  lemma EveryFieldListed(f: Field)
    ensures f in FieldOrder
  {
    match f
    case BankName =>
    case SortCode =>
    case SenderName =>
    case AccountNumber =>
    case AmountField =>
    case Description =>
  }

  datatype FormData = FormData(
    bankName: seq<char>,
    sortCode: seq<char>,
    senderName: seq<char>,
    accountNumber: seq<char>,
    amount: seq<char>,
    description: seq<char>)
  {
    function Get(f: Field): seq<char> {
      match f
      case BankName => bankName
      case SortCode => sortCode
      case SenderName => senderName
      case AccountNumber => accountNumber
      case AmountField => amount
      case Description => description
    }

    /** `{ ...prev, [name]: value }` */
    function Set(f: Field, v: seq<char>): (r: FormData)
      ensures r.Get(f) == v
      ensures forall g :: g != f ==> r.Get(g) == Get(g)
    {
      match f
      case BankName => this.(bankName := v)
      case SortCode => this.(sortCode := v)
      case SenderName => this.(senderName := v)
      case AccountNumber => this.(accountNumber := v)
      case AmountField => this.(amount := v)
      case Description => this.(description := v)
    }
  }

  const EmptyForm := FormData("", "", "", "", "", "")

  const MaxAmount: real := 1000000.0

  /** `/^\d{2}-\d{2}-\d{2}$/` */
  predicate IsSortCode(v: seq<char>) {
    && |v| == 8
    && IsDigit(v[0]) && IsDigit(v[1]) && v[2] == '-'
    && IsDigit(v[3]) && IsDigit(v[4]) && v[5] == '-'
    && IsDigit(v[6]) && IsDigit(v[7])
  }

  /** `/^\d{10}$/` */
  predicate IsAccountNumber(v: seq<char>) {
    |v| == 10 && AllDigits(v)
  }

  /** `/^[a-zA-Z\s]+$/` */
  predicate IsLettersAndSpaces(v: seq<char>) {
    |v| >= 1 && forall i :: 0 <= i < |v| ==> IsAsciiLetter(v[i]) || IsWhitespace(v[i])
  }

  /** What each field accepts, stated without the messages or the order in
      which the rule is checked. */
  predicate Acceptable(f: Field, v: seq<char>, parse: Parser) {
    match f
    case BankName => !IsBlank(v) && |v| >= 2
    case SortCode => IsSortCode(v)
    case SenderName => !IsBlank(v) && |v| >= 2 && IsLettersAndSpaces(v)
    case AccountNumber => IsAccountNumber(v)
    case AmountField => !IsBlank(v) && parse(v).Some? && 0.0 < parse(v).value <= MaxAmount
    case Description => !IsBlank(v) && 3 <= |v| <= 100
  }

  /** The message every field reports for a blank value. */
  function RequiredMessage(f: Field): seq<char> {
    match f
    case BankName => "Bank name is required"
    case SortCode => "Sort code is required"
    case SenderName => "Sender name is required"
    case AccountNumber => "Account number is required"
    case AmountField => "Amount is required"
    case Description => "Description is required"
  }

  /** A digit is never whitespace, so a non-empty digit pattern is never blank. */
  lemma PatternsAreNotBlank(v: seq<char>)
    ensures IsSortCode(v) ==> !IsBlank(v)
    ensures IsAccountNumber(v) ==> !IsBlank(v)
  {
    if IsSortCode(v) || IsAccountNumber(v) {
      assert IsDigit(v[0]) && !IsWhitespace(v[0]);
    }
  }

  /** `validateField`: the first failing rule's message, or `None` when the
      value is accepted.  A blank value always reports "required" first. */
  function ValidateField(f: Field, v: seq<char>, parse: Parser): (r: Option<seq<char>>)
    ensures r.None? <==> Acceptable(f, v, parse)
    ensures IsBlank(v) ==> r == Some(RequiredMessage(f))
    ensures r.Some? ==> |r.value| > 0
  {
    PatternsAreNotBlank(v);
    if IsBlank(v) then Some(RequiredMessage(f))
    else match f
      case BankName =>
        if |v| < 2 then Some("Bank name must be at least 2 characters") else None
      case SortCode =>
        if !IsSortCode(v) then Some("Sort code must be in format XX-XX-XX") else None
      case SenderName =>
        if |v| < 2 then Some("Sender name must be at least 2 characters")
        else if !IsLettersAndSpaces(v) then Some("Sender name can only contain letters and spaces")
        else None
      case AccountNumber =>
        if !IsAccountNumber(v) then Some("Account number must be exactly 10 digits") else None
      case AmountField =>
        var amount := parse(v);
        if amount.None? || amount.value <= 0.0 then Some("Amount must be a positive number")
        else if amount.value > MaxAmount then Some("Amount cannot exceed £1,000,000")
        else None
      case Description =>
        if |v| < 3 then Some("Description must be at least 3 characters")
        else if |v| > 100 then Some("Description cannot exceed 100 characters")
        else None
  }

  // ---------------------------------------------------------------------
  // Input rewriting done by handleChange

  /** `'$1-$2-$3'` applied to the first six of a run of digits. */
  function Dashed(d: seq<char>): seq<char>
    requires |d| >= 6
  {
    d[..2] + "-" + d[2..4] + "-" + d[4..]
  }

  lemma DashedDigits(d: seq<char>)
    requires AllDigits(d) && |d| >= 6
    ensures Digits(Dashed(d)) == d
  {
    var a, b, c := d[..2], d[2..4], d[4..];
    var ab := a + "-" + b + "-";
    assert Digits("-") == [];
    assert Digits(a + "-") == a by {
      DigitsAppend(a, "-");
    }
    assert Digits(a + "-" + b) == a + b by {
      DigitsAppend(a + "-", b);
    }
    assert Digits(ab) == a + b by {
      DigitsAppend(a + "-" + b, "-");
    }
    DigitsAppend(ab, c);
    assert Dashed(d) == ab + c;
    assert d == a + b + c;
  }

  lemma DashedIsSortCode(d: seq<char>)
    requires AllDigits(d) && |d| >= 6
    ensures IsSortCode(Dashed(d)) <==> |d| == 6
  {
    assert |Dashed(d)| == |d| + 2;
  }

  /** The sort-code rewrite: keep the digits, then replace the first run of
      six digits `abcdef` by `ab-cd-ef`. */
  function FormatSortCode(v: seq<char>): (r: seq<char>)
    ensures Digits(r) == Digits(v)
    ensures IsSortCode(r) <==> |Digits(v)| == 6
    ensures |Digits(v)| < 6 ==> r == Digits(v)
    ensures |Digits(v)| >= 6 ==> |r| == |Digits(v)| + 2 && r[2] == '-' && r[5] == '-'
  {
    var d := Digits(v);
    if |d| < 6 then d
    else
      DashedDigits(d);
      DashedIsSortCode(d);
      Dashed(d)
  }

  /** Formatting a value the rewrite already produced changes nothing. */
  lemma FormatSortCodeIdempotent(v: seq<char>)
    ensures FormatSortCode(FormatSortCode(v)) == FormatSortCode(v)
  {
  }

  /** The account-number rewrite: the digits, cut to at most ten. */
  function AccountNumberInput(v: seq<char>): (r: seq<char>)
    ensures AllDigits(r) && |r| == Min(10, |Digits(v)|)
    ensures r == Digits(v)[..|r|]
    ensures IsAccountNumber(r) <==> |Digits(v)| >= 10
  {
    var d := Digits(v);
    d[..Min(10, |d|)]
  }

  predicate IsAmountChar(c: char) {
    IsDigit(c) || c == '.'
  }

  /** The amount rewrite `value.replace(/[^0-9.]/g, '')`. */
  function AmountInput(v: seq<char>): (r: seq<char>)
    ensures forall i :: 0 <= i < |r| ==> IsAmountChar(r[i])
    ensures Digits(r) == Digits(v)
    ensures |r| <= |v|
    ensures (forall i :: 0 <= i < |v| ==> IsAmountChar(v[i])) ==> r == v
    ensures forall c :: multiset(r)[c] == (if IsAmountChar(c) then multiset(v)[c] else 0)
  {
    if v == [] then []
    else if IsAmountChar(v[0]) then
      assert v == [v[0]] + v[1..];
      assert Digits(v) == Digits([v[0]]) + Digits(v[1..]) by {
        DigitsAppend([v[0]], v[1..]);
      }
      var r := [v[0]] + AmountInput(v[1..]);
      DigitsAppend([v[0]], AmountInput(v[1..]));
      r
    else
      assert v == [v[0]] + v[1..];
      AmountInput(v[1..])
  }

  /** The amount rewrite works character by character, so it distributes
      over concatenation and keeps the order of what it keeps. */
  lemma {:induction false} AmountInputAppend(a: seq<char>, b: seq<char>)
    ensures AmountInput(a + b) == AmountInput(a) + AmountInput(b)
  {
    if a == [] {
      assert a + b == b;
    } else {
      assert (a + b)[1..] == a[1..] + b;
      assert (a + b)[0] == a[0];
      AmountInputAppend(a[1..], b);
    }
  }

  /** What `handleChange` stores for a field: the three rewrites above, or
      the value as typed for the other fields. */
  function Rewrite(f: Field, v: seq<char>): (r: seq<char>)
    ensures f == AccountNumber ==> AllDigits(r) && |r| <= 10
    ensures f == SortCode ==> (IsSortCode(r) <==> |Digits(v)| == 6)
    ensures f == AmountField ==> forall i :: 0 <= i < |r| ==> IsAmountChar(r[i])
    ensures f in {BankName, SenderName, Description} ==> r == v
  {
    match f
    case SortCode => FormatSortCode(v)
    case AccountNumber => AccountNumberInput(v)
    case AmountField => AmountInput(v)
    case _ => v
  }

  /** A sort code typed with exactly six digits, in any layout, is stored in a
      form the validator accepts. */
  lemma SixDigitsMakeValidSortCode(v: seq<char>, parse: Parser)
    requires |Digits(v)| == 6
    ensures ValidateField(SortCode, Rewrite(SortCode, v), parse) == None
  {
  }

  /** An account number typed with at least ten digits is stored as a value
      the validator accepts; with fewer it never is. */
  lemma TenDigitsMakeValidAccountNumber(v: seq<char>, parse: Parser)
    ensures ValidateField(AccountNumber, Rewrite(AccountNumber, v), parse) == None
        <==> |Digits(v)| >= 10
  {
  }

  // ---------------------------------------------------------------------
  // validateForm's loop

  /** The loop of `validateForm`: visits the fields in key order and records
      each field's error.  The result holds exactly the failing fields. */
  method CollectErrors(form: FormData, parse: Parser) returns (errs: map<Field, seq<char>>)
    ensures forall f :: f in errs <==> !Acceptable(f, form.Get(f), parse)
    ensures forall f :: f in errs ==> Some(errs[f]) == ValidateField(f, form.Get(f), parse)
    ensures errs == map[] <==> forall f :: Acceptable(f, form.Get(f), parse)
  {
    errs := map[];
    for i := 0 to |FieldOrder|
      invariant forall f :: f in errs <==> f in FieldOrder[..i] && !Acceptable(f, form.Get(f), parse)
      invariant forall f :: f in errs ==> Some(errs[f]) == ValidateField(f, form.Get(f), parse)
    {
      var key := FieldOrder[i];
      var error := ValidateField(key, form.Get(key), parse);
      if error.Some? {
        errs := errs[key := error.value];
      }
    }
    forall f ensures f in errs <==> !Acceptable(f, form.Get(f), parse) {
      EveryFieldListed(f);
      assert FieldOrder[..|FieldOrder|] == FieldOrder;
    }
    if errs == map[] {
      forall f ensures Acceptable(f, form.Get(f), parse) {
        assert f !in errs;
      }
    } else {
      var f :| f in errs;
      assert !Acceptable(f, form.Get(f), parse);
    }
  }

  // ---------------------------------------------------------------------
  // The page state

  class TransactionPage {
    var form: FormData
    var errors: map<Field, seq<char>>
    /** The form data handed to the confirmation screen, once submitted. */
    var confirmed: Option<FormData>

    constructor ()
      ensures form == EmptyForm && errors == map[] && confirmed == None
    {
      form := EmptyForm;
      errors := map[];
      confirmed := None;
    }

    /** `handleChange`: store the rewritten value and clear that field's error. */
    method HandleChange(f: Field, value: seq<char>)
      modifies this
      ensures form == old(form).Set(f, Rewrite(f, value))
      ensures errors == old(errors) - {f}
      ensures confirmed == old(confirmed)
    {
      form := form.Set(f, Rewrite(f, value));
      if f in errors {
        errors := errors - {f};
      }
    }

    /** `handleBlur`: show or clear the error for one field. */
    method HandleBlur(f: Field, value: seq<char>, parse: Parser)
      modifies this
      ensures f in errors <==> !Acceptable(f, value, parse)
      ensures f in errors ==> Some(errors[f]) == ValidateField(f, value, parse)
      ensures forall g :: g != f ==> (g in errors <==> g in old(errors))
      ensures forall g :: g != f && g in errors ==> errors[g] == old(errors)[g]
      ensures form == old(form) && confirmed == old(confirmed)
    {
      var error := ValidateField(f, value, parse);
      if error.Some? {
        errors := errors[f := error.value];
      } else {
        errors := errors - {f};
      }
    }

    /** `validateForm`: replace the errors by those of the whole form. */
    method ValidateForm(parse: Parser) returns (ok: bool)
      modifies this
      ensures ok <==> forall f :: Acceptable(f, form.Get(f), parse)
      ensures forall f :: f in errors <==> !Acceptable(f, form.Get(f), parse)
      ensures forall f :: f in errors ==> Some(errors[f]) == ValidateField(f, form.Get(f), parse)
      ensures form == old(form) && confirmed == old(confirmed)
    {
      var newErrors := CollectErrors(form, parse);
      errors := newErrors;
      ok := |newErrors.Keys| == 0;
      if newErrors != map[] {
        var f :| f in newErrors;
        assert f in newErrors.Keys;
        assert !Acceptable(f, form.Get(f), parse);
      } else {
        assert newErrors.Keys == {};
      }
    }

    /** `handleSubmit`: move on to confirmation with the current data only
        when every field is valid. */
    method HandleSubmit(parse: Parser)
      modifies this
      ensures confirmed == (if forall f :: Acceptable(f, form.Get(f), parse) then Some(form) else old(confirmed))
      ensures forall f :: f in errors <==> !Acceptable(f, form.Get(f), parse)
      ensures form == old(form)
    {
      var ok := ValidateForm(parse);
      if !ok {
        return;
      }
      confirmed := Some(form);
    }
  }
}
