/**
 * The bank-account form schema: validity predicates over the form's string fields and
 * the transforms that turn blank optional fields into `undefined` and trim the others.
 */
module AccountSchemas {
  import opened Wrappers
  import opened Js

  /** The form values as the schema receives them. */
  datatype AccountForm = AccountForm(
    name: string,
    bankCode: string,
    ownerId: Option<string>,
    initialBalance: Option<string>,
    agency: Option<string>,
    account: Option<string>)

  /** What a successful parse yields. */
  datatype AccountData = AccountData(
    name: string,
    bankCode: string,
    ownerId: Option<string>,
    initialBalance: Option<string>,
    agency: Option<string>,
    account: Option<string>)

  /** `name`: at least 3 and at most 100 characters. */
  predicate NameValid(name: string) {
    3 <= |name| <= 100
  }

  /** `bankCode`: non-empty, only digits, and `parseInt` of it above zero. */
  predicate BankCodeValid(code: string) {
    |code| >= 1 && AllDigits(code) && ParseInt(code).Some? && ParseInt(code).value > 0
  }

  /** A digit string with some non-zero digit reads as a positive number. */
  lemma {:induction false} DigitsValuePositive(ds: string, i: nat)
    requires AllDigits(ds) && i < |ds| && ds[i] != '0'
    ensures DigitsValue(ds) > 0
    decreases |ds|
  {
    if i < |ds| - 1 {
      DigitsValuePositive(ds[..|ds| - 1], i);
    }
  }

  /** The bank code rule in plain terms: a non-empty string of digits that are not all '0'. */
  lemma BankCodeValidIff(code: string)
    ensures BankCodeValid(code) <==>
      |code| >= 1 && AllDigits(code) && exists i :: 0 <= i < |code| && code[i] != '0'
  {
    if |code| >= 1 && AllDigits(code) {
      DigitNotWhiteSpace(code[0]);
      assert TrimStart(code) == code;
      assert SignStripped(code) == code;
      DigitPrefixOfDigitsThen(code, []);
      assert code + [] == code;
      assert ParseInt(code) == Some(DigitsValue(code));
      if exists i :: 0 <= i < |code| && code[i] != '0' {
        var i :| 0 <= i < |code| && code[i] != '0';
        DigitsValuePositive(code, i);
      } else {
        AllZerosValue(code);
      }
    }
  }

  /** `/^[\d-]+$/`: non-empty, and every character a digit or '-'. */
  predicate DigitsAndHyphens(s: string) {
    |s| >= 1 && forall i :: 0 <= i < |s| ==> IsDigit(s[i]) || s[i] == '-'
  }

  /** `agency` and `account`: blank, or the untrimmed value is digits and hyphens. */
  predicate AgencyValid(v: Option<string>) {
    IsBlank(v) || DigitsAndHyphens(v.value)
  }

  /** The transform of the optional fields: blank becomes `undefined`, the rest is trimmed. */
  function BlankToNone(v: Option<string>): (r: Option<string>)
    ensures r.None? <==> IsBlank(v)
    ensures r.Some? ==> r.value == Trim(v.value) && r.value != []
  {
    if IsBlank(v) then None else Some(Trim(v.value))
  }

  /** Running the transform on its own output changes nothing. */
  lemma BlankToNoneIdempotent(v: Option<string>)
    ensures BlankToNone(BlankToNone(v)) == BlankToNone(v)
  {
    if !IsBlank(v) {
      TrimTwice(v.value);
    }
  }

  /** A leading blank is not a digit or a hyphen, so ' 12' is rejected although its trimmed
      value would pass. */
  lemma LeadingBlankRejected()
    ensures !AgencyValid(Some(" 12"))
  {
    assert !IsDigit(" 12"[0]);
    assert TrimStart(" 12") == "12";
  }

  /** `bankAccountSchema.safeParse(form)`: the transformed data, or `None` when a check fails. */
  function Parse(f: AccountForm): (r: Option<AccountData>)
    ensures r.Some? <==>
      && NameValid(f.name) && BankCodeValid(f.bankCode)
      && BlankOrNonNegativeAmount(f.initialBalance) && AgencyValid(f.agency) && AgencyValid(f.account)
    // name, bank code and owner pass through unchanged; the three optional fields are transformed
    ensures r.Some? ==>
      && r.value.name == f.name && r.value.bankCode == f.bankCode && r.value.ownerId == f.ownerId
      && r.value.initialBalance == BlankToNone(f.initialBalance)
      && r.value.agency == BlankToNone(f.agency)
      && r.value.account == BlankToNone(f.account)
  {
    if NameValid(f.name) && BankCodeValid(f.bankCode)
       && BlankOrNonNegativeAmount(f.initialBalance) && AgencyValid(f.agency) && AgencyValid(f.account)
    then Some(AccountData(f.name, f.bankCode, f.ownerId,
      BlankToNone(f.initialBalance), BlankToNone(f.agency), BlankToNone(f.account)))
    else None
  }

  /** The owner is never a reason to reject: any value, absent or empty included, passes. */
  lemma OwnerUnconstrained(f: AccountForm, owner: Option<string>)
    ensures Parse(f.(ownerId := owner)).Some? <==> Parse(f).Some?
  {
  }
}
