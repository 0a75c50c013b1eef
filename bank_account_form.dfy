/**
 * The bank-account form hook: the values the form starts from (those of the
 * account being edited, or blanks), the payload the submit handler builds from
 * the parsed values, which mutation it goes to, and the reset after success.
 */
module BankAccountForm {
  import opened Wrappers
  import opened Js
  import opened Types
  import opened AccountSchemas
  import opened AccountsUtils

  /** The body of a create or update request. `None` fields are left out of the object. */
  datatype AccountPayload = AccountPayload(
    name: string,
    bankCode: string,
    ownerId: Option<string>,
    initialBalance: Option<string>,
    agency: Option<string>,
    account: Option<string>)

  /** Which mutation a submission goes to. */
  datatype AccountRequest =
    | CreateAccount(data: AccountPayload)
    | UpdateAccount(accountId: string, data: AccountPayload)

  /** `x || ''` for an optional string field. */
  function Text(v: Option<string>): (r: string)
    ensures Truthy(v) ==> r == v.value
    ensures !Truthy(v) ==> r == []
  {
    if Truthy(v) then v.value else []
  }

  /** The balance field: a balance of zero cents (or none) shows as an empty field. */
  function BalanceText(cents: Option<int>): (r: string)
    ensures cents.Some? && cents.value != 0 ==> r == CentsToCurrency(cents.value)
    ensures cents.None? || cents.value == 0 ==> r == []
  {
    if cents.Some? && cents.value != 0 then CentsToCurrency(cents.value) else []
  }

  /** The values the effect resets the form to. */
  function Prefill(account: Option<BankAccount>): (f: AccountForm)
    ensures account.None? ==> f == AccountForm("", "", Some(""), Some(""), Some(""), Some(""))
    ensures account.Some? ==>
      && f.name == account.value.name
      && f.bankCode == Text(account.value.bankCode)
      && f.ownerId == Some(Text(account.value.ownerId))
      && f.initialBalance == Some(BalanceText(account.value.initialBalanceCents))
      && f.agency == Some(Text(account.value.agency))
      && f.account == Some(Text(account.value.account))
  {
    match account
    case None => AccountForm("", "", Some(""), Some(""), Some(""), Some(""))
    case Some(a) =>
      AccountForm(a.name, Text(a.bankCode), Some(Text(a.ownerId)),
        Some(BalanceText(a.initialBalanceCents)), Some(Text(a.agency)), Some(Text(a.account)))
  }

  /** A stored balance other than zero reads back from the form's text as the same cents. */
  lemma PrefilledBalanceReadsBack(a: BankAccount)
    requires a.initialBalanceCents.Some? && a.initialBalanceCents.value != 0
    ensures CurrencyToCents(Prefill(Some(a)).initialBalance.value) == a.initialBalanceCents
  {
    CurrencyRoundTrip(a.initialBalanceCents.value);
  }

  /** The balance rule on the prefilled text: only a negative stored balance fails it. */
  lemma {:induction false} BalanceTextValidIff(cents: Option<int>)
    ensures BlankOrNonNegativeAmount(Some(BalanceText(cents))) <==> cents.None? || cents.value >= 0
  {
    if cents.Some? && cents.value != 0 {
      AmountTextValidIff(cents.value);
    } else {
      assert Trim(BalanceText(cents)) == [];
    }
  }

  /** The prefilled form of an account passes the schema exactly when the stored name,
      bank code, agency and account pass it and the stored balance is not negative: an
      account with a negative balance cannot be saved again without changing it. */
  lemma PrefilledAccountAcceptedIff(a: BankAccount)
    ensures Parse(Prefill(Some(a))).Some? <==>
      && NameValid(a.name) && BankCodeValid(Text(a.bankCode))
      && (a.initialBalanceCents.None? || a.initialBalanceCents.value >= 0)
      && AgencyValid(Some(Text(a.agency))) && AgencyValid(Some(Text(a.account)))
  {
    BalanceTextValidIff(a.initialBalanceCents);
  }

  /** A new account's form starts blank, and the blank form is rejected. */
  lemma {:induction false} BlankFormRejected()
    ensures Parse(Prefill(None)).None?
  {
    assert !NameValid(Prefill(None).name);
  }

  /** `submitData`: name and bank code always, each other field only when truthy. */
  function Payload(d: AccountData): (p: AccountPayload)
    ensures p.name == d.name && p.bankCode == d.bankCode
    ensures p.ownerId.Some? <==> Truthy(d.ownerId)
    ensures p.initialBalance.Some? <==> Truthy(d.initialBalance)
    ensures p.agency.Some? <==> Truthy(d.agency)
    ensures p.account.Some? <==> Truthy(d.account)
    ensures p.ownerId.Some? ==> p.ownerId == d.ownerId
    ensures p.initialBalance.Some? ==> p.initialBalance == d.initialBalance
    ensures p.agency.Some? ==> p.agency == d.agency
    ensures p.account.Some? ==> p.account == d.account
  {
    AccountPayload(d.name, d.bankCode,
      if Truthy(d.ownerId) then d.ownerId else None,
      if Truthy(d.initialBalance) then d.initialBalance else None,
      if Truthy(d.agency) then d.agency else None,
      if Truthy(d.account) then d.account else None)
  }

  /** After the schema's transforms, the payload holds the trimmed optional fields exactly
      when they are not blank, and the owner exactly when it is not empty. */
  lemma {:induction false} SubmittedPayload(f: AccountForm)
    requires Parse(f).Some?
    ensures Payload(Parse(f).value).initialBalance == BlankToNone(f.initialBalance)
    ensures Payload(Parse(f).value).agency == BlankToNone(f.agency)
    ensures Payload(Parse(f).value).account == BlankToNone(f.account)
    ensures Payload(Parse(f).value).ownerId == (if Truthy(f.ownerId) then f.ownerId else None)
  {
    var d := Parse(f).value;
    assert d.initialBalance.Some? ==> Truthy(d.initialBalance);
    assert d.agency.Some? ==> Truthy(d.agency);
    assert d.account.Some? ==> Truthy(d.account);
  }

  /** A balance typed without surrounding blanks is sent exactly as typed; the prefilled text
      of a positive balance is such a text (`AccountsUtils.PositiveCurrencyTrimmed`), so
      resubmitting an account sends its balance unchanged. */
  lemma TrimmedBalanceSubmitted(f: AccountForm, t: string)
    requires Parse(f).Some? && f.initialBalance == Some(t) && Trim(t) == t && t != []
    ensures Payload(Parse(f).value).initialBalance == Some(t)
  {
    SubmittedPayload(f);
  }

  /** `isEditing ? updateMutation : createMutation`, the update keyed by `account?.id || ''`,
      which for an edited account is its id (an empty id and `''` coincide). */
  function RequestFor(account: Option<BankAccount>, d: AccountData): (r: AccountRequest)
    ensures r.data == Payload(d)
    ensures r.UpdateAccount? <==> account.Some?
    ensures r.UpdateAccount? ==> r.accountId == account.value.id
  {
    if account.Some? then UpdateAccount(account.value.id, Payload(d))
    else CreateAccount(Payload(d))
  }

  /** The hook's form: the account it edits (if any), the current values, the requests it
      has sent and the number of times it has called `onSuccess`. */
  class AccountFormHook {
    const account: Option<BankAccount>
    var values: AccountForm
    var requests: seq<AccountRequest>
    var successCalls: nat

    /** The form is created with blank defaults; the effect then resets it to the prefill. */
    constructor (account: Option<BankAccount>)
      ensures this.account == account && values == Prefill(account)
      ensures requests == [] && successCalls == 0
    {
      this.account := account;
      values := AccountForm("", "", Some(""), Some(""), Some(""), Some(""));
      values := Prefill(account);
      requests := [];
      successCalls := 0;
    }

    /** `isEditing`. */
    predicate IsEditing() {
      account.Some?
    }

    /** The user edits the fields. */
    method SetValues(f: AccountForm)
      modifies this
      ensures values == f && requests == old(requests) && successCalls == old(successCalls)
    {
      values := f;
    }

    /** `handleSubmit(onSubmit)`: nothing is sent unless the schema accepts the values. */
    method Submit()
      modifies this
      ensures Parse(old(values)).None? ==> requests == old(requests)
      ensures Parse(old(values)).Some? ==>
        requests == old(requests) + [RequestFor(account, Parse(old(values)).value)]
      ensures values == old(values) && successCalls == old(successCalls)
    {
      var parsed := Parse(values);
      if parsed.Some? {
        requests := requests + [RequestFor(account, parsed.value)];
      }
    }

    /** The mutation settles: on success `onSuccess()` runs and `form.reset()` restores the
        values of the last reset, the prefill; on failure nothing changes. */
    method Settled(ok: bool)
      modifies this
      ensures ok ==> successCalls == old(successCalls) + 1 && values == Prefill(account)
      ensures !ok ==> successCalls == old(successCalls) && values == old(values)
      ensures requests == old(requests)
    {
      if ok {
        successCalls := successCalls + 1;
        values := Prefill(account);
      }
    }
  }
}
