/**
 * The credit-card form schema as validity predicates over the form's string fields,
 * with the cross-field rules for a member's own (HOLDER) card as a list of the fields
 * they flag.
 */
module CardSchemas {
  import opened Wrappers
  import opened Types
  import opened Js

  /** The form values as the schema receives them. */
  datatype CardForm = CardForm(
    name: string,
    cardType: string,
    brand: Option<string>,
    holderName: Option<string>,
    workspaceUserId: Option<string>,
    bankCode: Option<string>,
    lastFourDigits: Option<string>,
    creditLimit: Option<string>,
    dueDate: string)

  /** The card type an enum string names. */
  function CardTypeNamed(s: string): (t: Option<CardType>)
    ensures t.Some? <==> s == "HOLDER" || s == "THIRD_PARTY"
    ensures t.Some? ==> t.value.Name() == s
  {
    if s == "HOLDER" then Some(Holder)
    else if s == "THIRD_PARTY" then Some(ThirdParty)
    else None
  }

  /** The brand an enum string names. */
  function BrandNamed(s: string): (b: Option<Brand>)
    ensures b.Some? <==> s in {"VISA", "MASTERCARD", "ELO", "AMEX", "HIPERCARD", "DINERS"}
    ensures b.Some? ==> b.value.Name() == s
  {
    if s == "VISA" then Some(Visa)
    else if s == "MASTERCARD" then Some(Mastercard)
    else if s == "ELO" then Some(Elo)
    else if s == "AMEX" then Some(Amex)
    else if s == "HIPERCARD" then Some(Hipercard)
    else if s == "DINERS" then Some(Diners)
    else None
  }

  /** Every enum value reads back as itself. */
  lemma EnumNamesRoundTrip(t: CardType, b: Brand)
    ensures CardTypeNamed(t.Name()) == Some(t)
    ensures BrandNamed(b.Name()) == Some(b)
  {
  }

  /** `name`: at least 3 and at most 100 characters. */
  predicate NameValid(name: string) {
    3 <= |name| <= 100
  }

  /** `lastFourDigits`: blank, or exactly four digits once trimmed. */
  predicate LastFourValid(v: Option<string>) {
    IsBlank(v) || (|Trim(v.value)| == 4 && AllDigits(Trim(v.value)))
  }

  /** `dueDate`: non-empty, and `parseInt(v, 10)` lies in 1..31. */
  predicate DueDateValid(v: string) {
    |v| >= 1 && ParseInt(v).Some? && 1 <= ParseInt(v).value <= 31
  }

  /** The checks each field makes on its own. */
  predicate FieldsValid(f: CardForm) {
    && NameValid(f.name)
    && CardTypeNamed(f.cardType).Some?
    && (f.brand.None? || BrandNamed(f.brand.value).Some?)
    && LastFourValid(f.lastFourDigits)
    && BlankOrNonNegativeAmount(f.creditLimit)
    && DueDateValid(f.dueDate)
  }

  /** The fields the HOLDER rules can flag, with the issue path each one reports. */
  datatype CardField = WorkspaceUserIdField | BankCodeField | CreditLimitField | HolderNameField {
    function Path(): string {
      match this
      case WorkspaceUserIdField => "workspaceUserId"
      case BankCodeField => "bankCode"
      case CreditLimitField => "creditLimit"
      case HolderNameField => "holderName"
    }
  }

  /** `ctx.addIssue` under a condition. */
  function Flag(b: bool, field: CardField): (issues: seq<CardField>)
    ensures field in issues <==> b
    ensures |issues| <= 1
  {
    if b then [field] else []
  }

  /** The four HOLDER checks, in the order they run. */
  function HolderChecks(f: CardForm): (issues: seq<CardField>)
    ensures WorkspaceUserIdField in issues <==> IsBlank(f.workspaceUserId)
    ensures BankCodeField in issues <==> IsBlank(f.bankCode)
    ensures CreditLimitField in issues <==> IsBlank(f.creditLimit)
    ensures HolderNameField in issues <==> !IsBlank(f.holderName)
  {
    FourFlags(IsBlank(f.workspaceUserId), IsBlank(f.bankCode), IsBlank(f.creditLimit), !IsBlank(f.holderName))
  }

  /** The issues of four conditions, one per HOLDER rule, in the order the rules run. */
  function FourFlags(member: bool, bank: bool, limit: bool, holder: bool): (issues: seq<CardField>)
    ensures WorkspaceUserIdField in issues <==> member
    ensures BankCodeField in issues <==> bank
    ensures CreditLimitField in issues <==> limit
    ensures HolderNameField in issues <==> holder
  {
    Flag(member, WorkspaceUserIdField) + Flag(bank, BankCodeField)
    + Flag(limit, CreditLimitField) + Flag(holder, HolderNameField)
  }

  /** The issues the `superRefine` step adds: the HOLDER checks for a HOLDER card, none otherwise. */
  function HolderIssues(f: CardForm): (issues: seq<CardField>)
    ensures f.cardType != "HOLDER" ==> issues == []
    ensures f.cardType == "HOLDER" ==> issues == HolderChecks(f)
  {
    if f.cardType == "HOLDER" then HolderChecks(f) else []
  }

  /** Whether `creditCardFormSchema` accepts the form. */
  function Accepts(f: CardForm): (ok: bool)
    ensures ok ==> FieldsValid(f)
    // a HOLDER card needs a member, a bank and a limit, and must not name a holder
    ensures ok && f.cardType == "HOLDER" ==>
      !IsBlank(f.workspaceUserId) && !IsBlank(f.bankCode) && !IsBlank(f.creditLimit) && IsBlank(f.holderName)
    ensures f.cardType == "HOLDER" && FieldsValid(f) ==>
      (ok <== !IsBlank(f.workspaceUserId) && !IsBlank(f.bankCode) && !IsBlank(f.creditLimit) && IsBlank(f.holderName))
    // a THIRD_PARTY card has no rule across fields
    ensures f.cardType == "THIRD_PARTY" ==> (ok <==> FieldsValid(f))
  {
    FieldsValid(f) && HolderIssues(f) == []
  }

  /** `parseInt` reads the leading number only, so a trailing letter is accepted. */
  lemma TrailingLetterAccepted()
    ensures DueDateValid("5x")
  {
    assert TrimStart("5x") == "5x";
    assert DigitPrefix("5x") == "5";
  }

  /** Day 0 is out of range. */
  lemma DayZeroRejected()
    ensures !DueDateValid("0")
  {
    assert TrimStart("0") == "0";
    assert DigitPrefix("0") == "0";
  }

  /** A day written in decimal, as `String(d)` writes it, is accepted exactly when it is
      a day of a month: 32 and above are rejected like 0. */
  lemma {:induction false} RenderedDayValidIff(d: nat)
    ensures DueDateValid(NatToString(d)) <==> 1 <= d <= 31
  {
    ParseIntOfNatToString(d);
  }

  /** A four-digit string is accepted as the last digits, with or without surrounding blanks. */
  lemma FourDigitsAccepted(s: string)
    requires |s| == 4 && AllDigits(s)
    ensures LastFourValid(Some(s))
  {
    DigitNotWhiteSpace(s[0]);
    DigitNotWhiteSpace(s[3]);
    assert TrimStart(s) == s;
    assert TrimEnd(s) == s;
  }
}
