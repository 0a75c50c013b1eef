/**
 * The credit-card dialog: the values the form starts from, the two input masks,
 * the card-type rule that clears the holder name, and the payload the submit
 * handler builds field by field.
 */
module CreditCardModal {
  import opened Wrappers
  import opened Types
  import opened Js
  import opened CardSchemas
  import opened AccountsUtils

  /** The body of a create or update request. `None` fields are left out of the object. */
  datatype SubmitData = SubmitData(
    name: string,
    cardType: CardType,
    brand: Option<Brand>,
    holderName: Option<string>,
    workspaceUserId: Option<string>,
    bankCode: Option<string>,
    lastFourDigits: Option<string>,
    creditLimit: Option<string>,
    dueDate: int)

  /** Which mutation a submission goes to. */
  datatype CardRequest = CreateCard(data: SubmitData) | UpdateCard(cardId: string, data: SubmitData)

  /** `x || ''` for an optional string field. */
  function OrEmpty(v: Option<string>): (r: string)
    ensures Truthy(v) ==> r == v.value
    ensures !Truthy(v) ==> r == []
  {
    if Truthy(v) then v.value else []
  }

  /** The form's values: those of the card being edited, or the defaults of a new card. */
  function Prefill(card: Option<CreditCard>): (f: CardForm)
    ensures card.None? ==> f == CardForm("", "HOLDER", None, Some(""), Some(""), Some(""), Some(""), Some(""), "10")
    ensures card.Some? ==>
      && f.name == card.value.name && f.cardType == card.value.cardType.Name()
      && f.dueDate == IntToString(card.value.dueDate)
      && f.brand == (if card.value.brand.Some? then Some(card.value.brand.value.Name()) else None)
      && f.holderName == Some(OrEmpty(card.value.holderName))
      && f.workspaceUserId == Some(OrEmpty(card.value.workspaceUserId))
      && f.bankCode == Some(OrEmpty(Or(card.value.bankCode, card.value.bankAccountBankCode)))
      && f.lastFourDigits == Some(OrEmpty(card.value.lastFourDigits))
    // a limit of zero cents (or none) shows as an empty field, any other as "X,YY"
    ensures card.Some? && card.value.creditLimitCents.Some? && card.value.creditLimitCents.value != 0 ==>
      f.creditLimit == Some(CentsToCurrency(card.value.creditLimitCents.value))
    ensures card.Some? && (card.value.creditLimitCents.None? || card.value.creditLimitCents.value == 0) ==>
      f.creditLimit == Some("")
  {
    match card
    case None => CardForm("", "HOLDER", None, Some(""), Some(""), Some(""), Some(""), Some(""), "10")
    case Some(c) =>
      CardForm(
        c.name,
        c.cardType.Name(),
        if c.brand.Some? then Some(c.brand.value.Name()) else None,
        Some(OrEmpty(c.holderName)),
        Some(OrEmpty(c.workspaceUserId)),
        Some(OrEmpty(Or(c.bankCode, c.bankAccountBankCode))),
        Some(OrEmpty(c.lastFourDigits)),
        if c.creditLimitCents.Some? && c.creditLimitCents.value != 0
        then Some(CentsToCurrency(c.creditLimitCents.value)) else Some(""),
        IntToString(c.dueDate))
  }

  /** The card's due day survives the prefill: the form's text reads back as the card's day. */
  lemma PrefilledDueDateReadsBack(c: CreditCard)
    requires c.dueDate >= 0
    ensures ParseInt(Prefill(Some(c)).dueDate) == Some(c.dueDate)
  {
    ParseIntOfNatToString(c.dueDate);
  }

  /** The last-digits mask: `value.replace(/\D/g, '').slice(0, 4)`. */
  function LastFourMask(input: string): (r: string)
    ensures AllDigits(r) && |r| <= 4
    ensures r <= KeepDigits(input)
    ensures |KeepDigits(input)| >= 4 ==> |r| == 4
    ensures |KeepDigits(input)| < 4 ==> r == KeepDigits(input)
  {
    var digits := KeepDigits(input);
    if |digits| <= 4 then digits else digits[..4]
  }

  /** The mask's output passes the schema's last-digits check exactly when it is empty or
      has all four digits. */
  lemma LastFourMaskValidIff(input: string)
    ensures LastFourValid(Some(LastFourMask(input))) <==> |LastFourMask(input)| == 0 || |LastFourMask(input)| == 4
  {
    var r := LastFourMask(input);
    if r != [] {
      DigitNotWhiteSpace(r[0]);
      DigitNotWhiteSpace(r[|r| - 1]);
      assert TrimStart(r) == r;
      assert TrimEnd(r) == r;
    }
  }

  /** The credit-limit mask: empty without digits, otherwise the digits read as cents and
      shown as "X,YY". */
  function CreditLimitMask(input: string): (r: string)
    ensures KeepDigits(input) == [] ==> r == []
    ensures KeepDigits(input) != [] ==> r == CentsToCurrency(DigitsValue(KeepDigits(input)))
  {
    var digits := KeepDigits(input);
    if digits == [] then [] else CentsToCurrency(DigitsValue(digits))
  }

  /** The digits of a non-negative amount's text spell the amount. */
  lemma DigitsOfAmount(n: nat)
    ensures KeepDigits(CentsToCurrency(n)) == NatToString(n / 100) + TwoDigits(n)
    ensures DigitsValue(NatToString(n / 100) + TwoDigits(n)) == n
  {
    var q := NatToString(n / 100);
    var f := TwoDigits(n);
    KeepDigitsAroundComma(q, f);
    assert CentsToCurrency(n) == q + "," + f;
    DigitsValueAppend(q, f);
    DigitsValueOfNatToString(n / 100);
  }

  lemma {:induction false} KeepDigitsAroundComma(q: string, f: string)
    requires AllDigits(q) && AllDigits(f)
    ensures KeepDigits(q + "," + f) == q + f
    decreases |q|
  {
    if q == [] {
      assert q + "," + f == [','] + f;
      assert ([','] + f)[1..] == f;
    } else {
      assert (q + "," + f)[1..] == q[1..] + "," + f;
      KeepDigitsAroundComma(q[1..], f);
      assert q + f == [q[0]] + (q[1..] + f);
    }
  }

  /** Typing over a masked limit keeps it as it is: the mask is idempotent. */
  lemma CreditLimitMaskIdempotent(input: string)
    ensures CreditLimitMask(CreditLimitMask(input)) == CreditLimitMask(input)
  {
    var digits := KeepDigits(input);
    if digits != [] {
      DigitsOfAmount(DigitsValue(digits));
    }
  }

  /** A masked limit is accepted by the schema and reads back as the cents typed. */
  lemma CreditLimitMaskAccepted(input: string)
    requires KeepDigits(input) != []
    ensures BlankOrNonNegativeAmount(Some(CreditLimitMask(input)))
    ensures CurrencyToCents(CreditLimitMask(input)) == Some(DigitsValue(KeepDigits(input)))
  {
    var n := DigitsValue(KeepDigits(input));
    AmountTextValidIff(n);
    CurrencyRoundTrip(n);
  }

  /** What the submit handler sends for the form data `d`: name, card type and the parsed due
      day always, the brand when set, and each other field only when it is filled in, as
      entered; a HOLDER card never carries a holder name. */
  predicate IsSubmitDataOf(s: SubmitData, d: CardForm) {
    && s.name == d.name && s.cardType.Name() == d.cardType
    && ParseInt(d.dueDate).Some? && s.dueDate == ParseInt(d.dueDate).value
    && (s.brand.Some? <==> d.brand.Some?)
    && (s.brand.Some? ==> s.brand.value.Name() == d.brand.value)
    && (s.holderName.Some? <==> s.cardType == ThirdParty && Truthy(d.holderName))
    && (s.workspaceUserId.Some? <==> Truthy(d.workspaceUserId))
    && (s.bankCode.Some? <==> Truthy(d.bankCode))
    && (s.lastFourDigits.Some? <==> Truthy(d.lastFourDigits))
    && (s.creditLimit.Some? <==> Truthy(d.creditLimit))
    && (s.holderName.Some? ==> s.holderName == d.holderName)
    && (s.workspaceUserId.Some? ==> s.workspaceUserId == d.workspaceUserId)
    && (s.bankCode.Some? ==> s.bankCode == d.bankCode)
    && (s.lastFourDigits.Some? ==> s.lastFourDigits == d.lastFourDigits)
    && (s.creditLimit.Some? ==> s.creditLimit == d.creditLimit)
  }

  /** `IsSubmitDataOf` leaves no choice: the form data fixes the payload. */
  lemma SubmitDataDetermined(s1: SubmitData, s2: SubmitData, d: CardForm)
    requires IsSubmitDataOf(s1, d) && IsSubmitDataOf(s2, d)
    ensures s1 == s2
  {
    // each enum value reads back from its name, so equal names mean equal values
    EnumNamesRoundTrip(s1.cardType, Visa);
    EnumNamesRoundTrip(s2.cardType, Visa);
    if s1.brand.Some? {
      EnumNamesRoundTrip(Holder, s1.brand.value);
      EnumNamesRoundTrip(Holder, s2.brand.value);
    }
  }

  /** The submit handler's payload, built by conditional assignment. It runs on data the
      schema has accepted. */
  method BuildSubmitData(d: CardForm) returns (s: SubmitData)
    requires Accepts(d)
    ensures IsSubmitDataOf(s, d)
    ensures 1 <= s.dueDate <= 31
  {
    var cardType := CardTypeNamed(d.cardType).value;
    var brand, holderName, workspaceUserId, bankCode, lastFourDigits, creditLimit := None, None, None, None, None, None;
    if Truthy(d.brand) {
      brand := BrandNamed(d.brand.value);
    }
    // both branches of the source send the last four fields under the same conditions;
    // only the THIRD_PARTY branch sends the holder's name
    if cardType == ThirdParty && Truthy(d.holderName) {
      holderName := d.holderName;
    }
    if Truthy(d.workspaceUserId) {
      workspaceUserId := d.workspaceUserId;
    }
    if Truthy(d.bankCode) {
      bankCode := d.bankCode;
    }
    if Truthy(d.lastFourDigits) {
      lastFourDigits := d.lastFourDigits;
    }
    if Truthy(d.creditLimit) {
      creditLimit := d.creditLimit;
    }
    s := SubmitData(d.name, cardType, brand, holderName, workspaceUserId, bankCode, lastFourDigits,
      creditLimit, ParseInt(d.dueDate).value);
  }

  /** `isLoading`: either mutation is in flight. */
  function IsLoading(createPending: bool, updatePending: bool): (b: bool)
    ensures b <==> createPending || updatePending
  {
    createPending || updatePending
  }

  /** The dialog: the card it edits (if any), whether it is open, and the form's values. */
  class CardModal {
    const card: Option<CreditCard>
    var open: bool
    var values: CardForm

    /** The form starts from the prefill; the card-type effect then runs once. */
    constructor (card: Option<CreditCard>, open: bool)
      ensures this.card == card && this.open == open
      ensures values == CardTypeRule(Prefill(card))
    {
      this.card := card;
      this.open := open;
      values := CardTypeRule(Prefill(card));
    }

    /** Typing in the last-digits field. */
    method SetLastFourDigits(input: string)
      modifies this
      ensures values == old(values).(lastFourDigits := Some(LastFourMask(input)))
      ensures open == old(open)
    {
      values := values.(lastFourDigits := Some(LastFourMask(input)));
    }

    /** Typing in the credit-limit field. */
    method SetCreditLimit(input: string)
      modifies this
      ensures values == old(values).(creditLimit := Some(CreditLimitMask(input)))
      ensures open == old(open)
    {
      var digits := KeepDigits(input);
      if digits == [] {
        values := values.(creditLimit := Some(""));
        return;
      }
      var numValue := DigitsValue(digits);
      values := values.(creditLimit := Some(CentsToCurrency(numValue)));
    }

    /** Choosing a card type; the effect watching it then runs. */
    method SetCardType(t: CardType)
      modifies this
      ensures values == CardTypeRule(old(values).(cardType := t.Name()))
      ensures t == Holder ==> values.holderName == Some("")
      ensures t == ThirdParty ==> values.holderName == old(values).holderName
      ensures open == old(open)
    {
      values := values.(cardType := t.Name());
      if values.cardType == "HOLDER" {
        values := values.(holderName := Some(""));
      }
    }

    /** `handleSubmit(onSubmit)`: nothing is sent unless the schema accepts the values; an
        accepted form goes to the update mutation when a card is being edited, else to create. */
    method Submit() returns (request: Option<CardRequest>)
      ensures !Accepts(values) ==> request.None?
      ensures Accepts(values) && card.Some? ==>
        request.Some? && request.value.UpdateCard? && request.value.cardId == card.value.id
      ensures Accepts(values) && card.None? ==> request.Some? && request.value.CreateCard?
      // the body sent is the payload built from the accepted values
      ensures request.Some? ==> IsSubmitDataOf(request.value.data, values)
    {
      if !Accepts(values) {
        return None;
      }
      var data := BuildSubmitData(values);
      if card.Some? {
        request := Some(UpdateCard(card.value.id, data));
      } else {
        request := Some(CreateCard(data));
      }
    }

    /** A mutation's `onSuccess`, and `handleClose`: close the dialog and reset the form. */
    method Close()
      modifies this
      ensures !open && values == Prefill(card)
    {
      open := false;
      values := Prefill(card);
    }
  }

  /** The card-type effect: a HOLDER card's holder name is cleared. */
  function CardTypeRule(f: CardForm): (r: CardForm)
    ensures f.cardType == "HOLDER" ==> r == f.(holderName := Some(""))
    ensures f.cardType != "HOLDER" ==> r == f
  {
    if f.cardType == "HOLDER" then f.(holderName := Some("")) else f
  }
}
