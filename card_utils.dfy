/**
 * Display helpers for credit cards: the brand icon lookup, the masked card number,
 * the name shown as the card's holder and the card type label.
 */
module CardUtils {
  import opened Wrappers
  import opened Types
  import opened Js
  import opened CardSchemas

  /** What the icon lookup yields: `null`, the icon of a known brand, or `undefined`. */
  datatype BrandIcon = NoIcon | Icon(brand: Brand) | Undefined

  /** `getBrandIcon(brand)`: `null` for an absent or empty brand, else the record lookup. */
  function GetBrandIcon(brand: Option<string>): (r: BrandIcon)
    ensures r == NoIcon <==> !Truthy(brand)
    ensures forall b: Brand :: r == Icon(b) <==> brand == Some(b.Name())
    ensures r == Undefined <==> Truthy(brand) && BrandNamed(brand.value).None?
  {
    if !Truthy(brand) then NoIcon
    else match BrandNamed(brand.value)
      case Some(b) => Icon(b)
      case None => Undefined
  }

  const MaskPrefix: string := "**** **** **** "

  /** `formatCardNumber(lastFourDigits)`. */
  function FormatCardNumber(lastFourDigits: Option<string>): (r: string)
    ensures MaskPrefix <= r
    ensures Truthy(lastFourDigits) ==> r == MaskPrefix + lastFourDigits.value
    ensures !Truthy(lastFourDigits) ==> r == MaskPrefix + "****"
  {
    MaskPrefix + (if Truthy(lastFourDigits) then lastFourDigits.value else "****")
  }

  /** `getHolderName(card)`. */
  function GetHolderName(card: CreditCard): (r: string)
    ensures card.cardType == Holder && card.owner.Some? ==> r == card.owner.value.name
    ensures card.cardType == ThirdParty && Truthy(card.holderName) ==> r == card.holderName.value
    ensures card.cardType == Holder && card.owner.None? ==> r == "Titular"
    ensures card.cardType == ThirdParty && !Truthy(card.holderName) ==> r == "Titular"
  {
    if card.cardType == Holder && card.owner.Some? then card.owner.value.name
    else if card.cardType == ThirdParty && Truthy(card.holderName) then card.holderName.value
    else "Titular"
  }

  /** A HOLDER card never shows its `holderName`, and a THIRD_PARTY card never shows its owner. */
  lemma HolderNameSources(card: CreditCard, holderName: Option<string>, owner: Option<Person>)
    ensures card.cardType == Holder ==>
      GetHolderName(card.(holderName := holderName)) == GetHolderName(card)
    ensures card.cardType == ThirdParty ==>
      GetHolderName(card.(owner := owner)) == GetHolderName(card)
  {
  }

  /** `getCardTypeLabel(cardType)`. */
  function CardTypeLabel(t: CardType): (r: string)
    ensures t == Holder ==> r == "Titular"
    ensures t == ThirdParty ==> r == "Terceiros"
  {
    if t == Holder then "Titular" else "Terceiros"
  }
}
