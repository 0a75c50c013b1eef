/**
 * The records the application exchanges with its backend, with the fields the
 * modelled code reads. A JavaScript `null` or `undefined` field is `None`.
 */
module Types {
  import opened Wrappers

  /** A user. `id` and `email` are `None` when the token they were read from had no such claim. */
  datatype User = User(
    id: Option<string>,
    name: string,
    email: Option<string>,
    createdAt: Option<string>,
    updatedAt: Option<string>)

  /** A workspace as the backend returns it (the fields the client keeps). */
  datatype Workspace = Workspace(id: string, name: string, description: Option<string>)

  /** The roles a workspace member can hold. */
  datatype WorkspaceRole = Owner | Admin | Member | Viewer {
    function Name(): string {
      match this
      case Owner => "OWNER"
      case Admin => "ADMIN"
      case Member => "MEMBER"
      case Viewer => "VIEWER"
    }
  }

  /** Whose card it is: a workspace member's own card, or a card held by someone else. */
  datatype CardType = Holder | ThirdParty {
    function Name(): string {
      match this
      case Holder => "HOLDER"
      case ThirdParty => "THIRD_PARTY"
    }
  }

  /** The card brands the application knows. */
  datatype Brand = Visa | Mastercard | Elo | Amex | Hipercard | Diners {
    function Name(): string {
      match this
      case Visa => "VISA"
      case Mastercard => "MASTERCARD"
      case Elo => "ELO"
      case Amex => "AMEX"
      case Hipercard => "HIPERCARD"
      case Diners => "DINERS"
    }
  }

  /** The member a card or account belongs to, as embedded by the backend. */
  datatype Person = Person(name: string)

  /** A credit card as the backend returns it. `bankAccountBankCode` is `card.bankAccount?.bankCode`. */
  datatype CreditCard = CreditCard(
    id: string,
    name: string,
    cardType: CardType,
    brand: Option<Brand>,
    holderName: Option<string>,
    workspaceUserId: Option<string>,
    bankCode: Option<string>,
    bankAccountBankCode: Option<string>,
    lastFourDigits: Option<string>,
    creditLimitCents: Option<int>,
    dueDate: int,
    owner: Option<Person>)

  /** A bank account as the backend returns it. */
  datatype BankAccount = BankAccount(
    id: string,
    name: string,
    bankCode: Option<string>,
    ownerId: Option<string>,
    initialBalanceCents: Option<int>,
    agency: Option<string>,
    account: Option<string>)
}
