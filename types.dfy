/** The records the application keeps in its stores (types.ts). Amounts are
    integer currency units; dates are the ISO text the forms produce, turned
    into calendar values only where a component calls `new Date(...)`. */
module Types {

  datatype Option<+T> = None | Some(value: T) {
    function GetOr(default: T): T {
      match this
      case Some(v) => v
      case None => default
    }
  }

  datatype Expense = Expense(id: string, item: string, amount: int)

  datatype Payment = Payment(id: string, date: string, amount: int)

  datatype Contract = Contract(
    id: string,
    brandName: string,
    branchName: string,
    contractDate: string,
    constructionDate: string,
    collectionDate: Option<string>,
    salesAmount: int,
    payments: seq<Payment>,
    totalPurchaseAmount: int,
    expenses: seq<Expense>,
    salesperson: string)

  datatype User = User(id: string, email: string, name: string, password: Option<string>)

  datatype ContactCategory = Executive | Sales | Interior | Supervisor | Other

  datatype BrandContact = BrandContact(
    id: string,
    name: string,
    phone: string,
    email: string,
    category: ContactCategory)

  datatype Brand = Brand(
    id: string,
    name: string,
    address: Option<string>,
    businessRegistrationNumber: Option<string>,
    mainPhoneNumber: Option<string>,
    websiteUrl: Option<string>,
    certificateImage: Option<string>,
    contacts: seq<BrandContact>)

  /** The text each contact category carries in the store and in exports. */
  function CategoryLabel(c: ContactCategory): string {
    match c
    case Executive => "임직원"
    case Sales => "영업팀"
    case Interior => "인테리어"
    case Supervisor => "슈퍼바이저"
    case Other => "기타"
  }

  /** A month index as `Date.getMonth()` returns it. */
  type MonthIndex = m: int | 0 <= m < 12

  /** What `new Date(text)` yields once read back: a calendar date with its day
      number (days since the epoch at local midnight), or an invalid date. */
  datatype ParsedDate = Valid(year: int, month: MonthIndex, day: int) | Invalid

  /** A JavaScript optional string read in a boolean context: present and non-empty. */
  predicate Truthy(s: Option<string>) {
    s.Some? && s.value != ""
  }

  /** A contract counts as collected purely because a collection date is set. */
  predicate HasCollectionDate(c: Contract) {
    Truthy(c.collectionDate)
  }

  function ContractId(c: Contract): string { c.id }
  function BrandId(b: Brand): string { b.id }
  function ContactId(c: BrandContact): string { c.id }
  function UserId(u: User): string { u.id }
  function PaymentId(p: Payment): string { p.id }
  function ExpenseId(e: Expense): string { e.id }
}
