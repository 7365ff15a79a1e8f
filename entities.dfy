/**
 * The persistent entities of the bank: users with their address, bank accounts and transactions.
 * Fields the core writes are `var`; fields it never writes after creation (database ids, the
 * generated account number and sort code, an account's owner) are `const`.
 */
module Entities {
  import opened Wrappers

  type UserId = int

  /** A point in time, as a count of some fixed unit since the epoch. */
  type Instant = int

  /** The four address columns, all non-null. */
  class Address {
    var line1: string
    var town: string
    var county: string
    var postcode: string

    constructor (line1: string, town: string, county: string, postcode: string)
      ensures Value() == AddressValue(line1, town, county, postcode)
    {
      this.line1, this.town, this.county, this.postcode := line1, town, county, postcode;
    }

    /** The address's fields as a value. */
    function Value(): AddressValue
      reads this
    {
      AddressValue(line1, town, county, postcode)
    }
  }

  datatype AddressValue = AddressValue(line1: string, town: string, county: string, postcode: string)

  /** A registered user; `accounts` is the list of accounts the persistence layer loads with it. */
  class User {
    const id: UserId
    const username: string
    var name: string
    var phoneNumber: string
    var email: string
    const address: Address
    var accounts: seq<BankAccount>

    constructor (id: UserId, username: string, name: string, phoneNumber: string, email: string, address: Address)
      ensures this.id == id && this.username == username && this.address == address
      ensures ProfileValue() == Profile(name, phoneNumber, email) && accounts == []
    {
      this.id, this.username, this.address := id, username, address;
      this.name, this.phoneNumber, this.email := name, phoneNumber, email;
      accounts := [];
    }

    /** The three profile fields that a PATCH of the user may overwrite. */
    function ProfileValue(): Profile
      reads this
    {
      Profile(name, phoneNumber, email)
    }
  }

  datatype Profile = Profile(name: string, phoneNumber: string, email: string)

  /** A bank account: its balance and name change in place, everything else is fixed at creation. */
  class BankAccount {
    const accountNumber: string
    const sortCode: string
    var name: Option<string>
    var balance: int
    const accountType: string
    const user: User

    constructor (name: Option<string>, accountNumber: string, sortCode: string, accountType: string, balance: int, user: User)
      ensures this.name == name && this.accountNumber == accountNumber && this.sortCode == sortCode
      ensures this.accountType == accountType && this.balance == balance && this.user == user
    {
      this.name, this.accountNumber, this.sortCode := name, accountNumber, sortCode;
      this.accountType, this.balance, this.user := accountType, balance, user;
    }
  }

  /** Transaction.TransactionType: exactly these two constants. */
  datatype TransactionType = Deposit | Withdrawal

  /** The constant's name, as Java's `name()` gives it. */
  function Name(t: TransactionType): string {
    match t
    case Deposit => "DEPOSIT"
    case Withdrawal => "WITHDRAWAL"
  }

  /** Java's `TransactionType.valueOf`: the constant with exactly this name, or `None` where Java throws. */
  function ValueOf(name: string): (r: Option<TransactionType>)
    ensures r.Some? <==> exists t :: Name(t) == name
    ensures r.Some? ==> Name(r.value) == name
  {
    if name == "DEPOSIT" then assert Name(Deposit) == name; Some(Deposit)
    else if name == "WITHDRAWAL" then assert Name(Withdrawal) == name; Some(Withdrawal)
    else assert forall t :: Name(t) != name; None
  }

  /** `valueOf` inverts `name()`. */
  lemma ValueOfName(t: TransactionType)
    ensures ValueOf(Name(t)) == Some(t)
  {
  }

  /**
   * A transaction record. `id` is `None` until the transaction is saved; `kind` is the Java field `type`.
   * Nothing in the core changes a transaction once it is built.
   */
  datatype Transaction = Transaction(
    id: Option<int>,
    kind: TransactionType,
    amount: int,
    timestamp: Instant,
    reference: Option<string>,
    account: BankAccount)
}
