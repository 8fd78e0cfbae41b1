/**
 * The business records an invoice is made from (the `model` package): plain
 * value records, and `Customer`, whose identifier is set after construction.
 */
module Model {
  import opened Jdk

  datatype Address = Address(street: string, streetNumber: string, zipCode: string, location: string, country: string)

  datatype Contact = Contact(email: string, phoneNumber: string)

  /** A company shareholder; `Customer` carries the same four fields plus an identifier. */
  datatype Person = Person(firstName: string, lastName: string, address: Address, contact: Contact)

  datatype BankAccount = BankAccount(iban: string, bic: string, bankName: string)

  datatype Company = Company(
    companyLabel: string,  // the record's `label` component (`label` is a Dafny keyword)
    name: string,
    declaration: string,
    address: Address,
    shareholders: seq<Person>,
    bankAccount: BankAccount,
    taxNumber: string)

  /** A line of an order; `price` is a Java `double`, kept exact here. */
  datatype Product = Product(name: string, price: real, amount: Int32)

  /** A `LocalDate`. */
  datatype Date = Date(year: int, month: int, day: int)

  datatype Order = Order(orderNumber: string, customer: Customer, products: seq<Product>, orderDate: Date)

  const UNDEFINED_CUSTOMER_ID: Int32 := 0

  /** `& 0xfffffff` keeps the low 28 bits of the word, i.e. the word modulo this. */
  const CUSTOMER_ID_RANGE := 0x1000_0000

  /** The customer identifier derived from a name: `Objects.hash(name) & 0xfffffff`.
      The mask clears the sign bit (and three more), so the result is never negative. */
  function NameHash(name: string): (id: Int32)
    ensures 0 <= id <= 0xFFF_FFFF
  {
    ObjectsHash(name) % CUSTOMER_ID_RANGE
  }

  /** The UTF-16 code units of the name "AnnLee". */
  lemma AnnLeeCodeUnits()
    ensures CodeUnits("AnnLee") == [65, 110, 110, 76, 101, 101]
  {
    assert "AnnLee"[..5] == "AnnLe";
    assert "AnnLe"[..4] == "AnnL";
    assert "AnnL"[..3] == "Ann";
    assert "Ann"[..2] == "An";
    assert "An"[..1] == "A";
    assert "A"[..0] == "";
  }

  /** `String.hashCode()` of those code units, step by step. */
  lemma AnnLeeHashWord()
    ensures HashWord([65, 110, 110, 76, 101, 101]) == 1965835403
  {
    var u: seq<nat> := [65, 110, 110, 76, 101, 101];
    assert u[..1][..0] == [];
    assert HashWord(u[..1]) == 65;
    assert u[..2][..1] == u[..1];
    assert HashWord(u[..2]) == 2125;
    assert u[..3][..2] == u[..2];
    assert HashWord(u[..3]) == 65985;
    assert u[..4][..3] == u[..3];
    assert HashWord(u[..4]) == 2045611;
    assert u[..5][..4] == u[..4];
    assert HashWord(u[..5]) == 63414042;
    assert u[..5] == u[..|u| - 1];
  }

  /** Names whose concatenations agree get the same identifier. */
  lemma NameHashCollision()
    ensures NameHash("An" + "nLee") == NameHash("Ann" + "Lee") == 86787242
  {
    assert "An" + "nLee" == "Ann" + "Lee" == "AnnLee";
    AnnLeeCodeUnits();
    AnnLeeHashWord();
  }

  class Customer {
    var firstName: string
    var lastName: string
    var address: Address
    var contact: Contact
    var customerId: Int32

    constructor (firstName: string, lastName: string, address: Address, contact: Contact, customerId: Int32)
      ensures this.firstName == firstName && this.lastName == lastName
      ensures this.address == address && this.contact == contact
      ensures this.customerId == customerId
    {
      this.firstName := firstName;
      this.lastName := lastName;
      this.address := address;
      this.contact := contact;
      this.customerId := customerId;
    }

    method GetCustomerId() returns (id: Int32)
      ensures id == customerId
    {
      id := customerId;
    }

    /** Replaces the identifier and nothing else. */
    method SetCustomerId(customerId: Int32)
      modifies this`customerId
      ensures this.customerId == customerId
    {
      this.customerId := customerId;
    }

    /** The fields `Customer` inherits from `Person`, as a value. */
    function AsPerson(): (p: Person)
      reads this`firstName, this`lastName, this`address, this`contact
      ensures p.firstName == firstName && p.lastName == lastName && p.address == address && p.contact == contact
    {
      Person(firstName, lastName, address, contact)
    }

    /** Reads only the two name fields: address, contact and the identifier
        itself have no effect on the hash. */
    function HashCode(): (h: Int32)
      reads this`firstName, this`lastName
      ensures 0 <= h <= 0xFFF_FFFF
      ensures h == NameHash(firstName + lastName)
    {
      NameHash(firstName + lastName)
    }
  }

  /** Two customers whose first and last names concatenate to the same string
      hash alike, whatever else differs. */
  lemma SameNameSameHash(a: Customer, b: Customer)
    requires a.firstName + a.lastName == b.firstName + b.lastName
    ensures a.HashCode() == b.HashCode()
  {
  }
}
