/**
 The persisted records: Customer (with its embedded Address) and Credit.
 Amounts are integer cents, calendar dates are day ordinals, and the
 credit code is a 128-bit value.
 */
module Entities {
  import opened Nullable

  /** A BigDecimal amount, in cents. No arithmetic is ever done on it. */
  type Money = int

  /** A LocalDate, as the number of days since a fixed epoch. */
  type Day = int

  /** A java.util.UUID, as its 128 bits. */
  type Uuid = bv128

  datatype Status = IN_PROGRESS | ACCEPTED | REJECTED

  datatype Address = Address(zipCode: string, street: string)

  datatype Customer = Customer(
    firstName: string,
    lastName: string,
    cpf: string,
    income: Money,
    email: string,
    password: string,
    address: Address,
    id: Option<int>)

  datatype Credit = Credit(
    creditCode: Uuid,
    creditValue: Money,
    dayFirstInstallment: Day,
    numberOfInstallments: int,
    status: Status,
    customer: Option<Customer>,
    id: Option<int>)

  /** A Customer built with every constructor parameter left at its default. */
  const BlankCustomer: Customer :=
    Customer("", "", "", 0, "", "", Address("", ""), None)

  /** `Customer(id = id)`: a reference that names a customer and carries nothing else. */
  function CustomerStub(id: int): (c: Customer)
    ensures c.id == Some(id)
    ensures c.(id := None) == BlankCustomer
  {
    BlankCustomer.(id := Some(id))
  }

  /** `Credit(creditCode = code, dayFirstInstallment = day)`: the only
      parameter without a default is the date; the code stands for the
      `UUID.randomUUID()` default, drawn by the caller. */
  function NewCredit(code: Uuid, day: Day): (c: Credit)
    ensures c.creditCode == code && c.dayFirstInstallment == day
    ensures c.status == IN_PROGRESS
    ensures c.customer == None
    ensures c.id == None
    ensures c.creditValue == 0 && c.numberOfInstallments == 0
  {
    Credit(code, 0, day, 0, IN_PROGRESS, None, None)
  }

  /** `credit.customer?.id == customerId`: the credit is bound to a customer
      whose id is exactly `customerId`. A credit with no customer, or with a
      customer that has no id yet, belongs to nobody. */
  predicate OwnedBy(credit: Credit, customerId: int) {
    credit.customer.Some? && credit.customer.value.id == Some(customerId)
  }

  /** The same credit, bound to another customer. Every field of a Credit but
      the store id is immutable, so binding yields a new value. */
  function BindCustomer(credit: Credit, customer: Customer): (bound: Credit)
    ensures bound.customer == Some(customer)
    ensures bound.(customer := credit.customer) == credit
  {
    credit.(customer := Some(customer))
  }
}
