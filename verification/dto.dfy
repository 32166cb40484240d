/**
 The request bodies (CreditDto, CustomerDto, CustomerUpdateDto) with their
 bean-validation constraints and their conversions to entities, and the
 response projections (CreditView, CustomerView).

 A request's validation is modelled as the list of constraint violations it
 produces, in field declaration order; an empty list means the request
 reaches the controller.
 */
module Dto {
  import opened Nullable
  import opened Entities
  import opened Failures
  import DateWindow

  // ------------------------------------------------------------- constraints

  /** No error is listed twice. */
  ghost predicate Distinct(listed: seq<FieldError>) {
    forall i, j :: 0 <= i < j < |listed| ==> listed[i] != listed[j]
  }

  /** The violations of a request's constraints, in declaration order:
      `holds[i]` is the verdict of the i-th constraint and `listed[i]` the
      error it reports when it fails. */
  function Violations(holds: seq<bool>, listed: seq<FieldError>): (errors: seq<FieldError>)
    requires |holds| == |listed|
    ensures errors == [] <==> forall i :: 0 <= i < |holds| ==> holds[i]
    ensures forall e :: e in errors ==> exists i :: 0 <= i < |holds| && !holds[i] && listed[i] == e
    ensures forall i :: 0 <= i < |holds| && !holds[i] ==> listed[i] in errors
    ensures Distinct(listed) ==>
      forall i :: 0 <= i < |holds| ==> (listed[i] in errors <==> !holds[i])
  {
    if |holds| == 0 then []
    else
      var rest := Violations(holds[1..], listed[1..]);
      assert forall i :: 1 <= i < |holds| ==> holds[1..][i - 1] == holds[i] && listed[1..][i - 1] == listed[i];
      (if holds[0] then [] else [listed[0]]) + rest
  }

  // ---------------------------------------------------------------- CreditDto

  const MIN_INSTALLMENTS: int := 1
  const MAX_INSTALLMENTS: int := 48

  const DATE_MESSAGE: string := "the limit for the date of the first installment is up to 3 months from the current date."
  const MIN_MESSAGE: string := "choose a number of installments above 0"
  const MAX_MESSAGE: string := "choose a number of installments below 49"

  /** Every violation a CreditDto can report: one per constraint. */
  const CREDIT_DTO_ERRORS: seq<FieldError> := [
    FieldError("dayFirstOfInstallment", Some(DATE_MESSAGE)),
    FieldError("numberOfInstallments", Some(MIN_MESSAGE)),
    FieldError("numberOfInstallments", Some(MAX_MESSAGE))]

  datatype CreditDto = CreditDto(
    creditValue: Money,
    dayFirstOfInstallment: Day,
    numberOfInstallments: int,
    customerId: int)

  /** The violations of `@MaxFutureDate`, `@Min(1)` and `@Max(48)`; `limit`
      is today plus three months. */
  function CreditDtoErrors(dto: CreditDto, limit: Day): (errors: seq<FieldError>)
    ensures errors == [] <==>
      && MIN_INSTALLMENTS <= dto.numberOfInstallments <= MAX_INSTALLMENTS
      && DateWindow.IsValid(Some(dto.dayFirstOfInstallment), limit)
    ensures dto.dayFirstOfInstallment > limit <==>
      FieldError("dayFirstOfInstallment", Some(DATE_MESSAGE)) in errors
    ensures dto.numberOfInstallments < MIN_INSTALLMENTS <==>
      FieldError("numberOfInstallments", Some(MIN_MESSAGE)) in errors
    ensures dto.numberOfInstallments > MAX_INSTALLMENTS <==>
      FieldError("numberOfInstallments", Some(MAX_MESSAGE)) in errors
    ensures forall e :: e in errors ==> e in CREDIT_DTO_ERRORS
  {
    var holds := [DateWindow.IsValid(Some(dto.dayFirstOfInstallment), limit),
                  MIN_INSTALLMENTS <= dto.numberOfInstallments,
                  dto.numberOfInstallments <= MAX_INSTALLMENTS];
    assert Distinct(CREDIT_DTO_ERRORS);
    var errors := Violations(holds, CREDIT_DTO_ERRORS);
    assert CREDIT_DTO_ERRORS[0] in errors <==> !holds[0];
    assert CREDIT_DTO_ERRORS[1] in errors <==> !holds[1];
    assert CREDIT_DTO_ERRORS[2] in errors <==> !holds[2];
    assert holds[0] && holds[1] && holds[2] ==> errors == [];
    errors
  }

  /** CreditDto.toEntity: the three credit fields as given, a customer
      reference that carries only the id, and the Credit defaults for the
      rest. `code` is the `UUID.randomUUID()` the constructor draws. */
  function CreditToEntity(dto: CreditDto, code: Uuid): (credit: Credit)
    ensures credit.creditValue == dto.creditValue
    ensures credit.dayFirstInstallment == dto.dayFirstOfInstallment
    ensures credit.numberOfInstallments == dto.numberOfInstallments
    ensures credit.customer == Some(CustomerStub(dto.customerId))
    ensures credit.(creditValue := 0, numberOfInstallments := 0, customer := None)
      == NewCredit(code, dto.dayFirstOfInstallment)
  {
    NewCredit(code, dto.dayFirstOfInstallment).(
      creditValue := dto.creditValue,
      numberOfInstallments := dto.numberOfInstallments,
      customer := Some(CustomerStub(dto.customerId)))
  }

  // -------------------------------------------------------------- CustomerDto

  datatype CustomerDto = CustomerDto(
    firstName: string,
    lastName: string,
    cpf: string,
    income: Money,
    email: string,
    password: string,
    zipCode: string,
    street: string)

  const FIRST_NAME_MESSAGE: string := "Invalid input. Insert a valid first name"
  const LAST_NAME_MESSAGE: string := "Invalid input. Insert a valid last name"
  const CPF_MESSAGE: string := "This CPF is invalid"
  const EMAIL_MESSAGE: string := "Invalid input. Insert a valid email"
  const PASSWORD_MESSAGE: string := "Invalid input. Insert a valid password"
  const ZIP_CODE_MESSAGE: string := "Invalid input. Insert the valid zipcode"
  const STREET_MESSAGE: string := "Invalid input. Insert the valid name of your street"

  /** Every violation a CustomerDto can report: one per constrained field. */
  const CUSTOMER_DTO_ERRORS: seq<FieldError> := [
    FieldError("firstName", Some(FIRST_NAME_MESSAGE)),
    FieldError("lastName", Some(LAST_NAME_MESSAGE)),
    FieldError("cpf", Some(CPF_MESSAGE)),
    FieldError("email", Some(EMAIL_MESSAGE)),
    FieldError("password", Some(PASSWORD_MESSAGE)),
    FieldError("zipCode", Some(ZIP_CODE_MESSAGE)),
    FieldError("street", Some(STREET_MESSAGE))]

  /** The seven fields report seven different errors. */
  lemma CustomerDtoErrorsDistinct()
    ensures Distinct(CUSTOMER_DTO_ERRORS)
  {
  }

  /** The violations of the `@NotEmpty` fields, plus `@CPF` and `@Email`,
      whose verdicts come from the validator library as `cpfOk` and `emailOk`. */
  function CustomerDtoErrors(dto: CustomerDto, cpfOk: bool, emailOk: bool): (errors: seq<FieldError>)
    ensures errors == [] <==>
      && dto.firstName != "" && dto.lastName != "" && dto.password != ""
      && dto.zipCode != "" && dto.street != "" && cpfOk && emailOk
    ensures dto.firstName == "" <==> FieldError("firstName", Some(FIRST_NAME_MESSAGE)) in errors
    ensures dto.lastName == "" <==> FieldError("lastName", Some(LAST_NAME_MESSAGE)) in errors
    ensures !cpfOk <==> FieldError("cpf", Some(CPF_MESSAGE)) in errors
    ensures !emailOk <==> FieldError("email", Some(EMAIL_MESSAGE)) in errors
    ensures dto.password == "" <==> FieldError("password", Some(PASSWORD_MESSAGE)) in errors
    ensures dto.zipCode == "" <==> FieldError("zipCode", Some(ZIP_CODE_MESSAGE)) in errors
    ensures dto.street == "" <==> FieldError("street", Some(STREET_MESSAGE)) in errors
    ensures forall e :: e in errors ==> e in CUSTOMER_DTO_ERRORS
  {
    var holds := [dto.firstName != "", dto.lastName != "", cpfOk, emailOk,
                  dto.password != "", dto.zipCode != "", dto.street != ""];
    CustomerDtoErrorsDistinct();
    var errors := Violations(holds, CUSTOMER_DTO_ERRORS);
    assert CUSTOMER_DTO_ERRORS[0] in errors <==> !holds[0];
    assert CUSTOMER_DTO_ERRORS[1] in errors <==> !holds[1];
    assert CUSTOMER_DTO_ERRORS[2] in errors <==> !holds[2];
    assert CUSTOMER_DTO_ERRORS[3] in errors <==> !holds[3];
    assert CUSTOMER_DTO_ERRORS[4] in errors <==> !holds[4];
    assert CUSTOMER_DTO_ERRORS[5] in errors <==> !holds[5];
    assert CUSTOMER_DTO_ERRORS[6] in errors <==> !holds[6];
    errors
  }

  /** CustomerDto.toEntity: every field as given, the address built from the
      zip code and street, and no id, so the store chooses the identity. */
  function CustomerToEntity(dto: CustomerDto): (c: Customer)
    ensures c.id == None
    ensures c.firstName == dto.firstName && c.lastName == dto.lastName && c.cpf == dto.cpf
    ensures c.income == dto.income && c.email == dto.email && c.password == dto.password
    ensures c.address == Address(dto.zipCode, dto.street)
  {
    Customer(dto.firstName, dto.lastName, dto.cpf, dto.income, dto.email, dto.password,
             Address(dto.zipCode, dto.street), None)
  }

  // -------------------------------------------------------- CustomerUpdateDto

  datatype CustomerUpdateDto = CustomerUpdateDto(
    firstName: string,
    lastName: string,
    income: Money,
    zipCode: string,
    street: string)

  /** Every violation a CustomerUpdateDto can report: one per field. */
  const UPDATE_DTO_ERRORS: seq<FieldError> := [
    FieldError("firstName", Some(FIRST_NAME_MESSAGE)),
    FieldError("lastName", Some(LAST_NAME_MESSAGE)),
    FieldError("zipCode", Some(ZIP_CODE_MESSAGE)),
    FieldError("street", Some(STREET_MESSAGE))]

  /** The violations of the four `@NotEmpty` fields. */
  function CustomerUpdateDtoErrors(dto: CustomerUpdateDto): (errors: seq<FieldError>)
    ensures errors == [] <==>
      dto.firstName != "" && dto.lastName != "" && dto.zipCode != "" && dto.street != ""
    ensures dto.firstName == "" <==> FieldError("firstName", Some(FIRST_NAME_MESSAGE)) in errors
    ensures dto.lastName == "" <==> FieldError("lastName", Some(LAST_NAME_MESSAGE)) in errors
    ensures dto.zipCode == "" <==> FieldError("zipCode", Some(ZIP_CODE_MESSAGE)) in errors
    ensures dto.street == "" <==> FieldError("street", Some(STREET_MESSAGE)) in errors
    ensures forall e :: e in errors ==> e in UPDATE_DTO_ERRORS
  {
    var holds := [dto.firstName != "", dto.lastName != "", dto.zipCode != "", dto.street != ""];
    assert Distinct(UPDATE_DTO_ERRORS);
    var errors := Violations(holds, UPDATE_DTO_ERRORS);
    assert UPDATE_DTO_ERRORS[0] in errors <==> !holds[0];
    assert UPDATE_DTO_ERRORS[1] in errors <==> !holds[1];
    assert UPDATE_DTO_ERRORS[2] in errors <==> !holds[2];
    assert UPDATE_DTO_ERRORS[3] in errors <==> !holds[3];
    errors
  }

  /** CustomerUpdateDto.toEntity(customer): overwrite the five updatable
      fields of the customer it is given and hand that customer back. */
  function ApplyUpdate(dto: CustomerUpdateDto, customer: Customer): (c: Customer)
    ensures c.firstName == dto.firstName && c.lastName == dto.lastName && c.income == dto.income
    ensures c.address == Address(dto.zipCode, dto.street)
    ensures c.id == customer.id && c.cpf == customer.cpf
    ensures c.email == customer.email && c.password == customer.password
  {
    customer.(firstName := dto.firstName, lastName := dto.lastName, income := dto.income,
              address := Address(dto.zipCode, dto.street))
  }

  /** Applying the same update twice is applying it once. */
  lemma ApplyUpdateIdempotent(dto: CustomerUpdateDto, customer: Customer)
    ensures ApplyUpdate(dto, ApplyUpdate(dto, customer)) == ApplyUpdate(dto, customer)
  {
  }

  /** An update touches only the five updatable fields: two customers that
      agree outside them still agree after the same update, and the update
      leaves unchanged a customer that already holds the DTO's values. */
  lemma ApplyUpdateOnlyTouchesFive(dto: CustomerUpdateDto, a: Customer, b: Customer)
    requires a.id == b.id && a.cpf == b.cpf && a.email == b.email && a.password == b.password
    ensures ApplyUpdate(dto, a) == ApplyUpdate(dto, b)
    ensures (&& a.firstName == dto.firstName && a.lastName == dto.lastName && a.income == dto.income
             && a.address == Address(dto.zipCode, dto.street)) ==> ApplyUpdate(dto, a) == a
  {
  }

  // --------------------------------------------------------------- CreditView

  datatype CreditView = CreditView(
    creditCode: Uuid,
    creditValue: Money,
    numberOfInstallments: int,
    status: Status,
    emailCustomer: Option<string>,
    incomeCustomer: Option<Money>,
    customerId: Option<int>)

  /** The CreditView(credit) constructor: the credit's own fields and, through
      the bound customer if there is one, its email, income and id. */
  function CreditViewOf(credit: Credit): (v: CreditView)
    ensures v.creditCode == credit.creditCode && v.creditValue == credit.creditValue
    ensures v.numberOfInstallments == credit.numberOfInstallments && v.status == credit.status
    ensures credit.customer.None? ==>
      v.emailCustomer.None? && v.incomeCustomer.None? && v.customerId.None?
    ensures credit.customer.Some? ==>
      && v.emailCustomer == Some(credit.customer.value.email)
      && v.incomeCustomer == Some(credit.customer.value.income)
      && v.customerId == credit.customer.value.id
  {
    match credit.customer
    case None => CreditView(credit.creditCode, credit.creditValue, credit.numberOfInstallments,
                            credit.status, None, None, None)
    case Some(c) => CreditView(credit.creditCode, credit.creditValue, credit.numberOfInstallments,
                               credit.status, Some(c.email), Some(c.income), c.id)
  }

  /** The view shows neither the first-installment date nor the store id,
      nor anything of the customer but email, income and id. */
  lemma CreditViewIgnoresHiddenFields(a: Credit, b: Credit)
    requires a.creditCode == b.creditCode && a.creditValue == b.creditValue
    requires a.numberOfInstallments == b.numberOfInstallments && a.status == b.status
    requires a.customer.Some? <==> b.customer.Some?
    requires a.customer.Some? ==>
      && a.customer.value.email == b.customer.value.email
      && a.customer.value.income == b.customer.value.income
      && a.customer.value.id == b.customer.value.id
    ensures CreditViewOf(a) == CreditViewOf(b)
  {
  }

  /** The view of a freshly converted request names the requested customer
      and the request's amount and installments; the customer's email and
      income are the stub's blanks until the service binds the real one. */
  lemma CreditViewOfRequest(dto: CreditDto, code: Uuid)
    ensures var v := CreditViewOf(CreditToEntity(dto, code));
      && v.customerId == Some(dto.customerId)
      && v.creditValue == dto.creditValue
      && v.numberOfInstallments == dto.numberOfInstallments
      && v.creditCode == code
      && v.status == IN_PROGRESS
      && v.emailCustomer == Some("") && v.incomeCustomer == Some(0)
  {
  }

  // ------------------------------------------------------------- CustomerView

  datatype CustomerView = CustomerView(
    firstname: string,
    lastName: string,
    cpf: string,
    income: Money,
    email: string,
    zipCode: string,
    street: string)

  /** The CustomerView(customer) constructor. */
  function CustomerViewOf(customer: Customer): (v: CustomerView)
    ensures v.firstname == customer.firstName && v.lastName == customer.lastName
    ensures v.cpf == customer.cpf && v.income == customer.income && v.email == customer.email
    ensures v.zipCode == customer.address.zipCode && v.street == customer.address.street
  {
    CustomerView(customer.firstName, customer.lastName, customer.cpf, customer.income,
                 customer.email, customer.address.zipCode, customer.address.street)
  }

  /** The view exposes neither the password nor the id: customers that differ
      only there look the same. */
  lemma CustomerViewHidesPasswordAndId(c: Customer, password: string, id: Option<int>)
    ensures CustomerViewOf(c.(password := password, id := id)) == CustomerViewOf(c)
  {
  }

  /** Converting a request and viewing the result gives back every field of
      the request but the password. */
  lemma CustomerViewOfRequest(dto: CustomerDto)
    ensures CustomerViewOf(CustomerToEntity(dto)) ==
      CustomerView(dto.firstName, dto.lastName, dto.cpf, dto.income, dto.email, dto.zipCode, dto.street)
  {
  }

  /** The view of an updated customer shows the update's names, income and
      address, and the customer's own cpf and email. */
  lemma CustomerViewOfUpdate(dto: CustomerUpdateDto, customer: Customer)
    ensures CustomerViewOf(ApplyUpdate(dto, customer)) ==
      CustomerView(dto.firstName, dto.lastName, customer.cpf, dto.income, customer.email, dto.zipCode, dto.street)
  {
  }
}
