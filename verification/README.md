# Credit application system — a verified model of its decision logic

The service issues credits to customers and answers questions about them.
This project models, as pure Dafny functions over two abstract tables, the
part of it that makes decisions:

- **CreditService**: `save` checks that the first installment falls before
  today plus three months, resolves the customer id through CustomerService,
  binds the resolved customer to the credit and persists it;
  `findAllByCustomer` lists a customer's credits; `findByCreditCode` looks a
  credit up by code and checks that it belongs to the asking customer.
- **CustomerService**: `save`, `findById` (not-found is a BusinessException)
  and `delete` (resolve first, so an unknown id is an error).
- **MaxFutureDateValidator**: the request-side date check, inclusive at the limit.
- **The DTOs**: field constraints of CreditDto, CustomerDto and
  CustomerUpdateDto, their conversions to entities, and the CreditView and
  CustomerView projections.
- **RestExceptionHandler**: the four handlers as one total classifier from
  the exception to the HTTP status and ExceptionDetails body.

Modules, one per component: `Nullable` (Kotlin's `T?`), `Failures` (the
service errors and result shapes), `Entities` (Customer, Address, Credit),
`DateWindow`, `CustomerService`, `CreditService`, `Dto`,
`ExceptionHandler`, and `Scenarios` (request-level properties that run
through several components, composed the way the controllers compose them).

Conventions: the customer table is a `map<int, Customer>` keyed by the store
id; the credit table is a `seq<Credit>` in insertion order, so that a listing
has an order to return, with the unique credit-code column kept as the
invariant `CodesUnique`. Amounts are integer cents, dates are day ordinals,
credit codes are 128-bit values. Today plus three months is the parameter
`limit`; the random credit code and the identity-column ids are parameters
too. An operation on a table returns an `Outcome`: the table afterwards and
the value returned or the failure raised.

Three facts about the code that shape the model:

- The request validator accepts a first-installment date equal to today plus
  three months, but `CreditService.kt:39` uses `isBefore`, so the service
  refuses that same date. `DateWindow.ServiceCheckIsStricter` and
  `Scenarios.BoundaryDatePassesValidationFailsService` state this.
- The credit code is the `Credit` constructor's default (`Credit.kt:11`),
  drawn when `CreditDto.toEntity` builds the credit; here it is a parameter
  of `Dto.CreditToEntity`.
- An unknown customer at issuance raises the same BusinessException as
  `findById` (`CustomerService.kt:17`), so the model uses `CustomerNotFound`
  for both.

## Model

| member | source | states |
|---|---|---|
| Entities.CustomerStub | src/main/kotlin/api/ranieriiuri/credit/application/system/dto/CreditDto.kt:21 | the customer reference built from a bare id has that id and every other field blank |
| Entities.NewCredit | src/main/kotlin/api/ranieriiuri/credit/application/system/entity/Credit.kt:10-18 | a new credit has status IN_PROGRESS, no customer and no store id until persisted, with the given code and date |
| Entities.BindCustomer | src/main/kotlin/api/ranieriiuri/credit/application/system/service/impl/CreditService.kt:20-23 | binding a customer yields a credit that differs from the original only in its customer |
| DateWindow.IsValid | src/main/kotlin/api/ranieriiuri/credit/application/system/validation/MaxFutureDateValidator.kt:8-12 | a null date is valid; a date is valid exactly when it is not after the limit, so the limit itself is valid |
| DateWindow.ValidIsDownwardClosed | src/main/kotlin/api/ranieriiuri/credit/application/system/validation/MaxFutureDateValidator.kt:11 | any date earlier than a valid date is valid |
| DateWindow.ServiceCheckIsStricter | src/main/kotlin/api/ranieriiuri/credit/application/system/validation/MaxFutureDateValidator.kt:11 | every date the service check (CreditService.kt:39) accepts passes the validator, and they disagree on the limit date and no other |
| CustomerService.Save | src/main/kotlin/api/ranieriiuri/credit/application/system/service/impl/CustomerService.kt:13 | a save conflicts exactly when another row holds the cpf or email, and then changes nothing; otherwise the row is written under the customer's id (an update) or a fresh id (an insert), other rows are untouched, and the keying and uniqueness invariants are preserved |
| CustomerService.FindById | src/main/kotlin/api/ranieriiuri/credit/application/system/service/impl/CustomerService.kt:16-18 | succeeds exactly for a stored id, returning that row; otherwise a not-found failure naming the id |
| CustomerService.Delete | src/main/kotlin/api/ranieriiuri/credit/application/system/service/impl/CustomerService.kt:21-24 | an unknown id is a not-found failure with the table unchanged; a known id removes exactly that row and keeps every other row |
| CustomerService.SaveThenFind | src/main/kotlin/api/ranieriiuri/credit/application/system/service/impl/CustomerService.kt:13-18 | what save returns is found again under its id |
| CustomerService.DuplicateContactConflicts | src/main/kotlin/api/ranieriiuri/credit/application/system/service/impl/CustomerService.kt:13 | a new customer repeating a stored cpf or email is a Conflict and the table is unchanged |
| CreditService.ValidDayFirstInstallment | src/main/kotlin/api/ranieriiuri/credit/application/system/service/impl/CreditService.kt:38-41 | passes exactly the dates strictly before the limit; any other date is the date-window failure |
| CreditService.Insert | src/main/kotlin/api/ranieriiuri/credit/application/system/service/impl/CreditService.kt:24 | a code already on file is a Conflict with the table unchanged; otherwise the credit, with its new store id, is appended; given an id the identity column has not handed out, store ids stay unique |
| CreditService.Save | src/main/kotlin/api/ranieriiuri/credit/application/system/service/impl/CreditService.kt:17-25 | a late date fails first, whatever the customer; then a missing or unknown customer id fails; then, with date and customer in order, a code already on file is a Conflict; success exactly when the date, the customer and a new code all hold; the stored credit carries the full stored customer and is otherwise the proposed credit; a failure leaves the table unchanged; code uniqueness, store-id uniqueness under an unused row id, and "every credit points at a stored customer" are preserved |
| CreditService.FindAllByCustomer | src/main/kotlin/api/ranieriiuri/credit/application/system/service/impl/CreditService.kt:27 | the result holds only credits bound to the customer, each exactly as many times as in the table |
| CreditService.FindCode | src/main/kotlin/api/ranieriiuri/credit/application/system/service/impl/CreditService.kt:30-32 | finds nothing exactly when no row has the code, otherwise a stored credit with that code |
| CreditService.FindByCreditCode | src/main/kotlin/api/ranieriiuri/credit/application/system/service/impl/CreditService.kt:28-36 | an unknown code is the not-found failure; a known code never reports not-found, only the mismatch failure; a success is the stored credit with that code, bound to the asking customer |
| CreditService.FindCodeUnique | src/main/kotlin/api/ranieriiuri/credit/application/system/entity/Credit.kt:11 | with unique codes the lookup returns the one row holding the code |
| CreditService.FindByCreditCodeOwnership | src/main/kotlin/api/ranieriiuri/credit/application/system/service/impl/CreditService.kt:34-35 | with unique codes, a lookup of a stored code succeeds with that credit exactly when it belongs to the asking customer and is a mismatch otherwise |
| CreditService.FindAllAppend | src/main/kotlin/api/ranieriiuri/credit/application/system/service/impl/CreditService.kt:27 | appending a row extends a customer's listing by that row if it is theirs and leaves it alone otherwise |
| CreditService.SaveThenListed | src/main/kotlin/api/ranieriiuri/credit/application/system/service/impl/CreditService.kt:20-27 | after a successful save the issuing customer's listing ends with the new credit and every other listing is unchanged |
| CreditService.UnknownCustomerListsNothing | src/main/kotlin/api/ranieriiuri/credit/application/system/service/impl/CreditService.kt:27 | when every stored credit points at a stored customer, an id absent from the customer table lists as empty rather than failing |
| Dto.Violations | src/main/kotlin/api/ranieriiuri/credit/application/system/exception/RestExceptionHandler.kt:20 | the binding result of a request (the list of all errors the handler walks) is empty exactly when every constraint holds; every reported error is the listed error of a failing constraint, and when the listed errors are distinct a listed error is reported exactly when its constraint fails |
| Dto.CreditDtoErrors | src/main/kotlin/api/ranieriiuri/credit/application/system/dto/CreditDto.kt:10-15 | a credit request is valid exactly when 1 <= installments <= 48 and the date is not after the limit; each constraint reports its own field error exactly when it fails (49 gives the Max message, 0 the Min message), and no other error appears |
| Dto.CreditToEntity | src/main/kotlin/api/ranieriiuri/credit/application/system/dto/CreditDto.kt:16-22 | the converted credit keeps the request's value, date and installment count, refers to an id-only customer, and has the Credit defaults otherwise |
| Dto.CustomerDtoErrors | src/main/kotlin/api/ranieriiuri/credit/application/system/dto/CustomerDto.kt:11-20 | a customer request is valid exactly when the five NotEmpty fields are non-empty and the cpf and email checks pass; each of the seven fields (cpf and email included) has its error exactly when its constraint fails, and no other error appears |
| Dto.CustomerToEntity | src/main/kotlin/api/ranieriiuri/credit/application/system/dto/CustomerDto.kt:23-34 | the customer keeps every request field, builds the address from zip code and street, and has no id |
| Dto.CustomerUpdateDtoErrors | src/main/kotlin/api/ranieriiuri/credit/application/system/dto/CustomerUpdateDto.kt:8-14 | an update request is valid exactly when first name, last name, zip code and street are non-empty; each of the four has its error exactly when it is empty, and no other error appears |
| Dto.ApplyUpdate | src/main/kotlin/api/ranieriiuri/credit/application/system/dto/CustomerUpdateDto.kt:15-22 | the update sets the two names, income, zip code and street, and keeps id, cpf, email and password |
| Dto.ApplyUpdateIdempotent | src/main/kotlin/api/ranieriiuri/credit/application/system/dto/CustomerUpdateDto.kt:16-20 | applying an update twice equals applying it once |
| Dto.ApplyUpdateOnlyTouchesFive | src/main/kotlin/api/ranieriiuri/credit/application/system/dto/CustomerUpdateDto.kt:15-22 | customers agreeing outside the five updatable fields agree after the update, and a customer already holding the values is unchanged |
| Dto.CreditViewOf | src/main/kotlin/api/ranieriiuri/credit/application/system/dto/CreditView.kt:18-26 | the view copies code, value, installments and status, and the bound customer's email, income and id, all null when no customer is bound |
| Dto.CreditViewIgnoresHiddenFields | src/main/kotlin/api/ranieriiuri/credit/application/system/dto/CreditView.kt:9-17 | credits agreeing on the shown fields have the same view: the date, store id and the rest of the customer do not show |
| Dto.CreditViewOfRequest | src/main/kotlin/api/ranieriiuri/credit/application/system/dto/CreditView.kt:23-25 | the view of a just-converted request names the requested customer id but shows blank email and income until the service binds the stored customer |
| Dto.CustomerViewOf | src/main/kotlin/api/ranieriiuri/credit/application/system/dto/CustomerView.kt:16-24 | the view shows the names, cpf, income, email and the address's zip code and street |
| Dto.CustomerViewHidesPasswordAndId | src/main/kotlin/api/ranieriiuri/credit/application/system/dto/CustomerView.kt:6-14 | customers differing only in password and id have the same view |
| Dto.CustomerViewOfRequest | src/main/kotlin/api/ranieriiuri/credit/application/system/dto/CustomerDto.kt:23-34 | converting a customer request and viewing it gives back every request field except the password |
| Dto.CustomerViewOfUpdate | src/main/kotlin/api/ranieriiuri/credit/application/system/dto/CustomerView.kt:20-23 | the view of an updated customer shows the update's names, income and address and the customer's own cpf and email |
| ExceptionHandler.FieldDetails | src/main/kotlin/api/ranieriiuri/credit/application/system/exception/RestExceptionHandler.kt:18-29 | the validation details have one entry per field that has an error, and no other |
| ExceptionHandler.FieldDetailsLastWins | src/main/kotlin/api/ranieriiuri/credit/application/system/exception/RestExceptionHandler.kt:20-29 | each field's entry holds the message of the last error reported for that field |
| ExceptionHandler.Classify | src/main/kotlin/api/ranieriiuri/credit/application/system/exception/RestExceptionHandler.kt:16-85 | a data-access failure is 409 with the Conflict title, every other handled failure is 400 with the Bad Request title; the body's status equals the response status; validation details are the last-message-wins map of the field errors, keyed by the failing fields; the other three handlers give exactly one entry, cause to message |
| ExceptionHandler.BusinessAndIllegalArgumentDifferOnlyInName | src/main/kotlin/api/ranieriiuri/credit/application/system/exception/RestExceptionHandler.kt:60-85 | a BusinessException and an IllegalArgumentException with the same cause and message both give 400 and differ only in the exception name |
| ExceptionHandler.Raise | src/main/kotlin/api/ranieriiuri/credit/application/system/service/impl/CreditService.kt:28-41 | date, unknown-customer and unknown-code failures are BusinessExceptions, an ownership mismatch is an IllegalArgumentException, a uniqueness clash is a DataAccessException carrying its message and the translated persistence exception as its cause, and a missing customer id reaches no handler |
| ExceptionHandler.ServiceFailureStatus | src/main/kotlin/api/ranieriiuri/credit/application/system/exception/RestExceptionHandler.kt:43-85 | a handled service failure is 409 exactly when it is a uniqueness conflict and 400 otherwise, with a single detail entry holding the message, keyed "null" for the services' own exceptions and by the translated exception's cause for a conflict |
| Scenarios.IssuedCreditShowsResolvedCustomer | src/main/kotlin/api/ranieriiuri/credit/application/system/service/impl/CreditService.kt:20-24 | issuing from a request succeeds exactly when the date is early enough, the customer exists and the code is new; the view then shows the stored customer's id, email and income |
| Scenarios.LateDateRejected | src/main/kotlin/api/ranieriiuri/credit/application/system/dto/CreditDto.kt:12 | a date after the limit is a 400 with non-empty details at validation, and the service alone also refuses it and writes nothing |
| Scenarios.BoundaryDatePassesValidationFailsService | src/main/kotlin/api/ranieriiuri/credit/application/system/service/impl/CreditService.kt:39 | a request dated exactly at the limit passes validation and is then refused by the service |
| Scenarios.UnknownCustomerIssuance | src/main/kotlin/api/ranieriiuri/credit/application/system/service/impl/CreditService.kt:20-24 | issuing for an unknown customer is a not-found BusinessException answered with 400, and writes nothing |
| Scenarios.TwoIssuancesBothListed | src/main/kotlin/api/ranieriiuri/credit/application/system/service/impl/CreditService.kt:17-27 | two issuances with new codes for one customer both succeed, get distinct codes and both appear, in order, in the customer's listing |
| Scenarios.UpdateFlow | src/main/kotlin/api/ranieriiuri/credit/application/system/controller/CustomerResource.kt:43-50 | find, update and save of a customer on a table with unique cpf and email never conflicts, keeps the id, and the row read back shows the update |
| Scenarios.DeleteThenGone | src/main/kotlin/api/ranieriiuri/credit/application/system/service/impl/CustomerService.kt:21-24 | after a delete the customer is not found, and deleting again is an error, not a no-op |

## Left out

- Controllers (CreditResource.kt, CustomerResource.kt): HTTP routing and response building, including the 204 for an empty listing; the Scenarios module composes the pieces in the controllers' order instead.
- JPA repositories and Spring bootstrapping: replaced by the two tables. CustomerRepository.kt is not part of this model; its `save` is modelled as an upsert whose unknown ids insert under a fresh identity.
- Identity column: the store id a new credit receives is the `rowId` parameter of `CreditService.Save`; the model does not generate it, and proves store ids stay unique when the id passed is one not yet on file, as the database sequence guarantees.
- CreditService.Insert: always inserts; saving a credit that already has a store id (a JPA merge) is not modelled, because the service only ever receives new credits from `CreditDto.toEntity`.
- CreditService.FindAllByCustomer: states the contents with their multiplicities, not an order, because the repository promises none; the model fixes insertion order as one order the query may return, and the "ends with" and "in order" statements of FindAllAppend, SaveThenListed and TwoIssuancesBothListed are about that choice.
- CreditService.Save: the stored credit holds a copy of the customer as it was at issuance, where the `@ManyToOne` column (Credit.kt:16) is a foreign key to the current customer row; after the customer is updated, the model's credit view still shows the old email and income, while the program loads the current row.
- CustomerService.Delete: acts on the customer table alone; the foreign key from credits to customers is not modelled, so deleting a customer that owns credits leaves those credits listed under its id, where the program would either delete them with the customer or fail the delete with a DataAccessException (409), depending on the cascade declared in Customer.kt, which is not part of this model. Delete therefore does not preserve `CreditService.BoundToStoredCustomers`.
- The clock: `LocalDate.now().plusMonths(3)` is the parameter `limit`; the validator and the service read the clock separately, and a request that straddles midnight could meet two limits.
- `UUID.randomUUID()` and identity-column ids: parameters; a repeated credit code surfaces as a Conflict, as the unique column would make it.
- `LocalDateTime.now()` timestamps in ExceptionDetails: wall-clock time.
- BigDecimal: amounts are integer cents; no arithmetic is performed on them.
- `@CPF` and `@Email`: library validators whose code is not visible; their verdicts are the parameters `cpfOk` and `emailOk`.
- `@NotNull` on Kotlin non-null fields: a missing JSON field fails during deserialisation, before validation.
- Exception messages: texts carried by BusinessException and IllegalArgumentException are an opaque parameter of `ExceptionHandler.Raise`, and so is the rendered cause of a DataAccessException; the validation messages are the constants declared on the DTOs.
- The order of validation errors: the validator library reports them in no fixed order; the model lists them in field declaration order, which matters only for a field with two failing constraints, and no field here can have two.
- The NullPointerException of `credit.customer?.id!!` has no handler in RestExceptionHandler; it is the failure `MissingCustomerId`, and the framework's default response to it is not modelled.
- Customer.kt, Status.kt, BusinessException.kt and CreditViewList.kt are not part of this model: the Customer constructor's defaults are taken as blank strings, zero income and no id, the customer's list of credits is not modelled, and the status values are IN_PROGRESS, ACCEPTED and REJECTED.
- Concurrency and transactions: every operation is one synchronous step on the tables.
