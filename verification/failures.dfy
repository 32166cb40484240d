/**
 The failures the services raise, and the result shapes of the service
 operations. A service call either returns a value or raises one of these;
 an operation over a store also says what the store looks like afterwards.
 */
module Failures {
  import opened Nullable

  /** Every way a service call can fail. The comment names the exception
      class the Kotlin code throws for it. */
  datatype ServiceError =
      /** BusinessException: first-installment date not before today + 3 months */
    | DateBeyondWindow
      /** BusinessException: no customer with this id */
    | CustomerNotFound(id: int)
      /** BusinessException: no credit with this code */
    | CreditCodeNotFound(code: bv128)
      /** IllegalArgumentException: the credit belongs to another customer */
    | CustomerMismatch
      /** DataAccessException: a unique column (cpf, email, credit code) would repeat */
    | Conflict
      /** NullPointerException: the proposed credit carries no customer id (`!!`) */
    | MissingCustomerId

  datatype Result<+T> = Success(value: T) | Failure(error: ServiceError)

  /** The store after a call, paired with what the call returned or raised. */
  datatype Outcome<+S, +T> = Outcome(store: S, result: Result<T>)

  /** One failed bean-validation constraint: the field and its message. */
  datatype FieldError = FieldError(field: string, defaultMessage: Option<string>)
}
