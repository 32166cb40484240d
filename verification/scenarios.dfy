/**
 Request-level properties that run through several components: a request
 body converted and validated, a service call on the stores, a response
 view or an error response. The controllers that glue them together are
 not modelled; these lemmas compose the pieces the way the controllers do.
 */
module Scenarios {
  import opened Nullable
  import opened Entities
  import opened Failures
  import CustomerService
  import CreditService
  import Dto
  import ExceptionHandler

  /** Issuing a credit from a request succeeds exactly when the date is
      before the limit, the customer exists and the code is new; the view of
      the stored credit then shows the stored customer's id, email and income
      rather than the blanks of the id-only reference. */
  lemma IssuedCreditShowsResolvedCustomer(credits: CreditService.CreditStore,
      customers: CustomerService.CustomerStore, dto: Dto.CreditDto, code: Uuid, limit: Day, rowId: int)
    requires CustomerService.WellKeyed(customers)
    ensures var out := CreditService.Save(credits, customers, Dto.CreditToEntity(dto, code), limit, rowId);
      && (out.result.Success? <==>
            dto.dayFirstOfInstallment < limit && dto.customerId in customers
            && code !in CreditService.Codes(credits))
      && (out.result.Success? ==>
            var view := Dto.CreditViewOf(out.result.value);
            && view.customerId == Some(dto.customerId)
            && view.emailCustomer == Some(customers[dto.customerId].email)
            && view.incomeCustomer == Some(customers[dto.customerId].income)
            && view.numberOfInstallments == dto.numberOfInstallments
            && view.creditValue == dto.creditValue
            && view.status == IN_PROGRESS)
  {
  }

  /** A first-installment date after the limit is refused twice over: the
      request validation answers 400 with a non-empty detail map, and the
      service, called directly, raises the date failure and writes nothing. */
  lemma LateDateRejected(credits: CreditService.CreditStore, customers: CustomerService.CustomerStore,
      dto: Dto.CreditDto, code: Uuid, limit: Day, rowId: int)
    requires dto.dayFirstOfInstallment > limit
    ensures var errors := Dto.CreditDtoErrors(dto, limit);
      var resp := ExceptionHandler.Classify(ExceptionHandler.MethodArgumentNotValid(errors));
      && errors != []
      && resp.httpStatus == ExceptionHandler.BAD_REQUEST
      && resp.body.details != map[]
    ensures CreditService.Save(credits, customers, Dto.CreditToEntity(dto, code), limit, rowId)
      == Outcome(credits, Failure(DateBeyondWindow))
  {
    var errors := Dto.CreditDtoErrors(dto, limit);
    assert errors[0].field in ExceptionHandler.Fields(errors);
  }

  /** The two date checks disagree on the limit itself: a request dated
      exactly three months ahead passes validation, then the service refuses
      it with a BusinessException. */
  lemma BoundaryDatePassesValidationFailsService(credits: CreditService.CreditStore,
      customers: CustomerService.CustomerStore, dto: Dto.CreditDto, code: Uuid, limit: Day, rowId: int)
    requires dto.dayFirstOfInstallment == limit
    requires 1 <= dto.numberOfInstallments <= 48
    ensures Dto.CreditDtoErrors(dto, limit) == []
    ensures CreditService.Save(credits, customers, Dto.CreditToEntity(dto, code), limit, rowId)
      == Outcome(credits, Failure(DateBeyondWindow))
  {
  }

  /** Issuing for an unknown customer with an acceptable date raises the
      not-found BusinessException, answered as a 400, and writes nothing. */
  lemma UnknownCustomerIssuance(credits: CreditService.CreditStore, customers: CustomerService.CustomerStore,
      dto: Dto.CreditDto, code: Uuid, limit: Day, rowId: int, message: string, cause: string)
    requires dto.dayFirstOfInstallment < limit
    requires dto.customerId !in customers
    ensures var out := CreditService.Save(credits, customers, Dto.CreditToEntity(dto, code), limit, rowId);
      && out == Outcome(credits, Failure(CustomerNotFound(dto.customerId)))
      && ExceptionHandler.Classify(ExceptionHandler.Raise(out.result.error, message, cause).value).httpStatus
           == ExceptionHandler.BAD_REQUEST
      && ExceptionHandler.Classify(ExceptionHandler.Raise(out.result.error, message, cause).value).body.exception
           == "BusinessException"
  {
  }

  /** Two credits issued one after the other for the same customer both
      succeed when their codes are new, carry different codes, and both show
      up, in issue order, at the end of that customer's listing (in the
      insertion order the model fixes for the credit table). */
  lemma TwoIssuancesBothListed(credits: CreditService.CreditStore, customers: CustomerService.CustomerStore,
      first: Credit, second: Credit, limit: Day, rowId1: int, rowId2: int, customerId: int)
    requires CustomerService.WellKeyed(customers)
    requires CreditService.CodesUnique(credits)
    requires customerId in customers
    requires CreditService.RequestedCustomerId(first) == Some(customerId)
    requires CreditService.RequestedCustomerId(second) == Some(customerId)
    requires first.dayFirstInstallment < limit && second.dayFirstInstallment < limit
    requires first.creditCode !in CreditService.Codes(credits)
    requires second.creditCode !in CreditService.Codes(credits)
    requires first.creditCode != second.creditCode
    ensures var out1 := CreditService.Save(credits, customers, first, limit, rowId1);
      var out2 := CreditService.Save(out1.store, customers, second, limit, rowId2);
      && out1.result.Success? && out2.result.Success?
      && out1.result.value.creditCode != out2.result.value.creditCode
      && CreditService.CodesUnique(out2.store)
      && CreditService.FindAllByCustomer(out2.store, customerId)
           == CreditService.FindAllByCustomer(credits, customerId) + [out1.result.value, out2.result.value]
  {
    var out1 := CreditService.Save(credits, customers, first, limit, rowId1);
    assert out1.result.Success?;
    var saved1 := out1.result.value;
    assert out1.store == credits + [saved1];
    CreditService.CodesAppend(credits, saved1);
    assert second.creditCode !in CreditService.Codes(out1.store);
    var out2 := CreditService.Save(out1.store, customers, second, limit, rowId2);
    assert out2.result.Success?;
    CreditService.SaveThenListed(credits, customers, first, limit, rowId1, customerId);
    CreditService.SaveThenListed(out1.store, customers, second, limit, rowId2, customerId);
  }

  /** The update flow of a customer: find it, apply the update, save it back.
      On a store whose cpf and email columns are unique this never conflicts,
      keeps the customer under its id, and the row read back shows the
      update's fields in its view. */
  lemma UpdateFlow(store: CustomerService.CustomerStore, id: int, dto: Dto.CustomerUpdateDto, freshId: int)
    requires CustomerService.WellKeyed(store)
    requires CustomerService.UniqueContacts(store)
    requires freshId !in store
    requires id in store
    ensures var updated := Dto.ApplyUpdate(dto, CustomerService.FindById(store, id).value);
      var out := CustomerService.Save(store, updated, freshId);
      && out.result == Success(updated)
      && out.store.Keys == store.Keys
      && CustomerService.FindById(out.store, id) == Success(updated)
      && Dto.CustomerViewOf(CustomerService.FindById(out.store, id).value).income == dto.income
      && Dto.CustomerViewOf(CustomerService.FindById(out.store, id).value).street == dto.street
  {
  }

  /** Once deleted, a customer can no longer be found, and deleting it again
      is an error rather than a silent no-op. */
  lemma DeleteThenGone(store: CustomerService.CustomerStore, id: int)
    requires id in store
    ensures var out := CustomerService.Delete(store, id);
      && CustomerService.FindById(out.store, id) == Failure(CustomerNotFound(id))
      && CustomerService.Delete(out.store, id) == Outcome(out.store, Failure(CustomerNotFound(id)))
  {
  }
}
