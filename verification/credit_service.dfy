/**
 CreditService over an abstract credit table and the customer table of
 CustomerService. The credit table is kept as the sequence of rows in
 insertion order; the repository promises no order for a listing, and the
 model fixes insertion order as one order the query may return. The credit
 code column is unique.
 */
module CreditService {
  import opened Nullable
  import opened Entities
  import opened Failures
  import DateWindow
  import CustomerService

  type CreditStore = seq<Credit>

  /** The credit codes on file. */
  function Codes(credits: CreditStore): set<Uuid> {
    set c | c in credits :: c.creditCode
  }

  /** The unique constraint on the credit code column. */
  ghost predicate CodesUnique(credits: CreditStore) {
    forall i, j :: 0 <= i < j < |credits| ==> credits[i].creditCode != credits[j].creditCode
  }

  /** The identity column: no two rows share a store id. */
  ghost predicate IdsUnique(credits: CreditStore) {
    forall i, j :: 0 <= i < j < |credits| ==> credits[i].id != credits[j].id
  }

  /** `rowId` is one the identity column has not yet handed out. */
  ghost predicate RowIdUnused(credits: CreditStore, rowId: int) {
    forall c :: c in credits ==> c.id != Some(rowId)
  }

  /** Every stored credit is bound to a customer whose id is a key of the
      customer table: the foreign key of the `@ManyToOne` customer column. */
  ghost predicate BoundToStoredCustomers(credits: CreditStore, customers: CustomerService.CustomerStore) {
    forall c :: c in credits ==>
      c.customer.Some? && c.customer.value.id.Some? && c.customer.value.id.value in customers
  }

  /** `credit.customer?.id`: the customer id a proposed credit names, if any. */
  function RequestedCustomerId(credit: Credit): Option<int> {
    if credit.customer.Some? then credit.customer.value.id else None
  }

  /** CreditService.validDayFirstInstallment: true, or a BusinessException. */
  function ValidDayFirstInstallment(day: Day, limit: Day): (r: Result<bool>)
    ensures r.Success? <==> DateWindow.ServiceAccepts(day, limit)
    ensures r.Success? ==> r.value
    ensures r.Failure? ==> r.error == DateBeyondWindow
  {
    if day < limit then Success(true) else Failure(DateBeyondWindow)
  }

  /** The repository's insert: the unique code column refuses a code already
      on file, otherwise the row is appended and gets its identity id. */
  function Insert(credits: CreditStore, credit: Credit, rowId: int): (out: Outcome<CreditStore, Credit>)
    ensures out.result.Failure? <==> credit.creditCode in Codes(credits)
    ensures out.result.Failure? ==> out.result.error == Conflict && out.store == credits
    ensures out.result.Success? ==>
      && out.result.value == credit.(id := Some(rowId))
      && out.store == credits + [out.result.value]
    ensures IdsUnique(credits) && RowIdUnused(credits, rowId) ==> IdsUnique(out.store)
  {
    if credit.creditCode in Codes(credits) then
      Outcome(credits, Failure(Conflict))
    else
      var saved := credit.(id := Some(rowId));
      Outcome(credits + [saved], Success(saved))
  }

  /** CreditService.save: check the date window, then resolve the customer
      id through CustomerService.findById, bind the resolved customer to the
      credit in place of the id-only reference, and persist. `limit` is
      today plus three months; `rowId` is the id the identity column hands
      out. */
  function Save(credits: CreditStore, customers: CustomerService.CustomerStore,
                credit: Credit, limit: Day, rowId: int): (out: Outcome<CreditStore, Credit>)
    ensures out.result.Failure? ==> out.store == credits
    // the date is checked first: a bad date wins over every other failure
    ensures !DateWindow.ServiceAccepts(credit.dayFirstInstallment, limit) ==>
      out.result == Failure(DateBeyondWindow)
    ensures DateWindow.ServiceAccepts(credit.dayFirstInstallment, limit) && RequestedCustomerId(credit).None? ==>
      out.result == Failure(MissingCustomerId)
    ensures DateWindow.ServiceAccepts(credit.dayFirstInstallment, limit) && RequestedCustomerId(credit).Some?
            && RequestedCustomerId(credit).value !in customers ==>
      out.result == Failure(CustomerNotFound(RequestedCustomerId(credit).value))
    ensures out.result.Success? <==>
      && DateWindow.ServiceAccepts(credit.dayFirstInstallment, limit)
      && RequestedCustomerId(credit).Some?
      && RequestedCustomerId(credit).value in customers
      && credit.creditCode !in Codes(credits)
    ensures out.result.Failure? && out.result.error == Conflict ==> credit.creditCode in Codes(credits)
    ensures DateWindow.ServiceAccepts(credit.dayFirstInstallment, limit) && RequestedCustomerId(credit).Some?
            && RequestedCustomerId(credit).value in customers && credit.creditCode in Codes(credits) ==>
      out.result == Failure(Conflict)
    ensures out.result.Success? ==>
      var saved := out.result.value;
      && saved.customer == Some(customers[RequestedCustomerId(credit).value])
      && saved.(customer := credit.customer, id := credit.id) == credit
      && saved.id == Some(rowId)
      && out.store == credits + [saved]
    ensures CodesUnique(credits) ==> CodesUnique(out.store)
    ensures IdsUnique(credits) && RowIdUnused(credits, rowId) ==> IdsUnique(out.store)
    ensures CustomerService.WellKeyed(customers) && BoundToStoredCustomers(credits, customers) ==>
      BoundToStoredCustomers(out.store, customers)
  {
    match ValidDayFirstInstallment(credit.dayFirstInstallment, limit)
    case Failure(e) => Outcome(credits, Failure(e))
    case Success(_) =>
      match RequestedCustomerId(credit)
      case None => Outcome(credits, Failure(MissingCustomerId))
      case Some(customerId) =>
        match CustomerService.FindById(customers, customerId)
        case Failure(e) => Outcome(credits, Failure(e))
        case Success(found) => Insert(credits, BindCustomer(credit, found), rowId)
  }

  /** The repository's findAllByCustomer query, which CreditService.findAllByCustomer
      returns as is: the rows bound to this customer id, in the order the
      model fixes for the table. */
  function FindAllByCustomer(credits: CreditStore, customerId: int): (r: seq<Credit>)
    ensures forall c :: c in r ==> OwnedBy(c, customerId)
    ensures forall c :: OwnedBy(c, customerId) ==> multiset(r)[c] == multiset(credits)[c]
    ensures |r| <= |credits|
  {
    if |credits| == 0 then []
    else
      assert credits == [credits[0]] + credits[1..];
      var rest := FindAllByCustomer(credits[1..], customerId);
      if OwnedBy(credits[0], customerId) then [credits[0]] + rest else rest
  }

  /** The repository's findByCreditCode query: the first row with this code. */
  function FindCode(credits: CreditStore, code: Uuid): (r: Option<Credit>)
    ensures r.None? <==> code !in Codes(credits)
    ensures r.Some? ==> r.value in credits && r.value.creditCode == code
  {
    if |credits| == 0 then None
    else if credits[0].creditCode == code then Some(credits[0])
    else
      assert forall c :: c in credits && c != credits[0] ==> c in credits[1..];
      FindCode(credits[1..], code)
  }

  /** CreditService.findByCreditCode: an unknown code is a BusinessException;
      a known code bound to another customer is an IllegalArgumentException. */
  function FindByCreditCode(credits: CreditStore, customerId: int, code: Uuid): (r: Result<Credit>)
    ensures code !in Codes(credits) ==> r == Failure(CreditCodeNotFound(code))
    ensures code in Codes(credits) && r.Failure? ==> r.error == CustomerMismatch
    ensures r.Success? ==> r.value in credits && r.value.creditCode == code && OwnedBy(r.value, customerId)
  {
    match FindCode(credits, code)
    case None => Failure(CreditCodeNotFound(code))
    case Some(credit) =>
      if OwnedBy(credit, customerId) then Success(credit) else Failure(CustomerMismatch)
  }

  /** Appending a row adds its code to the codes on file. */
  lemma CodesAppend(credits: CreditStore, c: Credit)
    ensures Codes(credits + [c]) == Codes(credits) + {c.creditCode}
  {
  }

  /** With unique codes, the lookup finds the one row carrying the code. */
  lemma FindCodeUnique(credits: CreditStore, i: int)
    requires CodesUnique(credits)
    requires 0 <= i < |credits|
    ensures FindCode(credits, credits[i].creditCode) == Some(credits[i])
  {
  }

  /** With unique codes, a lookup by code succeeds exactly when the row with
      that code is bound to the customer asking; it reports not-found only
      for a code nobody holds. */
  lemma FindByCreditCodeOwnership(credits: CreditStore, customerId: int, i: int)
    requires CodesUnique(credits)
    requires 0 <= i < |credits|
    ensures var r := FindByCreditCode(credits, customerId, credits[i].creditCode);
      && (OwnedBy(credits[i], customerId) ==> r == Success(credits[i]))
      && (!OwnedBy(credits[i], customerId) ==> r == Failure(CustomerMismatch))
  {
  }

  /** Appending a row extends the listing by that row when it belongs to the
      customer, and leaves the listing alone otherwise. */
  lemma {:induction false} FindAllAppend(credits: CreditStore, c: Credit, customerId: int)
    ensures FindAllByCustomer(credits + [c], customerId)
      == FindAllByCustomer(credits, customerId) + (if OwnedBy(c, customerId) then [c] else [])
  {
    if |credits| > 0 {
      assert (credits + [c])[1..] == credits[1..] + [c];
      FindAllAppend(credits[1..], c, customerId);
    }
  }

  /** After a successful save, the customer's listing is the old listing with
      the new credit at its end; every other customer's listing is unchanged. */
  lemma SaveThenListed(credits: CreditStore, customers: CustomerService.CustomerStore,
                       credit: Credit, limit: Day, rowId: int, customerId: int)
    requires CustomerService.WellKeyed(customers)
    requires credit.dayFirstInstallment < limit
    requires RequestedCustomerId(credit).Some? && RequestedCustomerId(credit).value in customers
    requires credit.creditCode !in Codes(credits)
    ensures var saved := Save(credits, customers, credit, limit, rowId).result.value;
      FindAllByCustomer(credits + [saved], customerId) ==
        FindAllByCustomer(credits, customerId)
        + (if RequestedCustomerId(credit) == Some(customerId) then [saved] else [])
  {
    FindAllAppend(credits, Save(credits, customers, credit, limit, rowId).result.value, customerId);
  }

  /** When every stored credit points at a stored customer, an id absent
      from the customer table lists as the empty sequence, not as an error. */
  lemma UnknownCustomerListsNothing(credits: CreditStore, customers: CustomerService.CustomerStore, customerId: int)
    requires BoundToStoredCustomers(credits, customers)
    requires customerId !in customers
    ensures FindAllByCustomer(credits, customerId) == []
  {
  }
}
