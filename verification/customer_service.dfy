/**
 CustomerService over an abstract customer table: a map from the store id
 to the stored row. The table keeps cpf and email unique, as the columns'
 unique constraints do.
 */
module CustomerService {
  import opened Nullable
  import opened Entities
  import opened Failures

  type CustomerStore = map<int, Customer>

  /** Every row knows its own key. */
  ghost predicate WellKeyed(store: CustomerStore) {
    forall k :: k in store ==> store[k].id == Some(k)
  }

  /** No two rows share a cpf or an email. */
  ghost predicate UniqueContacts(store: CustomerStore) {
    forall j, k :: j in store && k in store && j != k ==>
      store[j].cpf != store[k].cpf && store[j].email != store[k].email
  }

  /** Writing `c` at key `key` would repeat the cpf or the email of another row. */
  predicate Clashes(store: CustomerStore, key: int, c: Customer) {
    exists k :: k in store && k != key && (store[k].cpf == c.cpf || store[k].email == c.email)
  }

  /** The key a save writes to: the customer's own id when that row exists
      (an update), otherwise the one the identity column hands out. */
  function TargetKey(store: CustomerStore, c: Customer, freshId: int): int {
    if c.id.Some? && c.id.value in store then c.id.value else freshId
  }

  /** CustomerService.save, delegated to the repository: insert or update,
      and let a unique-constraint violation surface as a Conflict. */
  function Save(store: CustomerStore, customer: Customer, freshId: int): (out: Outcome<CustomerStore, Customer>)
    requires freshId !in store
    ensures out.result.Failure? ==> out.result.error == Conflict && out.store == store
    ensures out.result.Failure? <==> Clashes(store, TargetKey(store, customer, freshId), customer)
    ensures out.result.Success? ==>
      var saved := out.result.value;
      && saved.id.Some?
      && saved == customer.(id := saved.id)
      && out.store.Keys == store.Keys + {saved.id.value}
      && out.store[saved.id.value] == saved
      && (forall k :: k in store && k != saved.id.value ==> out.store[k] == store[k])
    ensures out.result.Success? && customer.id.Some? && customer.id.value in store ==>
      out.result.value.id == customer.id && out.store.Keys == store.Keys
    ensures out.result.Success? && !(customer.id.Some? && customer.id.value in store) ==>
      out.result.value.id == Some(freshId)
    ensures WellKeyed(store) ==> WellKeyed(out.store)
    ensures UniqueContacts(store) ==> UniqueContacts(out.store)
  {
    var key := TargetKey(store, customer, freshId);
    if Clashes(store, key, customer) then
      Outcome(store, Failure(Conflict))
    else
      var saved := customer.(id := Some(key));
      Outcome(store[key := saved], Success(saved))
  }

  /** CustomerService.findById: the stored row, or a BusinessException. */
  function FindById(store: CustomerStore, id: int): (r: Result<Customer>)
    ensures r.Success? <==> id in store
    ensures r.Success? ==> r.value == store[id]
    ensures r.Failure? ==> r.error == CustomerNotFound(id)
  {
    if id in store then Success(store[id]) else Failure(CustomerNotFound(id))
  }

  /** CustomerService.delete: resolve first, then delete the row found, so an
      unknown id raises instead of deleting nothing. */
  function Delete(store: CustomerStore, id: int): (out: Outcome<CustomerStore, ()>)
    ensures out.result.Success? <==> id in store
    ensures out.result.Failure? ==> out.result.error == CustomerNotFound(id) && out.store == store
    ensures out.result.Success? ==>
      && out.store.Keys == store.Keys - {id}
      && (forall k :: k in out.store ==> out.store[k] == store[k])
    ensures WellKeyed(store) ==> WellKeyed(out.store)
    ensures UniqueContacts(store) ==> UniqueContacts(out.store)
  {
    match FindById(store, id)
    case Failure(e) => Outcome(store, Failure(e))
    case Success(customer) => Outcome(store - {id}, Success(()))
  }

  /** What save returns can be found again under its id, unchanged. */
  lemma SaveThenFind(store: CustomerStore, customer: Customer, freshId: int)
    requires freshId !in store
    requires Save(store, customer, freshId).result.Success?
    ensures var out := Save(store, customer, freshId);
      FindById(out.store, out.result.value.id.value) == Success(out.result.value)
  {
  }

  /** Saving a new customer whose cpf or email is already on file is a
      Conflict and writes nothing. */
  lemma DuplicateContactConflicts(store: CustomerStore, customer: Customer, freshId: int, k: int)
    requires freshId !in store
    requires customer.id.None?
    requires k in store
    requires store[k].cpf == customer.cpf || store[k].email == customer.email
    ensures Save(store, customer, freshId) == Outcome(store, Failure(Conflict))
  {
  }
}
