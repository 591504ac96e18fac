/**
 * CustomersController: the six customer handlers over a customers
 * repository. Each reads and checks its input, consults the repository,
 * changes it with store, update or remove, and answers a status code with a
 * JSON message.
 */
module Customers {
  import opened Optional
  import opened PhpValues
  import opened Http
  import opened Repositories

  /** A stored customer; its id is the repository key. Field values are kept as submitted. */
  datatype Customer = Customer(firstName: Value, lastName: Value, email: Value, isActive: Value)

  const NoCustomerFound := "No customer found"
  const CustomerCreated := "Customer created successfully"
  const ErrorCreatingCustomer := "Error creating customer"
  const CustomerNotFound := "Customer Not Found"
  const CustomerDeleted := "Customer Deleted"
  const CustomerDeactivated := "Customer Deactivated"
  const CustomerReactivated := "Customer Reactivated"
  const CustomerUpdated := "Customer Updated"

  /** The create check: firstName, lastName and email must all be non-empty in the PHP sense. */
  predicate ValidCustomerData(data: Body) {
    !IsEmptyField(data, "firstName") && !IsEmptyField(data, "lastName") && !IsEmptyField(data, "email")
  }

  /**
   * The customer a create request yields, or None when it is answered 400.
   * isActive is set from the literal string 'isActive', whatever was submitted.
   */
  function CustomerToCreate(parsed: Option<Body>, json: Option<Body>): (c: Option<Customer>)
    ensures c.Some? <==> SelectData(parsed, json).Some? && ValidCustomerData(SelectData(parsed, json).value)
    ensures c.Some? ==> var data := SelectData(parsed, json).value;
                        && c.value.firstName == data["firstName"] && !IsEmpty(c.value.firstName)
                        && c.value.lastName == data["lastName"] && !IsEmpty(c.value.lastName)
                        && c.value.email == data["email"] && !IsEmpty(c.value.email)
                        && !IsEmpty(c.value.isActive)
  {
    match SelectData(parsed, json)
    case None => None
    case Some(data) =>
      if !ValidCustomerData(data) then None
      else Some(Customer(data["firstName"], data["lastName"], data["email"], Str("isActive")))
  }

  /** The index entry of one customer: {id, firstName, lastName, email, isActive}. */
  function CustomerRow(id: int, c: Customer): Value {
    Obj([("id", Int(id)), ("firstName", c.firstName), ("lastName", c.lastName),
         ("email", c.email), ("isActive", c.isActive)])
  }

  /** The submitted isActive plays no part in what create stores, whether it came in the parsed body or as JSON. */
  lemma CreateIgnoresSubmittedIsActive(data: Body, v: Value)
    ensures CustomerToCreate(Some(data), None) == CustomerToCreate(Some(data["isActive" := v]), None)
    ensures CustomerToCreate(None, Some(data)) == CustomerToCreate(None, Some(data["isActive" := v]))
  {
    assert data["isActive" := v] != map[] by { assert "isActive" in data["isActive" := v]; }
  }

  class CustomersController {
    const customers: Repository<Customer>

    ghost predicate Valid()
      reads this, customers
    {
      customers.Valid()
    }

    constructor (repository: Repository<Customer>)
      requires repository.Valid()
      ensures customers == repository && Valid()
    {
      customers := repository;
    }

    /** GET /v1/customers */
    method IndexAction() returns (r: Response)
      requires Valid()
      ensures customers.entries == map[] ==> r == Response(404, Message(NoCustomerFound))
      ensures customers.entries != map[] ==>
        && r.status == 200 && r.body.List?
        && |r.body.items| == |customers.entries|
        && (forall i :: 0 <= i < |r.body.items| ==>
              r.body.items[i] == CustomerRow(customers.FindAll()[i].0, customers.FindAll()[i].1))
        && (forall id :: id in customers.entries ==>
              exists i :: 0 <= i < |r.body.items| && r.body.items[i] == CustomerRow(id, customers.entries[id]))
    {
      var all := customers.FindAll();
      if |all| == 0 {
        r := Response(404, Message(NoCustomerFound));
      } else {
        var rows := [];
        var i := 0;
        while i < |all|
          invariant 0 <= i <= |all|
          invariant |rows| == i
          invariant forall k :: 0 <= k < i ==> rows[k] == CustomerRow(all[k].0, all[k].1)
        {
          rows := rows + [CustomerRow(all[i].0, all[i].1)];
          i := i + 1;
        }
        r := Response(200, List(rows));
        forall id | id in customers.entries
          ensures exists k :: 0 <= k < |rows| && rows[k] == CustomerRow(id, customers.entries[id])
        {
          var k := customers.FindAllCovers(id);
          assert rows[k] == CustomerRow(id, customers.entries[id]);
        }
      }
    }

    /** POST /v1/customers; `storeFails` is whether the persistence engine throws. */
    method CreateAction(parsed: Option<Body>, json: Option<Body>, storeFails: bool) returns (r: Response)
      requires Valid()
      modifies customers
      ensures Valid()
      ensures CustomerToCreate(parsed, json).None? ==>
        r == Response(400, Message(InvalidData)) && unchanged(customers)
      ensures CustomerToCreate(parsed, json).Some? ==>
        customers.calls == old(customers.calls) + [StoreCall(CustomerToCreate(parsed, json).value)]
      ensures CustomerToCreate(parsed, json).Some? && storeFails ==>
        && r == Response(500, Message(ErrorCreatingCustomer))
        && customers.entries == old(customers.entries) && customers.order == old(customers.order) && customers.nextId == old(customers.nextId)
      ensures CustomerToCreate(parsed, json).Some? && !storeFails ==>
        && r == Response(200, Obj([("message", Str(CustomerCreated)), ("customer_id", Int(old(customers.nextId)))]))
        && old(customers.nextId) !in old(customers.entries)
        && customers.entries == old(customers.entries)[old(customers.nextId) := CustomerToCreate(parsed, json).value]
        && customers.order == old(customers.order) + [old(customers.nextId)] && customers.nextId == old(customers.nextId) + 1
    {
      var customer := CustomerToCreate(parsed, json);
      if customer.None? {
        return Response(400, Message(InvalidData));
      }
      var id := customers.Store(customer.value, storeFails);
      if id.None? {
        r := Response(500, Message(ErrorCreatingCustomer));
      } else {
        r := Response(200, Obj([("message", Str(CustomerCreated)), ("customer_id", Int(id.value))]));
      }
    }

    /** DELETE /v1/customers/{id} */
    method RemoveAction(id: int) returns (r: Response)
      requires Valid()
      modifies customers
      ensures Valid()
      ensures id !in old(customers.entries) ==> r == Response(404, Message(CustomerNotFound)) && unchanged(customers)
      ensures id in old(customers.entries) ==>
        && r == Response(200, Message(CustomerDeleted))
        && customers.entries == old(customers.entries) - {id}
        && customers.order == Without(old(customers.order), id) && customers.nextId == old(customers.nextId)
        && customers.calls == old(customers.calls) + [RemoveCall(id)]
    {
      var customer := customers.FindById(id);
      if customer.None? {
        return Response(404, Message(CustomerNotFound));
      }
      customers.Remove(id);
      r := Response(200, Message(CustomerDeleted));
    }

    /** GET /v1/customers/deactivate/{id}; the success answer carries status 404, as the code finalises it. */
    method DeactivateAction(id: int) returns (r: Response)
      requires Valid()
      modifies customers
      ensures Valid()
      ensures id !in old(customers.entries) ==> r == Response(404, Message(CustomerNotFound)) && unchanged(customers)
      ensures id in old(customers.entries) ==>
        && r == Response(404, Message(CustomerDeactivated))
        && customers.entries == old(customers.entries)[id := old(customers.entries)[id].(isActive := Bool(false))]
        && customers.order == old(customers.order) && customers.nextId == old(customers.nextId)
        && customers.calls == old(customers.calls) + [UpdateCall(id, customers.entries[id])]
    {
      var customer := customers.FindById(id);
      if customer.None? {
        return Response(404, Message(CustomerNotFound));
      }
      customers.Update(id, customer.value.(isActive := Bool(false)));
      r := Response(404, Message(CustomerDeactivated));
    }

    /** GET /v1/customers/reactivate/{id}; the success answer carries status 404, as the code finalises it. */
    method ReactivateAction(id: int) returns (r: Response)
      requires Valid()
      modifies customers
      ensures Valid()
      ensures id !in old(customers.entries) ==> r == Response(404, Message(CustomerNotFound)) && unchanged(customers)
      ensures id in old(customers.entries) ==>
        && r == Response(404, Message(CustomerReactivated))
        && customers.entries == old(customers.entries)[id := old(customers.entries)[id].(isActive := Bool(true))]
        && customers.order == old(customers.order) && customers.nextId == old(customers.nextId)
        && customers.calls == old(customers.calls) + [UpdateCall(id, customers.entries[id])]
    {
      var customer := customers.FindById(id);
      if customer.None? {
        return Response(404, Message(CustomerNotFound));
      }
      customers.Update(id, customer.value.(isActive := Bool(true)));
      r := Response(404, Message(CustomerReactivated));
    }

    /**
     * PUT /v1/customers/{id}; `data` is the JSON-decoded body, read only
     * when the customer exists, and then holding every field.
     */
    method UpdateAction(id: int, data: Body) returns (r: Response)
      requires Valid()
      requires id in customers.entries ==>
        "firstName" in data && "lastName" in data && "email" in data && "isActive" in data
      modifies customers
      ensures Valid()
      ensures id !in old(customers.entries) ==> r == Response(404, Message(CustomerNotFound)) && unchanged(customers)
      ensures id in old(customers.entries) ==>
        && r == Response(200, Message(CustomerUpdated))
        && customers.entries == old(customers.entries)[id := Customer(data["firstName"], data["lastName"], data["email"], data["isActive"])]
        && customers.order == old(customers.order) && customers.nextId == old(customers.nextId)
        && customers.calls == old(customers.calls) + [UpdateCall(id, customers.entries[id])]
    {
      var customer := customers.FindById(id);
      if customer.None? {
        return Response(404, Message(CustomerNotFound));
      }
      var updated := customer.value.(firstName := data["firstName"], lastName := data["lastName"],
                                     email := data["email"], isActive := data["isActive"]);
      customers.Update(id, updated);
      r := Response(200, Message(CustomerUpdated));
    }
  }

  /** Deactivating then reactivating a stored customer leaves it active, after exactly two updates. */
  method DeactivateThenReactivate(controller: CustomersController, id: int)
    requires controller.Valid() && id in controller.customers.entries
    modifies controller.customers
    ensures controller.Valid()
    ensures id in controller.customers.entries && controller.customers.entries[id].isActive == Bool(true)
    ensures controller.customers.entries == old(controller.customers.entries)[id := old(controller.customers.entries)[id].(isActive := Bool(true))]
    ensures |controller.customers.calls| == |old(controller.customers.calls)| + 2
    ensures controller.customers.calls[|controller.customers.calls| - 2].UpdateCall?
    ensures controller.customers.calls[|controller.customers.calls| - 1].UpdateCall?
  {
    var first := controller.DeactivateAction(id);
    var second := controller.ReactivateAction(id);
  }
}
