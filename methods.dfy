/**
 * MethodsController: the six payment-method handlers over a payment-methods
 * repository, in the same shape as the customer handlers.
 */
module Methods {
  import opened Optional
  import opened PhpValues
  import opened Http
  import opened Repositories

  /** A stored payment method; its id is the repository key. Field values are kept as submitted. */
  datatype PaymentMethod = PaymentMethod(name: Value, isActive: Value)

  const NoMethodsFound := "No payment methods found"
  const MethodCreated := "Payment Method created successfully"
  const ErrorCreatingMethod := "Error payment creating method"
  const MethodNotFound := "Payment Method Not Found"
  const MethodDeleted := "Payment Method Deleted"
  const MethodDeactivated := "Payment Method Deactivated"
  const MethodReactivated := "Payment Method Reactivated"
  const MethodUpdated := "Payment Method Updated"

  /** The create check `!$data || empty($data['name'])` negated. */
  predicate ValidMethodData(data: Body) {
    data != map[] && !IsEmptyField(data, "name")
  }

  /**
   * The payment method a create request yields, or None when it is answered
   * 400. isActive is set from the literal string 'isActive', whatever was submitted.
   */
  function MethodToCreate(parsed: Option<Body>, json: Option<Body>): (m: Option<PaymentMethod>)
    ensures m.Some? <==> SelectData(parsed, json).Some? && !IsEmptyField(SelectData(parsed, json).value, "name")
    ensures m.Some? ==> && m.value.name == SelectData(parsed, json).value["name"]
                        && !IsEmpty(m.value.name) && !IsEmpty(m.value.isActive)
  {
    match SelectData(parsed, json)
    case None => None
    case Some(data) =>
      if !ValidMethodData(data) then None
      else Some(PaymentMethod(data["name"], Str("isActive")))
  }

  /** The index entry of one payment method: {id, name, isActive}. */
  function MethodRow(id: int, m: PaymentMethod): Value {
    Obj([("id", Int(id)), ("name", m.name), ("isActive", m.isActive)])
  }

  class MethodsController {
    const methods: Repository<PaymentMethod>

    ghost predicate Valid()
      reads this, methods
    {
      methods.Valid()
    }

    constructor (repository: Repository<PaymentMethod>)
      requires repository.Valid()
      ensures methods == repository && Valid()
    {
      methods := repository;
    }

    /** GET /v1/methods */
    method IndexAction() returns (r: Response)
      requires Valid()
      ensures methods.entries == map[] ==> r == Response(404, Message(NoMethodsFound))
      ensures methods.entries != map[] ==>
        && r.status == 200 && r.body.List?
        && |r.body.items| == |methods.entries|
        && (forall i :: 0 <= i < |r.body.items| ==>
              r.body.items[i] == MethodRow(methods.FindAll()[i].0, methods.FindAll()[i].1))
        && (forall id :: id in methods.entries ==>
              exists i :: 0 <= i < |r.body.items| && r.body.items[i] == MethodRow(id, methods.entries[id]))
    {
      var all := methods.FindAll();
      if |all| == 0 {
        r := Response(404, Message(NoMethodsFound));
      } else {
        var rows := [];
        var i := 0;
        while i < |all|
          invariant 0 <= i <= |all|
          invariant |rows| == i
          invariant forall k :: 0 <= k < i ==> rows[k] == MethodRow(all[k].0, all[k].1)
        {
          rows := rows + [MethodRow(all[i].0, all[i].1)];
          i := i + 1;
        }
        r := Response(200, List(rows));
        forall id | id in methods.entries
          ensures exists k :: 0 <= k < |rows| && rows[k] == MethodRow(id, methods.entries[id])
        {
          var k := methods.FindAllCovers(id);
          assert rows[k] == MethodRow(id, methods.entries[id]);
        }
      }
    }

    /** POST /v1/methods; `storeFails` is whether the persistence engine throws. */
    method CreateAction(parsed: Option<Body>, json: Option<Body>, storeFails: bool) returns (r: Response)
      requires Valid()
      modifies methods
      ensures Valid()
      ensures MethodToCreate(parsed, json).None? ==>
        r == Response(400, Message(InvalidData)) && unchanged(methods)
      ensures MethodToCreate(parsed, json).Some? ==>
        methods.calls == old(methods.calls) + [StoreCall(MethodToCreate(parsed, json).value)]
      ensures MethodToCreate(parsed, json).Some? && storeFails ==>
        && r == Response(500, Message(ErrorCreatingMethod))
        && methods.entries == old(methods.entries) && methods.order == old(methods.order) && methods.nextId == old(methods.nextId)
      ensures MethodToCreate(parsed, json).Some? && !storeFails ==>
        && r == Response(200, Obj([("message", Str(MethodCreated)), ("method_id", Int(old(methods.nextId)))]))
        && old(methods.nextId) !in old(methods.entries)
        && methods.entries == old(methods.entries)[old(methods.nextId) := MethodToCreate(parsed, json).value]
        && methods.order == old(methods.order) + [old(methods.nextId)] && methods.nextId == old(methods.nextId) + 1
    {
      var created := MethodToCreate(parsed, json);
      if created.None? {
        return Response(400, Message(InvalidData));
      }
      var id := methods.Store(created.value, storeFails);
      if id.None? {
        r := Response(500, Message(ErrorCreatingMethod));
      } else {
        r := Response(200, Obj([("message", Str(MethodCreated)), ("method_id", Int(id.value))]));
      }
    }

    /** DELETE /v1/methods/{id} */
    method RemoveAction(id: int) returns (r: Response)
      requires Valid()
      modifies methods
      ensures Valid()
      ensures id !in old(methods.entries) ==> r == Response(404, Message(MethodNotFound)) && unchanged(methods)
      ensures id in old(methods.entries) ==>
        && r == Response(200, Message(MethodDeleted))
        && methods.entries == old(methods.entries) - {id}
        && methods.order == Without(old(methods.order), id) && methods.nextId == old(methods.nextId)
        && methods.calls == old(methods.calls) + [RemoveCall(id)]
    {
      var found := methods.FindById(id);
      if found.None? {
        return Response(404, Message(MethodNotFound));
      }
      methods.Remove(id);
      r := Response(200, Message(MethodDeleted));
    }

    /** GET /v1/methods/deactivate/{id}; the success answer carries status 404, as the code finalises it. */
    method DeactivateAction(id: int) returns (r: Response)
      requires Valid()
      modifies methods
      ensures Valid()
      ensures id !in old(methods.entries) ==> r == Response(404, Message(MethodNotFound)) && unchanged(methods)
      ensures id in old(methods.entries) ==>
        && r == Response(404, Message(MethodDeactivated))
        && methods.entries == old(methods.entries)[id := old(methods.entries)[id].(isActive := Bool(false))]
        && methods.order == old(methods.order) && methods.nextId == old(methods.nextId)
        && methods.calls == old(methods.calls) + [UpdateCall(id, methods.entries[id])]
    {
      var found := methods.FindById(id);
      if found.None? {
        return Response(404, Message(MethodNotFound));
      }
      methods.Update(id, found.value.(isActive := Bool(false)));
      r := Response(404, Message(MethodDeactivated));
    }

    /** GET /v1/methods/reactivate/{id}; the success answer carries status 404, as the code finalises it. */
    method ReactivateAction(id: int) returns (r: Response)
      requires Valid()
      modifies methods
      ensures Valid()
      ensures id !in old(methods.entries) ==> r == Response(404, Message(MethodNotFound)) && unchanged(methods)
      ensures id in old(methods.entries) ==>
        && r == Response(404, Message(MethodReactivated))
        && methods.entries == old(methods.entries)[id := old(methods.entries)[id].(isActive := Bool(true))]
        && methods.order == old(methods.order) && methods.nextId == old(methods.nextId)
        && methods.calls == old(methods.calls) + [UpdateCall(id, methods.entries[id])]
    {
      var found := methods.FindById(id);
      if found.None? {
        return Response(404, Message(MethodNotFound));
      }
      methods.Update(id, found.value.(isActive := Bool(true)));
      r := Response(404, Message(MethodReactivated));
    }

    /**
     * PUT /v1/methods/{id}; `data` is the JSON-decoded body, read only when
     * the payment method exists, and then holding every field.
     */
    method UpdateAction(id: int, data: Body) returns (r: Response)
      requires Valid()
      requires id in methods.entries ==> "name" in data && "isActive" in data
      modifies methods
      ensures Valid()
      ensures id !in old(methods.entries) ==> r == Response(404, Message(MethodNotFound)) && unchanged(methods)
      ensures id in old(methods.entries) ==>
        && r == Response(200, Message(MethodUpdated))
        && methods.entries == old(methods.entries)[id := PaymentMethod(data["name"], data["isActive"])]
        && methods.order == old(methods.order) && methods.nextId == old(methods.nextId)
        && methods.calls == old(methods.calls) + [UpdateCall(id, methods.entries[id])]
    {
      var found := methods.FindById(id);
      if found.None? {
        return Response(404, Message(MethodNotFound));
      }
      methods.Update(id, found.value.(name := data["name"], isActive := data["isActive"]));
      r := Response(200, Message(MethodUpdated));
    }
  }
}
