/**
 * PaymentsController: list, create and remove payment transactions. Create
 * checks the body, looks up the referenced customer and payment method, and
 * persists a payment that refers to both.
 */
module Payments {
  import opened Optional
  import opened PhpValues
  import opened Http
  import opened Repositories
  import opened ErrorHandler
  import Customers
  import Methods

  /** A payment date as the index writes it ('Y-m-d H:i:s'); date arithmetic is not modelled. */
  type Timestamp = string

  /** A stored payment transaction: the ids of the customer and method it refers to, the amount as submitted, the date. */
  datatype Payment = Payment(customerId: int, methodId: int, amount: Value, paymentDate: Timestamp)

  /** What `new \DateTime($text)` does with a submitted payment_date: a timestamp, or an exception with its message. */
  datatype DateParse = Parsed(at: Timestamp) | Unparsable(message: string)

  /** A handler either answers, or lets a fault escape to the error handler. */
  datatype Outcome = Reply(response: Response) | Raise(fault: Fault)

  const NoPaymentFound := "No payment transaction found"
  const InvalidCustomerId := "Invalid customer ID"
  const InvalidMethodId := "Invalid payment method ID"
  const PaymentCreated := "Payment transaction created successfully"
  const ErrorCreatingPayment := "Error creating payment transaction"
  const PaymentNotFound := "Payment transaction not found"
  const PaymentDeleted := "Payment transaction deleted successfully"
  /** The TypeError findById(int) throws for an id PHP cannot coerce (its exact wording is not modelled). */
  const IntArgumentError := "findById(): Argument #1 ($id) must be of type int"
  /** The TypeError raised when setAmount assigns a value the `float` amount property cannot take (wording not modelled). */
  const AmountTypeError := "Cannot assign value to property Payments::$amount of type float"

  /** The create check `!$data || empty(...)` over the four required keys, negated. */
  predicate ValidPaymentData(data: Body) {
    && data != map[]
    && !IsEmptyField(data, "customer_id") && !IsEmptyField(data, "method_id")
    && !IsEmptyField(data, "amount") && !IsEmptyField(data, "payment_date")
  }

  /** The id findById receives for key of the selected body; None when there is none or PHP cannot coerce it. */
  function IdArgument(parsed: Option<Body>, json: Option<Body>, key: string): Option<int> {
    match SelectData(parsed, json)
    case None => None
    case Some(data) => if key in data then ToIntArgument(data[key]) else None
  }

  /** How a create request ends, in the order the checks are made. */
  datatype CreateStep =
    | InvalidInput                   // 400 "Invalid data"
    | UncoercibleId(key: string)     // findById throws a TypeError
    | MissingCustomer                // 404 "Invalid customer ID"
    | MissingMethod                  // 404 "Invalid payment method ID"
    | AmountRejected                 // setAmount throws a TypeError
    | DateRejected(message: string)  // the DateTime constructor throws
    | StorePayment(payment: Payment) // store is called

  /**
   * The decision of a create request given the stored customer and method
   * ids. Both ids are coerced (both findById calls run) before either lookup
   * result is checked; the customer is checked first.
   */
  function CreateStepFor(parsed: Option<Body>, json: Option<Body>, customerIds: set<int>, methodIds: set<int>,
                         parseDate: Value -> DateParse): (step: CreateStep)
    ensures step.InvalidInput? <==>
      SelectData(parsed, json).None? || !ValidPaymentData(SelectData(parsed, json).value)
    ensures step.UncoercibleId? <==>
      !step.InvalidInput? && (IdArgument(parsed, json, "customer_id").None? || IdArgument(parsed, json, "method_id").None?)
    ensures step.UncoercibleId? ==>
      step.key == if IdArgument(parsed, json, "customer_id").None? then "customer_id" else "method_id"
    ensures step.MissingCustomer? <==>
      && !step.InvalidInput?
      && IdArgument(parsed, json, "customer_id").Some? && IdArgument(parsed, json, "method_id").Some?
      && IdArgument(parsed, json, "customer_id").value !in customerIds
    ensures step.MissingMethod? <==>
      && !step.InvalidInput?
      && IdArgument(parsed, json, "customer_id").Some? && IdArgument(parsed, json, "method_id").Some?
      && IdArgument(parsed, json, "customer_id").value in customerIds
      && IdArgument(parsed, json, "method_id").value !in methodIds
    ensures step.AmountRejected? <==>
      && !step.InvalidInput?
      && IdArgument(parsed, json, "customer_id").Some? && IdArgument(parsed, json, "method_id").Some?
      && IdArgument(parsed, json, "customer_id").value in customerIds
      && IdArgument(parsed, json, "method_id").value in methodIds
      && !FloatCoercible(SelectData(parsed, json).value["amount"])
    ensures step.DateRejected? ==> parseDate(SelectData(parsed, json).value["payment_date"]) == Unparsable(step.message)
    ensures step.StorePayment? ==> var data := SelectData(parsed, json).value;
      && ValidPaymentData(data)
      && step.payment.customerId in customerIds && step.payment.methodId in methodIds
      && Some(step.payment.customerId) == ToIntArgument(data["customer_id"])
      && Some(step.payment.methodId) == ToIntArgument(data["method_id"])
      && step.payment.amount == data["amount"] && !IsEmpty(step.payment.amount) && FloatCoercible(step.payment.amount)
      && parseDate(data["payment_date"]) == Parsed(step.payment.paymentDate)
  {
    match SelectData(parsed, json)
    case None => InvalidInput
    case Some(data) =>
      if !ValidPaymentData(data) then InvalidInput
      else
        var customerArg := ToIntArgument(data["customer_id"]);
        if customerArg.None? then UncoercibleId("customer_id")
        else
          var methodArg := ToIntArgument(data["method_id"]);
          if methodArg.None? then UncoercibleId("method_id")
          else if customerArg.value !in customerIds then MissingCustomer
          else if methodArg.value !in methodIds then MissingMethod
          else if !FloatCoercible(data["amount"]) then AmountRejected
          else match parseDate(data["payment_date"])
            case Unparsable(message) => DateRejected(message)
            case Parsed(at) => StorePayment(Payment(customerArg.value, methodArg.value, data["amount"], at))
  }

  /** A missing customer is reported whatever the payment methods are: the customer is checked first. */
  lemma CustomerCheckedFirst(parsed: Option<Body>, json: Option<Body>, customerIds: set<int>,
                             methodIds: set<int>, otherMethodIds: set<int>, parseDate: Value -> DateParse)
    requires CreateStepFor(parsed, json, customerIds, methodIds, parseDate).MissingCustomer?
    ensures CreateStepFor(parsed, json, customerIds, otherMethodIds, parseDate).MissingCustomer?
  {
  }

  /**
   * An uncoercible method_id throws even when the customer is missing: both
   * lookups run before either result is checked.
   */
  lemma LookupsRunBeforeChecks(parsed: Option<Body>, json: Option<Body>, data: Body, customerIds: set<int>,
                               methodIds: set<int>, parseDate: Value -> DateParse)
    requires SelectData(parsed, json) == Some(data) && ValidPaymentData(data)
    requires ToIntArgument(data["customer_id"]).Some? && ToIntArgument(data["customer_id"]).value !in customerIds
    requires data["method_id"].Str? && |data["method_id"].s| > 0 && IsLetter(data["method_id"].s[0])
    ensures CreateStepFor(parsed, json, customerIds, methodIds, parseDate) == UncoercibleId("method_id")
  {
    NonNumericTextRefused(data["method_id"].s);
  }

  /**
   * An amount that cannot become a float (text starting with a letter, an
   * array) throws before the date is parsed: whatever the date parser makes of
   * the date, nothing is stored.
   */
  lemma AmountCheckedBeforeDate(parsed: Option<Body>, json: Option<Body>, customerIds: set<int>, methodIds: set<int>,
                                parseDate: Value -> DateParse, otherParseDate: Value -> DateParse)
    requires CreateStepFor(parsed, json, customerIds, methodIds, parseDate).AmountRejected?
    ensures CreateStepFor(parsed, json, customerIds, methodIds, otherParseDate).AmountRejected?
  {
  }

  /** A textual amount such as "ten" or "Ten" is refused by the float property even when the customer and method exist. */
  lemma TextAmountNotStored(parsed: Option<Body>, json: Option<Body>, data: Body, customerIds: set<int>,
                            methodIds: set<int>, parseDate: Value -> DateParse)
    requires SelectData(parsed, json) == Some(data) && ValidPaymentData(data)
    requires ToIntArgument(data["customer_id"]).Some? && ToIntArgument(data["customer_id"]).value in customerIds
    requires ToIntArgument(data["method_id"]).Some? && ToIntArgument(data["method_id"]).value in methodIds
    requires data["amount"].Str? && |data["amount"].s| > 0 && IsLetter(data["amount"].s[0])
    ensures CreateStepFor(parsed, json, customerIds, methodIds, parseDate) == AmountRejected
  {
    FloatCoercionExamples(0, 0.0, data["amount"].s, []);
  }

  /** An amount of 0 (or "0", 0.0, false) is refused as invalid data, whichever body it came in. */
  lemma ZeroAmountRejected(parsed: Option<Body>, json: Option<Body>, data: Body, customerIds: set<int>,
                           methodIds: set<int>, parseDate: Value -> DateParse)
    requires SelectData(parsed, json) == Some(data)
    requires "amount" in data && data["amount"] in {Int(0), Real(0.0), Str("0"), Bool(false)}
    ensures CreateStepFor(parsed, json, customerIds, methodIds, parseDate) == InvalidInput
  {
  }

  /** The index entry of one payment: {id, customer_id, method_id, amount, payment_date}. */
  function PaymentRow(id: int, p: Payment): Value {
    Obj([("id", Int(id)), ("customer_id", Int(p.customerId)), ("method_id", Int(p.methodId)),
         ("amount", p.amount), ("payment_date", Str(p.paymentDate))])
  }

  class PaymentsController {
    const payments: Repository<Payment>
    const customers: Repository<Customers.Customer>
    const methods: Repository<Methods.PaymentMethod>

    ghost predicate Valid()
      reads this, payments, customers, methods
    {
      payments.Valid() && customers.Valid() && methods.Valid()
    }

    constructor (paymentsRepository: Repository<Payment>, customersRepository: Repository<Customers.Customer>,
                 methodsRepository: Repository<Methods.PaymentMethod>)
      requires paymentsRepository.Valid() && customersRepository.Valid() && methodsRepository.Valid()
      ensures payments == paymentsRepository && customers == customersRepository && methods == methodsRepository
      ensures Valid()
    {
      payments := paymentsRepository;
      customers := customersRepository;
      methods := methodsRepository;
    }

    /** GET /v1/payments */
    method IndexAction() returns (r: Response)
      requires Valid()
      ensures payments.entries == map[] ==> r == Response(404, Message(NoPaymentFound))
      ensures payments.entries != map[] ==>
        && r.status == 200 && r.body.List?
        && |r.body.items| == |payments.entries|
        && (forall i :: 0 <= i < |r.body.items| ==>
              r.body.items[i] == PaymentRow(payments.FindAll()[i].0, payments.FindAll()[i].1))
        && (forall id :: id in payments.entries ==>
              exists i :: 0 <= i < |r.body.items| && r.body.items[i] == PaymentRow(id, payments.entries[id]))
    {
      var all := payments.FindAll();
      if |all| == 0 {
        r := Response(404, Message(NoPaymentFound));
      } else {
        var rows := [];
        var i := 0;
        while i < |all|
          invariant 0 <= i <= |all|
          invariant |rows| == i
          invariant forall k :: 0 <= k < i ==> rows[k] == PaymentRow(all[k].0, all[k].1)
        {
          rows := rows + [PaymentRow(all[i].0, all[i].1)];
          i := i + 1;
        }
        r := Response(200, List(rows));
        forall id | id in payments.entries
          ensures exists k :: 0 <= k < |rows| && rows[k] == PaymentRow(id, payments.entries[id])
        {
          var k := payments.FindAllCovers(id);
          assert rows[k] == PaymentRow(id, payments.entries[id]);
        }
      }
    }

    /**
     * POST /v1/payments. `parseDate` stands for the DateTime constructor and
     * `storeFails` for whether the persistence engine throws.
     */
    method CreateAction(parsed: Option<Body>, json: Option<Body>, parseDate: Value -> DateParse, storeFails: bool)
      returns (r: Outcome)
      requires Valid()
      modifies payments
      ensures Valid()
      ensures unchanged(customers) && unchanged(methods)
      ensures var step := CreateStepFor(parsed, json, customers.entries.Keys, methods.entries.Keys, parseDate);
        && (step.InvalidInput? ==> r == Reply(Response(400, Message(InvalidData))))
        && (step.UncoercibleId? ==> r == Raise(Fault({}, IntArgumentError, 0, [])))
        && (step.MissingCustomer? ==> r == Reply(Response(404, Message(InvalidCustomerId))))
        && (step.MissingMethod? ==> r == Reply(Response(404, Message(InvalidMethodId))))
        && (step.AmountRejected? ==> r == Raise(Fault({}, AmountTypeError, 0, [])))
        && (step.DateRejected? ==> r == Raise(Fault({}, step.message, 0, [])))
        && (!step.StorePayment? ==> unchanged(payments))
        && (step.StorePayment? ==> payments.calls == old(payments.calls) + [StoreCall(step.payment)])
        && (step.StorePayment? && storeFails ==>
              && r == Reply(Response(500, Message(ErrorCreatingPayment)))
              && payments.entries == old(payments.entries) && payments.order == old(payments.order) && payments.nextId == old(payments.nextId))
        && (step.StorePayment? && !storeFails ==>
              && r == Reply(Response(200, Message(PaymentCreated)))
              && old(payments.nextId) !in old(payments.entries)
              && payments.entries == old(payments.entries)[old(payments.nextId) := step.payment]
              && payments.order == old(payments.order) + [old(payments.nextId)] && payments.nextId == old(payments.nextId) + 1)
    {
      var data := SelectData(parsed, json);
      if data.None? || !ValidPaymentData(data.value) {
        return Reply(Response(400, Message(InvalidData)));
      }
      var customerArg := ToIntArgument(data.value["customer_id"]);
      if customerArg.None? {
        return Raise(Fault({}, IntArgumentError, 0, []));
      }
      var customer := customers.FindById(customerArg.value);
      var methodArg := ToIntArgument(data.value["method_id"]);
      if methodArg.None? {
        return Raise(Fault({}, IntArgumentError, 0, []));
      }
      var found := methods.FindById(methodArg.value);
      if customer.None? {
        return Reply(Response(404, Message(InvalidCustomerId)));
      } else if found.None? {
        return Reply(Response(404, Message(InvalidMethodId)));
      }
      if !FloatCoercible(data.value["amount"]) {
        return Raise(Fault({}, AmountTypeError, 0, []));
      }
      var date := parseDate(data.value["payment_date"]);
      if date.Unparsable? {
        return Raise(Fault({}, date.message, 0, []));
      }
      var payment := Payment(customerArg.value, methodArg.value, data.value["amount"], date.at);
      var id := payments.Store(payment, storeFails);
      if id.None? {
        r := Reply(Response(500, Message(ErrorCreatingPayment)));
      } else {
        r := Reply(Response(200, Message(PaymentCreated)));
      }
    }

    /** DELETE /v1/payments/{id} */
    method RemoveAction(id: int) returns (r: Response)
      requires Valid()
      modifies payments
      ensures Valid()
      ensures unchanged(customers) && unchanged(methods)
      ensures id !in old(payments.entries) ==> r == Response(404, Message(PaymentNotFound)) && unchanged(payments)
      ensures id in old(payments.entries) ==>
        && r == Response(200, Message(PaymentDeleted))
        && payments.entries == old(payments.entries) - {id}
        && payments.order == Without(old(payments.order), id) && payments.nextId == old(payments.nextId)
        && payments.calls == old(payments.calls) + [RemoveCall(id)]
    {
      var payment := payments.FindById(id);
      if payment.None? {
        return Response(404, Message(PaymentNotFound));
      }
      payments.Remove(id);
      r := Response(200, Message(PaymentDeleted));
    }
  }

  /**
   * Every fault the modelled create lets escape (the two TypeErrors and the
   * DateTime exception) is answered by the error handler with status 500.
   */
  lemma EscapedCreateFaultsAre500(message: string, displayErrorDetails: bool)
    ensures Invoke(Fault({}, IntArgumentError, 0, []), displayErrorDetails).status == 500
    ensures Invoke(Fault({}, AmountTypeError, 0, []), displayErrorDetails).status == 500
    ensures Invoke(Fault({}, message, 0, []), displayErrorDetails).status == 500
  {
  }
}
