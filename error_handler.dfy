/**
 * ErrorHandler: the application's default error handler. Every fault that
 * escapes a handler is mapped to a status code and a JSON payload; the
 * `displayErrorDetails` flag decides whether the payload also carries the
 * details and the trace.
 */
module ErrorHandler {
  import opened Optional
  import opened PhpValues
  import opened Http

  /** The exception classes the handler tests with instanceof. */
  datatype FaultClass =
    | OrmException         // Doctrine\ORM\Exception\ORMException
    | HttpNotFound         // Slim\Exception\HttpNotFoundException
    | PdoException         // \PDOException
    | AppException         // PaymentApi\Exception\A_Exception

  /**
   * A thrown fault: the classes it is an instance of, its message, its
   * code (getCode()) and its trace (getTrace(), one entry per frame).
   */
  datatype Fault = Fault(classes: set<FaultClass>, message: string, code: int, trace: seq<string>)

  /** An ORM, route-not-found or driver fault. */
  predicate IsInfrastructure(f: Fault) {
    OrmException in f.classes || HttpNotFound in f.classes || PdoException in f.classes
  }

  function TraceValue(trace: seq<string>): (v: Value)
    ensures v.List? && |v.items| == |trace|
  {
    List(seq(|trace|, i requires 0 <= i < |trace| => Str(trace[i])))
  }

  /** __invoke: the response for fault f. */
  function Invoke(f: Fault, displayErrorDetails: bool): (r: Response)
    ensures IsInfrastructure(f) ==> r.status == 500
    ensures !IsInfrastructure(f) && AppException in f.classes ==> r.status == f.code
    ensures !IsInfrastructure(f) && AppException !in f.classes ==> r.status == 500
    ensures r.body.Obj? && Field(r.body, "message") == Some(Str(f.message))
    ensures Field(r.body, "details").Some? <==> displayErrorDetails
    ensures Field(r.body, "trace").Some? <==> displayErrorDetails
    ensures displayErrorDetails ==> Field(r.body, "details") == Some(Str(f.message))
    ensures displayErrorDetails ==> Field(r.body, "trace") == Some(TraceValue(f.trace))
    ensures forall kv :: kv in r.body.fields ==> kv.0 in {"message", "details", "trace"}
  {
    var status :=
      if IsInfrastructure(f) then 500
      else if AppException in f.classes then f.code
      else 500;
    var message := ("message", Str(f.message));
    if displayErrorDetails then
      var extras := [("details", Str(f.message)), ("trace", TraceValue(f.trace))];
      assert Field(Obj(extras[1..]), "trace") == Some(TraceValue(f.trace));
      Response(status, Obj([message] + extras))
    else
      Response(status, Obj([message]))
  }

  /** The status is 500 unless the fault is an application fault and nothing else the handler tests for. */
  lemma StatusIs500UnlessAppFault(f: Fault, displayErrorDetails: bool)
    ensures Invoke(f, displayErrorDetails).status != 500 ==>
      AppException in f.classes && !IsInfrastructure(f) && f.code != 500
  {
  }

  /** The infrastructure test runs first: a fault that is also an application fault still gets 500. */
  lemma InfrastructureBeforeAppFault(message: string, code: int, trace: seq<string>, displayErrorDetails: bool)
    ensures Invoke(Fault({PdoException, AppException}, message, code, trace), displayErrorDetails).status == 500
  {
  }

  /** The details flag changes only the payload's extra fields, never the status or the message. */
  lemma DetailsFlagOnlyAddsFields(f: Fault)
    ensures Invoke(f, true).status == Invoke(f, false).status
    ensures Invoke(f, false).body == Obj([("message", Str(f.message))])
    ensures Invoke(f, true).body.fields[..1] == Invoke(f, false).body.fields
  {
  }
}
