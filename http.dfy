/**
 * What a handler hands back to the framework: a status code and the value
 * `json_encode` writes into the body (every response is
 * `Content-Type: application/json`).
 */
module Http {
  import opened Optional
  import opened PhpValues

  datatype Response = Response(status: int, body: Value)

  /** The body `['message' => $text]`. */
  function Message(text: string): Value {
    Obj([("message", Str(text))])
  }

  /** The value stored under key in a JSON object, searching its fields in order; None when absent. */
  function Field(body: Value, key: string): (r: Option<Value>)
    ensures r.Some? ==> body.Obj? && (key, r.value) in body.fields
    ensures body.Obj? && (forall kv :: kv in body.fields ==> kv.0 != key) ==> r.None?
    decreases if body.Obj? then |body.fields| else 0
  {
    if !body.Obj? || body.fields == [] then None
    else if body.fields[0].0 == key then Some(body.fields[0].1)
    else Field(Obj(body.fields[1..]), key)
  }

  const InvalidData := "Invalid data"
}
