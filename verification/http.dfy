/** The HTTP exchange as both adapters see it through axios: the request they
    assemble, and the reply the provider (or the network) hands back, which
    the model takes as an input. */
module Http {
  import opened Results
  import opened Js

  datatype Method = GET | POST

  /** An outgoing call: HTTP method, absolute URL, headers, and the JSON body if any. */
  datatype Request = Request(verb: Method, url: string, headers: map<string, Value>, body: Option<Value>)

  /** What awaiting the call produces:
      - `Answered(data)`: a 2xx status, axios resolves with `response.data`;
      - `Rejected(data)`: any other status, axios throws an error whose
        `response.data` is the provider's body;
      - `Unanswered`: no response at all (network failure, timeout), so the
        thrown error has no `response`. */
  datatype Reply = Answered(data: Value) | Rejected(data: Value) | Unanswered

  const JsonContent := Str("application/json")

  /** `...(data && { data })`: the body is attached only when `data` is truthy. */
  function Attach(data: Value): (body: Option<Value>)
    ensures body.Some? <==> Truthy(data)
    ensures body.Some? ==> body.value == data
  {
    if Truthy(data) then Some(data) else None
  }

  /** `error.response?.data?.[key]` for the error a failed call throws. */
  function ErrorField(reply: Reply, key: string): Value {
    match reply
    case Rejected(data) => Field(data, key)
    case _ => Undefined
  }
}
