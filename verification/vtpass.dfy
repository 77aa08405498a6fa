/** The VTPass adapter: per-request signing (`generateSignature`), header
    assembly and error message (`makeRequest`), and the request bodies of its
    purchase, verification and requery operations. It holds no session; each
    call draws one fresh request id, passed in as `drawn` (the value
    `uuidv4()` returned for that call), and a run of calls draws them in turn
    from a supply `uuid`. The SHA-256 digest is a parameter. */
module Vtpass {
  import opened Results
  import opened Js
  import opened Http

  /** The adapter's fields, read from the process environment once. */
  datatype Config = Config(apiKey: Value, publicKey: Value, secretKey: Value, baseUrl: Value, username: Value)

  const SandboxUrl := "https://sandbox.vtpass.com/api"

  /** The constructor: the base URL falls back to the sandbox when its
      variable is unset or empty; everything else is taken as it is. */
  function Configure(env: map<string, string>): (cfg: Config)
    ensures Truthy(cfg.baseUrl)
    ensures "VTPASS_BASE_URL" in env && env["VTPASS_BASE_URL"] != "" ==> cfg.baseUrl == Str(env["VTPASS_BASE_URL"])
    ensures !("VTPASS_BASE_URL" in env && env["VTPASS_BASE_URL"] != "") ==> cfg.baseUrl == Str(SandboxUrl)
    ensures cfg.username == (if "VTPASS_USERNAME" in env then Str(env["VTPASS_USERNAME"]) else Undefined)
    ensures cfg.apiKey == (if "VTPASS_API_KEY" in env then Str(env["VTPASS_API_KEY"]) else Undefined)
    ensures cfg.publicKey == (if "VTPASS_PUBLIC_KEY" in env then Str(env["VTPASS_PUBLIC_KEY"]) else Undefined)
    ensures cfg.secretKey == (if "VTPASS_SECRET_KEY" in env then Str(env["VTPASS_SECRET_KEY"]) else Undefined)
  {
    Config(
      EnvVar(env, "VTPASS_API_KEY"),
      EnvVar(env, "VTPASS_PUBLIC_KEY"),
      EnvVar(env, "VTPASS_SECRET_KEY"),
      Or(EnvVar(env, "VTPASS_BASE_URL"), Str(SandboxUrl)),
      EnvVar(env, "VTPASS_USERNAME"))
  }

  /** What the signature digests: username, API key and request id run
      together with no separator (an unset variable reads "undefined"). */
  function SignaturePreImage(cfg: Config, requestId: string): (p: string)
    ensures var credentials := ToStr(cfg.username) + ToStr(cfg.apiKey);
      && |p| == |ToStr(cfg.username)| + |ToStr(cfg.apiKey)| + |requestId|
      && p[..|credentials|] == credentials
      && p[|credentials|..] == requestId
      && p[..|ToStr(cfg.username)|] == ToStr(cfg.username)
  {
    var credentials := ToStr(cfg.username) + ToStr(cfg.apiKey);
    var p := credentials + requestId;
    assert p[..|ToStr(cfg.username)|] == credentials[..|ToStr(cfg.username)|];
    p
  }

  /** `generateSignature(requestId)`, the hex SHA-256 of the pre-image. */
  function GenerateSignature(cfg: Config, sha256: string -> string, requestId: string): string {
    sha256(SignaturePreImage(cfg, requestId))
  }

  /** With no separator, the boundary between username and API key is not
      fixed by the pre-image: two different credential splits sign alike. */
  lemma CredentialBoundaryUnbound(sha256: string -> string, requestId: string,
                                  apiKey: Value, publicKey: Value, secretKey: Value, baseUrl: Value)
    ensures var c1 := Config(Str("ab"), publicKey, secretKey, baseUrl, Str("user"));
            var c2 := Config(Str("b"), publicKey, secretKey, baseUrl, Str("usera"));
            c1 != c2 && GenerateSignature(c1, sha256, requestId) == GenerateSignature(c2, sha256, requestId)
  {
    assert "user" + "ab" == "usera" + "b";
  }

  /** The headers of a call made with request id `requestId`. */
  function Headers(cfg: Config, sha256: string -> string, requestId: string): (h: map<string, Value>)
    ensures h.Keys == {"api-key", "public-key", "secret-key", "request-id", "signature", "Content-Type"}
    ensures h["request-id"] == Str(requestId)
    ensures h["signature"] == Str(GenerateSignature(cfg, sha256, requestId))
    ensures h["api-key"] == cfg.apiKey && h["public-key"] == cfg.publicKey && h["secret-key"] == cfg.secretKey
  {
    map[
      "api-key" := cfg.apiKey,
      "public-key" := cfg.publicKey,
      "secret-key" := cfg.secretKey,
      "request-id" := Str(requestId),
      "signature" := Str(GenerateSignature(cfg, sha256, requestId)),
      "Content-Type" := JsonContent]
  }

  const ServiceError := "VTPass service error"

  /** The call sent and what it returned or threw. */
  datatype Exchange = Exchange(sent: Request, result: Result<Value, Fault>)

  /** `makeRequest(method, endpoint, data)`: draws one request id, signs it,
      sends the call with the three keys, that id and its signature, and
      returns the reply's data as it is — this provider has no envelope. A
      failed call throws the provider's `message`, or the fixed service error
      when there is no truthy one. */
  function MakeRequest(cfg: Config, sha256: string -> string, drawn: string,
                       verb: Method, endpoint: string, data: Value, reply: Reply): (x: Exchange)
    ensures x.sent.verb == verb && x.sent.url == ToStr(cfg.baseUrl) + endpoint
    ensures x.sent.headers == Headers(cfg, sha256, drawn)
    ensures x.sent.body == Attach(data)
    ensures x.result.Success? <==> reply.Answered?
    ensures x.result.Success? ==> x.result.value == reply.data
    ensures x.result.Failure? ==>
      x.result.error == (if reply.Rejected? && Truthy(Field(reply.data, "message"))
                         then NewError(Field(reply.data, "message")) else Error(ServiceError))
  {
    var sent := Request(verb, ToStr(cfg.baseUrl) + endpoint, Headers(cfg, sha256, drawn), Attach(data));
    match reply
    case Answered(d) => Exchange(sent, Success(d))
    case _ => Exchange(sent, Failure(NewError(Or(ErrorField(reply, "message"), Str(ServiceError)))))
  }

  // ---------------------------------------------------------------------------
  // Domain operations

  /** The adapter's operations with their arguments; an argument the caller
      leaves off is `Undefined`. `requestId` is the caller's own transaction
      id, sent in the body. */
  datatype Call =
    | GetServiceVariations(serviceID: Value)
    | VerifyCustomer(serviceID: Value, billersCode: Value)
    | PurchaseAirtime(requestId: Value, serviceID: Value, amount: Value, phone: Value, billersCode: Value)
    | PurchaseData(requestId: Value, serviceID: Value, amount: Value, phone: Value, billersCode: Value)
    | PayElectricity(requestId: Value, serviceID: Value, amount: Value, phone: Value, billersCode: Value,
                     variationCode: Value)
    | PayCableTV(requestId: Value, serviceID: Value, amount: Value, phone: Value, billersCode: Value,
                 variationCode: Value, quantity: Value)
    | CheckTransactionStatus(requestId: Value)
    | GetWalletBalance

  /** What an operation hands to `makeRequest`. */
  datatype Outbound = Outbound(verb: Method, endpoint: string, data: Value)

  /** Whether a purchase body carries the caller's transaction id, service,
      amount and phone as given. */
  predicate Carries(body: Value, requestId: Value, serviceID: Value, amount: Value, phone: Value) {
    && Field(body, "request_id") == requestId && Field(body, "serviceID") == serviceID
    && Field(body, "amount") == amount && Field(body, "phone") == phone
  }

  /** The top-up body shared by airtime and data: the biller code falls back
      to the phone number when it is falsy. */
  function TopUpBody(requestId: Value, serviceID: Value, amount: Value, phone: Value, billersCode: Value): (body: Value)
    ensures body.Obj?
    ensures body.fields.Keys == {"request_id", "serviceID", "amount", "phone", "billersCode"}
    ensures body.fields["request_id"] == requestId && body.fields["serviceID"] == serviceID
    ensures body.fields["amount"] == amount && body.fields["phone"] == phone
    ensures body.fields["billersCode"] == (if Truthy(billersCode) then billersCode else phone)
    ensures Carries(body, requestId, serviceID, amount, phone)
  {
    Obj(map[
      "request_id" := requestId,
      "serviceID" := serviceID,
      "amount" := amount,
      "phone" := phone,
      "billersCode" := Or(DefaultParam(billersCode, Null), phone)])
  }

  /** The electricity body, which cable TV extends with a quantity: the
      meter or smart-card number and the plan passed through untouched. */
  function BillBody(requestId: Value, serviceID: Value, amount: Value, phone: Value, billersCode: Value,
                    variationCode: Value): (body: Value)
    ensures body.Obj?
    ensures body.fields.Keys == {"request_id", "serviceID", "amount", "phone", "billersCode", "variation_code"}
    ensures body.fields["request_id"] == requestId && body.fields["serviceID"] == serviceID
    ensures body.fields["amount"] == amount && body.fields["phone"] == phone
    ensures body.fields["billersCode"] == billersCode && body.fields["variation_code"] == variationCode
    ensures Carries(body, requestId, serviceID, amount, phone)
  {
    Obj(map[
      "request_id" := requestId, "serviceID" := serviceID, "amount" := amount, "phone" := phone,
      "billersCode" := billersCode, "variation_code" := variationCode])
  }

  /** The cable-TV body: the electricity body plus the number of units. */
  function CableBody(requestId: Value, serviceID: Value, amount: Value, phone: Value, billersCode: Value,
                     variationCode: Value, quantity: Value): (body: Value)
    ensures body.Obj?
    ensures body.fields == BillBody(requestId, serviceID, amount, phone, billersCode, variationCode).fields
                           ["quantity" := (if quantity.Undefined? then Num(1) else quantity)]
    ensures Carries(body, requestId, serviceID, amount, phone)
  {
    var bill := BillBody(requestId, serviceID, amount, phone, billersCode, variationCode);
    Obj(bill.fields["quantity" := DefaultParam(quantity, Num(1))])
  }

  /** The four purchases, all paid through `/pay`. */
  predicate Pays(call: Call) {
    call.PurchaseAirtime? || call.PurchaseData? || call.PayElectricity? || call.PayCableTV?
  }

  /** The verb, path and body of each operation, or the TypeError thrown
      while writing the service id into the variations path. Reads send no
      body and writes an object; every purchase goes to `/pay` carrying the
      caller's transaction id, service, amount and phone as given, and a
      requery carries that id to `/requery`. */
  function Route(call: Call): (r: Result<Outbound, Fault>)
    ensures r.Failure? <==> call.GetServiceVariations? && !Convertible(call.serviceID)
    ensures r.Failure? ==> r.error == TypeError
    ensures r.Success? ==> (r.value.verb == GET <==> r.value.data == Null)
    ensures r.Success? && r.value.verb == POST ==> r.value.data.Obj?
    ensures Pays(call) ==>
      && r.Success? && r.value.verb == POST && r.value.endpoint == "/pay"
      && Carries(r.value.data, call.requestId, call.serviceID, call.amount, call.phone)
    ensures call.CheckTransactionStatus? ==>
      && r.Success? && r.value.verb == POST && r.value.endpoint == "/requery"
      && Field(r.value.data, "request_id") == call.requestId
  {
    match call
    case GetServiceVariations(serviceID) =>
      (match Interpolate(serviceID)
       case Failure(e) => Failure(e)
       case Success(id) => Success(Outbound(GET, "/service-variations?serviceID=" + id, Null)))
    case VerifyCustomer(serviceID, billersCode) =>
      Success(Outbound(POST, "/merchant-verify", Obj(map["billersCode" := billersCode, "serviceID" := serviceID])))
    case PurchaseAirtime(requestId, serviceID, amount, phone, billersCode) =>
      Success(Outbound(POST, "/pay", TopUpBody(requestId, serviceID, amount, phone, billersCode)))
    case PurchaseData(requestId, serviceID, amount, phone, billersCode) =>
      Success(Outbound(POST, "/pay", TopUpBody(requestId, serviceID, amount, phone, billersCode)))
    case PayElectricity(requestId, serviceID, amount, phone, billersCode, variationCode) =>
      Success(Outbound(POST, "/pay", BillBody(requestId, serviceID, amount, phone, billersCode, variationCode)))
    case PayCableTV(requestId, serviceID, amount, phone, billersCode, variationCode, quantity) =>
      Success(Outbound(POST, "/pay", CableBody(requestId, serviceID, amount, phone, billersCode, variationCode, quantity)))
    case CheckTransactionStatus(requestId) =>
      Success(Outbound(POST, "/requery", Obj(map["request_id" := requestId])))
    case GetWalletBalance =>
      Success(Outbound(GET, "/wallet", Null))
  }

  /** One operation, end to end: a path that cannot be written throws before
      `makeRequest` is reached, so nothing is sent and no request id is
      drawn; otherwise the call goes out with the drawn id, and what it
      returns or throws is `makeRequest`'s. */
  function Invoke(cfg: Config, sha256: string -> string, drawn: string, call: Call, reply: Reply): (r: Result<Exchange, Fault>)
    ensures r.Failure? <==> Route(call).Failure?
    ensures r.Failure? ==> r.error == TypeError
    ensures r.Success? ==>
      var out := Route(call).value;
      && r.value.sent == Request(out.verb, ToStr(cfg.baseUrl) + out.endpoint, Headers(cfg, sha256, drawn), Attach(out.data))
      && (r.value.result.Success? <==> reply.Answered?)
      && (reply.Answered? ==> r.value.result.value == reply.data)
      && (!reply.Answered? ==>
            r.value.result.error == (if reply.Rejected? && Truthy(Field(reply.data, "message"))
                                     then NewError(Field(reply.data, "message")) else Error(ServiceError)))
  {
    match Route(call)
    case Failure(e) => Failure(e)
    case Success(out) => Success(MakeRequest(cfg, sha256, drawn, out.verb, out.endpoint, out.data, reply))
  }

  /** The caller's body is sent as built, and the headers depend on the
      configuration and the drawn id alone — never on the operation or on the
      `request_id` the caller put in the body. */
  lemma HeadersIndependentOfCall(cfg: Config, sha256: string -> string, drawn: string, call: Call, reply: Reply)
    requires Route(call).Success?
    ensures Invoke(cfg, sha256, drawn, call, reply).value.sent.headers == Headers(cfg, sha256, drawn)
    ensures Route(call).value.verb == POST ==>
      Invoke(cfg, sha256, drawn, call, reply).value.sent.body == Some(Route(call).value.data)
    ensures Route(call).value.verb == GET ==> Invoke(cfg, sha256, drawn, call, reply).value.sent.body == None
  {
  }

  /** Airtime and data purchases are the same request. */
  lemma AirtimeAndDataAlike(requestId: Value, serviceID: Value, amount: Value, phone: Value, billersCode: Value)
    ensures Route(PurchaseAirtime(requestId, serviceID, amount, phone, billersCode))
         == Route(PurchaseData(requestId, serviceID, amount, phone, billersCode))
    ensures var r := Route(PurchaseAirtime(requestId, serviceID, amount, phone, billersCode));
            r.Success? && r.value.verb == POST && r.value.endpoint == "/pay"
  {
  }

  /** Electricity passes the meter number and plan through untouched; cable TV
      does too, and asks for one unit when the quantity is left off (an
      explicit `null` is sent as it is). Both pay through `/pay`. */
  lemma BillPaymentBodies(requestId: Value, serviceID: Value, amount: Value, phone: Value, billersCode: Value,
                          variationCode: Value, quantity: Value)
    ensures var e := Route(PayElectricity(requestId, serviceID, amount, phone, billersCode, variationCode)).value;
      && e.verb == POST && e.endpoint == "/pay"
      && e.data.fields["billersCode"] == billersCode && e.data.fields["variation_code"] == variationCode
      && e.data.fields["request_id"] == requestId
      && "quantity" !in e.data.fields
    ensures var c := Route(PayCableTV(requestId, serviceID, amount, phone, billersCode, variationCode, quantity)).value;
      && c.verb == POST && c.endpoint == "/pay"
      && c.data.fields["billersCode"] == billersCode && c.data.fields["variation_code"] == variationCode
      && c.data.fields["quantity"] == (if quantity.Undefined? then Num(1) else quantity)
  {
  }

  /** A requery sends exactly the caller's request id to `/requery`. */
  lemma RequeryBody(requestId: Value)
    ensures Route(CheckTransactionStatus(requestId))
         == Success(Outbound(POST, "/requery", Obj(map["request_id" := requestId])))
  {
  }

  // ---------------------------------------------------------------------------
  // Successive calls

  /** Whether a call gets as far as `makeRequest`, and so draws a request id:
      every call but a variations lookup whose service id cannot be written. */
  predicate Sends(c: (Call, Reply)) {
    !(c.0.GetServiceVariations? && !Convertible(c.0.serviceID))
  }

  /** A call with its reply is sent, with the id it is offered, exactly when
      it draws one. */
  lemma InvokeSends(cfg: Config, sha256: string -> string, drawn: string, c: (Call, Reply))
    ensures var r := Invoke(cfg, sha256, drawn, c.0, c.1);
      && (r.Success? <==> Sends(c))
      && (!Sends(c) ==> r == Failure(TypeError))
      && (Sends(c) ==> r.value.sent.headers == Headers(cfg, sha256, drawn))
  {
  }

  /** The draw each call of a run is offered, starting at draw `first`: a
      call that is not sent leaves its draw for the call after. */
  function Offers(first: nat, calls: seq<(Call, Reply)>): (o: seq<nat>)
    ensures |o| == |calls|
    decreases |calls|
  {
    if calls == [] then [] else [first] + Offers(first + (if Sends(calls[0]) then 1 else 0), calls[1..])
  }

  /** A run of calls through one adapter, each with its provider reply, each
      made with the id its draw from the supply `uuid` gives. */
  function InvokeAll(cfg: Config, sha256: string -> string, uuid: nat -> string, first: nat,
                     calls: seq<(Call, Reply)>): (xs: seq<Result<Exchange, Fault>>)
    ensures |xs| == |calls|
  {
    var offers := Offers(first, calls);
    seq(|calls|, i requires 0 <= i < |calls| => Invoke(cfg, sha256, uuid(offers[i]), calls[i].0, calls[i].1))
  }

  /** How many ids the calls draw. */
  function Drawn(calls: seq<(Call, Reply)>): nat
    decreases |calls|
  {
    if calls == [] then 0 else (if Sends(calls[0]) then 1 else 0) + Drawn(calls[1..])
  }

  lemma {:induction false} DrawnAppend(calls: seq<(Call, Reply)>, c: (Call, Reply))
    ensures Drawn(calls + [c]) == Drawn(calls) + (if Sends(c) then 1 else 0)
    decreases |calls|
  {
    if calls != [] {
      assert (calls + [c])[1..] == calls[1..] + [c];
      DrawnAppend(calls[1..], c);
    }
  }

  /** The `i`-th call of a run is offered the draw after those its predecessors took. */
  lemma {:induction false} NthCallOwnDraw(first: nat, calls: seq<(Call, Reply)>, i: nat)
    requires i < |calls|
    ensures Offers(first, calls)[i] == first + Drawn(calls[..i])
    decreases i
  {
    if i > 0 {
      var next := first + (if Sends(calls[0]) then 1 else 0);
      NthCallOwnDraw(next, calls[1..], i - 1);
      assert calls[..i][0] == calls[0] && calls[..i][1..] == calls[1..][..i - 1];
    }
  }

  /** A call that is sent is offered a draw no later call is offered: the
      count of draws before it is strictly below the count before any later call. */
  lemma {:induction false} DrawsIncrease(calls: seq<(Call, Reply)>, i: nat, j: nat)
    requires i < j <= |calls|
    requires Sends(calls[i])
    ensures Drawn(calls[..i]) < Drawn(calls[..j])
    decreases j
  {
    DrawnAppend(calls[..j - 1], calls[j - 1]);
    assert calls[..j - 1] + [calls[j - 1]] == calls[..j];
    if j - 1 > i {
      DrawsIncrease(calls, i, j - 1);
    }
  }

  /** Every call of a run that is sent carries, as its `request-id`, the draw
      after those of the sent calls before it, with a signature over that
      very id; a call that is not sent throws the TypeError. */
  lemma EachCallOwnRequestId(cfg: Config, sha256: string -> string, uuid: nat -> string,
                             first: nat, calls: seq<(Call, Reply)>)
    ensures var xs := InvokeAll(cfg, sha256, uuid, first, calls);
      && |xs| == |calls|
      && (forall i :: 0 <= i < |xs| ==> (xs[i].Success? <==> Sends(calls[i])))
      && (forall i :: 0 <= i < |xs| && !Sends(calls[i]) ==> xs[i] == Failure(TypeError))
      && (forall i :: 0 <= i < |xs| && Sends(calls[i]) ==>
            xs[i].value.sent.headers == Headers(cfg, sha256, uuid(first + Drawn(calls[..i]))))
  {
    var xs := InvokeAll(cfg, sha256, uuid, first, calls);
    forall i | 0 <= i < |xs|
      ensures xs[i].Success? <==> Sends(calls[i])
      ensures !Sends(calls[i]) ==> xs[i] == Failure(TypeError)
      ensures Sends(calls[i]) ==> xs[i].value.sent.headers == Headers(cfg, sha256, uuid(first + Drawn(calls[..i])))
    {
      NthCallOwnDraw(first, calls, i);
      InvokeSends(cfg, sha256, uuid(first + Drawn(calls[..i])), calls[i]);
    }
  }
}
