/** The Monnify adapter's authenticated calls: `makeRequest` (guard, bearer
    header, optional body, error message), the request bodies its domain
    operations build, and the `responseCode === '0'` envelope check each of
    them applies to the reply. `uuid(i)` is the `i`-th value `uuidv4()`
    returns during one operation; nothing is assumed about those values. */
module MonnifyApi {
  import opened Results
  import opened Js
  import opened Http
  import opened MonnifySession

  /** Everything an operation reads from outside: the refresh guard's clock
      readings and login reply, and the reply to the call itself. */
  datatype World = World(auth: AuthExchange, reply: Reply)

  const ServiceError := "Monnify service error"

  /** The authenticated call `makeRequest` issues once the guard has passed. */
  function ApiRequest(cfg: Config, token: Value, verb: Method, endpoint: string, data: Value): Request {
    Request(
      verb,
      ToStr(cfg.baseUrl) + endpoint,
      map["Authorization" := Str("Bearer " + ToStr(token)), "Content-Type" := JsonContent],
      Attach(data))
  }

  /** What `makeRequest` re-throws: `new Error` of the provider's
      `responseMessage` when the error carries a response body that has a
      truthy one, of the fixed service error otherwise. */
  function Thrown(reply: Reply): Fault {
    NewError(Or(ErrorField(reply, "responseMessage"), Str(ServiceError)))
  }

  /** `makeRequest(method, endpoint, data)`: run the refresh guard, then send
      the call with the session's bearer token and return the reply's data.
      A failed login, and a token the bearer header cannot be written from,
      carry no provider response, so both surface here as the fixed service
      error; the second sends nothing beyond the guard's own login. */
  function MakeRequest(cfg: Config, base64: string -> string, s: Session, w: World,
                       verb: Method, endpoint: string, data: Value): (st: Step<Value>)
    ensures var g := EnsureAuthenticated(cfg, base64, s, w.auth);
            var sendable := g.result.Success? && Convertible(g.session.accessToken);
      && st.session == g.session
      && (!sendable ==> st.sent == g.sent && st.result == Failure(Error(ServiceError)))
      && (sendable ==> st.sent == g.sent + [ApiRequest(cfg, g.session.accessToken, verb, endpoint, data)])
      && (sendable ==> (st.result.Success? <==> w.reply.Answered?))
      && (sendable && w.reply.Answered? ==> st.result.value == w.reply.data)
    ensures var g := EnsureAuthenticated(cfg, base64, s, w.auth);
            g.result.Success? && Convertible(g.session.accessToken) && !w.reply.Answered? ==>
      st.result == Failure(if w.reply.Rejected? && Truthy(Field(w.reply.data, "responseMessage"))
                           then NewError(Field(w.reply.data, "responseMessage")) else Error(ServiceError))
  {
    var g := EnsureAuthenticated(cfg, base64, s, w.auth);
    if g.result.Failure? || !Convertible(g.session.accessToken) then
      Step(g.session, g.sent, Failure(Error(ServiceError)))
    else
      var sent := g.sent + [ApiRequest(cfg, g.session.accessToken, verb, endpoint, data)];
      match w.reply
      case Answered(d) => Step(g.session, sent, Success(d))
      case _ => Step(g.session, sent, Failure(Thrown(w.reply)))
  }

  // ---------------------------------------------------------------------------
  // The response envelope

  /** The check every domain operation applies to the reply's data: return
      `responseBody` when `responseCode` is the string "0", otherwise throw
      `responseMessage`, or the operation's own message when that is falsy.
      Reading `responseCode` off a null or undefined reply throws a TypeError. */
  function Unwrap(response: Value, fallback: string): (r: Result<Value, Fault>)
    ensures Nullish(response) ==> r == Failure(TypeError)
    ensures !Nullish(response) ==> (r.Success? <==> Field(response, "responseCode") == Str("0"))
    ensures r.Success? ==> r.value == Field(response, "responseBody")
    ensures !Nullish(response) && r.Failure? ==>
      r.error == (if Truthy(Field(response, "responseMessage"))
                  then NewError(Field(response, "responseMessage")) else Error(fallback))
    ensures !Nullish(response) && r.Failure? ==>
      (r.error == TypeError <==> Truthy(Field(response, "responseMessage")) && !Convertible(Field(response, "responseMessage")))
  {
    if Nullish(response) then Failure(TypeError)
    else if Field(response, "responseCode") == Str("0") then Success(Field(response, "responseBody"))
    else Failure(NewError(Or(Field(response, "responseMessage"), Str(fallback))))
  }

  /** The provider's success envelope around a body. */
  function Envelope(code: string, body: Value, message: Value): Value {
    Obj(map["responseCode" := Str(code), "responseBody" := body, "responseMessage" := message])
  }

  /** Decoding inverts the provider's envelope: a "0" envelope yields its body,
      any other code yields its message or, lacking one, the fallback; a
      message that cannot be made a string throws a TypeError instead. */
  lemma EnvelopeRoundTrip(code: string, body: Value, message: Value, fallback: string)
    ensures code == "0" ==> Unwrap(Envelope(code, body, message), fallback) == Success(body)
    ensures code != "0" && Truthy(message) && Convertible(message) ==>
      Unwrap(Envelope(code, body, message), fallback) == Failure(Error(ToStr(message)))
    ensures code != "0" && Truthy(message) && !Convertible(message) ==>
      Unwrap(Envelope(code, body, message), fallback) == Failure(TypeError)
    ensures code != "0" && !Truthy(message) ==>
      Unwrap(Envelope(code, body, message), fallback) == Failure(Error(fallback))
  {
  }

  // ---------------------------------------------------------------------------
  // Domain operations

  /** The adapter's operations with their arguments; an argument the caller
      leaves off is `Undefined`. */
  datatype Call =
    | CreateReservedAccount(customerEmail: Value, customerName: Value, customerBvn: Value, currencyCode: Value)
    | GetReservedAccountDetails(accountReference: Value)
    | InitializePayment(amount: Value, customerName: Value, customerEmail: Value, paymentReference: Value,
                        paymentDescription: Value, redirectUrl: Value)
    | VerifyTransaction(transactionReference: Value)
    | GetTransactionStatus(transactionReference: Value)
    | GetAllTransactions(page: Value, size: Value)
    | GetBanks
    | SinglePayout(amount: Value, reference: Value, narration: Value, destinationBankCode: Value,
                   destinationAccountNumber: Value, destinationAccountName: Value, currency: Value)
    | BulkPayout(title: Value, payoutItems: Value)
    | GetPayoutStatus(payoutReference: Value)
    | GetAccountBalance

  /** What an operation hands to `makeRequest`. */
  datatype Outbound = Outbound(verb: Method, endpoint: string, data: Value)

  /** The message an operation throws when the envelope's code is not "0" and
      it carries no truthy `responseMessage`. Each one reads "Failed to ...",
      so a rejected envelope never throws an empty message. */
  function DefaultMessage(call: Call): (m: string)
    ensures |m| > 10 && m[..10] == "Failed to "
  {
    match call
    case CreateReservedAccount(_, _, _, _) => "Failed to create reserved account"
    case GetReservedAccountDetails(_) => "Failed to get reserved account details"
    case InitializePayment(_, _, _, _, _, _) => "Failed to initialize payment"
    case VerifyTransaction(_) => "Failed to verify transaction"
    case GetTransactionStatus(_) => "Failed to verify transaction"
    case GetAllTransactions(_, _) => "Failed to get transactions"
    case GetBanks => "Failed to get banks"
    case SinglePayout(_, _, _, _, _, _, _) => "Failed to process payout"
    case BulkPayout(_, _) => "Failed to process bulk payout"
    case GetPayoutStatus(_) => "Failed to get payout status"
    case GetAccountBalance => "Failed to get account balance"
  }

  /** The reserved-account body: a newly generated `accountReference`, the customer's
      name as the account name, the `bvn` only when one is given, Wema (035)
      and Sterling (232) as the only banks. */
  function ReservedAccountBody(cfg: Config, uuid: nat -> string, customerEmail: Value, customerName: Value,
                               customerBvn: Value, currencyCode: Value): (body: Value)
    ensures body.Obj?
    ensures var f := body.fields;
      && f.Keys == {"accountReference", "accountName", "currencyCode", "contractCode", "customerEmail",
                    "customerName", "getAllAvailableBanks", "preferredBanks"}
                   + (if Truthy(customerBvn) then {"bvn"} else {})
      && f["accountReference"] == Str(uuid(0))
      && f["accountName"] == customerName && f["customerName"] == customerName
      && f["customerEmail"] == customerEmail
      && f["currencyCode"] == (if currencyCode.Undefined? then Str("NGN") else currencyCode)
      && f["contractCode"] == cfg.contractCode
      && f["getAllAvailableBanks"] == Bool(false)
      && f["preferredBanks"] == Arr([Str("035"), Str("232")])
      && ("bvn" in f ==> f["bvn"] == customerBvn)
  {
    var bvn := DefaultParam(customerBvn, Null);
    var base := map[
      "accountReference" := Str(uuid(0)),
      "accountName" := customerName,
      "currencyCode" := DefaultParam(currencyCode, Str("NGN")),
      "contractCode" := cfg.contractCode,
      "customerEmail" := customerEmail,
      "customerName" := customerName,
      "getAllAvailableBanks" := Bool(false),
      "preferredBanks" := Arr([Str("035"), Str("232")])];
    Obj(if Truthy(bvn) then base["bvn" := bvn] else base)
  }

  /** The payment-initialisation body: the caller's reference, always in naira,
      by card or account transfer. */
  function PaymentBody(cfg: Config, amount: Value, customerName: Value, customerEmail: Value,
                       paymentReference: Value, paymentDescription: Value, redirectUrl: Value): (body: Value)
    ensures body.Obj?
    ensures body.fields.Keys == {"amount", "customerName", "customerEmail", "paymentReference",
                                 "paymentDescription", "currencyCode", "contractCode", "redirectUrl", "paymentMethods"}
    ensures body.fields["paymentReference"] == paymentReference && body.fields["amount"] == amount
    ensures body.fields["customerName"] == customerName && body.fields["customerEmail"] == customerEmail
    ensures body.fields["paymentDescription"] == paymentDescription && body.fields["redirectUrl"] == redirectUrl
    ensures body.fields["contractCode"] == cfg.contractCode
    ensures body.fields["currencyCode"] == Str("NGN")
    ensures body.fields["paymentMethods"] == Arr([Str("CARD"), Str("ACCOUNT_TRANSFER")])
  {
    Obj(map[
      "amount" := amount,
      "customerName" := customerName,
      "customerEmail" := customerEmail,
      "paymentReference" := paymentReference,
      "paymentDescription" := paymentDescription,
      "currencyCode" := Str("NGN"),
      "contractCode" := cfg.contractCode,
      "redirectUrl" := redirectUrl,
      "paymentMethods" := Arr([Str("CARD"), Str("ACCOUNT_TRANSFER")])])
  }

  /** The single-payout body: the caller's own reference, the currency
      defaulted only when the argument is left off, an empty source account. */
  function SinglePayoutBody(amount: Value, reference: Value, narration: Value, destinationBankCode: Value,
                            destinationAccountNumber: Value, destinationAccountName: Value,
                            currency: Value): (body: Value)
    ensures body.Obj?
    ensures body.fields.Keys == {"amount", "reference", "narration", "destinationBankCode",
                                 "destinationAccountNumber", "destinationAccountName", "currency", "sourceAccountNumber"}
    ensures body.fields["reference"] == reference && body.fields["amount"] == amount
    ensures body.fields["narration"] == narration
    ensures body.fields["destinationBankCode"] == destinationBankCode
    ensures body.fields["destinationAccountNumber"] == destinationAccountNumber
    ensures body.fields["destinationAccountName"] == destinationAccountName
    ensures body.fields["currency"] == (if currency.Undefined? then Str("NGN") else currency)
    ensures body.fields["sourceAccountNumber"] == Str("")
  {
    Obj(map[
      "amount" := amount,
      "reference" := reference,
      "narration" := narration,
      "destinationBankCode" := destinationBankCode,
      "destinationAccountNumber" := destinationAccountNumber,
      "destinationAccountName" := destinationAccountName,
      "currency" := DefaultParam(currency, Str("NGN")),
      "sourceAccountNumber" := Str("")])
  }

  /** How bulk payout rewrites one item into `m`: its own properties kept,
      `reference` replaced by the generated one, `currency` its own when truthy
      and naira otherwise. */
  ghost predicate ItemRewritten(item: Value, reference: string, m: map<string, Value>) {
    && "reference" in m && m["reference"] == Str(reference)
    && "currency" in m
    && m["currency"] == (if Truthy(Field(item, "currency")) then Field(item, "currency") else Str("NGN"))
    && (forall k :: k != "reference" && k != "currency" ==> (k in m <==> k in Spread(item)))
    && (forall k :: k in m && k != "reference" && k != "currency" ==> m[k] == Spread(item)[k])
  }

  /** `({...item, reference: uuidv4(), currency: item.currency || 'NGN'})`;
      reading `currency` off a null or undefined item throws. */
  function RewriteItem(item: Value, reference: string): (r: Result<Value, Fault>)
    ensures r.Failure? <==> Nullish(item)
    ensures r.Failure? ==> r.error == TypeError
    ensures r.Success? ==> r.value.Obj? && ItemRewritten(item, reference, r.value.fields)
  {
    match Get(item, "currency")
    case Failure(e) => Failure(e)
    case Success(currency) =>
      Success(Obj(Spread(item)["reference" := Str(reference)]["currency" := Or(currency, Str("NGN"))]))
  }

  /** `payoutItems.map(...)` with the items' references drawn from `uuid(first)` on. */
  function RewriteItems(items: seq<Value>, uuid: nat -> string, first: nat): (r: Result<seq<Value>, Fault>)
    ensures r.Success? <==> forall i :: 0 <= i < |items| ==> !Nullish(items[i])
    ensures r.Failure? ==> r.error == TypeError
    ensures r.Success? ==>
      && |r.value| == |items|
      && forall i :: 0 <= i < |items| ==>
           r.value[i].Obj? && ItemRewritten(items[i], uuid(first + i), r.value[i].fields)
    decreases |items|
  {
    if items == [] then Success([])
    else
      match RewriteItem(items[0], uuid(first))
      case Failure(e) => Failure(e)
      case Success(head) =>
        match RewriteItems(items[1..], uuid, first + 1)
        case Failure(e) => Failure(e)
        case Success(tail) =>
          var r := [head] + tail;
          assert forall i :: 0 <= i < |items| ==>
                   r[i].Obj? && ItemRewritten(items[i], uuid(first + i), r[i].fields) by {
            forall i | 0 <= i < |items|
              ensures r[i].Obj? && ItemRewritten(items[i], uuid(first + i), r[i].fields)
            {
              if i > 0 {
                assert r[i] == tail[i - 1] && items[i] == items[1..][i - 1];
              }
            }
          }
          Success(r)
  }

  /** The bulk-payout body: the title, one uuid `batchReference`, and every
      item rewritten with its own uuid reference. The caller's payout items
      must be an array of non-null values, or building the body throws. */
  function BulkPayoutBody(title: Value, payoutItems: Value, uuid: nat -> string): (r: Result<Value, Fault>)
    ensures r.Success? <==> payoutItems.Arr? && forall i :: 0 <= i < |payoutItems.items| ==> !Nullish(payoutItems.items[i])
    ensures r.Failure? ==> r.error == TypeError
    ensures r.Success? ==>
      && r.value.Obj?
      && r.value.fields.Keys == {"title", "batchReference", "payoutItems"}
      && r.value.fields["title"] == title
      && r.value.fields["batchReference"] == Str(uuid(0))
      && r.value.fields["payoutItems"].Arr?
      && |r.value.fields["payoutItems"].items| == |payoutItems.items|
      && forall i :: 0 <= i < |payoutItems.items| ==>
           var item := r.value.fields["payoutItems"].items[i];
           item.Obj? && ItemRewritten(payoutItems.items[i], uuid(i + 1), item.fields)
  {
    match payoutItems
    case Arr(a) =>
      (match RewriteItems(a, uuid, 1)
       case Failure(e) => Failure(e)
       case Success(items) =>
         Success(Obj(map["title" := title, "batchReference" := Str(uuid(0)), "payoutItems" := Arr(items)])))
    case _ => Failure(TypeError)
  }

  /** The HTTP method of each operation. */
  function Verb(call: Call): Method {
    match call
    case CreateReservedAccount(_, _, _, _) => POST
    case InitializePayment(_, _, _, _, _, _) => POST
    case SinglePayout(_, _, _, _, _, _, _) => POST
    case BulkPayout(_, _) => POST
    case _ => GET
  }

  /** `p` begins with `/api/v1/` or `/api/v2/`. */
  predicate VersionedPath(p: string) {
    && |p| > 8
    && (forall i :: 0 <= i < 6 ==> p[i] == "/api/v"[i])
    && (p[6] == '1' || p[6] == '2') && p[7] == '/'
  }

  /** A path under version `version` (1 or 2) of the provider's API. */
  function ApiPath(version: char, resource: string): (p: string)
    requires version == '1' || version == '2'
    requires resource != ""
    ensures VersionedPath(p)
  {
    "/api/v" + [version] + "/" + resource
  }

  /** Whether the arguments an operation writes into its path can be made
      strings; `getAllTransactions` writes its defaulted page and size. */
  predicate Interpolable(call: Call) {
    match call
    case GetReservedAccountDetails(ref) => Convertible(ref)
    case VerifyTransaction(ref) => Convertible(ref)
    case GetTransactionStatus(ref) => Convertible(ref)
    case GetAllTransactions(page, size) =>
      Convertible(DefaultParam(page, Num(0))) && Convertible(DefaultParam(size, Num(10)))
    case GetPayoutStatus(ref) => Convertible(ref)
    case _ => true
  }

  /** The path of each operation, with its arguments interpolated. Every one
      is a versioned API path, whatever the arguments. */
  function Path(call: Call): (p: string)
    requires Interpolable(call)
    ensures VersionedPath(p)
  {
    match call
    case CreateReservedAccount(_, _, _, _) => ApiPath('2', "bank-transfer/reserved-accounts")
    case GetReservedAccountDetails(ref) => ApiPath('2', "bank-transfer/reserved-accounts/" + ToStr(ref))
    case InitializePayment(_, _, _, _, _, _) => ApiPath('1', "merchant/transactions/init-transaction")
    case VerifyTransaction(ref) => ApiPath('2', "transactions/" + ToStr(ref))
    case GetTransactionStatus(ref) => ApiPath('2', "transactions/" + ToStr(ref))
    case GetAllTransactions(page, size) =>
      ApiPath('1', "merchant/transactions/search?accountNumber=&page=" + ToStr(DefaultParam(page, Num(0)))
           + "&size=" + ToStr(DefaultParam(size, Num(10))))
    case GetBanks => ApiPath('1', "banks")
    case SinglePayout(_, _, _, _, _, _, _) => ApiPath('2', "disbursements/single")
    case BulkPayout(_, _) => ApiPath('1', "disbursements/batch")
    case GetPayoutStatus(ref) => ApiPath('1', "disbursements/" + ToStr(ref))
    case GetAccountBalance => ApiPath('1', "bank-transfer/wallet-balance")
  }

  /** The data each operation passes to `makeRequest` (`null` when it passes
      none); only bulk payout can throw while building it. Reads carry no
      body and writes always carry an object. */
  function Payload(cfg: Config, uuid: nat -> string, call: Call): (r: Result<Value, Fault>)
    ensures r.Failure? <==> call.BulkPayout? && BulkPayoutBody(call.title, call.payoutItems, uuid).Failure?
    ensures r.Success? && Verb(call) == POST ==> r.value.Obj?
  {
    match call
    case CreateReservedAccount(email, name, bvn, currency) =>
      Success(ReservedAccountBody(cfg, uuid, email, name, bvn, currency))
    case InitializePayment(amount, name, email, ref, description, redirectUrl) =>
      Success(PaymentBody(cfg, amount, name, email, ref, description, redirectUrl))
    case SinglePayout(amount, ref, narration, bankCode, accountNumber, accountName, currency) =>
      Success(SinglePayoutBody(amount, ref, narration, bankCode, accountNumber, accountName, currency))
    case BulkPayout(title, items) => BulkPayoutBody(title, items, uuid)
    case _ => Success(Null)
  }

  /** A read passes no data. */
  lemma ReadsCarryNoData(cfg: Config, uuid: nat -> string, call: Call)
    requires Verb(call) == GET
    ensures Payload(cfg, uuid, call) == Success(Null)
  {
  }

  /** The method agrees with the data: an operation POSTs exactly when it
      passes an object, and GETs exactly when it passes none. */
  lemma VerbMatchesPayload(cfg: Config, uuid: nat -> string, call: Call)
    requires Payload(cfg, uuid, call).Success?
    ensures Verb(call) == POST <==> Payload(cfg, uuid, call).value.Obj?
    ensures Verb(call) == GET <==> Payload(cfg, uuid, call).value == Null
  {
  }

  /** What an operation hands to `makeRequest`, or the TypeError it throws
      first: building the bulk-payout body, or writing an argument into the
      path, happens before `makeRequest` is reached. */
  function Prepare(cfg: Config, uuid: nat -> string, call: Call): (r: Result<Outbound, Fault>)
    ensures r.Failure? <==> !Interpolable(call) || Payload(cfg, uuid, call).Failure?
    ensures r.Failure? ==> r.error == TypeError
    ensures r.Success? ==>
      && VersionedPath(r.value.endpoint)
      && r.value.data == Payload(cfg, uuid, call).value
      && (r.value.verb == POST <==> r.value.data.Obj?)
      && (r.value.verb == GET <==> r.value.data == Null)
  {
    if !Interpolable(call) then Failure(TypeError)
    else
      match Payload(cfg, uuid, call)
      case Failure(e) => Failure(e)
      case Success(data) =>
        VerbMatchesPayload(cfg, uuid, call);
        Success(Outbound(Verb(call), Path(call), data))
  }

  /** One domain operation, end to end: build the body and the path, make
      the guarded call, and decode the envelope of what comes back. A body or
      path that cannot be built throws before anything is sent; a failed login
      or an unwritable token throws the generic service error; a call the
      provider rejects or never answers throws its `responseMessage` or the
      generic error; a 2xx reply is decoded by the envelope check with the
      operation's own fallback message. */
  function Invoke(cfg: Config, base64: string -> string, uuid: nat -> string, s: Session, w: World,
                  call: Call): (st: Step<Value>)
    ensures Prepare(cfg, uuid, call).Failure? ==> st == Step(s, [], Failure(TypeError))
    ensures Prepare(cfg, uuid, call).Success? ==>
      var out := Prepare(cfg, uuid, call).value;
      var g := EnsureAuthenticated(cfg, base64, s, w.auth);
      var sendable := g.result.Success? && Convertible(g.session.accessToken);
      && st.session == g.session
      && (!sendable ==> st.sent == g.sent && st.result == Failure(Error(ServiceError)))
      && (sendable ==> st.sent == g.sent + [ApiRequest(cfg, g.session.accessToken, out.verb, out.endpoint, out.data)])
    ensures var g := EnsureAuthenticated(cfg, base64, s, w.auth);
      Prepare(cfg, uuid, call).Success? && g.result.Success? && Convertible(g.session.accessToken) ==>
      match w.reply
      case Answered(d) =>
        && (Nullish(d) ==> st.result == Failure(TypeError))
        && (!Nullish(d) ==> (st.result.Success? <==> Field(d, "responseCode") == Str("0")))
        && (!Nullish(d) && st.result.Success? ==> st.result.value == Field(d, "responseBody"))
        && (!Nullish(d) && st.result.Failure? ==>
              st.result.error == (if Truthy(Field(d, "responseMessage"))
                                  then NewError(Field(d, "responseMessage")) else Error(DefaultMessage(call))))
      case _ =>
        st.result == Failure(if w.reply.Rejected? && Truthy(Field(w.reply.data, "responseMessage"))
                             then NewError(Field(w.reply.data, "responseMessage")) else Error(ServiceError))
  {
    match Prepare(cfg, uuid, call)
    case Failure(e) => Step(s, [], Failure(e))
    case Success(out) =>
      var m := MakeRequest(cfg, base64, s, w, out.verb, out.endpoint, out.data);
      match m.result
      case Failure(_) => m
      case Success(response) => Step(m.session, m.sent, Unwrap(response, DefaultMessage(call)))
  }

  /** Every domain operation that gets its call out returns the reply's
      `responseBody` exactly when the 2xx reply's `responseCode` is the string
      "0"; otherwise it throws the provider's `responseMessage` or, when that
      is falsy, its own message. A token the bearer header cannot be written
      from stops the call with the generic service error instead. */
  lemma InvokeEnvelope(cfg: Config, base64: string -> string, uuid: nat -> string, s: Session, w: World, call: Call)
    requires Prepare(cfg, uuid, call).Success?
    requires EnsureAuthenticated(cfg, base64, s, w.auth).result.Success?
    requires w.reply.Answered? && !Nullish(w.reply.data)
    ensures var st := Invoke(cfg, base64, uuid, s, w, call);
            var d := w.reply.data;
            Convertible(EnsureAuthenticated(cfg, base64, s, w.auth).session.accessToken) ==>
      && (st.result.Success? <==> Field(d, "responseCode") == Str("0"))
      && (st.result.Success? ==> st.result.value == Field(d, "responseBody"))
      && (st.result.Failure? ==>
            st.result.error == (if Truthy(Field(d, "responseMessage"))
                                then NewError(Field(d, "responseMessage")) else Error(DefaultMessage(call))))
    ensures !Convertible(EnsureAuthenticated(cfg, base64, s, w.auth).session.accessToken) ==>
      Invoke(cfg, base64, uuid, s, w, call).result == Failure(Error(ServiceError))
  {
  }

  /** A failed login aborts every operation before its own call is sent, with
      the generic service error rather than the login's message, and leaves
      the expiry as it was; the token too, unless the login got as far as
      storing one. */
  lemma LoginFailureMasked(cfg: Config, base64: string -> string, uuid: nat -> string, s: Session, w: World,
                           call: Call)
    requires Prepare(cfg, uuid, call).Success?
    requires NeedsAuth(s, w.auth.checkedAt) && !LoginAccepted(w.auth.reply)
    ensures var st := Invoke(cfg, base64, uuid, s, w, call);
      && st.result == Failure(Error(ServiceError))
      && st.sent == [LoginRequest(cfg, base64)]
      && st.session.tokenExpiry == s.tokenExpiry
      && (!TokenStored(w.auth.reply) ==> st.session == s)
  {
  }

  /** With a valid token, an operation sends exactly its own call, bearing that
      token, and leaves the session unchanged; a token that cannot be written
      into the header sends nothing at all. */
  lemma ValidTokenReused(cfg: Config, base64: string -> string, uuid: nat -> string, s: Session, w: World,
                         call: Call)
    requires Prepare(cfg, uuid, call).Success?
    requires !NeedsAuth(s, w.auth.checkedAt)
    ensures var st := Invoke(cfg, base64, uuid, s, w, call);
            var out := Prepare(cfg, uuid, call).value;
      && st.session == s
      && (Convertible(s.accessToken) ==>
            && st.sent == [ApiRequest(cfg, s.accessToken, out.verb, out.endpoint, out.data)]
            && st.sent[0].headers["Authorization"] == Str("Bearer " + ToStr(s.accessToken)))
      && (!Convertible(s.accessToken) ==> st.sent == [] && st.result == Failure(Error(ServiceError)))
  {
  }

  /** `getTransactionStatus` is `verifyTransaction` under another name. */
  lemma TransactionStatusIsVerify(cfg: Config, base64: string -> string, uuid: nat -> string, s: Session,
                                  w: World, ref: Value)
    ensures Invoke(cfg, base64, uuid, s, w, GetTransactionStatus(ref))
         == Invoke(cfg, base64, uuid, s, w, VerifyTransaction(ref))
  {
  }

  /** The two payout paths default the currency differently: a single payout
      keeps an explicit empty currency (only an omitted one becomes naira),
      while bulk payout replaces every falsy currency with naira. */
  lemma CurrencyDefaultsDiffer(uuid: nat -> string, amount: Value, ref: Value, narration: Value, bank: Value,
                               account: Value, name: Value)
    ensures SinglePayoutBody(amount, ref, narration, bank, account, name, Str("")).fields["currency"] == Str("")
    ensures var item := Obj(map["amount" := amount, "currency" := Str("")]);
            var r := BulkPayoutBody(Str("t"), Arr([item]), uuid);
            r.Success? && r.value.fields["payoutItems"].items[0].fields["currency"] == Str("NGN")
  {
    var item := Obj(map["amount" := amount, "currency" := Str("")]);
    var r := BulkPayoutBody(Str("t"), Arr([item]), uuid);
    assert r.Success?;
    assert ItemRewritten(item, uuid(1), r.value.fields["payoutItems"].items[0].fields);
  }
}
