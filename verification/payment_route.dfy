/** The payment-intent endpoint: POST validates a request and records a
    pending payment, a later completion step marks it completed, and GET
    looks a payment up by id. The database is a map from id to record. */
module PaymentRoute {
  import opened Js
  import opened Strings

  type Id = string

  datatype Method = Bkash | Nagad {
    /** The lower-case name under which the method is stored. */
    function Name(): string {
      match this
      case Bkash => "bkash"
      case Nagad => "nagad"
    }
  }

  datatype Status = Pending | Completed {
    function Name(): string {
      match this
      case Pending => "pending"
      case Completed => "completed"
    }
  }

  /** A stored payment. The amount is kept as the text the client sent. */
  datatype Payment = Payment(
    id: Id,
    service: string,
    amount: string,
    paymentMethod: Method,
    phone: string,
    transactionId: string,
    userId: string,
    status: Status,
    createdAt: int)

  type Store = map<Id, Payment>

  /** The fields of the POST body; `None` is a missing or null field. */
  datatype PaymentRequest = PaymentRequest(
    service: Option<string>,
    amount: Option<string>,
    paymentMethod: Option<string>,
    phone: Option<string>,
    transactionId: Option<string>,
    userId: Option<string>)

  datatype Body =
    | Error(error: string)
    | Initiated(message: string, paymentId: Id, paymentStatus: string)
    | Found(payment: Payment)

  datatype Response = Response(code: nat, body: Body)

  /** The handler's reply together with the store it leaves behind. */
  datatype Outcome = Outcome(store: Store, response: Response)

  const MissingFields := "All payment fields are required"
  const InvalidMethod := "Invalid payment method. Use \"bkash\" or \"nagad\""
  const ProcessFailed := "Failed to process payment"
  const InitiatedMessage := "Payment initiated successfully!"
  const IdRequired := "Payment ID is required"
  const NotFound := "Payment not found"
  const FetchFailed := "Failed to fetch payment"

  /** The five fields POST insists on are all truthy. */
  predicate HasRequiredFields(req: PaymentRequest) {
    && Truthy(req.service)
    && Truthy(req.amount)
    && Truthy(req.paymentMethod)
    && Truthy(req.phone)
    && Truthy(req.transactionId)
  }

  /** The method named by a client string, compared case-insensitively. */
  function ParseMethod(name: string): (m: Option<Method>)
    ensures m.Some? <==> Lower(name) in {"bkash", "nagad"}
    ensures m.Some? ==> m.value.Name() == Lower(name)
  {
    var lower := Lower(name);
    if lower == "bkash" then Some(Bkash)
    else if lower == "nagad" then Some(Nagad)
    else None
  }

  /** The record POST creates from a validated request. */
  function NewPayment(req: PaymentRequest, m: Method, id: Id, now: int): Payment
    requires HasRequiredFields(req)
  {
    Payment(id, req.service.value, req.amount.value, m, req.phone.value,
            req.transactionId.value, Or(req.userId, "anonymous"), Pending, now)
  }

  /** POST. `body` is `None` when the request body cannot be destructured
      (invalid JSON or `null`);
      `newId` is the id the database assigns; `storeOk` is false when the
      database write fails. */
  function Post(store: Store, body: Option<PaymentRequest>, newId: Id, now: int, storeOk: bool): (r: Outcome)
    requires newId !in store
    // Nothing is written unless a newId record is added.
    ensures r.store == store || (newId in r.store && r.store == store[newId := r.store[newId]])
    // A malformed body or a failed write is a generic 500 and writes nothing.
    ensures body.None? ==> r == Outcome(store, Response(500, Error(ProcessFailed)))
    ensures body.Some? && !HasRequiredFields(body.value)
            ==> r == Outcome(store, Response(400, Error(MissingFields)))
    ensures body.Some? && HasRequiredFields(body.value)
            && Lower(body.value.paymentMethod.value) !in {"bkash", "nagad"}
            ==> r == Outcome(store, Response(400, Error(InvalidMethod)))
    ensures body.Some? && HasRequiredFields(body.value)
            && Lower(body.value.paymentMethod.value) in {"bkash", "nagad"} && !storeOk
            ==> r == Outcome(store, Response(500, Error(ProcessFailed)))
    // Success: exactly one new pending record, built from the request.
    ensures r.response.code == 200 <==>
            body.Some? && HasRequiredFields(body.value)
            && Lower(body.value.paymentMethod.value) in {"bkash", "nagad"} && storeOk
    ensures r.response.code == 200 ==>
            && newId in r.store
            && r.store.Keys == store.Keys + {newId}
            && |r.store| == |store| + 1
            && r.response.body == Initiated(InitiatedMessage, newId, "pending")
            && var p := r.store[newId];
               && p.id == newId
               && p.paymentMethod.Name() == Lower(body.value.paymentMethod.value)
               && p.service == body.value.service.value
               && p.amount == body.value.amount.value
               && p.phone == body.value.phone.value
               && p.transactionId == body.value.transactionId.value
               && (Truthy(body.value.userId) ==> p.userId == body.value.userId.value)
               && (!Truthy(body.value.userId) ==> p.userId == "anonymous")
               && p.status == Pending
               && p.createdAt == now
  {
    match body
    case None => Outcome(store, Response(500, Error(ProcessFailed)))
    case Some(req) =>
      if !HasRequiredFields(req) then Outcome(store, Response(400, Error(MissingFields)))
      else match ParseMethod(req.paymentMethod.value)
        case None => Outcome(store, Response(400, Error(InvalidMethod)))
        case Some(m) =>
          if !storeOk then Outcome(store, Response(500, Error(ProcessFailed)))
          else
            var p := NewPayment(req, m, newId, now);
            Outcome(store[newId := p], Response(200, Initiated(InitiatedMessage, newId, "pending")))
  }

  /** The delayed verification step: the record's status becomes completed.
      An id that is not stored leaves the store as it is (the update is
      rejected; the handler does not catch that rejection and it never
      reaches the caller). */
  function Complete(store: Store, id: Id): (r: Store)
    ensures r.Keys == store.Keys
    ensures id in store ==> r[id] == store[id].(status := Completed)
    ensures forall k | k in store && k != id :: r[k] == store[k]
    ensures id !in store ==> r == store
  {
    if id in store then store[id := store[id].(status := Completed)] else store
  }

  /** GET. `paymentId` is the query parameter; `storeOk` is false when the
      database read fails. */
  function Get(store: Store, paymentId: Option<Id>, storeOk: bool): (r: Response)
    ensures !Truthy(paymentId) ==> r == Response(400, Error(IdRequired))
    ensures Truthy(paymentId) && !storeOk ==> r == Response(500, Error(FetchFailed))
    ensures Truthy(paymentId) && storeOk && paymentId.value !in store
            ==> r == Response(404, Error(NotFound))
    ensures r.code == 200 <==> Truthy(paymentId) && storeOk && paymentId.value in store
    ensures r.code == 200 ==> r.body == Found(store[paymentId.value])
  {
    if !Truthy(paymentId) then Response(400, Error(IdRequired))
    else if !storeOk then Response(500, Error(FetchFailed))
    else if paymentId.value !in store then Response(404, Error(NotFound))
    else Response(200, Found(store[paymentId.value]))
  }

  /** Every stored method is one of the two accepted ones, named in lower case. */
  ghost predicate MethodsNormalised(store: Store) {
    forall k | k in store :: store[k].paymentMethod.Name() in {"bkash", "nagad"} && store[k].id == k
  }

  /** POST and the completion step keep every stored record keyed by its own
      id with a normalised method. */
  lemma {:induction false} StepsKeepStoreWellFormed(store: Store, body: Option<PaymentRequest>, newId: Id, now: int, storeOk: bool, id: Id)
    requires newId !in store
    requires MethodsNormalised(store)
    ensures MethodsNormalised(Post(store, body, newId, now, storeOk).store)
    ensures MethodsNormalised(Complete(store, id))
  {
  }

  /** The status only moves forward: completing twice is completing once,
      and no step turns a completed payment back to pending. */
  lemma CompletionIsForwardOnly(store: Store, id: Id, other: Id, body: Option<PaymentRequest>, newId: Id, now: int, storeOk: bool)
    requires newId !in store
    ensures Complete(Complete(store, id), id) == Complete(store, id)
    ensures other in store && store[other].status == Completed
            ==> (&& Complete(store, id)[other].status == Completed
                 && Post(store, body, newId, now, storeOk).store[other].status == Completed)
  {
  }

  /** A payment looked up right after it is initiated is pending; looked up
      after the completion step it is completed, and otherwise unchanged. */
  lemma InitiateThenLookUp(store: Store, req: PaymentRequest, newId: Id, now: int)
    requires newId !in store && newId != ""
    requires HasRequiredFields(req) && Lower(req.paymentMethod.value) in {"bkash", "nagad"}
    ensures var posted := Post(store, Some(req), newId, now, true);
            var before := Get(posted.store, Some(newId), true);
            var after := Get(Complete(posted.store, newId), Some(newId), true);
            && before.code == 200 && before.body.payment.status == Pending
            && after.code == 200 && after.body.payment.status == Completed
            && after.body.payment == before.body.payment.(status := Completed)
  {
  }

  /** A stored method name parses back to the same method, whatever its
      letter case. */
  lemma MethodNamesRoundTrip(m: Method)
    ensures ParseMethod(m.Name()) == Some(m)
    ensures ParseMethod("bKash") == Some(Bkash) && ParseMethod("NAGAD") == Some(Nagad)
    ensures ParseMethod("paypal") == None
  {
    LowerIs("bkash", "bkash");
    LowerIs("nagad", "nagad");
    LowerIs("bKash", "bkash");
    LowerIs("NAGAD", "nagad");
  }

  lemma LowerIs(s: string, lower: string)
    requires |s| == |lower|
    requires forall k | 0 <= k < |s| :: LowerChar(s[k]) == lower[k]
    ensures Lower(s) == lower
  {
  }

  /** A "bKash" payment from a guest is stored as a pending "bkash" payment
      of "anonymous"; the same request with "paypal" is refused and stores
      nothing. */
  lemma InitiationScenarios(store: Store, newId: Id, now: int)
    requires newId !in store
    ensures var r := Post(store, Some(PaymentRequest(Some("Web Development"), Some("15000"), Some("bKash"),
                                                     Some("01712345678"), Some("TXN123"), None)), newId, now, true);
            && r.response.code == 200
            && r.store[newId].paymentMethod.Name() == "bkash"
            && r.store[newId].userId == "anonymous"
            && r.store[newId].status == Pending
    ensures Post(store, Some(PaymentRequest(Some("Web Development"), Some("15000"), Some("paypal"),
                                            Some("01712345678"), Some("TXN123"), None)), newId, now, true)
            == Outcome(store, Response(400, Error(InvalidMethod)))
  {
  }
}
