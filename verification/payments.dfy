/** The payment endpoints: `initialize_payment` (guards, provider call, record
    creation) and the provider webhook `verify_payment_webhook` (signature check,
    event dispatch, record and transaction updates). The provider's reply, the
    generated reference and the HMAC-SHA512 signer are arguments. */
module Payments {
  import opened Wrappers

  datatype TransactionStatus = PaymentInitiated | PaymentConfirmed | Completed | OtherStatus(name: string)

  datatype PaymentStatus = Pending | Success | Failed

  datatype Transaction = Transaction(buyerId: string, totalAmount: int, status: TransactionStatus)

  /** The parsed webhook body: its `event` and its `data.reference`. */
  datatype Payload = Payload(event: Option<string>, reference: Option<string>)

  /** What the record keeps from the provider: the access code at creation, the whole
      webhook payload after an event. */
  datatype ProviderData = AccessCode(code: Option<string>) | WebhookData(payload: Payload)

  datatype PaymentRecord = PaymentRecord(
    transactionId: string, paymentMethod: string, amount: int, currency: string,
    reference: string, status: PaymentStatus, providerData: ProviderData)

  /** The payment provider's answer to the initialisation call. */
  datatype ProviderReply =
    | ProviderThrew(message: string)
    | ProviderAnswered(status: bool, authorizationUrl: Option<string>, accessCode: Option<string>)

  datatype InitResult =
    | HttpError(code: int, detail: string)
    | AlreadyPaid
    | Initialized(authorizationUrl: Option<string>, reference: string, accessCode: Option<string>)

  datatype WebhookResult =
    | Rejected(code: int, detail: string)
    | Ignored(message: Option<string>)
    | RecordNotFound
    | PaymentVerified
    | PaymentMarkedFailed

  /** The store: transactions by their id and payment records by their reference. */
  datatype PaymentDb = PaymentDb(transactions: map<string, Transaction>, records: map<string, PaymentRecord>)

  const ReferencePrefix := "pay_"

  /** `f"pay_{uuid.uuid4().hex[:12]}"` */
  function PaymentReference(uuidHex: string): (r: string)
    requires |uuidHex| == 32
    ensures |r| == 16 && r[..4] == ReferencePrefix && r[4..] == uuidHex[..12]
  {
    ReferencePrefix + uuidHex[..12]
  }

  predicate AlreadyPaidStatus(s: TransactionStatus) {
    s == PaymentConfirmed || s == Completed
  }

  // ---------------------------------------------------------------------------
  // initialize_payment

  /** The response and the store after `initialize_payment`. */
  function Initialize(db: PaymentDb, transactionId: string, reference: string, reply: ProviderReply): (InitResult, PaymentDb) {
    if transactionId !in db.transactions then (HttpError(404, "Transaction not found"), db)
    else
      var tx := db.transactions[transactionId];
      if AlreadyPaidStatus(tx.status) then (AlreadyPaid, db)
      else match reply
        case ProviderThrew(message) => (HttpError(500, message), db)
        case ProviderAnswered(ok, url, code) =>
          if !ok then (HttpError(400, "Failed to initialize payment with provider"), db)
          else
            var record := PaymentRecord(transactionId, "PAYSTACK", tx.totalAmount, "NGN", reference, Pending, AccessCode(code));
            (Initialized(url, reference, code),
             PaymentDb(db.transactions[transactionId := tx.(status := PaymentInitiated)], db.records[reference := record]))
  }

  /** Every path of `initialize_payment`: an unknown transaction is a 404, a paid one an
      "already paid" answer, a failing or refusing provider a 500 or 400, all without
      writes; a provider that accepts yields one PENDING record under the generated
      reference for the transaction's total, and the transaction becomes
      PAYMENT_INITIATED. */
  lemma InitializeOutcomes(db: PaymentDb, transactionId: string, reference: string, reply: ProviderReply)
    ensures var (res, db') := Initialize(db, transactionId, reference, reply);
      && (transactionId !in db.transactions ==> res == HttpError(404, "Transaction not found") && db' == db)
      && (transactionId in db.transactions && AlreadyPaidStatus(db.transactions[transactionId].status) ==>
            res == AlreadyPaid && db' == db)
      && (res.HttpError? || res.AlreadyPaid? ==> db' == db)
      && ((transactionId in db.transactions && !AlreadyPaidStatus(db.transactions[transactionId].status) &&
           reply.ProviderThrew?) ==> res == HttpError(500, reply.message) && db' == db)
      && ((transactionId in db.transactions && !AlreadyPaidStatus(db.transactions[transactionId].status) &&
           reply.ProviderAnswered? && !reply.status) ==>
             res == HttpError(400, "Failed to initialize payment with provider") && db' == db)
      && (res.Initialized? <==>
            transactionId in db.transactions && !AlreadyPaidStatus(db.transactions[transactionId].status) &&
            reply.ProviderAnswered? && reply.status)
      && (res.Initialized? ==>
            var tx := db.transactions[transactionId];
            && res == Initialized(reply.authorizationUrl, reference, reply.accessCode)
            && db'.records.Keys == db.records.Keys + {reference}
            && db'.records[reference] ==
                 PaymentRecord(transactionId, "PAYSTACK", tx.totalAmount, "NGN", reference, Pending, AccessCode(reply.accessCode))
            && db'.transactions[transactionId] == tx.(status := PaymentInitiated)
            && db'.records[reference].status == Pending
            && db'.records[reference].amount == tx.totalAmount
            && db'.records[reference].transactionId == transactionId
            && (forall r :: r in db.records && r != reference ==> db'.records[r] == db.records[r])
            && db'.transactions.Keys == db.transactions.Keys
            && db'.transactions[transactionId].status == PaymentInitiated
            && (forall t :: t in db.transactions && t != transactionId ==> db'.transactions[t] == db.transactions[t]))
  {
  }

  // ---------------------------------------------------------------------------
  // verify_payment_webhook

  /** The signature gate: with a secret configured, a missing or mismatching signature
      is refused; with none, everything passes. `sign` stands for HMAC-SHA512 in hex. */
  function SignatureCheck(secret: Option<string>, signature: Option<string>, body: string,
                          sign: (string, string) -> string): Option<WebhookResult>
  {
    var secretSet := secret.Some? && secret.value != "";
    if (signature.None? || signature.value == "") && secretSet then Some(Rejected(400, "No signature provided"))
    else if secretSet && signature.value != sign(secret.value, body) then Some(Rejected(400, "Invalid signature"))
    else None
  }

  /** The event dispatch once the payload is parsed and the signature accepted. */
  function Dispatch(db: PaymentDb, payload: Payload): (WebhookResult, PaymentDb) {
    if payload.reference.None? || payload.reference.value == "" then (Ignored(Some("No reference found")), db)
    else if payload.reference.value !in db.records then (RecordNotFound, db)
    else
      var ref := payload.reference.value;
      var record := db.records[ref];
      if payload.event == Some("charge.success") then
        var records' := db.records[ref := record.(status := Success, providerData := WebhookData(payload))];
        var txs' := if record.transactionId in db.transactions
          then db.transactions[record.transactionId := db.transactions[record.transactionId].(status := PaymentConfirmed)]
          else db.transactions;
        (PaymentVerified, PaymentDb(txs', records'))
      else if payload.event == Some("charge.failed") then
        (PaymentMarkedFailed, db.(records := db.records[ref := record.(status := Failed, providerData := WebhookData(payload))]))
      else (Ignored(None), db)
  }

  /** The response and the store after `verify_payment_webhook`; `payload` is None when
      the body is not JSON. */
  function Webhook(db: PaymentDb, secret: Option<string>, signature: Option<string>, body: string,
                   sign: (string, string) -> string, payload: Option<Payload>): (WebhookResult, PaymentDb)
  {
    var verdict := SignatureCheck(secret, signature, body, sign);
    if verdict.Some? then (verdict.value, db)
    else if payload.None? then (Rejected(400, "Invalid JSON"), db)
    else Dispatch(db, payload.value)
  }

  /** With a secret configured, the webhook is refused with 400 unless the signature is
      present and equals the HMAC of the body, and a refused webhook writes nothing. */
  lemma WebhookSignatureGate(db: PaymentDb, secret: Option<string>, signature: Option<string>, body: string,
                             sign: (string, string) -> string, payload: Option<Payload>)
    requires secret.Some? && secret.value != ""
    ensures var (res, db') := Webhook(db, secret, signature, body, sign, payload);
      && (signature.None? || signature.value == "" || signature.value != sign(secret.value, body) ==>
            res.Rejected? && res.code == 400 && db' == db)
      && (res.Rejected? ==> db' == db)
  {
  }

  /** A payload without a reference is ignored and an unknown reference is an error
      answer; neither writes. */
  lemma WebhookWithoutRecordWritesNothing(db: PaymentDb, payload: Payload)
    requires payload.reference.None? || payload.reference.value == "" || payload.reference.value !in db.records
    ensures Dispatch(db, payload).1 == db
    ensures payload.reference.None? || payload.reference.value == "" ==> Dispatch(db, payload).0.Ignored?
    ensures payload.reference.Some? && payload.reference.value != "" ==> Dispatch(db, payload).0 == RecordNotFound
  {
  }

  /** `charge.success` marks the record SUCCESS and its transaction PAYMENT_CONFIRMED;
      `charge.failed` marks the record FAILED and leaves every transaction alone; any
      other event writes nothing. */
  lemma DispatchEvents(db: PaymentDb, payload: Payload)
    requires payload.reference.Some? && payload.reference.value != "" && payload.reference.value in db.records
    ensures var (res, db') := Dispatch(db, payload);
      var ref := payload.reference.value;
      var txId := db.records[ref].transactionId;
      && (payload.event == Some("charge.success") ==>
            && res == PaymentVerified
            && db'.records[ref] == db.records[ref].(status := Success, providerData := WebhookData(payload))
            && (txId in db.transactions ==>
                  db'.transactions[txId] == db.transactions[txId].(status := PaymentConfirmed))
            && (forall t :: t in db.transactions && t != txId ==> db'.transactions[t] == db.transactions[t]))
      && (payload.event == Some("charge.failed") ==>
            && res == PaymentMarkedFailed
            && db'.records[ref] == db.records[ref].(status := Failed, providerData := WebhookData(payload))
            && db'.transactions == db.transactions)
      && (payload.event != Some("charge.success") && payload.event != Some("charge.failed") ==> db' == db)
      && db'.records.Keys == db.records.Keys && db'.transactions.Keys == db.transactions.Keys
      && (forall r :: r in db.records && r != ref ==> db'.records[r] == db.records[r])
  {
  }

  /** Replaying a webhook delivery yields the same answer and the same store. */
  lemma WebhookReplayIdempotent(db: PaymentDb, secret: Option<string>, signature: Option<string>, body: string,
                                sign: (string, string) -> string, payload: Option<Payload>)
    ensures var (res, db') := Webhook(db, secret, signature, body, sign, payload);
      Webhook(db', secret, signature, body, sign, payload) == (res, db')
  {
    var (res, db') := Webhook(db, secret, signature, body, sign, payload);
    if SignatureCheck(secret, signature, body, sign).None? && payload.Some? {
      var p := payload.value;
      if p.reference.Some? && p.reference.value != "" && p.reference.value in db.records {
        var ref := p.reference.value;
        var record := db.records[ref];
        if p.event == Some("charge.success") {
          var txs := db'.transactions;
          assert db'.records[ref] == record.(status := Success, providerData := WebhookData(p));
          assert db'.records[ref].transactionId == record.transactionId;
          if record.transactionId in db.transactions {
            assert txs[record.transactionId].status == PaymentConfirmed;
            assert txs[record.transactionId := txs[record.transactionId].(status := PaymentConfirmed)] == txs;
          }
          assert db'.records[ref := db'.records[ref].(status := Success, providerData := WebhookData(p))] == db'.records;
        } else if p.event == Some("charge.failed") {
          assert db'.records[ref := db'.records[ref].(status := Failed, providerData := WebhookData(p))] == db'.records;
        }
      }
    }
  }

  // ---------------------------------------------------------------------------
  // The endpoints as sequences of store writes

  class PaymentStore {
    var transactions: map<string, Transaction>
    var records: map<string, PaymentRecord>

    function State(): PaymentDb
      reads this
    {
      PaymentDb(transactions, records)
    }

    constructor (db: PaymentDb)
      ensures State() == db
    {
      transactions := db.transactions;
      records := db.records;
    }

    /** `initialize_payment`: look up, guard, call the provider, then create the
        record and update the transaction status. */
    method InitializePayment(transactionId: string, reference: string, reply: ProviderReply)
      returns (result: InitResult)
      modifies this
      ensures (result, State()) == Initialize(old(State()), transactionId, reference, reply)
    {
      if transactionId !in transactions {
        return HttpError(404, "Transaction not found");
      }
      var tx := transactions[transactionId];
      if tx.status == PaymentConfirmed || tx.status == Completed {
        return AlreadyPaid;
      }
      match reply
      case ProviderThrew(message) =>
        return HttpError(500, message);
      case ProviderAnswered(ok, url, code) =>
        if !ok {
          return HttpError(400, "Failed to initialize payment with provider");
        }
        records := records[reference := PaymentRecord(transactionId, "PAYSTACK", tx.totalAmount, "NGN", reference, Pending, AccessCode(code))];
        transactions := transactions[transactionId := tx.(status := PaymentInitiated)];
        return Initialized(url, reference, code);
    }

    /** `verify_payment_webhook`: check the signature, parse, find the record, then
        update the record and, on success, the transaction. */
    method VerifyPaymentWebhook(secret: Option<string>, signature: Option<string>, body: string,
                                sign: (string, string) -> string, payload: Option<Payload>)
      returns (result: WebhookResult)
      modifies this
      ensures (result, State()) == Webhook(old(State()), secret, signature, body, sign, payload)
    {
      var secretSet := secret.Some? && secret.value != "";
      if signature.None? || signature.value == "" {
        if secretSet {
          return Rejected(400, "No signature provided");
        }
      }
      if secretSet {
        var expected := sign(secret.value, body);
        if signature.value != expected {
          return Rejected(400, "Invalid signature");
        }
      }
      if payload.None? {
        return Rejected(400, "Invalid JSON");
      }
      var p := payload.value;
      if p.reference.None? || p.reference.value == "" {
        return Ignored(Some("No reference found"));
      }
      var ref := p.reference.value;
      if ref !in records {
        return RecordNotFound;
      }
      var record := records[ref];
      if p.event == Some("charge.success") {
        records := records[ref := record.(status := Success, providerData := WebhookData(p))];
        if record.transactionId in transactions {
          var tx := transactions[record.transactionId];
          transactions := transactions[record.transactionId := tx.(status := PaymentConfirmed)];
        }
        return PaymentVerified;
      } else if p.event == Some("charge.failed") {
        records := records[ref := record.(status := Failed, providerData := WebhookData(p))];
        return PaymentMarkedFailed;
      }
      return Ignored(None);
    }
  }
}
