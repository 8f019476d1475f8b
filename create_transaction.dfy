/**
 * The transaction-creation endpoint (`POST /api/create-transaction`): a chain
 * of early-return gates, the gateway request built from the body, and the
 * success and error responses. The gateway is an oracle: a function from the
 * request to either the created transaction or the message of the error it throws.
 * Amounts are in cents, so the route's 0.01 tolerance is one cent.
 */
module CreateTransaction {
  import opened Wrappers
  import opened Text
  import opened LiraPay

  /**
   * `CreateTransactionBody`. A field missing from the JSON is modelled as
   * `""` or `0`, which the gates treat exactly as they treat `undefined`: both are falsy.
   */
  datatype Body = Body(customer: Option<CustomerInput>, quantity: int, unitPrice: int, totalAmount: int)

  /** The request as the route reads it: a parsed body, or the message `request.json()` throws. */
  datatype Incoming = Parsed(body: Body) | Malformed(message: string)

  /** The `transaction` object of a successful response. */
  datatype TransactionSummary = TransactionSummary(
    id: string, externalId: string, status: string, pixPayload: string, totalValue: int)

  /** The JSON the route answers with: `{ error, details? }` or `{ success: true, transaction }`. */
  datatype Reply = Failure(error: string, details: Option<string>) | Created(transaction: TransactionSummary)

  datatype Response = Response(status: int, reply: Reply)

  const MissingFields: string := "Dados obrigatórios não fornecidos"
  const IncompleteCustomer: string := "Dados do cliente incompletos"
  const NoConfiguration: string := "Configuração de pagamento não encontrada"
  const WrongTotal: string := "Valor total incorreto"
  const PaymentError: string := "Erro ao processar pagamento"
  const WebhookUrl: string := "https://webhook.site/unique-id-placeholder"
  /** How far, in cents, the stated total may be from quantity times unit price. */
  const Tolerance: int := 1

  function Abs(x: int): nat { if x < 0 then -x else x }

  function Rejection(status: int, error: string): Response
  {
    Response(status, Failure(error, None))
  }

  /** First gate: customer, quantity, unit price and total are all present and truthy. */
  predicate HasRequiredFields(b: Body)
  {
    b.customer.Some? && b.quantity != 0 && b.unitPrice != 0 && b.totalAmount != 0
  }

  /** Second gate: no customer field is empty. */
  predicate CustomerComplete(c: CustomerInput)
  {
    c.name != "" && c.email != "" && c.phone != "" && c.document != ""
  }

  /** Third gate: the gateway secret is configured and non-empty. */
  predicate Configured(apiSecret: Option<string>)
  {
    apiSecret.Some? && apiSecret.value != ""
  }

  /** Fourth gate: the stated total is within a cent of quantity times unit price. */
  predicate TotalMatches(b: Body)
  {
    Abs(b.quantity * b.unitPrice - b.totalAmount) <= Tolerance
  }

  /** The response of the first gate that fails, in the route's order; `None` when all pass. */
  function FirstFailingGate(b: Body, apiSecret: Option<string>): Option<Response>
  {
    if !HasRequiredFields(b) then Some(Rejection(400, MissingFields))
    else if !CustomerComplete(b.customer.value) then Some(Rejection(400, IncompleteCustomer))
    else if !Configured(apiSecret) then Some(Rejection(500, NoConfiguration))
    else if !TotalMatches(b) then Some(Rejection(400, WrongTotal))
    else None
  }

  /** `transactionData`: one item for the whole bundle of numbers, paid by PIX. */
  function BuildRequest(b: Body, externalId: string, ip: string): TransactionRequest
    requires b.customer.Some?
  {
    var count := IntToString(b.quantity);
    var item := Item("rifa_numbers", count + " Números da Rifa",
                     "Participação na rifa com " + count + " números", b.unitPrice, b.quantity, false);
    TransactionRequest(externalId, b.totalAmount, "PIX", WebhookUrl, [item], ip, FormatCustomerData(b.customer.value))
  }

  /** The 200 answer: the gateway's transaction, with `pix.payload` flattened to `pix_payload`. */
  function SuccessResponse(t: CreatedTransaction): Response
  {
    Response(200, Created(TransactionSummary(t.id, t.externalId, t.status, t.pixPayload, t.totalValue)))
  }

  /** The `catch` answer: a 500 carrying the thrown error's message as `details`. */
  function ErrorResponse(message: string): Response
  {
    Response(500, Failure(PaymentError, Some(message)))
  }

  /**
   * `POST`. `sent` is the request handed to the gateway, `None` when the
   * gateway is not called. `externalId` stands for `generateExternalId()`.
   */
  method Post(incoming: Incoming, apiSecret: Option<string>, headers: map<string, string>,
              externalId: string, gateway: TransactionRequest -> GatewayReply)
    returns (response: Response, sent: Option<TransactionRequest>)
    ensures incoming.Malformed? ==> response == ErrorResponse(incoming.message) && sent == None
    ensures incoming.Parsed? && FirstFailingGate(incoming.body, apiSecret).Some? ==>
      response == FirstFailingGate(incoming.body, apiSecret).value && sent == None
    ensures incoming.Parsed? && FirstFailingGate(incoming.body, apiSecret).None? ==>
      && sent == Some(BuildRequest(incoming.body, externalId, GetClientIP(headers)))
      && response == match gateway(sent.value)
                     case Returned(t) => SuccessResponse(t)
                     case Threw(message) => ErrorResponse(message)
  {
    sent := None;
    if incoming.Malformed? {
      response := ErrorResponse(incoming.message);
      return;
    }
    var body := incoming.body;
    if !HasRequiredFields(body) {
      response := Rejection(400, MissingFields);
      return;
    }
    if !CustomerComplete(body.customer.value) {
      response := Rejection(400, IncompleteCustomer);
      return;
    }
    if !Configured(apiSecret) {
      response := Rejection(500, NoConfiguration);
      return;
    }
    var clientIP := GetClientIP(headers);
    var calculatedTotal := body.quantity * body.unitPrice;
    if Abs(calculatedTotal - body.totalAmount) > Tolerance {
      response := Rejection(400, WrongTotal);
      return;
    }
    var transactionData := BuildRequest(body, externalId, clientIP);
    sent := Some(transactionData);
    match gateway(transactionData)
    case Returned(transaction) =>
      response := SuccessResponse(transaction);
    case Threw(message) =>
      response := ErrorResponse(message);
  }

  /**
   * The gates in order: each response is produced exactly when every earlier
   * gate passes and its own fails. The secret is looked at only once both
   * field checks pass, and the total only once the secret is there.
   */
  lemma GatesInOrder(b: Body, apiSecret: Option<string>)
    ensures FirstFailingGate(b, apiSecret) == Some(Rejection(400, MissingFields))
      <==> !HasRequiredFields(b)
    ensures FirstFailingGate(b, apiSecret) == Some(Rejection(400, IncompleteCustomer))
      <==> HasRequiredFields(b) && !CustomerComplete(b.customer.value)
    ensures FirstFailingGate(b, apiSecret) == Some(Rejection(500, NoConfiguration))
      <==> HasRequiredFields(b) && CustomerComplete(b.customer.value) && !Configured(apiSecret)
    ensures FirstFailingGate(b, apiSecret) == Some(Rejection(400, WrongTotal))
      <==> HasRequiredFields(b) && CustomerComplete(b.customer.value) && Configured(apiSecret) && !TotalMatches(b)
    ensures FirstFailingGate(b, apiSecret) == None
      <==> HasRequiredFields(b) && CustomerComplete(b.customer.value) && Configured(apiSecret) && TotalMatches(b)
  {
  }

  /** A quantity of zero is reported as missing, whatever else the body holds. */
  lemma ZeroQuantityIsMissing(b: Body, apiSecret: Option<string>)
    requires b.quantity == 0
    ensures FirstFailingGate(b, apiSecret) == Some(Response(400, Failure("Dados obrigatórios não fornecidos", None)))
  {
  }

  /** Every gate answers 400, except the missing secret, which is a server-side 500. */
  lemma GateStatuses(b: Body, apiSecret: Option<string>)
    requires FirstFailingGate(b, apiSecret).Some?
    ensures var r := FirstFailingGate(b, apiSecret).value;
      r.reply.Failure? && r.reply.details == None
      && (r.status == 500 <==> r.reply.error == NoConfiguration)
      && (r.status == 400 || r.status == 500)
  {
  }

  /**
   * What reaches the gateway: a single line whose price and quantity are the
   * body's and account for the stated total within a cent, paid by PIX, for
   * the normalised customer.
   */
  lemma RequestReachingGateway(b: Body, apiSecret: Option<string>, externalId: string, ip: string)
    requires FirstFailingGate(b, apiSecret) == None
    ensures var r := BuildRequest(b, externalId, ip);
      && |r.items| == 1
      && r.items[0].price == b.unitPrice && r.items[0].quantity == b.quantity
      && r.totalAmount == b.totalAmount
      && Abs(r.items[0].price * r.items[0].quantity - r.totalAmount) <= Tolerance
      && r.paymentMethod == "PIX"
      && r.customer == FormatCustomerData(b.customer.value)
      && AllDigits(r.customer.phone) && AllDigits(r.customer.document)
      && r.externalId == externalId && r.ip == ip
  {
    assert b.unitPrice * b.quantity == b.quantity * b.unitPrice;
  }

  /** Two cents off is too far: the request is turned down before the gateway. */
  lemma TwoCentsOffIsRejected(c: CustomerInput, apiSecret: Option<string>)
    requires CustomerComplete(c) && Configured(apiSecret)
    ensures FirstFailingGate(Body(Some(c), 5, 199, 997), apiSecret) == Some(Rejection(400, WrongTotal))
    ensures FirstFailingGate(Body(Some(c), 5, 199, 996), apiSecret) == None
  {
  }

  /** A success answer carries the gateway's transaction field for field, and the PIX payload. */
  lemma SuccessCopiesTransaction(t: CreatedTransaction)
    ensures var r := SuccessResponse(t);
      && r.status == 200 && r.reply.Created?
      && r.reply.transaction.id == t.id && r.reply.transaction.externalId == t.externalId
      && r.reply.transaction.status == t.status && r.reply.transaction.totalValue == t.totalValue
      && r.reply.transaction.pixPayload == t.pixPayload
  {
  }

  /** Any thrown error is a 500 whose details are the error's message. */
  lemma ErrorCarriesMessage(message: string)
    ensures ErrorResponse(message) == Response(500, Failure("Erro ao processar pagamento", Some(message)))
  {
  }
}
