/**
 * The Authorize.Net payment adapter: validation of the payment context,
 * construction of the vendor request, and interpretation of the vendor reply.
 */
module Authorize {
  import opened Php
  import opened Payments
  import opened AuthorizeNet

  /** Everything the adapter reads: its own fields and those it inherits from the host Payment. */
  datatype GatewayState = GatewayState(
    publicKey: string,
    privateKey: string,
    isLive: bool,
    capture: bool,
    transactionId: Option<string>,
    referenceId: Option<string>,
    amount: real,
    currencyCode: string,
    card: Option<CreditCard>,
    address: Option<Address>,
    invoiceId: Option<string>)

  // ----------------------------------------------------------------------
  // Validation
  // ----------------------------------------------------------------------

  /** The five requirements `process` checks before any request is built. */
  datatype Check = PublicKeyCheck | PrivateKeyCheck | AmountCheck | CardCheck | AddressCheck

  /** The order in which the requirements are checked. */
  const ValidationOrder: seq<Check> := [PublicKeyCheck, PrivateKeyCheck, AmountCheck, CardCheck, AddressCheck]

  predicate Passes(s: GatewayState, c: Check)
  {
    match c
    case PublicKeyCheck => !EmptyString(s.publicKey)
    case PrivateKeyCheck => !EmptyString(s.privateKey)
    case AmountCheck => s.amount > 0.0
    case CardCheck => s.card.Some?
    case AddressCheck =>
      s.address.Some? && s.address.value.firstName.Some?
      && s.address.value.lastName.Some? && s.address.value.email.Some?
  }

  /** The error reported when a requirement fails. */
  function CheckError(c: Check): Error
  {
    match c
    case PublicKeyCheck => Error("invalid_public_key", "Invalid public key.")
    case PrivateKeyCheck => Error("invalid_private_key", "Invalid private key.")
    case AmountCheck => Error("invalid_amount", "Invalid amount.")
    case CardCheck => Error("invalid_card", "Invalid credit card.")
    case AddressCheck => Error("invalid_address", "Invalid billing address.")
  }

  /** Reference definition: the error of the first failing requirement of `checks`, if any. */
  function FirstFailure(s: GatewayState, checks: seq<Check>): (r: Option<Error>)
    ensures r.None? <==> forall i :: 0 <= i < |checks| ==> Passes(s, checks[i])
    ensures forall i :: 0 <= i < |checks| && !Passes(s, checks[i])
                        && (forall j :: 0 <= j < i ==> Passes(s, checks[j]))
                        ==> r == Some(CheckError(checks[i]))
  {
    if checks == [] then None
    else if !Passes(s, checks[0]) then Some(CheckError(checks[0]))
    else
      var rest := FirstFailure(s, checks[1..]);
      assert forall i :: 1 <= i < |checks| ==> checks[i] == checks[1..][i - 1];
      rest
  }

  /** `validate_credentials`: None stands for PHP's `true`. */
  function ValidateCredentials(s: GatewayState): (r: Option<Error>)
    ensures r.Some? ==> r.value.code != "error"
  {
    if EmptyString(s.publicKey) then Some(Error("invalid_public_key", "Invalid public key."))
    else if EmptyString(s.privateKey) then Some(Error("invalid_private_key", "Invalid private key."))
    else if s.amount <= 0.0 then Some(Error("invalid_amount", "Invalid amount."))
    else if s.card.None? then Some(Error("invalid_card", "Invalid credit card."))
    else if s.address.None? || s.address.value.firstName.None?
            || s.address.value.lastName.None? || s.address.value.email.None?
    then Some(Error("invalid_address", "Invalid billing address."))
    else None
  }

  /** Validation reports exactly the first failing requirement, and passes only when all five hold. */
  lemma ValidationFirstFailureWins(s: GatewayState)
    ensures ValidateCredentials(s) == FirstFailure(s, ValidationOrder)
    ensures ValidateCredentials(s).None? <==> forall c :: Passes(s, c)
    ensures forall i :: 0 <= i < |ValidationOrder| ==>
              (ValidateCredentials(s) == Some(CheckError(ValidationOrder[i])) <==>
               !Passes(s, ValidationOrder[i]) && forall j :: 0 <= j < i ==> Passes(s, ValidationOrder[j]))
  {
    var f := FirstFailure(s, ValidationOrder);
    if ValidateCredentials(s).None? {
      assert Passes(s, ValidationOrder[0]) && Passes(s, ValidationOrder[1]) && Passes(s, ValidationOrder[2])
        && Passes(s, ValidationOrder[3]) && Passes(s, ValidationOrder[4]);
      assert f.None?;
    } else if !Passes(s, ValidationOrder[0]) {
      assert f == Some(CheckError(ValidationOrder[0]));
    } else if !Passes(s, ValidationOrder[1]) {
      assert f == Some(CheckError(ValidationOrder[1]));
    } else if !Passes(s, ValidationOrder[2]) {
      assert f == Some(CheckError(ValidationOrder[2]));
    } else if !Passes(s, ValidationOrder[3]) {
      assert f == Some(CheckError(ValidationOrder[3]));
    } else {
      assert f == Some(CheckError(ValidationOrder[4]));
    }
  }

  // ----------------------------------------------------------------------
  // Request construction
  // ----------------------------------------------------------------------

  /** The billing address line: address2 is appended, after ", " only when address1 is not PHP-empty. */
  function FullAddress(address1: Option<string>, address2: Option<string>): (r: string)
    ensures CastString(address1) <= r
    ensures Empty(address2) ==> r == CastString(address1)
    ensures !Empty(address2) && (address1.None? || address1.value == "") ==> r == address2.value
    ensures !Empty(address2) && address1 == Some("0") ==> r == "0" + address2.value
    ensures !Empty(address2) && !Empty(address1) ==> r == address1.value + ", " + address2.value
  {
    var line := CastString(address1);
    if Empty(address2) then line
    else if EmptyString(line) then line + address2.value
    else line + ", " + address2.value
  }

  /** The setting every request carries: duplicate submissions within 60 seconds are refused. */
  const DuplicateWindow: SettingType := SettingType("duplicateWindow", "60")

  /** The reply of the controller that runs: the injected one, which ignores the request built here, or the one built from the request. */
  function Dispatch(client: Option<Controller>, transport: Transport, request: CreateTransactionRequest, endpoint: Endpoint): Reply
  {
    if client.Some? then client.value(endpoint) else transport(request)(endpoint)
  }

  // ----------------------------------------------------------------------
  // Response interpretation
  // ----------------------------------------------------------------------

  /** The adapter can read every part of the reply it looks at (no method call on null). */
  predicate Readable(reply: Reply)
  {
    reply.Resp? ==>
      var resp := reply.response;
      resp.transactionResponse.Some? &&
      var t := resp.transactionResponse.value;
      if resp.resultCode != "Ok" then |t.errorTexts| > 0 || |resp.messageTexts| > 0
      else t.responseCode != 1 || |t.messageDescriptions| > 0
  }

  /** The vendor approved the transaction. */
  predicate Approved(reply: Reply)
  {
    reply.Resp? && reply.response.resultCode == "Ok"
    && reply.response.transactionResponse.Some?
    && reply.response.transactionResponse.value.responseCode == 1
    && |reply.response.transactionResponse.value.messageDescriptions| > 0
  }

  /** The error message a readable rejected response (result code other than "Ok") carries. */
  function RejectionMessage(resp: CreateTransactionResponse): string
    requires resp.transactionResponse.Some?
    requires |resp.transactionResponse.value.errorTexts| > 0 || |resp.messageTexts| > 0
  {
    var t := resp.transactionResponse.value;
    if |t.errorTexts| > 0 then t.errorTexts[0] else resp.messageTexts[0]
  }

  /** The decision chain of `process_transaction` after the controller has answered. */
  function Interpret(reply: Reply): (r: Result)
    ensures r.Ok? <==> Approved(reply)
    ensures r.Uncaught? <==> !Readable(reply)
    ensures r.Err? ==> r.error.code == "error"
    ensures r.Ok? ==>
              var t := reply.response.transactionResponse.value;
              r.transaction == Transaction(t.transId, t.responseCode, t.messageDescriptions[0], None)
    ensures reply.Fault? ==> r == Err(Error("error", reply.message))
    ensures reply.NoResponse? ==> r == Err(Error("error", "No response received from the API."))
    ensures Readable(reply) && reply.Resp? && reply.response.resultCode != "Ok" ==>
              r == Err(Error("error", RejectionMessage(reply.response)))
    ensures Readable(reply) && reply.Resp? && reply.response.resultCode == "Ok"
            && reply.response.transactionResponse.value.responseCode != 1 ==>
              r == Err(Error("error", "Failed processing the payment!"))
  {
    match reply
    case Fault(message) => Err(Error("error", message))
    case NoResponse => Err(Error("error", "No response received from the API."))
    case Resp(resp) =>
      if resp.transactionResponse.None? then Uncaught
      else
        var t := resp.transactionResponse.value;
        if resp.resultCode != "Ok" then
          if |t.errorTexts| > 0 then Err(Error("error", t.errorTexts[0]))
          else if |resp.messageTexts| > 0 then Err(Error("error", resp.messageTexts[0]))
          else Uncaught
        else if t.responseCode != 1 then Err(Error("error", "Failed processing the payment!"))
        else if |t.messageDescriptions| == 0 then Uncaught
        else Ok(Transaction(t.transId, t.responseCode, t.messageDescriptions[0], None))
  }

  // ----------------------------------------------------------------------
  // The adapter object
  // ----------------------------------------------------------------------

  class AuthorizeGateway {
    var publicKey: string
    var privateKey: string
    var isLive: bool
    var capture: bool
    var transactionId: Option<string>
    var referenceId: Option<string>
    var client: Option<Controller>

    // Fields inherited from the host Payment class, assigned by its setters.
    var amount: real
    var currencyCode: string
    var card: Option<CreditCard>
    var address: Option<Address>
    var invoiceId: Option<string>

    function State(): GatewayState
      reads this
    {
      GatewayState(publicKey, privateKey, isLive, capture, transactionId, referenceId,
                   amount, currencyCode, card, address, invoiceId)
    }

    constructor (publicKey: string, privateKey: string, live: bool := false)
      ensures State() == GatewayState(publicKey, privateKey, live, true, None, None, 0.0, "", None, None, None)
      ensures client == None
    {
      this.publicKey := publicKey;
      this.privateKey := privateKey;
      this.isLive := live;
      capture := true;
      transactionId := None;
      referenceId := None;
      client := None;
      amount := 0.0;
      currencyCode := "";
      card := None;
      address := None;
      invoiceId := None;
    }

    method SetPublicKey(key: string)
      modifies this
      ensures State() == old(State()).(publicKey := key) && client == old(client)
    {
      publicKey := key;
    }

    method SetPrivateKey(key: string)
      modifies this
      ensures State() == old(State()).(privateKey := key) && client == old(client)
    {
      privateKey := key;
    }

    method SetIsLive(live: bool)
      modifies this
      ensures State() == old(State()).(isLive := live) && client == old(client)
    {
      isLive := live;
    }

    method SetCapture(capture: bool)
      modifies this
      ensures State() == old(State()).(capture := capture) && client == old(client)
    {
      this.capture := capture;
    }

    method SetTransactionId(id: string)
      modifies this
      ensures State() == old(State()).(transactionId := Some(id)) && client == old(client)
    {
      transactionId := Some(id);
    }

    method SetReferenceId(id: string)
      modifies this
      ensures State() == old(State()).(referenceId := Some(id)) && client == old(client)
    {
      referenceId := Some(id);
    }

    method SetClient(controller: Controller)
      modifies this
      ensures State() == old(State()) && client == Some(controller)
    {
      client := Some(controller);
    }

    /** `get_endpoint`: production exactly when the live flag is set. */
    function GetEndpoint(): (e: Endpoint)
      reads this
      ensures e == Production <==> isLive
      ensures e == Sandbox <==> !isLive
    {
      if isLive then Production else Sandbox
    }

    /**
     * `process_transaction`: wraps the transaction request in an authenticated
     * envelope, runs the controller and interprets its reply.
     */
    method ProcessTransaction(transactionRequest: TransactionRequestType, transport: Transport)
      returns (r: Result, request: CreateTransactionRequest)
      ensures request.transactionRequest
              == transactionRequest.(transactionSettings := transactionRequest.transactionSettings + [DuplicateWindow])
      ensures request.merchantAuthentication == MerchantAuthenticationType(publicKey, privateKey)
      ensures request.refId.Some? <==> !Empty(referenceId)
      ensures request.refId.Some? ==> request.refId == referenceId
      ensures r == Interpret(Dispatch(client, transport, request, GetEndpoint()))
    {
      var withSettings := transactionRequest.(transactionSettings := transactionRequest.transactionSettings + [DuplicateWindow]);
      request := CreateTransactionRequest(withSettings, MerchantAuthenticationType(publicKey, privateKey), None);
      if !Empty(referenceId) {
        request := request.(refId := referenceId);
      }
      var controller: Controller;
      if client.Some? {
        controller := client.value;
      } else {
        controller := transport(request);
      }
      var reply := controller(GetEndpoint());
      r := Interpret(reply);
    }

    /**
     * `process`: validates, builds an authorize (and capture) request and sends it.
     * `request` is the request assembled for the vendor; it is None exactly when
     * no controller is run.
     */
    method Process(transport: Transport) returns (r: Result, request: Option<CreateTransactionRequest>)
      ensures ValidateCredentials(State()).Some? ==>
                r == Err(ValidateCredentials(State()).value) && request == None
      ensures request.Some? <==> ValidateCredentials(State()).None?
      ensures request.None? <==> r.Err? && r.error.code != "error"
      ensures r.Ok? ==> r.transaction.status == Some(if capture then "Paid" else "Holding")
      ensures request.Some? ==>
                var tr := request.value.transactionRequest;
                && tr.transactionType == Some(if capture then "authCaptureTransaction" else "authOnlyTransaction")
                && tr.refTransId == None
                && tr.currencyCode == Some(currencyCode)
                && tr.amount == Some(amount) && amount > 0.0
                && tr.payment == Some(CreditCardType(card.value.number, card.value.expiry, card.value.cvv))
                && tr.customer == Some(CustomerDataType("individual", address.value.email.value))
                && (tr.order.Some? <==> !Empty(invoiceId))
                && (tr.order.Some? ==> tr.order.value.invoiceNumber == invoiceId.value)
                && tr.transactionSettings == [DuplicateWindow]
      ensures request.Some? ==>
                var a := address.value;
                request.value.transactionRequest.billTo == Some(CustomerAddressType(
                  a.firstName.value, a.lastName.value, a.email.value, CastString(a.phone),
                  FullAddress(a.address1, a.address2),
                  CastString(a.state), CastString(a.zip), CastString(a.countryCode)))
      ensures request.Some? ==>
                && request.value.merchantAuthentication == MerchantAuthenticationType(publicKey, privateKey)
                && (request.value.refId.Some? <==> !Empty(referenceId))
                && (request.value.refId.Some? ==> request.value.refId == referenceId)
      ensures request.Some? ==>
                var i := Interpret(Dispatch(client, transport, request.value, GetEndpoint()));
                && (r.Ok? <==> i.Ok?)
                && (r.Ok? ==> r.transaction == i.transaction.(status := Some(if capture then "Paid" else "Holding")))
                && (!i.Ok? ==> r == i)
    {
      var validation := ValidateCredentials(State());
      if validation.Some? {
        return Err(validation.value), None;
      }

      var c := card.value;
      var cardType := CreditCardType(c.number, c.expiry, c.cvv);

      var a := address.value;
      var fullAddress := CastString(a.address1);
      if !Empty(a.address2) {
        fullAddress := fullAddress + if !EmptyString(fullAddress) then ", " + a.address2.value else a.address2.value;
      }
      assert fullAddress == FullAddress(a.address1, a.address2);

      var billing := CustomerAddressType(
        a.firstName.value, a.lastName.value, a.email.value, CastString(a.phone),
        fullAddress, CastString(a.state), CastString(a.zip), CastString(a.countryCode));

      var transactionRequest := BlankTransactionRequest.(
        currencyCode := Some(currencyCode), amount := Some(amount),
        payment := Some(cardType), billTo := Some(billing));
      var transType := if capture then "authCaptureTransaction" else "authOnlyTransaction";
      transactionRequest := transactionRequest.(transactionType := Some(transType));
      transactionRequest := transactionRequest.(customer := Some(CustomerDataType("individual", a.email.value)));
      if !Empty(invoiceId) {
        transactionRequest := transactionRequest.(order := Some(OrderType(invoiceId.value)));
      }

      var sent;
      r, sent := ProcessTransaction(transactionRequest, transport);
      request := Some(sent);

      if r.Ok? {
        var status := if capture then "Paid" else "Holding";
        r := Ok(r.transaction.(status := Some(status)));
      }
    }

    /**
     * `capture`: captures the stored, previously authorized transaction.
     * `request` is None exactly when no controller is run.
     */
    method Capture(transport: Transport) returns (r: Result, request: Option<CreateTransactionRequest>)
      ensures request.None? <==> Empty(transactionId)
      ensures Empty(transactionId) ==> r == Err(Error("error", "Invalid transaction ID."))
      ensures r.Ok? ==> r.transaction.status == Some("Paid")
      ensures request.Some? ==>
                request.value.transactionRequest == BlankTransactionRequest.(
                  transactionType := Some("priorAuthCaptureTransaction"),
                  refTransId := transactionId,
                  transactionSettings := [DuplicateWindow])
      ensures request.Some? ==>
                && request.value.merchantAuthentication == MerchantAuthenticationType(publicKey, privateKey)
                && (request.value.refId.Some? <==> !Empty(referenceId))
                && (request.value.refId.Some? ==> request.value.refId == referenceId)
      ensures request.Some? ==>
                var i := Interpret(Dispatch(client, transport, request.value, GetEndpoint()));
                && (r.Ok? <==> i.Ok?)
                && (r.Ok? ==> r.transaction == i.transaction.(status := Some("Paid")))
                && (!i.Ok? ==> r == i)
    {
      if Empty(transactionId) {
        return Err(Error("error", "Invalid transaction ID.")), None;
      }

      var transactionRequest := BlankTransactionRequest.(
        transactionType := Some("priorAuthCaptureTransaction"),
        refTransId := transactionId);

      var sent;
      r, sent := ProcessTransaction(transactionRequest, transport);
      request := Some(sent);

      if r.Ok? {
        r := Ok(r.transaction.(status := Some("Paid")));
      }
    }
  }
}
