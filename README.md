# Authorize.Net payment adapter — Dafny model

This project models `AuthorizeGateway`, the adapter that maps a generic payment
(amount, currency, card, billing address, invoice id) onto the Authorize.Net
transaction API. It covers the adapter's own decision rules:

- the five validation checks of `validate_credentials`, in their fixed order;
- how `process` builds the authorize-and-capture or authorize-only request: the joined address line, the
  transaction type chosen by the capture flag, and an order that is attached only when there is an invoice id;
- the transaction-id precondition of `capture` and its prior-authorization-capture request;
- the envelope that `process_transaction` adds to every request: the 60-second duplicate window,
  merchant authentication, and the optional reference id;
- how `process_transaction` turns the controller's outcome into a Transaction or an error;
- the setters and `get_endpoint`.

Layout:

- `php.dfy` (module `Php`): PHP's `empty()` on strings (`""` and `"0"` are empty) and the `(string)` cast of null.
- `payments.dfy` (module `Payments`): the host framework's CreditCard, Address, Transaction and error records,
  and the `Result` of a call.
- `authorize_net.dfy` (module `AuthorizeNet`): the vendor request and response records. It also holds the
  `Reply` of one controller run: a thrown fault, no response, or a response.
- `authorize_gateway.dfy` (module `Authorize`): the validation, address, envelope and reply rules as
  functions. It also holds the class `AuthorizeGateway`, whose methods build the request step by step
  as the PHP does.

The controller is passed in as a value, so no I/O is modelled. An injected client is a
`Controller = Endpoint -> Reply`. The SDK controller already holds its own request, so an injected
client never sees the request the adapter builds. The choice between the injected client and a new
controller is made at src/AuthorizeGateway.php:219, and the tests rely on it. When no client is injected, the SDK builds a controller from the request. That
controller is the `Transport = CreateTransactionRequest -> Controller` parameter of `Process` and
`Capture`. The `request` out-parameter of both methods is the request assembled for the vendor. It is
None exactly when no controller is run.

`Process` and `Capture` have no `modifies` clause. This follows the code: the code never updates the
adapter's fields after a transaction. Two calls on the same state with the same controller therefore give
the same result. `process` stores no field after a transaction (src/AuthorizeGateway.php:157-164), so a
later `Capture` needs `SetTransactionId` first.

A PHP `Error` thrown by a method call on null is not caught by the adapter's `catch (\Exception)`. The
result variant `Uncaught` stands for such a call, which returns no value at all. It happens when the
response has no transaction part. It also happens when a rejected response has neither an error text nor a
message, or when an approved response has no message description. So a call can end with neither a
Transaction nor an error object. `Interpret` states
exactly when `Uncaught` occurs.

## Model

| member | source | states |
|---|---|---|
| `Authorize.FirstFailure` | src/AuthorizeGateway.php:260-296 | The reference definition of "first failure wins". The result is None iff every listed check passes. When check i fails and all checks before it pass, the result is check i's error. |
| `Authorize.ValidateCredentials` | src/AuthorizeGateway.php:260-296 | A validation error never carries the generic code `error`, so it can always be told apart from a failure after dispatch. |
| `Authorize.ValidationFirstFailureWins` | src/AuthorizeGateway.php:260-296 | The checks run in this order: public key, private key, amount > 0, card present, address with first name, last name and email. Validation equals the first failure in that order. It passes iff all five checks pass. It reports check i's error iff check i fails and every earlier check passes. |
| `Authorize.FullAddress` | src/AuthorizeGateway.php:119-124 | Three cases. The line is address1 (null read as "") when address2 is PHP-empty. It is address2 alone when address1 is null or "". Otherwise it is address1 + ", " + address2. When address1 is "0", which PHP treats as empty, the line is "0" + address2 with no separator. address1 is always a prefix of the line. |
| `Authorize.Interpret` | src/AuthorizeGateway.php:221-252 | A fault with message M gives `Err("error", M)`. No response gives "No response received from the API.". A result code other than "Ok" gives the first error text, or else the first message text. A response code other than 1 gives "Failed processing the payment!". The result is a Transaction iff the reply is approved, and the Transaction then carries the transId, the response code and the first description. Every error has code `error`. The result is `Uncaught` iff the reply is missing a part that the code reads. |
| `Authorize.AuthorizeGateway.GetEndpoint` | src/AuthorizeGateway.php:429-431 | Production iff the live flag is set, and Sandbox iff it is not. |
| `Authorize.AuthorizeGateway.ProcessTransaction` | src/AuthorizeGateway.php:199-253 | The request is the given transaction request with the duplicateWindow=60 setting appended. Its merchant authentication is (public key, private key). The reference id is attached iff it is not PHP-empty. The result interprets the reply of the injected client, or of the transport's controller when no client is injected, run against the live or sandbox endpoint. |
| `Authorize.AuthorizeGateway.Process` | src/AuthorizeGateway.php:102-165 | A validation error is returned unchanged, and then no request is built and no controller runs. No request is built iff the result is an error whose code is not `error`. The transaction type is authCaptureTransaction iff capture is set, and authOnlyTransaction otherwise. An order carrying the invoice id is attached iff the invoice id is not PHP-empty. The card is copied verbatim. The bill-to address uses `FullAddress`, and its optional fields are cast to strings. The customer is "individual" with the billing email. On success the status is Paid when capture is set and Holding otherwise. An error or `Uncaught` passes through unchanged. |
| `Authorize.AuthorizeGateway.Capture` | src/AuthorizeGateway.php:172-190 | If the stored transaction id is PHP-empty, the result is `Err("error", "Invalid transaction ID.")` and no controller runs. Otherwise the request is priorAuthCaptureTransaction with refTransId set to the stored id and nothing else set, inside the same envelope. A success always has status Paid, whatever the capture flag. |
| `Authorize.AuthorizeGateway.constructor` | src/AuthorizeGateway.php:34-94 | The adapter starts with the given keys and live flag, with capture true, and with no transaction id, reference id or client. |
| `Authorize.AuthorizeGateway.SetPublicKey` | src/AuthorizeGateway.php:314-317 | Only the public key changes. Reading it back gives the value that was set. |
| `Authorize.AuthorizeGateway.SetPrivateKey` | src/AuthorizeGateway.php:335-338 | Only the private key changes. Reading it back gives the value that was set. |
| `Authorize.AuthorizeGateway.SetIsLive` | src/AuthorizeGateway.php:356-359 | Only the live flag changes. Reading it back gives the value that was set. |
| `Authorize.AuthorizeGateway.SetCapture` | src/AuthorizeGateway.php:377-380 | Only the capture flag changes. Reading it back gives the value that was set. |
| `Authorize.AuthorizeGateway.SetTransactionId` | src/AuthorizeGateway.php:398-401 | Only the transaction id changes. Reading it back gives the value that was set. |
| `Authorize.AuthorizeGateway.SetReferenceId` | src/AuthorizeGateway.php:419-422 | Only the reference id changes. Reading it back gives the value that was set. |
| `Authorize.AuthorizeGateway.SetClient` | src/AuthorizeGateway.php:449-452 | Only the client changes. Afterwards it is the given controller. |

The `get_*` accessors are the class's fields, which Dafny callers read directly. The setters' contracts
state the set-then-get round trip.

## Left out

- Vendor transport: the HTTP exchange inside `executeWithApiResponse` is not modelled. The controller's
  outcome is a parameter (`Reply`).
- Vendor object graph: the SDK's setters are modelled as record fields. Only the fields the adapter sets or reads exist.
- Response code: the PHP `(int)` cast of the vendor's response code is not modelled. The code is already an integer.
  The Transaction stores that integer where the source stores the vendor's raw value.
- Top-level messages object: the model assumes it is always present. A response whose `getMessages()` is
  null, which the source would also dereference, is not modelled.
- Host framework: the Payment base class, its setters (`set_amount`, `set_card`, `set_address`,
  `set_invoice_id`, `set_currency_code`) and its defaults are not part of this model. Its fields are plain
  fields of the class, assigned directly. Unset values start as 0 (amount), "" (currency code) and null (others).
  A null amount and 0 fail the `<= 0` check alike.
- Amount: the amount is a real number, not a PHP float. Only the comparison with 0 matters to the adapter.
- WordPress error object: `WP_Error`, `is_wp_error` and the translation function `__()` are not modelled.
  Errors are plain records with the untranslated English messages.
- Setter chaining: the PHP setters return `$this` so that calls can be chained. The model's setter methods
  return nothing; only their effect on the fields is modelled.
- Card checks: card numbers, expiry dates and CVVs are not validated. The adapter passes them on verbatim, and
  the model does the same.
