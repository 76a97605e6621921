/**
 * The part of the Authorize.Net SDK schema the adapter writes and reads.
 * Each `*Type` object becomes a record; a setter never called leaves its field None.
 */
module AuthorizeNet {
  import opened Php

  /** The two endpoints of ANetEnvironment. */
  datatype Endpoint = Sandbox | Production

  datatype SettingType = SettingType(settingName: string, settingValue: string)

  datatype CreditCardType = CreditCardType(cardNumber: Option<string>, expirationDate: Option<string>, cardCode: Option<string>)

  datatype CustomerAddressType = CustomerAddressType(
    firstName: string,
    lastName: string,
    email: string,
    phoneNumber: string,
    address: string,
    state: string,
    zip: string,
    country: string)

  datatype CustomerDataType = CustomerDataType(customerType: string, email: string)

  datatype OrderType = OrderType(invoiceNumber: string)

  datatype TransactionRequestType = TransactionRequestType(
    transactionType: Option<string>,
    refTransId: Option<string>,
    currencyCode: Option<string>,
    amount: Option<real>,
    payment: Option<CreditCardType>,
    billTo: Option<CustomerAddressType>,
    customer: Option<CustomerDataType>,
    order: Option<OrderType>,
    transactionSettings: seq<SettingType>)

  /** A freshly constructed TransactionRequestType: nothing set yet. */
  const BlankTransactionRequest: TransactionRequestType :=
    TransactionRequestType(None, None, None, None, None, None, None, None, [])

  datatype MerchantAuthenticationType = MerchantAuthenticationType(name: string, transactionKey: string)

  datatype CreateTransactionRequest = CreateTransactionRequest(
    transactionRequest: TransactionRequestType,
    merchantAuthentication: MerchantAuthenticationType,
    refId: Option<string>)

  /**
   * The transaction part of a response. The response code is the value of
   * the vendor's code after PHP's `(int)` cast.
   */
  datatype TransactionResponseType = TransactionResponseType(
    responseCode: int,
    transId: string,
    errorTexts: seq<string>,
    messageDescriptions: seq<string>)

  datatype CreateTransactionResponse = CreateTransactionResponse(
    resultCode: string,
    messageTexts: seq<string>,
    transactionResponse: Option<TransactionResponseType>)

  /**
   * What one `executeWithApiResponse` call yields: it throws an exception,
   * returns something that is not a CreateTransactionResponse, or returns one.
   */
  datatype Reply = Fault(message: string) | NoResponse | Resp(response: CreateTransactionResponse)

  /** A transaction controller: it already holds its request and is executed against an endpoint. */
  type Controller = Endpoint -> Reply

  /** The SDK's own controller, constructed from a request when no client is injected. */
  type Transport = CreateTransactionRequest -> Controller
}
