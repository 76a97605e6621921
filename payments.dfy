/**
 * The host framework's payment value types, as plain records.
 * Every getter of the host classes may answer null, hence the Option fields.
 */
module Payments {
  import opened Php

  datatype CreditCard = CreditCard(number: Option<string>, expiry: Option<string>, cvv: Option<string>)

  datatype Address = Address(
    firstName: Option<string>,
    lastName: Option<string>,
    email: Option<string>,
    phone: Option<string>,
    address1: Option<string>,
    address2: Option<string>,
    state: Option<string>,
    zip: Option<string>,
    countryCode: Option<string>)

  /** The host's Transaction; `status` stays null until the adapter sets it. */
  datatype Transaction = Transaction(transactionId: string, code: int, message: string, status: Option<string>)

  /** The host's error object: an error code and a message. */
  datatype Error = Error(code: string, message: string)

  /**
   * What `process` or `capture` hands back: a Transaction, an error object,
   * or a PHP `Error` (a method called on null) that escapes the adapter,
   * so that the call returns nothing at all.
   */
  datatype Result = Ok(transaction: Transaction) | Err(error: Error) | Uncaught
}
