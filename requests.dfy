/**
 * The request bodies the core reads. Each field is `None` where the JSON body leaves it out, as the
 * generated request classes then hold `null`; only the fields the core reads are kept.
 */
module Requests {
  import opened Wrappers

  /** Body of POST /v1/accounts/{accountNumber}/transactions; `typeName` is the name of the request's type enum. */
  datatype CreateTransactionRequest = CreateTransactionRequest(
    typeName: Option<string>,
    amount: Option<int>,
    reference: Option<string>)

  /** Body of POST /v1/accounts. */
  datatype CreateBankAccountRequest = CreateBankAccountRequest(
    name: Option<string>,
    accountType: string,
    balance: int)

  /** The request MapperUtil.updateAccount reads. */
  datatype UpdateBankAccountRequest = UpdateBankAccountRequest(name: Option<string>)

  /** Body of PATCH /v1/accounts/{accountNumber}; only its balance is read. */
  datatype BankAccountRequest = BankAccountRequest(balance: Option<int>)

  /** The address part of PATCH /v1/users/{userId}. */
  datatype UpdateUserRequestAddress = UpdateUserRequestAddress(
    line1: Option<string>,
    town: Option<string>,
    county: Option<string>,
    postcode: Option<string>)

  /** Body of PATCH /v1/users/{userId}. */
  datatype UpdateUserRequest = UpdateUserRequest(
    name: Option<string>,
    phoneNumber: Option<string>,
    email: Option<string>,
    address: Option<UpdateUserRequestAddress>)
}
