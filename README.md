# eagle-bank core, modelled in Dafny

This project models the request-handling core of the eagle-bank REST backend (a Spring Boot
application of users, bank accounts and deposit/withdrawal transactions):

- `TransactionController` — `createTransaction` with its guard chain (caller, own account, type,
  amount, funds), `listTransactions`, `getTransaction`, and the linear search
  `getAuthenticatedUserAccount` over the caller's own accounts;
- `AccountController` — the ownership lookup `getUserAccount` and the create / get / list / update
  handlers;
- `UserController` — the get / update / delete handlers of a user's own record;
- `MapperUtil` — `getTransaction` (which moves the balance), `updateAccount`, `updateUser` (including
  its county-into-town overwrite), `getBankAccount`, and the account-number and sort-code generators;
- `UserUpdateUtil` — the "overwrite only with non-blank text" profile update;
- `JwtAuthenticationFilter` — the public-path bypass, the `Bearer ` header parsing, and the three ways
  a request leaves the filter (chain continued unauthenticated, authenticated, or
  `NotLoggedInException`).

Users, addresses and bank accounts are Dafny classes, because the handlers update their fields in
place; a transaction is a datatype. The persistence layer is a `Database` object: users by id,
accounts by account number, and an append-only ledger of transactions whose ids are their 1-based
positions. Its invariant ties each user's account list to the stored accounts: the list holds exactly
the stored accounts whose owner is that user, as the persistence layer loads it from
`BankAccount.user`, so an account created by `createAccount` is the one later found by the
transaction handlers and blocks the deletion of its owner. `BigDecimal` amounts are `int`s, `Instant` is an `int` given as a parameter, and the
random numbers of the generators are parameters. A handler's `ResponseEntity` is a `Response`:
`Ok`, `Created`, `NoContent`, `Error(status, message)` with the status codes and message texts of the
source, or `Thrown(exception)` for an exception that escapes the handler.

The central result is about `createTransaction`: every rejection (401, 404, 400 and the thrown
`NullPointerException` of a missing amount) leaves every balance and the ledger untouched; an accepted
request changes only the target account's balance, by `+amount` for a deposit and `-amount` for a
withdrawal, and appends exactly one transaction; and an accepted withdrawal never leaves a negative
balance. `Replay` runs a sequence of requests against one account, and `ReplayNonNegative` proves
that an account starting at or above zero stays there however many requests run.

`MapperUtil.updateUser` writes a non-blank incoming county into the address's town (the county field
is never written), and the model keeps that behaviour: `UpdatedAddress` and `UpdatedTownSource` state it.

Where the account controller's tests expect 403 for an account that is missing or not the caller's
(`getAccount`, `updateAccount`), the controller answers 404 "Account not found or forbidden"; the model
follows the controller.

## Model

All source paths are under `src/main/java/org/eagle/bank/`.

| member | source | states |
|---|---|---|
| Entities.ValueOf | src/main/java/org/eagle/bank/model/Transaction.java:63-65 | `TransactionType.valueOf`: a name is accepted exactly when it is the name of some constant, and the constant returned has that name |
| Entities.ValueOfName | src/main/java/org/eagle/bank/model/Transaction.java:63-65 | every constant's name is parsed back to that constant |
| Store.Database.SaveTransaction | src/main/java/org/eagle/bank/service/TransactionService.java:42-50 | saving appends the transaction to the ledger with the next identity id and keeps the store consistent |
| Store.Database.InsertAccount | src/main/java/org/eagle/bank/model/BankAccount.java:13-17 | an account is stored exactly when neither its number nor its sort code is already taken (both columns are unique), and then it is appended to its owner's account list; otherwise the store is unchanged; the store's invariant is kept |
| Strings.TrimEmptyIffBlank | src/main/java/org/eagle/bank/util/UserUpdateUtil.java:11 | `trim().isEmpty()` holds exactly when every character is at most a space |
| Strings.Overwrite | src/main/java/org/eagle/bank/util/UserUpdateUtil.java:11-13 | a field takes the incoming value only when it is present and not blank, otherwise keeps its current value |
| Strings.OverwriteIdempotent | src/main/java/org/eagle/bank/util/UserUpdateUtil.java:11-13 | applying the same incoming value twice equals applying it once |
| Strings.OverwriteNeedsText | src/main/java/org/eagle/bank/util/UserUpdateUtil.java:11-13 | a field changes only when the incoming value has text |
| UserUpdateUtil.UpdatedProfile | src/main/java/org/eagle/bank/util/UserUpdateUtil.java:9-23 | name, phone number and email each change only to a non-blank incoming value |
| UserUpdateUtil.UpdatedProfileFields | src/main/java/org/eagle/bank/util/UserUpdateUtil.java:9-23 | each field of the result is the incoming text when it has text, and the old value otherwise |
| UserUpdateUtil.UpdatedProfileIdempotent | src/main/java/org/eagle/bank/util/UserUpdateUtil.java:9-23 | repeating the same update changes nothing further |
| UserUpdateUtil.EmptyRequestKeepsProfile | src/main/java/org/eagle/bank/util/UserUpdateUtil.java:9-23 | a request whose fields are all null or blank leaves the profile as it was |
| UserUpdateUtil.UpdateUser | src/main/java/org/eagle/bank/util/UserUpdateUtil.java:9-23 | the user's profile becomes the updated profile; only name, phone number and email are written |
| Format.ParseDecimalOfDecimal | src/main/java/org/eagle/bank/util/MapperUtil.java:158-162 | the decimal digits of a number parse back to that number |
| Format.ZeroPaddedShape | src/main/java/org/eagle/bank/util/MapperUtil.java:158-172 | `%0wd` of a number below 10^w has length w, only digits, and parses back to the number |
| MapperUtil.NewBalanceInverse | src/main/java/org/eagle/bank/util/MapperUtil.java:150-154 | a withdrawal of an amount undoes a deposit of the same amount and vice versa |
| MapperUtil.GetTransaction | src/main/java/org/eagle/bank/util/MapperUtil.java:142-156 | the transaction carries the request's type, amount and reference, the account and the time; the account's balance gains the amount for a deposit and loses it for a withdrawal; nothing else changes |
| MapperUtil.UpdateAccount | src/main/java/org/eagle/bank/util/MapperUtil.java:85-89 | the account's name is replaced exactly when the request carries one |
| MapperUtil.UpdatedAddress | src/main/java/org/eagle/bank/util/MapperUtil.java:107-120 | line1 and postcode are overwritten only by non-blank incoming text; the county is never written; a non-blank county is written into the town, and with a blank county the town follows the incoming town; no address in the request leaves the address as it was |
| MapperUtil.UpdatedTownSource | src/main/java/org/eagle/bank/util/MapperUtil.java:112-117 | a changed town is the incoming county when that has text, and otherwise the incoming town, which then has text |
| MapperUtil.UpdatedAddressIdempotent | src/main/java/org/eagle/bank/util/MapperUtil.java:107-120 | repeating the same address update changes nothing further |
| MapperUtil.UpdateAddress | src/main/java/org/eagle/bank/util/MapperUtil.java:107-120 | the address object becomes the updated address value |
| MapperUtil.UpdateUser | src/main/java/org/eagle/bank/util/MapperUtil.java:92-122 | the user's profile and address become their updated values; the account list is untouched |
| MapperUtil.AccountNumber | src/main/java/org/eagle/bank/util/MapperUtil.java:158-162 | an account number is eight digits, starts with "01", and its last six digits are the random number |
| MapperUtil.AccountNumberInjective | src/main/java/org/eagle/bank/util/MapperUtil.java:158-162 | different random numbers give different account numbers |
| MapperUtil.SortCode | src/main/java/org/eagle/bank/util/MapperUtil.java:164-172 | a sort code is three two-digit groups joined by dashes, each group parsing back to its random part |
| MapperUtil.GetBankAccount | src/main/java/org/eagle/bank/util/MapperUtil.java:124-140 | a fresh account with the request's name, balance and type, a generated number and sort code, owned by the caller |
| TransactionController.FirstIndex | src/main/java/org/eagle/bank/controller/TransactionController.java:111-120 | the position of the first account with the number: no earlier account has it, and the one found has it |
| TransactionController.GetAuthenticatedUserAccount | src/main/java/org/eagle/bank/controller/TransactionController.java:111-120 | the search finds the first of the user's own accounts with the number, and finds nothing exactly when none of them has it |
| TransactionController.ValidateRequest | src/main/java/org/eagle/bank/controller/TransactionController.java:48-60 | in the source's order: 400 for a missing or unknown type, a thrown NullPointerException for a missing amount, 400 for an amount not above zero, 400 for a withdrawal above the balance; accepted exactly when none applies, and then a withdrawal leaves a non-negative balance and a deposit raises it |
| TransactionController.InvalidTypeIgnoresAmount | src/main/java/org/eagle/bank/controller/TransactionController.java:48-53 | a request with an invalid type is refused the same way whatever its amount |
| TransactionController.BalanceAfterNonNegative | src/main/java/org/eagle/bank/controller/TransactionController.java:54-61 | one request never takes a non-negative balance below zero |
| TransactionController.ReplayNonNegative | src/main/java/org/eagle/bank/controller/TransactionController.java:54-61 | any sequence of requests keeps a non-negative balance non-negative |
| TransactionController.ReplayRefused | src/main/java/org/eagle/bank/controller/TransactionController.java:48-60 | requests that are all refused leave the balance unchanged |
| TransactionController.Scenario | src/main/java/org/eagle/bank/controller/TransactionController.java:48-64 | 100, deposit 50, refused withdrawal of 200, withdrawal of 100, ends at 50 |
| TransactionController.CreateTransaction | src/main/java/org/eagle/bank/controller/TransactionController.java:36-65 | 401 without a caller, 404 when the account is not the caller's, then the request checks; a rejection changes no balance and no ledger entry; an acceptance creates one ledger entry and moves only the target's balance (no other account field may change); an accepted withdrawal leaves the balance non-negative |
| TransactionController.EntriesOf | src/main/java/org/eagle/bank/service/TransactionService.java:34-36 | exactly the ledger entries of the account |
| TransactionController.EntriesOfAppend | src/main/java/org/eagle/bank/service/TransactionService.java:34-36 | a transaction appended to the ledger is appended to its own account's entries and leaves other accounts' entries as they were |
| TransactionController.ListTransactions | src/main/java/org/eagle/bank/controller/TransactionController.java:68-82 | 401, then 404 for an account that is not the caller's, otherwise exactly that account's entries |
| TransactionController.FindByIdAndAccount | src/main/java/org/eagle/bank/service/TransactionService.java:38-40 | an entry is found exactly when one with that id belongs to that account |
| TransactionController.GetTransaction | src/main/java/org/eagle/bank/controller/TransactionController.java:84-103 | 401, 404 for the account, 404 "Transaction not found"; a returned transaction always belongs to one of the caller's accounts |
| AccountController.GetUserAccount | src/main/java/org/eagle/bank/controller/AccountController.java:38-47 | an account is returned exactly when it exists and is owned by the caller |
| AccountController.ForeignAccountLooksMissing | src/main/java/org/eagle/bank/controller/AccountController.java:38-47 | another user's account is indistinguishable from a missing one |
| AccountController.LookupsAgree | src/main/java/org/eagle/bank/controller/AccountController.java:38-47 | in a consistent store, the store lookup and the own-list search of TransactionController return the same account for every stored user |
| AccountController.StoredAccountIsReachable | src/main/java/org/eagle/bank/controller/TransactionController.java:111-120 | in a consistent store every stored account is found by its owner's own-account search, so the account createAccount stores is the one the transaction handlers act on |
| AccountController.GetAccount | src/main/java/org/eagle/bank/controller/AccountController.java:66-82 | 401, then 404 "Account not found or forbidden", otherwise the caller's own account |
| AccountController.GetAccountHidesForeign | src/main/java/org/eagle/bank/controller/AccountController.java:66-82 | asking for another user's account gives the same 404 as asking for a missing one |
| AccountController.ListAccounts | src/main/java/org/eagle/bank/controller/AccountController.java:84-95 | 401 without a caller, otherwise exactly the caller's accounts |
| AccountController.CreateAccount | src/main/java/org/eagle/bank/controller/AccountController.java:49-64 | 401 without a caller; otherwise a fresh account owned by the caller is stored and appended to the caller's account list, or a DataIntegrityViolationException escapes when its number or sort code is taken and the store and the list are unchanged; the store's invariant is kept |
| AccountController.UpdateAccount | src/main/java/org/eagle/bank/controller/AccountController.java:98-116 | 401, 404; on success only the caller's target account changes, and only its balance, when the request carries one; the store's invariant is kept |
| UserController.ResolveSelf | src/main/java/org/eagle/bank/controller/UserController.java:75-81 | 404 when the caller is not stored, 403 when it is another user, otherwise the caller |
| UserController.GetUser | src/main/java/org/eagle/bank/controller/UserController.java:46-69 | 404 without a caller id or for an unknown caller, 403 for another user's id, otherwise the caller's record |
| UserController.UpdateUser | src/main/java/org/eagle/bank/controller/UserController.java:71-87 | 404, 403 leave every user unchanged; success applies the profile and address update to the caller only |
| UserController.DeleteUser | src/main/java/org/eagle/bank/controller/UserController.java:89-107 | 404, 403, 409 with the store unchanged; 204 exactly for a self-delete without accounts, which removes only that user |
| UserController.OwnerOfAccountsIsNeverDeleted | src/main/java/org/eagle/bank/controller/UserController.java:102-104 | in a consistent store the owner of any stored account is never removed, whoever asks |
| UserController.SelfDeleteWithoutAccounts | src/main/java/org/eagle/bank/controller/UserController.java:89-107 | in a consistent store a user who owns no stored account and deletes themself gets 204 and is removed |
| UserController.DeleteUserKeepsStoreConsistent | src/main/java/org/eagle/bank/controller/UserController.java:102-105 | the user store after any delete is still consistent with the account store: no stored account is left without its owner |
| UserController.DeleteRemovesOnlyCaller | src/main/java/org/eagle/bank/controller/UserController.java:89-107 | a delete removes at most the requested user and changes no other entry |
| JwtAuthenticationFilter.BearerToken | src/main/java/org/eagle/bank/security/JwtAuthenticationFilter.java:49-56 | a token is extracted exactly when the header starts with "Bearer ", and the header is "Bearer " followed by it |
| JwtAuthenticationFilter.BearerTokenRoundTrip | src/main/java/org/eagle/bank/security/JwtAuthenticationFilter.java:53-54 | "Bearer " followed by any token yields that token |
| JwtAuthenticationFilter.Decide | src/main/java/org/eagle/bank/security/JwtAuthenticationFilter.java:38-79 | public paths are skipped; without a Bearer token or with an existing authentication the request stays anonymous; with a Bearer token and no authentication: no subject stays anonymous, an empty subject fails, a token that does not validate stays anonymous, a valid token of a stored user authenticates with that user's id, and a valid token of an unknown user is refused |
| JwtAuthenticationFilter.NoTokenNeverThrows | src/main/java/org/eagle/bank/security/JwtAuthenticationFilter.java:53-58 | without a Bearer token, or with an authentication already present, a non-public request stays anonymous and the filter never throws |
| JwtAuthenticationFilter.InvalidTokenStaysAnonymous | src/main/java/org/eagle/bank/security/JwtAuthenticationFilter.java:58-64 | a token without a subject or that does not validate never authenticates and never leads to a user lookup; unless its subject is empty the request stays anonymous |
| JwtAuthenticationFilter.DoFilterInternal | src/main/java/org/eagle/bank/security/JwtAuthenticationFilter.java:38-79 | the outcome, the security context, the request's user id and the chain invocations follow the decision: the chain runs once unless an exception escapes; NotLoggedInException escapes after the authentication is set, IllegalArgumentException (empty subject) before anything is set |

## Left out

- Repositories and services are not modelled as code: the stores are maps and a sequence, and `applyTransaction`'s two saves are one atomic step (its transaction boundary rolls both back together).
- ModelMapper response mapping (`toTransactionResponse`, `toBankAccountResponse`, `toUserResponse`) is not modelled; response bodies are the entities themselves.
- JwtUtil's signing and parsing, and BCrypt, are not modelled: the filter takes the subject extraction and the validation as given functions.
- `Instant.now()`, `Math.random()` and `Random.nextInt` are parameters; logging is left out.
- Concurrency between requests is not modelled: each handler runs alone on the store.
- A user's account list is never null in the model (the empty list stands for it); the NullPointerException the own-account search would raise on a null list is not modelled.
- A null `authenticatedUserId` finds no user, as the handlers' tests mock it; the exception Spring Data raises for a null id is not modelled.
- A user whose address is null is not modelled (MapperUtil.updateUser would throw when writing into it).
- `BigDecimal` scale and precision are not modelled: amounts are integers in one unit.
- Thrown exceptions carry only their class name; the HTTP status the framework maps them to is not modelled.
- Request validation by bean-validation annotations (`@Valid`, the DTOs' constraints) is not modelled: requests arrive as given.
- The commented-out `deleteAccount` handler is not code and is not modelled.
- AuthController, user creation and login are not modelled.
- AccountController.UpdateAccount: the balance is set to whatever the request carries, negative values included, as the source does; no non-negative invariant is claimed for it.
- TransactionController.EntriesOf: the repository query `findByAccount` promises no order; the model returns entries in ledger (insertion) order.
- JwtAuthenticationFilter.DoFilterInternal: Spring Security's `User` builder is not part of this model; that it rejects an empty user name with IllegalArgumentException is taken as given, and that exception is named only by its class.
- AccountController.ListAccounts: the order of the returned accounts is not modelled (the result is a set).
