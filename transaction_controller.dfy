/**
 * TransactionController: creating a deposit or withdrawal on one of the caller's own accounts, listing
 * an account's transactions and fetching one of them. The account is always looked up in the
 * caller's own account list, so no other user's account can be reached.
 */
module TransactionController {
  import opened Wrappers
  import opened Http
  import opened Entities
  import opened Requests
  import opened Store
  import MapperUtil

  /*** Finding the caller's account ***/

  /** The position of the first account with this number, or the list's length when there is none. */
  function FirstIndex(accounts: seq<BankAccount>, accountNumber: string): (i: nat)
    ensures i <= |accounts|
    ensures forall j | 0 <= j < i :: accounts[j].accountNumber != accountNumber
    ensures i < |accounts| ==> accounts[i].accountNumber == accountNumber
  {
    if |accounts| == 0 then 0
    else if accounts[0].accountNumber == accountNumber then 0
    else 1 + FirstIndex(accounts[1..], accountNumber)
  }

  /** getAuthenticatedUserAccount as a value: the first of the user's accounts with this number. */
  function OwnAccount(user: User, accountNumber: string): Option<BankAccount>
    reads user
  {
    var i := FirstIndex(user.accounts, accountNumber);
    if i < |user.accounts| then Some(user.accounts[i]) else None
  }

  /** The account a request of this caller for this number reaches, if any. */
  function TargetAccount(users: map<UserId, User>, callerId: Option<UserId>, accountNumber: string): Option<BankAccount>
    reads users.Values
  {
    match UserById(users, callerId)
    case None => None
    case Some(user) => OwnAccount(user, accountNumber)
  }

  /** getAuthenticatedUserAccount: a linear search of the user's own account list. */
  method GetAuthenticatedUserAccount(accountNumber: string, user: User) returns (r: Option<BankAccount>)
    ensures r == OwnAccount(user, accountNumber)
    ensures r.Some? ==> r.value in user.accounts && r.value.accountNumber == accountNumber
    ensures r.None? <==> forall a | a in user.accounts :: a.accountNumber != accountNumber
  {
    var accounts := user.accounts;
    var i := 0;
    while i < |accounts|
      invariant 0 <= i <= |accounts|
      invariant forall j | 0 <= j < i :: accounts[j].accountNumber != accountNumber
    {
      if accounts[i].accountNumber == accountNumber {
        return Some(accounts[i]);
      }
      i := i + 1;
    }
    return None;
  }

  /*** The checks of createTransaction ***/

  /** `valueOf(getType().name())` inside its try block: a null type and an unknown name both fail. */
  function TypeOf(req: CreateTransactionRequest): Option<TransactionType> {
    if req.typeName.None? then None else ValueOf(req.typeName.value)
  }

  /**
   * The checks createTransaction makes once the account is found, in the source's order: the type,
   * then the amount (a null amount makes `compareTo` throw), then the funds for a withdrawal. On
   * success, the type and amount to apply.
   */
  function ValidateRequest(req: CreateTransactionRequest, balance: int): (r: Result<(TransactionType, int), Response<Transaction>>)
    ensures TypeOf(req).None? ==> r == Failure(Error(BAD_REQUEST, "Invalid transaction type"))
    ensures TypeOf(req).Some? && req.amount.None? ==> r == Failure(Thrown("NullPointerException"))
    ensures TypeOf(req).Some? && req.amount.Some? && req.amount.value <= 0 ==>
              r == Failure(Error(BAD_REQUEST, "Amount must be more than zero"))
    ensures TypeOf(req) == Some(Withdrawal) && req.amount.Some? && 0 < req.amount.value && balance < req.amount.value ==>
              r == Failure(Error(BAD_REQUEST, "Insufficient funds"))
    ensures r.Success? <==>
              TypeOf(req).Some? && req.amount.Some? && req.amount.value > 0 &&
              (TypeOf(req).value == Withdrawal ==> req.amount.value <= balance)
    ensures r.Success? ==> r.value == (TypeOf(req).value, req.amount.value)
    ensures r.Success? && r.value.0 == Withdrawal ==> MapperUtil.NewBalance(balance, Withdrawal, r.value.1) >= 0
    ensures r.Success? && r.value.0 == Deposit ==> MapperUtil.NewBalance(balance, Deposit, r.value.1) > balance
  {
    match TypeOf(req)
    case None => Failure(Error(BAD_REQUEST, "Invalid transaction type"))
    case Some(kind) =>
      if req.amount.None? then Failure(Thrown("NullPointerException"))
      else if req.amount.value <= 0 then Failure(Error(BAD_REQUEST, "Amount must be more than zero"))
      else if kind == Withdrawal && balance < req.amount.value then Failure(Error(BAD_REQUEST, "Insufficient funds"))
      else Success((kind, req.amount.value))
  }

  /** A request without a valid type is refused the same way whatever its amount: the amount is not read. */
  lemma InvalidTypeIgnoresAmount(req: CreateTransactionRequest, amount: Option<int>, balance: int)
    requires TypeOf(req).None?
    ensures ValidateRequest(req.(amount := amount), balance) == ValidateRequest(req, balance)
  {
  }

  /** The account's balance after createTransaction has run this request against it. */
  function BalanceAfter(balance: int, req: CreateTransactionRequest): int {
    match ValidateRequest(req, balance)
    case Success((kind, amount)) => MapperUtil.NewBalance(balance, kind, amount)
    case Failure(_) => balance
  }

  /** Running requests one after another against one account, as successive createTransaction calls do. */
  function Replay(balance: int, reqs: seq<CreateTransactionRequest>): int
    decreases |reqs|
  {
    if reqs == [] then balance else Replay(BalanceAfter(balance, reqs[0]), reqs[1..])
  }

  /** A single request never takes a non-negative balance below zero. */
  lemma BalanceAfterNonNegative(balance: int, req: CreateTransactionRequest)
    requires balance >= 0
    ensures BalanceAfter(balance, req) >= 0
  {
  }

  /** However many requests run, an account that starts at or above zero stays at or above zero. */
  lemma {:induction false} ReplayNonNegative(balance: int, reqs: seq<CreateTransactionRequest>)
    requires balance >= 0
    ensures Replay(balance, reqs) >= 0
    decreases |reqs|
  {
    if reqs != [] {
      BalanceAfterNonNegative(balance, reqs[0]);
      ReplayNonNegative(BalanceAfter(balance, reqs[0]), reqs[1..]);
    }
  }

  /** Requests that are all refused leave the balance as it was. */
  lemma {:induction false} ReplayRefused(balance: int, reqs: seq<CreateTransactionRequest>)
    requires forall i | 0 <= i < |reqs| :: ValidateRequest(reqs[i], balance).Failure?
    ensures Replay(balance, reqs) == balance
  {
    if reqs != [] {
      ReplayRefused(balance, reqs[1..]);
    }
  }

  /** The scenario: 100, deposit 50, withdraw 200 (refused), withdraw 100, leaves 50. */
  lemma Scenario()
    ensures Replay(100, [
      CreateTransactionRequest(Some("DEPOSIT"), Some(50), None),
      CreateTransactionRequest(Some("WITHDRAWAL"), Some(200), None),
      CreateTransactionRequest(Some("WITHDRAWAL"), Some(100), None)]) == 50
  {
    var d := CreateTransactionRequest(Some("DEPOSIT"), Some(50), None);
    var w1 := CreateTransactionRequest(Some("WITHDRAWAL"), Some(200), None);
    var w2 := CreateTransactionRequest(Some("WITHDRAWAL"), Some(100), None);
    assert BalanceAfter(100, d) == 150;
    assert BalanceAfter(150, w1) == 150;
    assert BalanceAfter(150, w2) == 50;
    assert [d, w1, w2][1..] == [w1, w2];
    assert [w1, w2][1..] == [w2];
  }

  /*** The handlers ***/

  /**
   * createTransaction: 401 without a caller, 404 when the number is not among the caller's accounts,
   * then the request checks; only an accepted request changes the balance and appends to the ledger.
   */
  method CreateTransaction(db: Database, callerId: Option<UserId>, accountNumber: string,
                           req: CreateTransactionRequest, now: Instant)
      returns (resp: Response<Transaction>)
    requires db.Valid()
    modifies db`transactions, AccountsOf(UserById(db.users, callerId))`balance
    ensures db.Valid()
    ensures UserById(db.users, callerId).None? ==> resp == Error(UNAUTHORIZED, "Unauthorized")
    ensures UserById(db.users, callerId).Some? && TargetAccount(db.users, callerId, accountNumber).None? ==>
              resp == Error(NOT_FOUND, "Account does not exist")
    ensures TargetAccount(db.users, callerId, accountNumber).Some? ==>
              var account := TargetAccount(db.users, callerId, accountNumber).value;
              match ValidateRequest(req, old(account.balance))
              case Failure(e) => resp == e
              case Success((kind, amount)) =>
                && resp == Created(Transaction(Some(|old(db.transactions)| + 1), kind, amount, now, req.reference, account))
                && account.balance == MapperUtil.NewBalance(old(account.balance), kind, amount)
    // the ledger grows by the created transaction, and only then
    ensures db.transactions == if resp.Created? then old(db.transactions) + [resp.body] else old(db.transactions)
    // every rejection leaves every balance untouched; an acceptance touches only the target account
    ensures forall a | a in AccountsOf(UserById(db.users, callerId)) ::
              a.balance == if resp.Created? && a == resp.body.account then BalanceAfter(old(a.balance), req) else old(a.balance)
    // no other field of any account changes
    ensures forall a | a in AccountsOf(UserById(db.users, callerId)) :: a.name == old(a.name)
    // an accepted withdrawal never leaves a negative balance
    ensures resp.Created? && resp.body.kind == Withdrawal ==> resp.body.account.balance >= 0
  {
    var caller := UserById(db.users, callerId);
    if caller.None? {
      return Error(UNAUTHORIZED, "Unauthorized");
    }
    var found := GetAuthenticatedUserAccount(accountNumber, caller.value);
    if found.None? {
      return Error(NOT_FOUND, "Account does not exist");
    }
    var account := found.value;
    var check := ValidateRequest(req, account.balance);
    if check.Failure? {
      return check.error;
    }
    var tx := MapperUtil.GetTransaction(req, account, now);
    var created := db.SaveTransaction(tx);
    return Created(created);
  }

  /** The ledger entries of one account, in ledger order (findByAccount). */
  function EntriesOf(ledger: seq<Transaction>, account: BankAccount): (r: seq<Transaction>)
    ensures |r| <= |ledger|
    ensures forall t | t in r :: t in ledger && t.account == account
    ensures forall t | t in ledger && t.account == account :: t in r
  {
    if ledger == [] then []
    else if ledger[0].account == account then [ledger[0]] + EntriesOf(ledger[1..], account)
    else EntriesOf(ledger[1..], account)
  }

  /**
   * Entries keep ledger order: a transaction appended to the ledger is appended to its own account's
   * entries and leaves every other account's entries as they were.
   */
  lemma {:induction false} EntriesOfAppend(ledger: seq<Transaction>, t: Transaction, account: BankAccount)
    ensures EntriesOf(ledger + [t], account) == EntriesOf(ledger, account) + (if t.account == account then [t] else [])
  {
    if ledger == [] {
      assert [] + [t] == [t];
      assert [t][1..] == [];
    } else {
      assert (ledger + [t])[0] == ledger[0];
      assert (ledger + [t])[1..] == ledger[1..] + [t];
      EntriesOfAppend(ledger[1..], t, account);
    }
  }

  /** listTransactions: 401, then 404 for an account that is not the caller's, then that account's entries. */
  function ListTransactions(users: map<UserId, User>, ledger: seq<Transaction>, callerId: Option<UserId>,
                            accountNumber: string): (r: Response<seq<Transaction>>)
    reads users.Values
    ensures UserById(users, callerId).None? ==> r == Error(UNAUTHORIZED, "Unauthorized")
    ensures UserById(users, callerId).Some? && TargetAccount(users, callerId, accountNumber).None? ==>
              r == Error(NOT_FOUND, "Account not found or forbidden")
    ensures r.Ok? <==> TargetAccount(users, callerId, accountNumber).Some?
    ensures r.Ok? ==> r.body == EntriesOf(ledger, TargetAccount(users, callerId, accountNumber).value)
  {
    match UserById(users, callerId)
    case None => Error(UNAUTHORIZED, "Unauthorized")
    case Some(user) =>
      match OwnAccount(user, accountNumber)
      case None => Error(NOT_FOUND, "Account not found or forbidden")
      case Some(account) => Ok(EntriesOf(ledger, account))
  }

  /** The first ledger entry with this id that belongs to this account (findByIdAndAccount). */
  function FindByIdAndAccount(ledger: seq<Transaction>, id: int, account: BankAccount): (r: Option<Transaction>)
    ensures r.Some? ==> r.value in ledger && r.value.id == Some(id) && r.value.account == account
    ensures r.None? ==> forall t | t in ledger :: !(t.id == Some(id) && t.account == account)
  {
    if ledger == [] then None
    else if ledger[0].id == Some(id) && ledger[0].account == account then Some(ledger[0])
    else FindByIdAndAccount(ledger[1..], id, account)
  }

  /** getTransaction: 401, then 404 for the account, then 404 when the id is not one of that account's. */
  function GetTransaction(users: map<UserId, User>, ledger: seq<Transaction>, callerId: Option<UserId>,
                          accountNumber: string, transactionId: int): (r: Response<Transaction>)
    reads users.Values
    ensures UserById(users, callerId).None? ==> r == Error(UNAUTHORIZED, "Unauthorized")
    ensures UserById(users, callerId).Some? && TargetAccount(users, callerId, accountNumber).None? ==>
              r == Error(NOT_FOUND, "Account not found or forbidden")
    ensures TargetAccount(users, callerId, accountNumber).Some? ==>
              var account := TargetAccount(users, callerId, accountNumber).value;
              if exists t | t in ledger :: t.id == Some(transactionId) && t.account == account
              then r.Ok? && r.body in ledger && r.body.id == Some(transactionId) && r.body.account == account
              else r == Error(NOT_FOUND, "Transaction not found")
    ensures r.Ok? ==> r.body.account in UserById(users, callerId).value.accounts
  {
    match UserById(users, callerId)
    case None => Error(UNAUTHORIZED, "Unauthorized")
    case Some(user) =>
      match OwnAccount(user, accountNumber)
      case None => Error(NOT_FOUND, "Account not found or forbidden")
      case Some(account) =>
        match FindByIdAndAccount(ledger, transactionId, account)
        case None => Error(NOT_FOUND, "Transaction not found")
        case Some(tx) => Ok(tx)
  }
}
