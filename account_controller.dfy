/**
 * AccountController: creating, reading, listing and patching accounts. A missing account and an
 * account owned by someone else give the same 404, so a caller learns nothing about other users'
 * accounts.
 */
module AccountController {
  import opened Wrappers
  import opened Http
  import opened Entities
  import opened Requests
  import opened Store
  import MapperUtil
  import TransactionController

  /** getUserAccount: the stored account with this number, but only when its owner's id is the caller's. */
  function GetUserAccount(accounts: map<string, BankAccount>, accountNumber: string, user: User): (r: Option<BankAccount>)
    ensures r.Some? <==> accountNumber in accounts && accounts[accountNumber].user.id == user.id
    ensures r.Some? ==> r.value == accounts[accountNumber] && r.value.user.id == user.id
  {
    if accountNumber !in accounts then None
    else
      var account := accounts[accountNumber];
      if account.user.id != user.id then None else Some(account)
  }

  /**
   * An account owned by another user is looked up exactly as if it were not stored at all: the
   * answer does not reveal that it exists.
   */
  lemma {:induction false} ForeignAccountLooksMissing(accounts: map<string, BankAccount>, accountNumber: string, user: User)
    requires accountNumber in accounts && accounts[accountNumber].user.id != user.id
    ensures GetUserAccount(accounts, accountNumber, user) == GetUserAccount(accounts - {accountNumber}, accountNumber, user)
  {
  }

  /**
   * In a consistent store the transaction controller's search of the caller's account list and this
   * controller's lookup in the account store find the same account.
   */
  lemma LookupsAgree(db: Database, userId: UserId, accountNumber: string)
    requires db.Valid() && userId in db.users
    ensures TransactionController.OwnAccount(db.users[userId], accountNumber) == GetUserAccount(db.accounts, accountNumber, db.users[userId])
  {
    var user := db.users[userId];
    var own := TransactionController.OwnAccount(user, accountNumber);
    if own.Some? {
      assert own.value in user.accounts;
    }
  }

  /**
   * Every stored account is reachable by its owner through the transaction handlers: the account
   * createAccount stores can be deposited into, listed and read by the caller who created it.
   */
  lemma StoredAccountIsReachable(db: Database, accountNumber: string)
    requires db.Valid() && accountNumber in db.accounts
    ensures var owner := db.accounts[accountNumber].user;
      TransactionController.TargetAccount(db.users, Some(owner.id), accountNumber) == Some(db.accounts[accountNumber])
  {
    LookupsAgree(db, db.accounts[accountNumber].user.id, accountNumber);
  }

  /** getAccount: 401 without a caller, 404 unless the account is the caller's, else the account. */
  function GetAccount(users: map<UserId, User>, accounts: map<string, BankAccount>, callerId: Option<UserId>,
                      accountNumber: string): (r: Response<BankAccount>)
    ensures UserById(users, callerId).None? ==> r == Error(UNAUTHORIZED, "Unauthorized")
    ensures UserById(users, callerId).Some? ==>
              r == if GetUserAccount(accounts, accountNumber, UserById(users, callerId).value).Some?
                   then Ok(accounts[accountNumber])
                   else Error(NOT_FOUND, "Account not found or forbidden")
    ensures r.Ok? ==> r.body.user.id == UserById(users, callerId).value.id
  {
    match UserById(users, callerId)
    case None => Error(UNAUTHORIZED, "Unauthorized")
    case Some(user) =>
      match GetUserAccount(accounts, accountNumber, user)
      case None => Error(NOT_FOUND, "Account not found or forbidden")
      case Some(account) => Ok(account)
  }

  /** Whether the number is stored under another owner or not stored at all, getAccount answers the same. */
  lemma GetAccountHidesForeign(users: map<UserId, User>, accounts: map<string, BankAccount>, callerId: Option<UserId>,
                               accountNumber: string)
    requires UserById(users, callerId).Some?
    requires accountNumber in accounts && accounts[accountNumber].user.id != UserById(users, callerId).value.id
    ensures GetAccount(users, accounts, callerId, accountNumber) == GetAccount(users, accounts - {accountNumber}, callerId, accountNumber)
    ensures GetAccount(users, accounts, callerId, accountNumber) == Error(NOT_FOUND, "Account not found or forbidden")
  {
    ForeignAccountLooksMissing(accounts, accountNumber, UserById(users, callerId).value);
  }

  /** The stored accounts whose owner has this id (findByUser). */
  function AccountsOwnedBy(accounts: map<string, BankAccount>, id: UserId): set<BankAccount> {
    set n | n in accounts && accounts[n].user.id == id :: accounts[n]
  }

  /** listAccounts: 401 without a caller, else every stored account the caller owns and no other. */
  function ListAccounts(users: map<UserId, User>, accounts: map<string, BankAccount>, callerId: Option<UserId>)
      : (r: Response<set<BankAccount>>)
    ensures r.Ok? <==> UserById(users, callerId).Some?
    ensures !r.Ok? ==> r == Error(UNAUTHORIZED, "Unauthorized")
    ensures r.Ok? ==> forall a | a in r.body :: a in accounts.Values && a.user.id == UserById(users, callerId).value.id
    ensures r.Ok? ==> forall n | n in accounts && accounts[n].user.id == UserById(users, callerId).value.id :: accounts[n] in r.body
  {
    match UserById(users, callerId)
    case None => Error(UNAUTHORIZED, "Unauthorized")
    case Some(user) => Ok(AccountsOwnedBy(accounts, user.id))
  }

  /**
   * createAccount: 401 without a caller; otherwise a new account owned by the caller is built and
   * inserted, and 201 returned; the account then also appears at the end of the caller's account list.
   * The insert fails with DataIntegrityViolationException, and nothing is stored, when the generated
   * number or sort code is already taken. The random values are inputs.
   */
  method CreateAccount(db: Database, callerId: Option<UserId>, req: CreateBankAccountRequest,
                       random: nat, part1: nat, part2: nat, part3: nat)
      returns (resp: Response<BankAccount>)
    requires db.Valid()
    requires random < 1_000_000 && part1 < 100 && part2 < 100 && part3 < 100
    modifies db`accounts, Caller(db.users, callerId)`accounts
    ensures db.Valid()
    ensures UserById(db.users, callerId).None? ==> resp == Error(UNAUTHORIZED, "Unauthorized")
    ensures UserById(db.users, callerId).Some? && !resp.Created? ==> resp == Thrown("DataIntegrityViolationException")
    ensures resp.Created? ==>
              && fresh(resp.body)
              && resp.body.user == UserById(db.users, callerId).value
              && resp.body.balance == req.balance && resp.body.name == req.name && resp.body.accountType == req.accountType
              && resp.body.accountNumber == MapperUtil.AccountNumber(random)
              && resp.body.sortCode == MapperUtil.SortCode(part1, part2, part3)
              && db.accounts == old(db.accounts)[resp.body.accountNumber := resp.body]
              && resp.body.user.accounts == old(UserById(db.users, callerId).value.accounts) + [resp.body]
    ensures UserById(db.users, callerId).Some? ==>
              (resp.Created? <==>
                 MapperUtil.AccountNumber(random) !in old(db.accounts) &&
                 SortCodeFree(old(db.accounts), MapperUtil.SortCode(part1, part2, part3)))
    ensures !resp.Created? ==> db.accounts == old(db.accounts)
    ensures UserById(db.users, callerId).Some? && !resp.Created? ==>
              UserById(db.users, callerId).value.accounts == old(UserById(db.users, callerId).value.accounts)
  {
    var caller := UserById(db.users, callerId);
    if caller.None? {
      return Error(UNAUTHORIZED, "Unauthorized");
    }
    var user := caller.value;
    assert user == db.users[callerId.value] && user.id == callerId.value;
    assert Caller(db.users, callerId) == {user};
    var account := MapperUtil.GetBankAccount(req, user, random, part1, part2, part3);
    var inserted := db.InsertAccount(account);
    if !inserted {
      return Thrown("DataIntegrityViolationException");
    }
    return Created(account);
  }

  /**
   * updateAccount: 401, then 404 unless the account is the caller's; then the balance is replaced by
   * the request's balance whenever it has one, with no check of its sign.
   */
  method UpdateAccount(db: Database, callerId: Option<UserId>, accountNumber: string, req: BankAccountRequest)
      returns (resp: Response<BankAccount>)
    requires db.Valid()
    modifies db.accounts.Values
    ensures db.Valid()
    ensures UserById(db.users, callerId).None? ==> resp == Error(UNAUTHORIZED, "Unauthorized")
    ensures UserById(db.users, callerId).Some? &&
            GetUserAccount(db.accounts, accountNumber, UserById(db.users, callerId).value).None? ==>
              resp == Error(NOT_FOUND, "Account not found or forbidden")
    ensures resp.Ok? <==>
              UserById(db.users, callerId).Some? &&
              GetUserAccount(db.accounts, accountNumber, UserById(db.users, callerId).value).Some?
    ensures resp.Ok? ==>
              && resp.body == db.accounts[accountNumber]
              && resp.body.balance == (if req.balance.Some? then req.balance.value else old(resp.body.balance))
              && resp.body.name == old(resp.body.name)
    ensures forall a | a in db.accounts.Values && !(resp.Ok? && a == resp.body) :: unchanged(a)
  {
    var caller := UserById(db.users, callerId);
    if caller.None? {
      return Error(UNAUTHORIZED, "Unauthorized");
    }
    var found := GetUserAccount(db.accounts, accountNumber, caller.value);
    if found.None? {
      return Error(NOT_FOUND, "Account not found or forbidden");
    }
    var account := found.value;
    if req.balance.Some? {
      account.balance := req.balance.value;
    }
    return Ok(account);
  }
}
