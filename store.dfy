/**
 * The persistence layer reduced to what the controllers observe: users by id, accounts by account
 * number, and the append-only list of saved transactions.
 */
module Store {
  import opened Wrappers
  import opened Entities

  class Database {
    var users: map<UserId, User>
    var accounts: map<string, BankAccount>
    var transactions: seq<Transaction>

    /**
     * Every key is the id or number of the entity stored under it, transaction ids count up from 1, and
     * each user's account list is the set of stored accounts that user owns.
     */
    ghost predicate Valid()
      reads this, users.Values
    {
      Consistent(users, accounts, transactions)
    }

    constructor ()
      ensures Valid() && users == map[] && accounts == map[] && transactions == []
    {
      users, accounts, transactions := map[], map[], [];
    }

    /** Saving a new transaction gives it the next id and appends it. */
    method SaveTransaction(tx: Transaction) returns (saved: Transaction)
      requires Valid()
      modifies this`transactions
      ensures Valid()
      ensures saved == tx.(id := Some(|old(transactions)| + 1))
      ensures transactions == old(transactions) + [saved]
    {
      saved := tx.(id := Some(|transactions| + 1));
      transactions := transactions + [saved];
    }

    /**
     * Inserting a new account succeeds unless its account number or sort code is already stored:
     * both columns are unique. A stored account joins its owner's account list, which the persistence
     * layer loads from the owner side of the link.
     */
    method InsertAccount(account: BankAccount) returns (ok: bool)
      requires Valid()
      requires account.user.id in users && users[account.user.id] == account.user
      requires account !in account.user.accounts
      modifies this`accounts, account.user`accounts
      ensures Valid()
      ensures ok <==> account.accountNumber !in old(accounts) && SortCodeFree(old(accounts), account.sortCode)
      ensures accounts == if ok then old(accounts)[account.accountNumber := account] else old(accounts)
      ensures account.user.accounts == if ok then old(account.user.accounts) + [account] else old(account.user.accounts)
    {
      ok := account.accountNumber !in accounts && SortCodeFree(accounts, account.sortCode);
      if ok {
        accounts := accounts[account.accountNumber := account];
        account.user.accounts := account.user.accounts + [account];
      }
    }
  }

  /**
   * The store's invariants. The account list of a user is the inverse side of BankAccount.user, as the
   * persistence layer loads it: it holds exactly the stored accounts whose owner is that user.
   */
  ghost predicate Consistent(users: map<UserId, User>, accounts: map<string, BankAccount>, transactions: seq<Transaction>)
    reads users.Values
  {
    && (forall k | k in users :: users[k].id == k)
    && (forall n | n in accounts :: accounts[n].accountNumber == n)
    && (forall i | 0 <= i < |transactions| :: transactions[i].id == Some(i + 1))
    && (forall k, a | k in users && a in users[k].accounts ::
          a.accountNumber in accounts && accounts[a.accountNumber] == a && a.user == users[k])
    && (forall n | n in accounts ::
          accounts[n].user.id in users && users[accounts[n].user.id] == accounts[n].user &&
          accounts[n] in accounts[n].user.accounts)
  }

  /** No stored account has this sort code. */
  predicate SortCodeFree(accounts: map<string, BankAccount>, sortCode: string) {
    forall n | n in accounts :: accounts[n].sortCode != sortCode
  }

  /** `userService.getUserById(id).orElse(null)`; an absent id finds no user. */
  function UserById(users: map<UserId, User>, id: Option<UserId>): Option<User> {
    if id.Some? && id.value in users then Some(users[id.value]) else None
  }

  /** The user with this id, as a set of at most one element (for frames). */
  function Caller(users: map<UserId, User>, id: Option<UserId>): set<User> {
    if id.Some? && id.value in users then {users[id.value]} else {}
  }

  /** The accounts in the user's account list; none when there is no user. */
  function AccountsOf(user: Option<User>): set<BankAccount>
    reads if user.Some? then {user.value} else {}
  {
    if user.Some? then set a | a in user.value.accounts else {}
  }
}
