/**
 * UserController: a user may read, patch and delete only their own record. Each handler checks, in
 * order, that the caller resolves to a stored user (404 otherwise), that the path id is the caller's
 * own (403 otherwise), and, for a delete, that the user owns no account (409 otherwise).
 */
module UserController {
  import opened Wrappers
  import opened Http
  import opened Entities
  import opened Requests
  import opened Store
  import MapperUtil
  import UserUpdateUtil

  /**
   * The checks every user handler shares: the caller must resolve to a stored user whose id is the path
   * id. Each handler has its own 403 message.
   */
  function ResolveSelf(users: map<UserId, User>, callerId: Option<UserId>, userId: UserId, forbidden: string)
      : (r: Result<User, (int, string)>)
    ensures UserById(users, callerId).None? ==> r == Failure((NOT_FOUND, "User not found"))
    ensures UserById(users, callerId).Some? && UserById(users, callerId).value.id != userId ==>
              r == Failure((FORBIDDEN, forbidden))
    ensures r.Success? <==> UserById(users, callerId).Some? && UserById(users, callerId).value.id == userId
    ensures r.Success? ==> r.value == users[callerId.value] && r.value.id == userId
  {
    match UserById(users, callerId)
    case None => Failure((NOT_FOUND, "User not found"))
    case Some(user) =>
      if user.id != userId then Failure((FORBIDDEN, forbidden))
      else Success(user)
  }

  /**
   * getUser: an absent id attribute is 404 before any lookup; then 404 when the id finds no user,
   * 403 when it is not the path id, and the caller's own record otherwise.
   */
  function GetUser(users: map<UserId, User>, callerId: Option<UserId>, userId: UserId): (r: Response<User>)
    ensures callerId.None? ==> r == Error(NOT_FOUND, "User not found")
    ensures callerId.Some? && callerId.value !in users ==> r == Error(NOT_FOUND, "User not found")
    ensures callerId.Some? && callerId.value in users && users[callerId.value].id != userId ==>
              r == Error(FORBIDDEN, "Forbidden - Can only access own user data")
    ensures r.Ok? <==> callerId.Some? && callerId.value in users && users[callerId.value].id == userId
    ensures r.Ok? ==> r.body == users[callerId.value] && r.body.id == userId
  {
    if callerId.None? then Error(NOT_FOUND, "User not found")
    else
      match ResolveSelf(users, callerId, userId, "Forbidden - Can only access own user data")
      case Failure((status, message)) => Error(status, message)
      case Success(user) => Ok(user)
  }

  /**
   * updateUser: 404 and 403 as for every user handler, leaving the user untouched; otherwise
   * MapperUtil.updateUser applies the request to the caller's own record.
   */
  method UpdateUser(users: map<UserId, User>, callerId: Option<UserId>, userId: UserId, req: UpdateUserRequest)
      returns (resp: Response<User>)
    modifies if UserById(users, callerId).Some? then {UserById(users, callerId).value, UserById(users, callerId).value.address} else {}
    ensures UserById(users, callerId).None? ==> resp == Error(NOT_FOUND, "User not found")
    ensures UserById(users, callerId).Some? && UserById(users, callerId).value.id != userId ==>
              resp == Error(FORBIDDEN, "Forbidden - Can only update own user data")
              && unchanged(UserById(users, callerId).value, UserById(users, callerId).value.address)
    ensures resp.Ok? <==> UserById(users, callerId).Some? && UserById(users, callerId).value.id == userId
    ensures resp.Ok? ==>
              var user := resp.body;
              && user == users[callerId.value]
              && user.ProfileValue() == UserUpdateUtil.UpdatedProfile(old(user.ProfileValue()), req)
              && user.address.Value() == MapperUtil.UpdatedAddress(old(user.address.Value()), req.address)
              && user.accounts == old(user.accounts)
  {
    var resolved := ResolveSelf(users, callerId, userId, "Forbidden - Can only update own user data");
    if resolved.Failure? {
      return Error(resolved.error.0, resolved.error.1);
    }
    var user := resolved.value;
    MapperUtil.UpdateUser(req, user);
    return Ok(user);
  }

  /**
   * deleteUser: 404, then 403, then 409 while the user still owns an account; only the caller's own
   * account-less record is removed, with 204. The second component is the user store afterwards.
   */
  function DeleteUser(users: map<UserId, User>, callerId: Option<UserId>, userId: UserId)
      : (r: (Response<()>, map<UserId, User>))
    reads users.Values
    ensures UserById(users, callerId).None? ==> r.0 == Error(NOT_FOUND, "User not found")
    ensures UserById(users, callerId).Some? && UserById(users, callerId).value.id != userId ==>
              r.0 == Error(FORBIDDEN, "Forbidden - Can only delete own user data")
    ensures UserById(users, callerId).Some? && UserById(users, callerId).value.id == userId &&
            UserById(users, callerId).value.accounts != [] ==>
              r.0 == Error(CONFLICT, "Cannot delete user with existing accounts")
    ensures r.0.NoContent? <==>
              UserById(users, callerId).Some? && UserById(users, callerId).value.id == userId &&
              UserById(users, callerId).value.accounts == []
    ensures r.1 == if r.0.NoContent? then users - {userId} else users
  {
    match ResolveSelf(users, callerId, userId, "Forbidden - Can only delete own user data")
    case Failure((status, message)) => (Error(status, message), users)
    case Success(user) =>
      if user.accounts != [] then (Error(CONFLICT, "Cannot delete user with existing accounts"), users)
      else (NoContent, users - {userId})
  }

  /** In a consistent store no call removes the owner of a stored account, whoever asks. */
  lemma OwnerOfAccountsIsNeverDeleted(db: Database, callerId: Option<UserId>, accountNumber: string)
    requires db.Valid() && accountNumber in db.accounts
    ensures DeleteUser(db.users, callerId, db.accounts[accountNumber].user.id).1 == db.users
  {
    var owner := db.accounts[accountNumber].user;
    assert db.accounts[accountNumber] in owner.accounts;
    if UserById(db.users, callerId).Some? {
      assert db.users[callerId.value].id == callerId.value;
    }
  }

  /** In a consistent store a user who owns no stored account can always delete themselves. */
  lemma SelfDeleteWithoutAccounts(db: Database, userId: UserId)
    requires db.Valid() && userId in db.users
    requires forall n | n in db.accounts :: db.accounts[n].user.id != userId
    ensures DeleteUser(db.users, Some(userId), userId) == (NoContent, db.users - {userId})
  {
    var user := db.users[userId];
    assert forall a | a in user.accounts :: a.accountNumber in db.accounts && db.accounts[a.accountNumber].user.id == userId;
    FirstIsMember(user.accounts);
  }

  /** A non-empty list holds its first element. */
  lemma FirstIsMember<T>(s: seq<T>)
    ensures s != [] ==> s[0] in s
  {
  }

  /** Removing a user as deleteUser does keeps a consistent store consistent: no stored account is orphaned. */
  lemma DeleteUserKeepsStoreConsistent(db: Database, callerId: Option<UserId>, userId: UserId)
    requires db.Valid()
    ensures Consistent(DeleteUser(db.users, callerId, userId).1, db.accounts, db.transactions)
  {
    var after := DeleteUser(db.users, callerId, userId).1;
    if after != db.users {
      assert db.users[callerId.value].id == callerId.value;
      assert userId in db.users && db.users[userId].accounts == [];
      forall n | n in db.accounts
        ensures db.accounts[n].user.id in after
      {
        var owner := db.accounts[n].user;
        assert db.accounts[n] in owner.accounts;
      }
    }
  }

  /** Only the caller's own record can ever be removed, and nothing else is removed with it. */
  lemma DeleteRemovesOnlyCaller(users: map<UserId, User>, callerId: Option<UserId>, userId: UserId)
    ensures var after := DeleteUser(users, callerId, userId).1;
      after != users ==> callerId == Some(userId) || (callerId.Some? && users[callerId.value].id == userId)
    ensures DeleteUser(users, callerId, userId).1.Keys >= users.Keys - {userId}
  {
  }
}
