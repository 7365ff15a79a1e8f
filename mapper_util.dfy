/**
 * MapperUtil: the mappers that change entities in place (a transaction's effect on the balance, the
 * PATCH updates of an account and a user), the construction of a new account, and the generators of
 * its account number and sort code.
 */
module MapperUtil {
  import opened Wrappers
  import opened Strings
  import opened Format
  import opened Entities
  import opened Requests
  import UserUpdateUtil

  /** The balance after a transaction of this type and amount: a deposit adds it, a withdrawal subtracts it. */
  function NewBalance(balance: int, kind: TransactionType, amount: int): int {
    match kind
    case Deposit => balance + amount
    case Withdrawal => balance - amount
  }

  /** A withdrawal undoes a deposit of the same amount, and the other way round. */
  lemma NewBalanceInverse(balance: int, amount: int)
    ensures NewBalance(NewBalance(balance, Deposit, amount), Withdrawal, amount) == balance
    ensures NewBalance(NewBalance(balance, Withdrawal, amount), Deposit, amount) == balance
  {
  }

  /**
   * getTransaction: builds the (unsaved) transaction and applies it to the account's balance, with no
   * check of its own. The request's type must name a constant and its amount be present, or Java throws;
   * the one caller checks both first.
   */
  method GetTransaction(req: CreateTransactionRequest, account: BankAccount, now: Instant) returns (tx: Transaction)
    requires req.typeName.Some? && ValueOf(req.typeName.value).Some? && req.amount.Some?
    modifies account`balance
    ensures tx == Transaction(None, ValueOf(req.typeName.value).value, req.amount.value, now, req.reference, account)
    ensures account.balance == NewBalance(old(account.balance), tx.kind, tx.amount)
  {
    var kind := ValueOf(req.typeName.value).value;
    tx := Transaction(None, kind, req.amount.value, now, req.reference, account);
    if kind == Deposit {
      account.balance := account.balance + req.amount.value;
    } else if kind == Withdrawal {
      account.balance := account.balance - req.amount.value;
    }
  }

  /** updateAccount: the name is replaced whenever the request has one (blank included); nothing else changes. */
  method UpdateAccount(req: UpdateBankAccountRequest, account: BankAccount)
    modifies account`name
    ensures account.name == if req.name.Some? then req.name else old(account.name)
  {
    if req.name.Some? {
      account.name := req.name;
    }
  }

  /**
   * The address after the request's address part: line1 and postcode follow the usual non-blank rule,
   * the town takes the request's town and then, overriding it, the request's county; the county itself
   * is never written.
   */
  function UpdatedAddress(a: AddressValue, from: Option<UpdateUserRequestAddress>): (r: AddressValue)
    ensures r.county == a.county
    ensures from.Some? && HasText(from.value.county) ==> r.town == from.value.county.value
    ensures from.None? ==> r == a
    ensures from.Some? ==>
              r.line1 == Overwrite(a.line1, from.value.line1) && r.postcode == Overwrite(a.postcode, from.value.postcode)
    ensures from.Some? && !HasText(from.value.county) ==> r.town == Overwrite(a.town, from.value.town)
  {
    if from.None? then a
    else
      var f := from.value;
      AddressValue(Overwrite(a.line1, f.line1), Overwrite(Overwrite(a.town, f.town), f.county), a.county, Overwrite(a.postcode, f.postcode))
  }

  /** The town changes only to the request's county or, when the county is blank, to the request's town. */
  lemma UpdatedTownSource(a: AddressValue, from: Option<UpdateUserRequestAddress>)
    ensures var r := UpdatedAddress(a, from);
      r.town != a.town ==>
        (from.Some? &&
         if HasText(from.value.county) then r.town == from.value.county.value
         else HasText(from.value.town) && r.town == from.value.town.value)
  {
  }

  /** Applying the same address part twice gives the address that applying it once gives. */
  lemma UpdatedAddressIdempotent(a: AddressValue, from: Option<UpdateUserRequestAddress>)
    ensures UpdatedAddress(UpdatedAddress(a, from), from) == UpdatedAddress(a, from)
  {
    if from.Some? {
      var f := from.value;
      OverwriteIdempotent(a.line1, f.line1);
      OverwriteIdempotent(a.postcode, f.postcode);
      OverwriteIdempotent(Overwrite(a.town, f.town), f.county);
    }
  }

  /** updateUser: the three profile overwrites, then the address overwrites, on the user's own address. */
  method UpdateUser(req: UpdateUserRequest, user: User)
    modifies user`name, user`phoneNumber, user`email, user.address
    ensures user.ProfileValue() == UserUpdateUtil.UpdatedProfile(old(user.ProfileValue()), req)
    ensures user.address.Value() == UpdatedAddress(old(user.address.Value()), req.address)
    ensures user.accounts == old(user.accounts)
  {
    // The first three overwrites are those of UserUpdateUtil.updateUser, repeated line for line.
    UserUpdateUtil.UpdateUser(req, user);
    UpdateAddress(req.address, user.address);
  }

  /** The address half of updateUser, setter by setter. */
  method UpdateAddress(from: Option<UpdateUserRequestAddress>, to: Address)
    modifies to
    ensures to.Value() == UpdatedAddress(old(to.Value()), from)
  {
    ghost var a := to.Value();
    if from.Some? && HasText(from.value.line1) {
      to.line1 := from.value.line1.value;
    }
    assert from.Some? ==> to.line1 == Overwrite(a.line1, from.value.line1);
    if from.Some? && HasText(from.value.town) {
      to.town := from.value.town.value;
    }
    assert from.Some? ==> to.town == Overwrite(a.town, from.value.town);
    if from.Some? && HasText(from.value.county) {
      to.town := from.value.county.value;
    }
    assert from.Some? ==> to.town == Overwrite(Overwrite(a.town, from.value.town), from.value.county);
    if from.Some? && HasText(from.value.postcode) {
      to.postcode := from.value.postcode.value;
    }
    assert from.Some? ==> to.postcode == Overwrite(a.postcode, from.value.postcode);
    assert from.None? ==> to.Value() == a;
    assert from.Some? ==> to.Value() == UpdatedAddress(a, from);
  }

  /**
   * accountNoGenerator: "01" and then the random number as six zero-padded digits. The random number is
   * `(int)(Math.random() * 1_000_000)`, so it lies in [0, 999999].
   */
  function AccountNumber(random: nat): (s: string)
    requires random < 1_000_000
    ensures |s| == 8 && s[..2] == "01" && AllDigits(s)
    ensures ParseDecimal(s[2..]) == random
  {
    assert Pow10(6) == 1_000_000;
    ZeroPaddedShape(random, 6);
    var s := "01" + ZeroPadded(random, 6);
    assert s[2..] == ZeroPadded(random, 6);
    s
  }

  /** Distinct random numbers give distinct account numbers. */
  lemma AccountNumberInjective(r1: nat, r2: nat)
    requires r1 < 1_000_000 && r2 < 1_000_000 && r1 != r2
    ensures AccountNumber(r1) != AccountNumber(r2)
  {
  }

  /** sortCodeGenerator: three `nextInt(100)` values, each as two zero-padded digits, joined by '-'. */
  function SortCode(part1: nat, part2: nat, part3: nat): (s: string)
    requires part1 < 100 && part2 < 100 && part3 < 100
    ensures |s| == 8 && s[2] == '-' && s[5] == '-'
    ensures AllDigits(s[0..2]) && AllDigits(s[3..5]) && AllDigits(s[6..8])
    ensures ParseDecimal(s[0..2]) == part1 && ParseDecimal(s[3..5]) == part2 && ParseDecimal(s[6..8]) == part3
  {
    assert Pow10(2) == 100;
    ZeroPaddedShape(part1, 2);
    ZeroPaddedShape(part2, 2);
    ZeroPaddedShape(part3, 2);
    var s := ZeroPadded(part1, 2) + "-" + ZeroPadded(part2, 2) + "-" + ZeroPadded(part3, 2);
    assert s[0..2] == ZeroPadded(part1, 2);
    assert s[3..5] == ZeroPadded(part2, 2);
    assert s[6..8] == ZeroPadded(part3, 2);
    s
  }

  /**
   * getBankAccount: a new account with the request's name, type and balance (copied unchanged, with no
   * minimum), generated number and sort code, owned by the authenticated user.
   */
  method GetBankAccount(req: CreateBankAccountRequest, user: User, random: nat, part1: nat, part2: nat, part3: nat)
      returns (account: BankAccount)
    requires random < 1_000_000 && part1 < 100 && part2 < 100 && part3 < 100
    ensures fresh(account)
    ensures account.name == req.name && account.accountType == req.accountType && account.balance == req.balance
    ensures account.accountNumber == AccountNumber(random) && account.sortCode == SortCode(part1, part2, part3)
    ensures account.user == user
  {
    account := new BankAccount(req.name, AccountNumber(random), SortCode(part1, part2, part3), req.accountType, req.balance, user);
  }
}
