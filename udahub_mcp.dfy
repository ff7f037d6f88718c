/**
 * The UDA Hub tool server: a table of users, each the UDA Hub identity of a
 * customer's own user (an external user id within an account), and a table of
 * accounts.  A user is unique by its id and by its (account id, external user
 * id) pair; an insert that breaks either is rolled back and answered with an
 * error.  The generated user id is a parameter.
 */
module UdaHubMcp {
  import opened Wrappers
  import opened ToolTables

  datatype UdaUser = UdaUser(userId: string, accountId: string, externalUserId: string, userName: string)

  datatype Account = Account(accountName: string)

  datatype UdaHubData = UdaHubData(users: seq<UdaUser>, accounts: map<string, Account>)

  const DuplicateUser := "User with the given external_user_id and account_id already exists."

  /** `user_id == userId`. */
  function HasUserId(userId: string): UdaUser -> bool {
    (u: UdaUser) => u.userId == userId
  }

  /** `account_id == accountId and external_user_id == externalUserId`. */
  function IsExternal(accountId: string, externalUserId: string): UdaUser -> bool {
    (u: UdaUser) => u.accountId == accountId && u.externalUserId == externalUserId
  }

  /** The table's unique keys hold: user ids, and (account id, external user id) pairs. */
  predicate Valid(db: UdaHubData) {
    forall i, j :: 0 <= i < j < |db.users| ==>
      && db.users[i].userId != db.users[j].userId
      && (db.users[i].accountId, db.users[i].externalUserId) != (db.users[j].accountId, db.users[j].externalUserId)
  }

  /** An insert of `u` would break a unique key. */
  predicate Clashes(users: seq<UdaUser>, u: UdaUser) {
    exists i :: 0 <= i < |users| && (users[i].userId == u.userId
      || (users[i].accountId == u.accountId && users[i].externalUserId == u.externalUserId))
  }

  /**
   * `create_udahub_user`: insert the user under the generated id, or answer
   * with the duplicate-user error and leave the table as it was.
   */
  function CreateUserStep(db: UdaHubData, accountId: string, externalUserId: string, userName: string, newId: string)
    : (r: (UdaHubData, Reply<UdaUser>))
    ensures !r.1.Raised?
    ensures r.1.Ok? <==> !Clashes(db.users, UdaUser(newId, accountId, externalUserId, userName))
    ensures r.1.Error? ==> r.0 == db && r.1.message == DuplicateUser
    ensures r.1.Ok? ==>
      && r.1.value == UdaUser(newId, accountId, externalUserId, userName)
      && r.0 == db.(users := db.users + [r.1.value])
  {
    var u := UdaUser(newId, accountId, externalUserId, userName);
    if Clashes(db.users, u) then (db, Error(DuplicateUser))
    else (db.(users := db.users + [u]), Ok(u))
  }

  /** `get_udahub_user`: the user with the id, or `None`. */
  function GetUser(db: UdaHubData, userId: string): (r: Reply<Option<UdaUser>>)
    ensures !r.Error?
    ensures r == Ok(None) <==> forall i :: 0 <= i < |db.users| ==> db.users[i].userId != userId
    ensures r.Raised? <==> Count(db.users, HasUserId(userId)) > 1
    ensures r.Ok? && r.value.Some? ==> r.value.value.userId == userId && r.value.value in db.users
  {
    OneOrNone(db.users, HasUserId(userId))
  }

  /** `find_udahub_user`: the user known by the external id within the account, or `None`. */
  function FindExternalUser(db: UdaHubData, accountId: string, externalUserId: string): (r: Reply<Option<UdaUser>>)
    ensures !r.Error?
    ensures r == Ok(None) <==> forall i :: 0 <= i < |db.users| ==>
      !(db.users[i].accountId == accountId && db.users[i].externalUserId == externalUserId)
    ensures r.Raised? <==> Count(db.users, IsExternal(accountId, externalUserId)) > 1
    ensures r.Ok? && r.value.Some? ==>
      && r.value.value.accountId == accountId
      && r.value.value.externalUserId == externalUserId
      && r.value.value in db.users
  {
    OneOrNone(db.users, IsExternal(accountId, externalUserId))
  }

  /** `get_udahub_account`: the account with the id, or `None`. */
  function GetAccount(db: UdaHubData, accountId: string): (r: Option<Account>)
    ensures r.Some? <==> accountId in db.accounts
    ensures r.Some? ==> r.value == db.accounts[accountId]
  {
    if accountId in db.accounts then Some(db.accounts[accountId]) else None
  }

  class UdaHubDb {
    var users: seq<UdaUser>
    var accounts: map<string, Account>

    constructor(data: UdaHubData)
      ensures Data() == data
    {
      users := data.users;
      accounts := data.accounts;
    }

    function Data(): UdaHubData
      reads this
    {
      UdaHubData(users, accounts)
    }

    /** `create_udahub_user`: the insert, and the rollback when a unique key is broken. */
    method CreateUser(accountId: string, externalUserId: string, userName: string, newId: string)
      returns (r: Reply<UdaUser>)
      modifies this
      ensures (Data(), r) == CreateUserStep(old(Data()), accountId, externalUserId, userName, newId)
    {
      var u := UdaUser(newId, accountId, externalUserId, userName);
      if Clashes(users, u) {
        return Error(DuplicateUser);
      }
      users := users + [u];
      r := Ok(u);
    }
  }

  /** On valid tables the lookups never raise: both keys select at most one user. */
  lemma {:induction false} ValidLookupsNeverRaise(db: UdaHubData, userId: string, accountId: string, externalUserId: string)
    requires Valid(db)
    ensures !GetUser(db, userId).Raised?
    ensures !FindExternalUser(db, accountId, externalUserId).Raised?
    decreases |db.users|
  {
    if db.users != [] {
      var init := db.(users := db.users[..|db.users| - 1]);
      var last := db.users[|db.users| - 1];
      ValidLookupsNeverRaise(init, userId, accountId, externalUserId);
      if HasUserId(userId)(last) {
        forall i | 0 <= i < |init.users| ensures !HasUserId(userId)(init.users[i]) {
          assert init.users[i] == db.users[i];
        }
        CountZero(init.users, HasUserId(userId));
      }
      if IsExternal(accountId, externalUserId)(last) {
        forall i | 0 <= i < |init.users| ensures !IsExternal(accountId, externalUserId)(init.users[i]) {
          assert init.users[i] == db.users[i];
        }
        CountZero(init.users, IsExternal(accountId, externalUserId));
      }
    }
  }

  /** A successful insert keeps the unique keys. */
  lemma CreateUserKeepsValid(db: UdaHubData, accountId: string, externalUserId: string, userName: string, newId: string)
    requires Valid(db)
    ensures Valid(CreateUserStep(db, accountId, externalUserId, userName, newId).0)
  {
    var r := CreateUserStep(db, accountId, externalUserId, userName, newId);
    if r.1.Ok? {
      var users := r.0.users;
      forall i, j | 0 <= i < j < |users|
        ensures users[i].userId != users[j].userId
        ensures (users[i].accountId, users[i].externalUserId) != (users[j].accountId, users[j].externalUserId)
      {
        if j == |users| - 1 {
          assert users[i] == db.users[i];
        }
      }
    }
  }

  /**
   * A created user is found both by its new id and by its external identity,
   * and creating it a second time is answered with the duplicate-user error.
   */
  lemma CreatedUserIsFound(db: UdaHubData, accountId: string, externalUserId: string, userName: string, newId: string,
                           otherName: string, otherId: string)
    requires CreateUserStep(db, accountId, externalUserId, userName, newId).1.Ok?
    ensures var after := CreateUserStep(db, accountId, externalUserId, userName, newId).0;
      var u := UdaUser(newId, accountId, externalUserId, userName);
      && GetUser(after, newId) == Ok(Some(u))
      && FindExternalUser(after, accountId, externalUserId) == Ok(Some(u))
      && CreateUserStep(after, accountId, externalUserId, otherName, otherId) == (after, Error(DuplicateUser))
  {
    var after := CreateUserStep(db, accountId, externalUserId, userName, newId).0;
    var u := UdaUser(newId, accountId, externalUserId, userName);
    var n := |db.users|;
    assert after.users[n] == u;
    forall i | 0 <= i < n ensures !HasUserId(newId)(after.users[i]) && !IsExternal(accountId, externalUserId)(after.users[i]) {
      assert after.users[i] == db.users[i];
    }
    CountZero(db.users, HasUserId(newId));
    CountAppend(db.users, u, HasUserId(newId));
    CountZero(db.users, IsExternal(accountId, externalUserId));
    CountAppend(db.users, u, IsExternal(accountId, externalUserId));
    assert Clashes(after.users, UdaUser(otherId, accountId, externalUserId, otherName));
  }
}
