/**
 * The accounts of the app's own username/password login (server/internal/data/auth.go):
 * a table with a unique username column.
 */
module AppUsers {
  import opened Wrappers
  import opened Entities

  /** The `app_users` table in primary-key order; `up` as for the other stores. */
  datatype UserDb = UserDb(users: seq<AppUser>, up: bool)

  datatype UserError = Unavailable | DuplicateUsername | NoMatch

  /** The unique index on `username` holds. */
  ghost predicate UniqueUsernames(db: UserDb) {
    forall i, j :: 0 <= i < j < |db.users| ==> db.users[i].username != db.users[j].username
  }

  predicate HasUsername(db: UserDb, username: string) {
    exists i :: 0 <= i < |db.users| && db.users[i].username == username
  }

  /**
   * `RegisterAppUser`: inserts the username with the password as given and an
   * empty openid; the unique index rejects a username that is already taken.
   */
  function RegisterAppUser(db: UserDb, username: string, password: string): (r: Result<UserDb, UserError>)
    ensures r.Ok? <==> db.up && !HasUsername(db, username)
    ensures r.Ok? ==> r.value.users == db.users + [AppUser(username, password, "")] && r.value.up
    ensures db.up && HasUsername(db, username) ==> r == Err(DuplicateUsername)
    ensures UniqueUsernames(db) && r.Ok? ==> UniqueUsernames(r.value)
  {
    if !db.up then Err(Unavailable)
    else if HasUsername(db, username) then Err(DuplicateUsername)
    else Ok(db.(users := db.users + [AppUser(username, password, "")]))
  }

  /** `VerifyLogin`: succeeds when some row holds both the username and the password. */
  function VerifyLogin(db: UserDb, username: string, password: string): (r: Result<(), UserError>)
    ensures r.Ok? <==> db.up && exists i :: 0 <= i < |db.users| && db.users[i].username == username && db.users[i].password == password
  {
    if !db.up then Err(Unavailable)
    else if exists i :: 0 <= i < |db.users| && db.users[i].username == username && db.users[i].password == password then Ok(())
    else Err(NoMatch)
  }

  /** A user who has just registered can log in with the same password. */
  lemma RegisterThenLogin(db: UserDb, username: string, password: string)
    requires RegisterAppUser(db, username, password).Ok?
    ensures VerifyLogin(RegisterAppUser(db, username, password).value, username, password).Ok?
  {
    var after := RegisterAppUser(db, username, password).value;
    assert after.users[|db.users|] == AppUser(username, password, "");
  }

  /** With unique usernames, only the registered password of a user logs in. */
  lemma OnlyStoredPasswordLogsIn(db: UserDb, i: nat, password: string)
    requires UniqueUsernames(db) && i < |db.users|
    ensures VerifyLogin(db, db.users[i].username, password).Ok? <==> db.up && password == db.users[i].password
  {
  }

  /** Registering a taken username leaves no second account and changes nothing. */
  lemma DuplicateRegistrationRejected(db: UserDb, i: nat, password: string)
    requires db.up && i < |db.users|
    ensures RegisterAppUser(db, db.users[i].username, password) == Err(DuplicateUsername)
  {
  }
}
