/** services/database.ts: the data-access layer over the 'xylos_ai_users_db' table, keyed
    by id. `uuidv4()` and `new Date()` are parameters; `simulateDelay` is not modelled. */
module Database {
  import opened Wrappers
  import opened Types
  import opened Directory
  import opened Storage

  const NotFoundInDatabase := "User not found in database."

  /** The argument of `createUser`: a user without `id` and `lastLogin`. */
  datatype NewUserData = NewUserData(name: string, email: string, password: Option<string>, avatar: string)

  /** `findUserByEmail`: the first row whose e-mail equals the argument exactly, or null. */
  method FindUserByEmail(store: WebStorage, email: string) returns (r: Option<User>)
    ensures r.None? <==> !Exists(store.usersDb, ByEmail(email))
    ensures r.Some? ==> r.value.email == email
    ensures r.Some? ==> r.value == store.usersDb[FindIndex(store.usersDb, ByEmail(email)).value]
  {
    var users := store.usersDb;
    r := Find(users, ByEmail(email));
  }

  /** `findUserById`: the first row with that id, or null. */
  method FindUserById(store: WebStorage, userId: string) returns (r: Option<User>)
    ensures r.None? <==> !Exists(store.usersDb, ById(Some(userId)))
    ensures r.Some? ==> r.value.id == Some(userId)
    ensures r.Some? ==> r.value == store.usersDb[FindIndex(store.usersDb, ById(Some(userId))).value]
  {
    var users := store.usersDb;
    r := Find(users, ById(Some(userId)));
  }

  /** `createUser`: appends one row carrying the given fields, the new id and `lastLogin`. */
  function Create(users: seq<User>, data: NewUserData, id: string, now: string): (r: (User, seq<User>))
    ensures r.1 == users + [r.0]
    ensures r.0 == User(Some(id), data.name, data.email, data.password, data.avatar, Some(now))
  {
    var u := User(Some(id), data.name, data.email, data.password, data.avatar, Some(now));
    (u, users + [u])
  }

  /** `createUser` does not check the e-mail: the table keeps unique e-mails exactly when
      the caller passes a new one; a fresh id keeps the ids unique. */
  lemma CreateUniqueness(users: seq<User>, data: NewUserData, id: string, now: string)
    requires EmailsUnique(users)
    ensures EmailsUnique(Create(users, data, id, now).1) <==> !Exists(users, ByEmail(data.email))
    ensures IdsUnique(users) && !Exists(users, ById(Some(id))) ==> IdsUnique(Create(users, data, id, now).1)
  {
    var t := Create(users, data, id, now).1;
    if Exists(users, ByEmail(data.email)) {
      var i :| 0 <= i < |users| && Matches(users[i], ByEmail(data.email));
      assert t[i].email == t[|users|].email;
    }
    if IdsUnique(users) && !Exists(users, ById(Some(id))) {
      forall i | 0 <= i < |users| ensures t[i].id != t[|users|].id {
        assert !Matches(users[i], ById(Some(id)));
      }
    }
  }

  /** A row created with a fresh id is what `findUserById` then returns. */
  lemma CreateThenFindById(users: seq<User>, data: NewUserData, id: string, now: string)
    requires !Exists(users, ById(Some(id)))
    ensures var (u, users') := Create(users, data, id, now);
            Find(users', ById(Some(id))) == Some(u)
  {
    var (u, users') := Create(users, data, id, now);
    FindIndexAppend(users, u, ById(Some(id)));
  }

  /** `createUser` as it runs: read, push, write back. */
  method CreateUser(store: WebStorage, data: NewUserData, id: string, now: string) returns (u: User)
    modifies store`usersDb
    ensures (u, store.usersDb) == Create(old(store.usersDb), data, id, now)
  {
    var users := store.usersDb;
    u := User(Some(id), data.name, data.email, data.password, data.avatar, Some(now));
    users := users + [u];
    store.usersDb := users;
  }

  /** `updateUserLoginTime`: only `lastLogin` of the first row with the id changes;
      with no such row the table is left as it was. */
  function TouchLogin(users: seq<User>, userId: string, now: string): (r: seq<User>)
    ensures |r| == |users|
    ensures !Exists(users, ById(Some(userId))) ==> r == users
    ensures Exists(users, ById(Some(userId))) ==>
              var i := FindIndex(users, ById(Some(userId))).value;
              && r[i] == users[i].(lastLogin := Some(now))
              && forall j :: 0 <= j < |users| && j != i ==> r[j] == users[j]
  {
    match FindIndex(users, ById(Some(userId)))
    case None => users
    case Some(i) => users[i := users[i].(lastLogin := Some(now))]
  }

  /** Touching a login moves no row: every lookup by id or e-mail finds the same index after
      `updateUserLoginTime` as before. */
  lemma TouchLoginKeepsLookups(users: seq<User>, userId: string, now: string, k: Key)
    ensures FindIndex(TouchLogin(users, userId, now), k) == FindIndex(users, k)
  {
    var r := TouchLogin(users, userId, now);
    forall j | 0 <= j < |users| ensures Matches(r[j], k) <==> Matches(users[j], k) {
      assert r[j].id == users[j].id && r[j].email == users[j].email;
    }
    FindIndexSameKeys(r, users, k);
  }

  /** `updateUserLoginTime` as it runs: the table is written only when the id is found. */
  method UpdateUserLoginTime(store: WebStorage, userId: string, now: string)
    modifies store`usersDb
    ensures store.usersDb == TouchLogin(old(store.usersDb), userId, now)
    ensures !Exists(old(store.usersDb), ById(Some(userId))) ==> unchanged(store)
  {
    var users := store.usersDb;
    var userIndex := FindIndex(users, ById(Some(userId)));
    if userIndex.Some? {
      var i := userIndex.value;
      users := users[i := users[i].(lastLogin := Some(now))];
      store.usersDb := users;
    }
  }

  /** `updateUserProfile`: 'User not found in database.' when the id is absent; otherwise
      `name` and `avatar` are merged over the first row with the id, which is returned. */
  function UpdateProfile(users: seq<User>, userId: string, name: string, avatar: string)
    : (r: (Result<User>, seq<User>))
    ensures r.0.Failure? <==> !Exists(users, ById(Some(userId)))
    ensures r.0.Failure? ==> r == (Failure(NotFoundInDatabase), users)
    ensures r.0.Success? ==>
              var i := FindIndex(users, ById(Some(userId))).value;
              && r.1 == SetProfile(users, i, name, avatar)
              && r.0.value == r.1[i]
              && r.0.value.id == Some(userId)
    ensures |r.1| == |users|
    ensures forall j :: 0 <= j < |users| ==> r.1[j].id == users[j].id && r.1[j].email == users[j].email
  {
    match FindIndex(users, ById(Some(userId)))
    case None => (Failure(NotFoundInDatabase), users)
    case Some(i) =>
      var users' := SetProfile(users, i, name, avatar);
      (Success(users'[i]), users')
  }

  /** `updateUserProfile` as it runs: read, find, replace the row, write back, return it. */
  method UpdateUserProfile(store: WebStorage, userId: string, name: string, avatar: string)
    returns (r: Result<User>)
    modifies store`usersDb
    ensures (r, store.usersDb) == UpdateProfile(old(store.usersDb), userId, name, avatar)
  {
    var users := store.usersDb;
    var userIndex := FindIndex(users, ById(Some(userId)));
    if userIndex.None? {
      return Failure(NotFoundInDatabase);
    }
    var i := userIndex.value;
    users := users[i := users[i].(name := name, avatar := avatar)];
    store.usersDb := users;
    r := Success(users[i]);
  }
}
