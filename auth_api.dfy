/** services/authApi.ts: log-in, sign-up and profile update against the 'xylos_ai_users'
    table, keyed by the normalized e-mail. Each exported call reads the table, changes
    at most one row and writes the table back; `simulateDelay` is not modelled. */
module AuthApi {
  import opened Wrappers
  import opened Types
  import opened Text
  import opened Directory
  import opened Storage

  const InvalidCredentials := "Invalid email or password."
  const PasswordTooShort := "Password must be at least 6 characters long."
  const EmailInUse := "An account with this email already exists."
  const UserNotFound := "User not found."

  /** `password.length < 6`, with JavaScript's length in UTF-16 code units. */
  predicate TooShort(password: string)
  {
    Utf16Length(password) < 6
  }

  /** `loginUser`: succeeds exactly when a row has the normalized e-mail and the same
      password; then that first row, and only its `lastLogin`, changes. */
  function Login(users: seq<User>, email: string, password: string, now: string)
    : (r: (Result<User>, seq<User>))
    ensures r.0.Success? <==> Exists(users, ByCredentials(NormalizeEmail(email), Some(password)))
    ensures r.0.Failure? ==> r.0.error == InvalidCredentials && r.1 == users
    ensures r.0.Success? ==>
              && r.0.value.email == NormalizeEmail(email)
              && r.0.value.password == Some(password)
              && r.0.value.lastLogin == Some(now)
              && r.1 == users[FindIndex(users, ByCredentials(NormalizeEmail(email), Some(password))).value := r.0.value]
    ensures |r.1| == |users|
    ensures forall j :: 0 <= j < |users| ==> r.1[j].(lastLogin := users[j].lastLogin) == users[j]
  {
    var (found, users') := LoginStep(users, NormalizeEmail(email), Some(password), now);
    if found.Some? then (Success(found.value), users') else (Failure(InvalidCredentials), users)
  }

  /** The row `registerUser` appends: no id, trimmed name, normalized e-mail, avatar from that e-mail. */
  function NewAccount(name: string, email: string, password: string, now: string): User
  {
    var key := NormalizeEmail(email);
    User(None, Trim(name), key, Some(password), AvatarUrl(key), Some(now))
  }

  /** `registerUser`: a short password is refused before the table is read, a taken
      normalized e-mail is refused without a write, and otherwise exactly one row is appended. */
  function Register(users: seq<User>, name: string, email: string, password: string, now: string)
    : (r: (Result<User>, seq<User>))
    ensures TooShort(password) ==> r == (Failure(PasswordTooShort), users)
    ensures !TooShort(password) && Exists(users, ByEmail(NormalizeEmail(email))) ==>
              r == (Failure(EmailInUse), users)
    ensures r.0.Success? <==> !TooShort(password) && !Exists(users, ByEmail(NormalizeEmail(email)))
    ensures r.0.Success? ==>
              && r.1 == users + [r.0.value]
              && r.0.value.id == None
              && r.0.value.name == Trim(name)
              && r.0.value.email == NormalizeEmail(email)
              && r.0.value.password == Some(password)
              && r.0.value.avatar == AvatarUrl(r.0.value.email)
              && r.0.value.lastLogin == Some(now)
    ensures EmailsUnique(users) ==> EmailsUnique(r.1)
  {
    if TooShort(password) then (Failure(PasswordTooShort), users)
    else if Exists(users, ByEmail(NormalizeEmail(email))) then (Failure(EmailInUse), users)
    else
      var u := NewAccount(name, email, password, now);
      (Success(u), users + [u])
  }

  /** `updateUser`: looks the e-mail up exactly as given, fails with 'User not found.'
      when no row has it, and otherwise rewrites only `name` and `avatar` of the first such row. */
  function Update(users: seq<User>, email: string, name: string, avatar: string)
    : (r: (Result<User>, seq<User>))
    ensures r.0.Failure? <==> !Exists(users, ByEmail(email))
    ensures r.0.Failure? ==> r == (Failure(UserNotFound), users)
    ensures r.0.Success? ==>
              var i := FindIndex(users, ByEmail(email)).value;
              && r.1 == SetProfile(users, i, name, avatar)
              && r.0.value == r.1[i]
              && r.0.value.email == email
    ensures |r.1| == |users|
    ensures forall j :: 0 <= j < |users| ==> r.1[j].email == users[j].email
  {
    match FindIndex(users, ByEmail(email))
    case None => (Failure(UserNotFound), users)
    case Some(i) =>
      var users' := SetProfile(users, i, name, avatar);
      (Success(users'[i]), users')
  }

  /** With unique e-mails, updating the profile of a stored user's e-mail rewrites exactly
      that user's row. */
  lemma UpdateStoredUser(users: seq<User>, i: nat, name: string, avatar: string)
    requires EmailsUnique(users) && i < |users|
    ensures Update(users, users[i].email, name, avatar)
            == (Success(users[i].(name := name, avatar := avatar)), SetProfile(users, i, name, avatar))
  {
    UniqueEmailFound(users, i);
  }

  /** Every call keeps the e-mails of the table unique. */
  lemma OperationsKeepEmailsUnique(users: seq<User>, name: string, email: string, password: string,
                                   avatar: string, now: string)
    requires EmailsUnique(users)
    ensures EmailsUnique(Login(users, email, password, now).1)
    ensures EmailsUnique(Register(users, name, email, password, now).1)
    ensures EmailsUnique(Update(users, email, name, avatar).1)
  {
    var l := Login(users, email, password, now).1;
    assert forall j :: 0 <= j < |users| ==> l[j].email == users[j].email by {
      forall j | 0 <= j < |users| ensures l[j].email == users[j].email {
        assert l[j].(lastLogin := users[j].lastLogin) == users[j];
      }
    }
    SameEmailsKeepUnique(users, l);
    SameEmailsKeepUnique(users, Update(users, email, name, avatar).1);
  }

  /** An account that was just registered can log in with the same e-mail and password,
      and equally with the stored (normalized) e-mail; only its `lastLogin` is renewed. */
  lemma RegisterThenLogin(users: seq<User>, name: string, email: string, password: string,
                          now: string, later: string)
    requires Register(users, name, email, password, now).0.Success?
    ensures var (r, users') := Register(users, name, email, password, now);
            && Login(users', email, password, later).0 == Success(r.value.(lastLogin := Some(later)))
            && Login(users', r.value.email, password, later).0 == Success(r.value.(lastLogin := Some(later)))
  {
    var (r, users') := Register(users, name, email, password, now);
    var key := NormalizeEmail(email);
    var k := ByCredentials(key, Some(password));
    assert FindIndex(users, k).None? by {
      forall i | 0 <= i < |users| ensures !Matches(users[i], k) {
        assert !Matches(users[i], ByEmail(key));
      }
    }
    FindIndexAppend(users, r.value, k);
    assert FindIndex(users', k) == Some(|users|);
    NormalizeEmailIdempotent(email);
  }

  /** `loginUser` as it runs: read the table, find, update the row in place, write back. */
  method LoginUser(store: WebStorage, email: string, password: string, now: string)
    returns (r: Result<User>)
    modifies store`users
    ensures (r, store.users) == Login(old(store.users), email, password, now)
  {
    var users := store.users;
    var loginEmail := NormalizeEmail(email);
    var idx := FindIndex(users, ByCredentials(loginEmail, Some(password)));
    if idx.Some? {
      var user := users[idx.value].(lastLogin := Some(now));
      users := users[idx.value := user];
      store.users := users;
      r := Success(user);
    } else {
      r := Failure(InvalidCredentials);
    }
  }

  /** `registerUser` as it runs: check the password, read, check the e-mail, push, write back. */
  method RegisterUser(store: WebStorage, name: string, email: string, password: string, now: string)
    returns (r: Result<User>)
    modifies store`users
    ensures (r, store.users) == Register(old(store.users), name, email, password, now)
  {
    if Utf16Length(password) < 6 {
      return Failure(PasswordTooShort);
    }
    var users := store.users;
    var signupEmail := NormalizeEmail(email);
    if Exists(users, ByEmail(signupEmail)) {
      return Failure(EmailInUse);
    }
    var newUser := User(None, Trim(name), signupEmail, Some(password), AvatarUrl(signupEmail), Some(now));
    users := users + [newUser];
    store.users := users;
    r := Success(newUser);
  }

  /** `updateUser` as it runs: read, find the index, replace that row, write back. */
  method UpdateUser(store: WebStorage, email: string, name: string, avatar: string)
    returns (r: Result<User>)
    modifies store`users
    ensures (r, store.users) == Update(old(store.users), email, name, avatar)
  {
    var users := store.users;
    var userIndex := FindIndex(users, ByEmail(email));
    if userIndex.None? {
      return Failure(UserNotFound);
    }
    var i := userIndex.value;
    var updatedUser := users[i].(name := name, avatar := avatar);
    users := users[i := updatedUser];
    store.users := users;
    r := Success(updatedUser);
  }
}
