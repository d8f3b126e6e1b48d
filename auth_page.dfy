/** components/AuthPage.tsx: the sign-in / sign-up form. It keeps its own copy of the
    log-in and sign-up rules over the 'xylos_ai_users' table, and unlike services/authApi.ts
    it compares e-mails exactly as typed: no trimming, no lower-casing. */
module AuthPage {
  import opened Wrappers
  import opened Types
  import opened Text
  import opened Directory
  import opened Storage
  import AuthApi

  /** `handleLogin` on a table: the first row with exactly this e-mail and password gets a
      new `lastLogin`; otherwise nothing changes. */
  function PageLogin(users: seq<User>, email: string, password: string, now: string)
    : (r: (Option<User>, seq<User>))
    ensures r.0.Some? <==> Exists(users, ByCredentials(email, Some(password)))
    ensures r.0.None? ==> r.1 == users
    ensures r.0.Some? ==>
              && r.0.value.email == email && r.0.value.password == Some(password)
              && r.0.value.lastLogin == Some(now)
              && r.1 == users[FindIndex(users, ByCredentials(email, Some(password))).value := r.0.value]
    ensures |r.1| == |users|
    ensures forall j :: 0 <= j < |users| ==> r.1[j].(lastLogin := users[j].lastLogin) == users[j]
  {
    LoginStep(users, email, Some(password), now)
  }

  /** `handleSignUp` on a table: a short password is refused before the table is read, an
      e-mail already present (exactly) is refused, and otherwise one row is appended whose
      avatar is built from the e-mail as typed. */
  function PageSignUp(users: seq<User>, name: string, email: string, password: string, now: string)
    : (r: (Result<User>, seq<User>))
    ensures AuthApi.TooShort(password) ==> r == (Failure(AuthApi.PasswordTooShort), users)
    ensures !AuthApi.TooShort(password) && Exists(users, ByEmail(email)) ==>
              r == (Failure(AuthApi.EmailInUse), users)
    ensures r.0.Success? <==> !AuthApi.TooShort(password) && !Exists(users, ByEmail(email))
    ensures r.0.Success? ==>
              && r.1 == users + [r.0.value]
              && r.0.value == User(None, name, email, Some(password), AvatarUrl(email), Some(now))
    ensures EmailsUnique(users) ==> EmailsUnique(r.1)
  {
    if AuthApi.TooShort(password) then (Failure(AuthApi.PasswordTooShort), users)
    else if Exists(users, ByEmail(email)) then (Failure(AuthApi.EmailInUse), users)
    else
      var u := User(None, name, email, Some(password), AvatarUrl(email), Some(now));
      (Success(u), users + [u])
  }

  /** For an e-mail typed already in normalized form, the form and the service log in the
      same row and leave the same table. */
  lemma LoginAgreesWhenNormalized(users: seq<User>, email: string, password: string, now: string)
    requires NormalizeEmail(email) == email
    ensures var (found, pageUsers) := PageLogin(users, email, password, now);
            var (res, apiUsers) := AuthApi.Login(users, email, password, now);
            && pageUsers == apiUsers
            && (found.Some? <==> res.Success?)
            && (found.Some? ==> found.value == res.value)
  {
  }

  /** The sign-up handler accepts what the service refuses: an e-mail whose normalized
      form is stored although the e-mail as typed is not, such as one differing from a stored
      e-mail only in case. */
  lemma SignUpAdmitsVariantOfStoredEmail(users: seq<User>, name: string, email: string,
                                         password: string, now: string)
    requires !AuthApi.TooShort(password)
    requires Exists(users, ByEmail(NormalizeEmail(email))) && !Exists(users, ByEmail(email))
    ensures PageSignUp(users, name, email, password, now).0.Success?
    ensures AuthApi.Register(users, name, email, password, now).0 == Failure(AuthApi.EmailInUse)
  {
  }

  /** A concrete case: a row stored as "a@b" by the service; the form cannot log in as
      "A@b", while the service can. */
  lemma CaseMattersOnlyOnThePage(now: string)
    ensures var users := [User(None, "Ann", "a@b", Some("secret"), AvatarUrl("a@b"), None)];
            && PageLogin(users, "A@b", "secret", now).0.None?
            && AuthApi.Login(users, "A@b", "secret", now).0.Success?
  {
    var users := [User(None, "Ann", "a@b", Some("secret"), AvatarUrl("a@b"), None)];
    assert LeadingWhitespace("A@b") == 0;
    assert TrailingWhitespace("A@b") == 0;
    assert Trim("A@b") == "A@b";
    assert NormalizeEmail("A@b") == "a@b" by {
      var l := ToLower("A@b");
      assert l[0] == 'a' && l[1] == '@' && l[2] == 'b';
    }
    assert Matches(users[0], ByCredentials("a@b", Some("secret")));
  }

  class AuthPageForm {
    var isLoginView: bool
    var isLoading: bool
    var error: string
    var name: string
    var email: string
    var password: string

    constructor ()
      ensures isLoginView && !isLoading && error == "" && name == "" && email == "" && password == ""
    {
      isLoginView := true;
      isLoading := false;
      error := "";
      name := "";
      email := "";
      password := "";
    }

    /** `handleLogin`: returns the user handed to `onAuthSuccess`, if any. */
    method HandleLogin(store: WebStorage, now: string) returns (signedIn: Option<User>)
      modifies this`error, store`users
      ensures var (found, users') := PageLogin(old(store.users), email, password, now);
              && signedIn == found && store.users == users'
              && error == (if found.Some? then "" else AuthApi.InvalidCredentials)
    {
      var users := store.users;
      var idx := FindIndex(users, ByCredentials(email, Some(password)));
      if idx.Some? {
        error := "";
        var user := users[idx.value].(lastLogin := Some(now));
        users := users[idx.value := user];
        store.users := users;
        signedIn := Some(user);
      } else {
        error := AuthApi.InvalidCredentials;
        signedIn := None;
      }
    }

    /** `handleSignUp`: returns the user handed to `onAuthSuccess`, if any. */
    method HandleSignUp(store: WebStorage, now: string) returns (signedIn: Option<User>)
      modifies this`error, store`users
      ensures var (res, users') := PageSignUp(old(store.users), name, email, password, now);
              && store.users == users'
              && (res.Success? ==> signedIn == Some(res.value) && error == "")
              && (res.Failure? ==> signedIn == None && error == res.error)
    {
      if Utf16Length(password) < 6 {
        error := AuthApi.PasswordTooShort;
        return None;
      }
      var users := store.users;
      if Exists(users, ByEmail(email)) {
        error := AuthApi.EmailInUse;
        return None;
      }
      error := "";
      var newUser := User(None, name, email, Some(password), AvatarUrl(email), Some(now));
      users := users + [newUser];
      store.users := users;
      signedIn := Some(newUser);
    }

    /** `handleSubmit`, once the simulated latency has passed: the handler of the current
        view runs and the spinner stops. */
    method HandleSubmit(store: WebStorage, now: string) returns (signedIn: Option<User>)
      modifies this`isLoading, this`error, store`users
      ensures !isLoading
      ensures isLoginView ==>
                var (found, users') := PageLogin(old(store.users), email, password, now);
                && signedIn == found && store.users == users'
                && error == (if found.Some? then "" else AuthApi.InvalidCredentials)
      ensures !isLoginView ==>
                var (res, users') := PageSignUp(old(store.users), name, email, password, now);
                && store.users == users'
                && (res.Success? ==> signedIn == Some(res.value) && error == "")
                && (res.Failure? ==> signedIn == None && error == res.error)
    {
      isLoading := true;
      error := "";
      if isLoginView {
        signedIn := HandleLogin(store, now);
      } else {
        signedIn := HandleSignUp(store, now);
      }
      isLoading := false;
    }

    /** `toggleView`: switches between sign-in and sign-up and clears the form. */
    method ToggleView()
      modifies this`isLoginView, this`error, this`password, this`name, this`email
      ensures isLoginView == !old(isLoginView)
      ensures error == "" && password == "" && name == "" && email == ""
    {
      isLoginView := !isLoginView;
      error := "";
      password := "";
      name := "";
      email := "";
    }
  }
}
