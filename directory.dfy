/** The look-ups and row updates that every copy of the user table performs
    (`find`, `findIndex`, `some`, and the in-place updates of one row). */
module Directory {
  import opened Wrappers
  import opened Types

  /** The callbacks handed to `find`, `findIndex` and `some`; JavaScript's `===` on an
      absent field is the equality of `Option`s (two absent values are equal). */
  datatype Key =
    | ByEmail(email: string)
    | ById(id: Option<string>)
    | ByCredentials(email: string, password: Option<string>)

  predicate Matches(u: User, k: Key)
  {
    match k
    case ByEmail(e) => u.email == e
    case ById(id) => u.id == id
    case ByCredentials(e, p) => u.email == e && u.password == p
  }

  /** `findIndex`: the first matching index, `None` standing for -1. */
  function FindIndex(users: seq<User>, k: Key): (r: Option<nat>)
    ensures r.None? <==> forall i :: 0 <= i < |users| ==> !Matches(users[i], k)
    ensures r.Some? ==> r.value < |users| && Matches(users[r.value], k)
    ensures r.Some? ==> forall j :: 0 <= j < r.value ==> !Matches(users[j], k)
  {
    if users == [] then None
    else if Matches(users[0], k) then Some(0)
    else match FindIndex(users[1..], k)
      case None => None
      case Some(i) => Some(i + 1)
  }

  /** `find`: the first matching row, or `null`. */
  function Find(users: seq<User>, k: Key): (r: Option<User>)
    ensures r.None? <==> forall i :: 0 <= i < |users| ==> !Matches(users[i], k)
    ensures r.Some? ==> Matches(r.value, k)
    ensures r.Some? ==> exists i :: 0 <= i < |users| && users[i] == r.value
                                    && forall j :: 0 <= j < i ==> !Matches(users[j], k)
  {
    match FindIndex(users, k)
    case None => None
    case Some(i) => Some(users[i])
  }

  /** `some`: whether any row matches. */
  predicate Exists(users: seq<User>, k: Key)
  {
    exists i :: 0 <= i < |users| && Matches(users[i], k)
  }

  /** No two rows share an e-mail. */
  predicate EmailsUnique(users: seq<User>)
  {
    forall i, j :: 0 <= i < |users| && 0 <= j < |users| && i != j ==> users[i].email != users[j].email
  }

  /** No two rows share an id. */
  predicate IdsUnique(users: seq<User>)
  {
    forall i, j :: 0 <= i < |users| && 0 <= j < |users| && i != j ==> users[i].id != users[j].id
  }

  /** Appending a row leaves the earlier matches where they were; a match found only in
      the new row is at the end. */
  lemma {:induction false} FindIndexAppend(users: seq<User>, u: User, k: Key)
    ensures FindIndex(users + [u], k) ==
              if FindIndex(users, k).Some? then FindIndex(users, k)
              else if Matches(u, k) then Some(|users|)
              else None
  {
    if users != [] {
      assert (users + [u])[1..] == users[1..] + [u];
      FindIndexAppend(users[1..], u, k);
    }
  }

  /** Two tables that agree row by row on a key's fields give the same answer for that key. */
  lemma {:induction false} FindIndexSameKeys(a: seq<User>, b: seq<User>, k: Key)
    requires |a| == |b|
    requires forall j :: 0 <= j < |a| ==> (Matches(a[j], k) <==> Matches(b[j], k))
    ensures FindIndex(a, k) == FindIndex(b, k)
  {
    if a != [] {
      FindIndexSameKeys(a[1..], b[1..], k);
    }
  }

  /** The row `u.lastLogin = now` leaves behind: the shared login step of the services.
      Only the first row with the credentials changes, and only in `lastLogin`. */
  function LoginStep(users: seq<User>, email: string, password: Option<string>, now: string)
    : (r: (Option<User>, seq<User>))
    ensures var idx := FindIndex(users, ByCredentials(email, password));
            (r.0.Some? <==> idx.Some?)
            && (r.0.None? ==> r.1 == users)
            && (r.0.Some? ==> r.1 == users[idx.value := r.0.value])
    ensures r.0.Some? ==> r.0.value.email == email && r.0.value.password == password
                          && r.0.value.lastLogin == Some(now)
    ensures |r.1| == |users|
    ensures forall j :: 0 <= j < |users| ==> r.1[j].(lastLogin := users[j].lastLogin) == users[j]
  {
    match FindIndex(users, ByCredentials(email, password))
    case None => (None, users)
    case Some(i) =>
      var u := users[i].(lastLogin := Some(now));
      (Some(u), users[i := u])
  }

  /** `{ ...users[i], name, avatar }` written back at index `i`. */
  function SetProfile(users: seq<User>, i: nat, name: string, avatar: string): (r: seq<User>)
    requires i < |users|
    ensures |r| == |users|
    ensures forall j :: 0 <= j < |users| && j != i ==> r[j] == users[j]
    ensures r[i].name == name && r[i].avatar == avatar
    ensures r[i].(name := users[i].name, avatar := users[i].avatar) == users[i]
  {
    users[i := users[i].(name := name, avatar := avatar)]
  }

  /** A row update that keeps every e-mail keeps the e-mails unique. */
  lemma SameEmailsKeepUnique(before: seq<User>, after: seq<User>)
    requires EmailsUnique(before)
    requires |after| == |before|
    requires forall j :: 0 <= j < |before| ==> after[j].email == before[j].email
    ensures EmailsUnique(after)
  {
  }

  /** Under unique e-mails, a row found by its e-mail is the only row with that e-mail. */
  lemma UniqueEmailFound(users: seq<User>, i: nat)
    requires EmailsUnique(users)
    requires i < |users|
    ensures FindIndex(users, ByEmail(users[i].email)) == Some(i)
  {
  }
}
