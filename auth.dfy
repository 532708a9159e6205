/**
 * The account rules of the authentication pages: the admin guard, where a login redirects, and
 * the user table kept by the admin pages (add, edit, delete). The user table is a sequence of
 * rows in primary-key order, so that `.first()` is the earliest matching row. Password hashing
 * and checking belong to the user model, which is not part of this model; the password check is
 * a parameter.
 */
module Auth {
  import opened Wrappers
  import opened Text

  /** A user row; form fields that were not submitted are None. */
  datatype User = User(id: int, username: Option<string>, email: Option<string>, password: Option<string>, isAdmin: bool)

  /** What a guarded route does: redirect to the login page, or run the wrapped handler. */
  datatype Guarded<T> = RedirectToLogin | Handled(result: T)

  /** `admin_required`: the wrapped handler's result is reached by administrators only. */
  function AdminRequired<T>(current: User, handler: T): (r: Guarded<T>)
    ensures r.Handled? <==> current.isAdmin
    ensures r.Handled? ==> r.result == handler
  {
    if !current.isAdmin then RedirectToLogin else Handled(handler)
  }

  /** Whatever the handler would return, a non-administrator gets the login redirect. */
  lemma NonAdminNeverHandled<T>(current: User, handler: T, other: T)
    requires !current.isAdmin
    ensures AdminRequired(current, handler) == AdminRequired(current, other) == RedirectToLogin
  {
  }

  /** The endpoint a login falls back to. */
  const Dashboard := "network.dashboard"

  /** The redirect target after a successful login: `next` only when it starts with '/'. */
  function LoginTarget(next: Option<string>): (r: string)
    ensures next.Some? && StartsWith(next.value, "/") ==> r == next.value
    ensures next.None? || !StartsWith(next.value, "/") ==> r == Dashboard
  {
    if next.None? || !StartsWith(next.value, "/") then Dashboard else next.value
  }

  /** The target is the dashboard or a `next` argument starting with '/'. */
  lemma LoginTargetLocal(next: Option<string>)
    ensures LoginTarget(next) == Dashboard || StartsWith(LoginTarget(next), "/")
    ensures LoginTarget(next) != Dashboard ==> next == Some(LoginTarget(next))
  {
  }

  /**
   * Starting with '/' does not make a target local: `//host/path` (and `/\host/path`, which
   * browsers read the same way) names another site, and the login follows it.
   */
  lemma LoginTargetOffSite()
    ensures LoginTarget(Some("//evil.example/x")) == "//evil.example/x"
    ensures LoginTarget(Some("/\\evil.example/x")) == "/\\evil.example/x"
  {
    assert StartsWith("//evil.example/x", "/");
    assert StartsWith("/\\evil.example/x", "/");
  }

  /** A path on this site: it starts with '/', and its second character is neither '/' nor a backslash. */
  predicate LocalPath(t: string) {
    |t| >= 1 && t[0] == '/' && (|t| == 1 || (t[1] != '/' && t[1] != '\\'))
  }

  /** The evidently intended redirect target: `next` only when it is a path on this site. */
  function SafeLoginTarget(next: Option<string>): (r: string)
    ensures r == Dashboard || LocalPath(r)
    ensures next.Some? && LocalPath(next.value) ==> r == next.value
    ensures next.None? || !LocalPath(next.value) ==> r == Dashboard
  {
    if next.Some? && LocalPath(next.value) then next.value else Dashboard
  }

  /** On local paths the intended target agrees with the written one. */
  lemma SafeAgreesOnLocal(next: Option<string>)
    requires next.Some? && LocalPath(next.value)
    ensures SafeLoginTarget(next) == LoginTarget(next)
  {
    assert StartsWith(next.value, "/");
  }

  /** The index of the first row whose username is `name`. */
  function FirstWithUsername(users: seq<User>, name: Option<string>): (r: Option<nat>)
    ensures r.Some? ==> r.value < |users| && users[r.value].username == name &&
                        forall i :: 0 <= i < r.value ==> users[i].username != name
    ensures r.None? ==> forall i :: 0 <= i < |users| ==> users[i].username != name
  {
    if users == [] then None
    else if users[0].username == name then Some(0)
    else
      match FirstWithUsername(users[1..], name)
      case None => None
      case Some(i) => Some(i + 1)
  }

  /** The index of the first row whose email is `email`. */
  function FirstWithEmail(users: seq<User>, email: Option<string>): (r: Option<nat>)
    ensures r.Some? ==> r.value < |users| && users[r.value].email == email &&
                        forall i :: 0 <= i < r.value ==> users[i].email != email
    ensures r.None? ==> forall i :: 0 <= i < |users| ==> users[i].email != email
  {
    if users == [] then None
    else if users[0].email == email then Some(0)
    else
      match FirstWithEmail(users[1..], email)
      case None => None
      case Some(i) => Some(i + 1)
  }

  /** The index of the row with primary key `id` (`query.get`). */
  function IndexOfId(users: seq<User>, id: int): (r: Option<nat>)
    ensures r.Some? ==> r.value < |users| && users[r.value].id == id
    ensures r.None? ==> forall i :: 0 <= i < |users| ==> users[i].id != id
  {
    if users == [] then None
    else if users[0].id == id then Some(0)
    else
      match IndexOfId(users[1..], id)
      case None => None
      case Some(i) => Some(i + 1)
  }

  /** Primary keys are distinct. */
  predicate DistinctIds(users: seq<User>) {
    forall i, j :: 0 <= i < j < |users| ==> users[i].id != users[j].id
  }

  /** Every primary key is below `next`. */
  predicate IdsBelow(users: seq<User>, next: int) {
    forall i :: 0 <= i < |users| ==> users[i].id < next
  }

  /** No two rows share a username. */
  predicate UniqueNames(users: seq<User>) {
    forall i, j :: 0 <= i < j < |users| ==> users[i].username != users[j].username
  }

  /** No two rows share an email. */
  predicate UniqueEmails(users: seq<User>) {
    forall i, j :: 0 <= i < j < |users| ==> users[i].email != users[j].email
  }

  /** How a login attempt ends. */
  datatype LoginOutcome = AlreadyLoggedIn(target: string) | LoggedIn(userId: int, target: string) | InvalidCredentials

  /** How an admin page's request ends. */
  datatype PageOutcome = NotFound | Refused(message: string) | Done(message: string)

  /** A password field counts only when it is present and non-empty (`if password:`). */
  predicate Given(password: Option<string>) {
    password.Some? && password.value != ""
  }

  /**
   * The checks of `edit_user`, in order: the first row with the username, then the first row with
   * the email, must be absent or the edited user itself.
   */
  function EditRefusal(users: seq<User>, userId: int, username: Option<string>, email: Option<string>): Option<string> {
    var byName := FirstWithUsername(users, username);
    var byEmail := FirstWithEmail(users, email);
    if byName.Some? && users[byName.value].id != userId then Some("Username already exists.")
    else if byEmail.Some? && users[byEmail.value].id != userId then Some("Email already exists.")
    else None
  }

  /**
   * With unique usernames and emails, an edit is refused exactly when another user holds the
   * username or the email, the username being reported first; the user's own values are accepted.
   */
  lemma EditRefusalMeaning(users: seq<User>, userId: int, username: Option<string>, email: Option<string>)
    requires UniqueNames(users) && UniqueEmails(users)
    ensures var r := EditRefusal(users, userId, username, email);
            && (r.None? <==> forall i :: 0 <= i < |users| && users[i].id != userId ==>
                                users[i].username != username && users[i].email != email)
            && ((exists i :: 0 <= i < |users| && users[i].id != userId && users[i].username == username) ==>
                  r == Some("Username already exists."))
  {
    var byName := FirstWithUsername(users, username);
    var byEmail := FirstWithEmail(users, email);
    forall i | 0 <= i < |users| && users[i].username == username ensures byName == Some(i) {
    }
    forall i | 0 <= i < |users| && users[i].email == email ensures byEmail == Some(i) {
    }
  }

  class UserStore {
    var users: seq<User>
    var nextId: int

    /** Primary keys are distinct and below the next one. */
    ghost predicate Valid()
      reads this
    {
      IdsBelow(users, nextId) && DistinctIds(users)
    }

    /** No two rows share a username, and no two share an email. */
    ghost predicate Unique()
      reads this
    {
      UniqueNames(users) && UniqueEmails(users)
    }

    constructor()
      ensures Valid() && Unique() && users == []
    {
      users := [];
      nextId := 1;
    }

    /**
     * The POST branch of `login`: a logged-in visitor goes to the dashboard; otherwise the first
     * user with that username must accept the password, and then the redirect follows `next`.
     */
    function Login(authenticated: bool, username: Option<string>, password: Option<string>,
                   verify: (User, Option<string>) -> bool, next: Option<string>): (r: LoginOutcome)
      reads this
      ensures authenticated <==> r.AlreadyLoggedIn?
      ensures authenticated ==> r == AlreadyLoggedIn(Dashboard)
      ensures !authenticated && FirstWithUsername(users, username).Some? &&
              verify(users[FirstWithUsername(users, username).value], password) ==>
                r == LoggedIn(users[FirstWithUsername(users, username).value].id, LoginTarget(next))
      ensures r.LoggedIn? ==>
                && FirstWithUsername(users, username).Some?
                && var u := users[FirstWithUsername(users, username).value];
                && verify(u, password) && r.userId == u.id && r.target == LoginTarget(next)
      ensures !authenticated && r.InvalidCredentials? ==>
                FirstWithUsername(users, username).None? || !verify(users[FirstWithUsername(users, username).value], password)
    {
      if authenticated then AlreadyLoggedIn(Dashboard)
      else
        match FirstWithUsername(users, username)
        case None => InvalidCredentials
        case Some(i) => if verify(users[i], password) then LoggedIn(users[i].id, LoginTarget(next)) else InvalidCredentials
    }

    /**
     * `add_user`: a taken username is refused first, then a taken email; otherwise one row is
     * added with the next id.
     */
    method AddUser(username: Option<string>, email: Option<string>, password: Option<string>, isAdmin: bool)
      returns (outcome: PageOutcome)
      requires Valid()
      modifies this
      ensures Valid()
      ensures old(Unique()) ==> Unique()
      ensures (exists i :: 0 <= i < |old(users)| && old(users)[i].username == username) ==>
                outcome == Refused("Username already exists.") && users == old(users)
      ensures (forall i :: 0 <= i < |old(users)| ==> old(users)[i].username != username) &&
              (exists i :: 0 <= i < |old(users)| && old(users)[i].email == email) ==>
                outcome == Refused("Email already exists.") && users == old(users)
      ensures outcome.Done? <==>
                forall i :: 0 <= i < |old(users)| ==> old(users)[i].username != username && old(users)[i].email != email
      ensures outcome.Done? ==>
                outcome.message == "User created successfully." &&
                users == old(users) + [User(old(nextId), username, email, password, isAdmin)]
      ensures outcome.Done? ==> nextId == old(nextId) + 1
      ensures !outcome.Done? ==> users == old(users) && nextId == old(nextId)
    {
      if FirstWithUsername(users, username).Some? {
        return Refused("Username already exists.");
      }
      if FirstWithEmail(users, email).Some? {
        return Refused("Email already exists.");
      }
      users := users + [User(nextId, username, email, password, isAdmin)];
      nextId := nextId + 1;
      return Done("User created successfully.");
    }

    /**
     * `edit_user`: an unknown id is a 404; a refused username or email leaves the table as it
     * was; otherwise the row takes the submitted fields, the password only when one was given.
     */
    method EditUser(userId: int, username: Option<string>, email: Option<string>, password: Option<string>, isAdmin: bool)
      returns (outcome: PageOutcome)
      requires Valid()
      modifies this`users
      ensures Valid()
      ensures old(Unique()) ==> Unique()
      ensures IndexOfId(old(users), userId).None? ==> outcome == NotFound && users == old(users)
      ensures IndexOfId(old(users), userId).Some? && EditRefusal(old(users), userId, username, email).Some? ==>
                outcome == Refused(EditRefusal(old(users), userId, username, email).value) && users == old(users)
      ensures IndexOfId(old(users), userId).Some? && EditRefusal(old(users), userId, username, email).None? ==>
                var k := IndexOfId(old(users), userId).value;
                && outcome == Done("User updated successfully.")
                && users == old(users)[k := User(userId, username, email,
                                                 if Given(password) then password else old(users)[k].password, isAdmin)]
    {
      var k := IndexOfId(users, userId);
      if k.None? {
        return NotFound;
      }
      var refusal := EditRefusal(users, userId, username, email);
      if refusal.Some? {
        return Refused(refusal.value);
      }
      var u := users[k.value];
      var newPassword := if Given(password) then password else u.password;
      ghost var before := users;
      ghost var wasUnique := Unique();
      users := users[k.value := User(userId, username, email, newPassword, isAdmin)];
      EditKeepsUnique(before, k.value, nextId, userId, username, email, newPassword, isAdmin);
      if wasUnique {
        EditRefusalMeaning(before, userId, username, email);
      }
      return Done("User updated successfully.");
    }

    /**
     * `delete_user`: an unknown id is a 404, the current user is never deleted, and any other
     * user's row is removed.
     */
    method DeleteUser(id: int, currentUserId: int) returns (outcome: PageOutcome)
      requires Valid()
      modifies this`users
      ensures Valid()
      ensures old(Unique()) ==> Unique()
      ensures IndexOfId(old(users), id).None? ==> outcome == NotFound && users == old(users)
      ensures id == currentUserId ==> users == old(users)
      ensures IndexOfId(old(users), id).Some? && id == currentUserId ==> outcome == Refused("You cannot delete your own account.")
      ensures outcome.Done? <==> IndexOfId(old(users), id).Some? && id != currentUserId
      ensures outcome.Done? ==>
                var k := IndexOfId(old(users), id).value;
                outcome.message == "User deleted successfully." && users == old(users)[..k] + old(users)[k + 1..]
      ensures forall i :: 0 <= i < |users| ==> users[i].id != id || id == currentUserId
    {
      var k := IndexOfId(users, id);
      if k.None? {
        return NotFound;
      }
      if users[k.value].id == currentUserId {
        return Refused("You cannot delete your own account.");
      }
      ghost var before := users;
      users := users[..k.value] + users[k.value + 1..];
      DeleteKeeps(before, k.value, nextId);
      return Done("User deleted successfully.");
    }
  }

  /**
   * Replacing row `k` by a row with the same id keeps the ids as they were, and keeps usernames
   * and emails unique when no other row holds the new ones.
   */
  lemma EditKeepsUnique(users: seq<User>, k: nat, next: int, userId: int, username: Option<string>,
                        email: Option<string>, password: Option<string>, isAdmin: bool)
    requires k < |users| && users[k].id == userId
    ensures var after := users[k := User(userId, username, email, password, isAdmin)];
            && (IdsBelow(users, next) ==> IdsBelow(after, next))
            && (DistinctIds(users) ==> DistinctIds(after))
            && (UniqueNames(users) && (forall i :: 0 <= i < |users| && i != k ==> users[i].username != username) ==>
                  UniqueNames(after))
            && (UniqueEmails(users) && (forall i :: 0 <= i < |users| && i != k ==> users[i].email != email) ==>
                  UniqueEmails(after))
  {
  }

  /**
   * Removing row `k` leaves the other rows, in order: no row with the removed id is left when ids
   * are distinct, and distinct ids, bounds on ids and unique usernames and emails are kept.
   */
  lemma DeleteKeeps(users: seq<User>, k: nat, next: int)
    requires k < |users|
    ensures var after := users[..k] + users[k + 1..];
            && |after| == |users| - 1
            && (forall i :: 0 <= i < |after| ==> after[i] == if i < k then users[i] else users[i + 1])
            && (DistinctIds(users) ==> DistinctIds(after) && forall i :: 0 <= i < |after| ==> after[i].id != users[k].id)
            && (IdsBelow(users, next) ==> IdsBelow(after, next))
            && (UniqueNames(users) ==> UniqueNames(after))
            && (UniqueEmails(users) ==> UniqueEmails(after))
  {
    var after := users[..k] + users[k + 1..];
    assert forall i :: 0 <= i < |after| ==> after[i] == if i < k then users[i] else users[i + 1];
  }
}
