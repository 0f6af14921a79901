/** auth/register.php: account creation. */
module Register {
  import opened Common
  import opened Store
  import opened AdminGuard

  /** The posted form; `password` is the raw field, the others as sanitised. */
  datatype RegisterForm = RegisterForm(
    csrfToken: Option<string>,
    email: Option<string>,
    password: Option<string>,
    firstName: Option<string>,
    lastName: Option<string>,
    country: Option<string>)

  datatype RegisterError = MissingFields | InvalidEmail | ShortPassword | EmailTaken

  predicate AllGiven(f: RegisterForm) {
    Given(f.email) && Given(f.password) && Given(f.firstName) && Given(f.lastName) && Given(f.country)
  }

  /** Some user already has this email. */
  predicate EmailRegistered(users: map<int, User>, email: string) {
    exists id :: id in users && users[id].email == email
  }

  /** No two users share an email. */
  predicate EmailsUnique(users: map<int, User>) {
    forall i, j :: i in users && j in users && users[i].email == users[j].email ==> i == j
  }

  /** The checks in order: every field filled, the email well formed
      (`validEmail` stands for FILTER_VALIDATE_EMAIL), a password of at least
      8 bytes, and an email no user has; the first failure is reported. */
  function RegistrationError(f: RegisterForm, validEmail: string -> bool, users: map<int, User>): (r: Option<RegisterError>)
    ensures r == Some(MissingFields) <==> !AllGiven(f)
    ensures r == Some(InvalidEmail) <==> AllGiven(f) && !validEmail(f.email.value)
    ensures r == Some(ShortPassword) <==> AllGiven(f) && validEmail(f.email.value) && |f.password.value| < 8
    ensures r == Some(EmailTaken) <==>
      AllGiven(f) && validEmail(f.email.value) && |f.password.value| >= 8 && EmailRegistered(users, f.email.value)
    ensures r.None? ==> AllGiven(f) && |f.password.value| >= 8 && !EmailRegistered(users, f.email.value)
  {
    if !AllGiven(f) then Some(MissingFields)
    else if !validEmail(f.email.value) then Some(InvalidEmail)
    else if |f.password.value| < 8 then Some(ShortPassword)
    else if EmailRegistered(users, f.email.value) then Some(EmailTaken)
    else None
  }

  /** Adding a user whose email nobody has keeps emails unique. */
  lemma AddKeepsEmailsUnique(users: map<int, User>, id: int, u: User)
    requires EmailsUnique(users)
    requires id !in users
    requires !EmailRegistered(users, u.email)
    ensures EmailsUnique(users[id := u])
  {
    assert forall j :: j in users ==> users[j].email != u.email;
  }

  datatype RegisterOutcome = CsrfRejected | Page(error: Option<RegisterError>) | Registered(userId: int)

  /** The session gets a CSRF token if it has none; a post with a wrong
      token is refused. A post passing every check inserts exactly one user
      (not an admin, storing `passwordHash`, which stands for password_hash
      of the password) under the next user id, and one user_logs row with
      the request's address and browser and the submitted country; a failed
      check writes nothing. Unique emails stay unique. */
  method Register(s: Session, db: Database, post: Option<RegisterForm>, validEmail: string -> bool,
                  passwordHash: string, ip: string, browser: string, generated: string)
    returns (r: RegisterOutcome)
    requires db.Valid()
    modifies s`csrfToken, db`users, db`nextUserId, db`userLogs
    ensures db.Valid()
    ensures s.csrfToken == if old(s.csrfToken).None? then Some(generated) else old(s.csrfToken)
    ensures r.CsrfRejected? <==> post.Some? && !CsrfMatches(post.value.csrfToken, s.csrfToken)
    ensures r.Page? ==>
      r.error == if post.Some? then RegistrationError(post.value, validEmail, old(db.users)) else None
    ensures r.Registered? <==>
      post.Some? && CsrfMatches(post.value.csrfToken, s.csrfToken)
      && RegistrationError(post.value, validEmail, old(db.users)).None?
    ensures r.Registered? ==>
      var f := post.value;
      && r.userId == old(db.nextUserId) && r.userId !in old(db.users)
      && db.users == old(db.users)[r.userId := User(f.email.value, passwordHash, f.firstName.value, f.lastName.value, f.country.value, 0)]
      && db.nextUserId == old(db.nextUserId) + 1
      && db.userLogs == old(db.userLogs) + [UserLog(r.userId, ip, browser, f.country.value)]
    ensures !r.Registered? ==>
      db.users == old(db.users) && db.nextUserId == old(db.nextUserId) && db.userLogs == old(db.userLogs)
    ensures EmailsUnique(old(db.users)) ==> EmailsUnique(db.users)
  {
    s.EnsureCsrfToken(generated);
    if post.None? {
      return Page(None);
    }
    var f := post.value;
    if !CsrfMatches(f.csrfToken, s.csrfToken) {
      return CsrfRejected;
    }
    var error := RegistrationError(f, validEmail, db.users);
    if error.Some? {
      return Page(error);
    }
    var id := db.nextUserId;
    var u := User(f.email.value, passwordHash, f.firstName.value, f.lastName.value, f.country.value, 0);
    if EmailsUnique(db.users) {
      AddKeepsEmailsUnique(db.users, id, u);
    }
    db.users := db.users[id := u];
    db.nextUserId := db.nextUserId + 1;
    db.userLogs := db.userLogs + [UserLog(id, ip, browser, f.country.value)];
    r := Registered(id);
  }
}

/** auth/profile.php: a logged-in user edits their name and country. */
module Profile {
  import opened Common
  import opened Store
  import opened AdminGuard

  datatype ProfileForm = ProfileForm(
    csrfToken: Option<string>,
    firstName: Option<string>,
    lastName: Option<string>,
    country: Option<string>)

  predicate ProfileFilled(f: ProfileForm) {
    Given(f.firstName) && Given(f.lastName) && Given(f.country)
  }

  /** UPDATE users SET first_name, last_name, country WHERE user_id: only
      those three columns of that user change; email, password hash and
      role stay, and so does every other user. */
  function UpdateNames(users: map<int, User>, id: int, firstName: string, lastName: string, country: string)
    : (r: map<int, User>)
    ensures r.Keys == users.Keys
    ensures forall k :: k in users && k != id ==> r[k] == users[k]
    ensures id in users ==>
      && r[id].firstName == firstName && r[id].lastName == lastName && r[id].country == country
      && r[id].email == users[id].email && r[id].passwordHash == users[id].passwordHash
      && r[id].isAdmin == users[id].isAdmin
  {
    if id in users then users[id := users[id].(firstName := firstName, lastName := lastName, country := country)]
    else users
  }

  /** A profile edit never grants or removes admin rights, for anyone. */
  lemma UpdateNamesKeepsRoles(users: map<int, User>, id: int, firstName: string, lastName: string, country: string, anyone: Option<int>)
    ensures IsAdmin(anyone, UpdateNames(users, id, firstName, lastName, country)) <==> IsAdmin(anyone, users)
  {
  }

  datatype ProfileOutcome = ToLogin | CsrfRejected | Page(invalid: bool, updated: bool)

  /** No session user goes to the login page with nothing changed. A
      logged-in user's session gets a CSRF token if it has none; a post with
      a wrong token is refused. A post with truthy first name, last name and
      country updates those columns of the session user's row (if the row is
      gone nothing is updated) and appends one user_logs row with the
      request's address and browser and the submitted country; a post
      missing one of them reports an error and writes nothing. */
  method UpdateProfile(s: Session, db: Database, post: Option<ProfileForm>, ip: string, browser: string, generated: string)
    returns (r: ProfileOutcome)
    requires db.Valid()
    modifies s`csrfToken, db`users, db`userLogs
    ensures db.Valid()
    ensures r.ToLogin? <==> s.userId.None?
    ensures r.ToLogin? ==> unchanged(s) && unchanged(db)
    ensures !r.ToLogin? ==> s.csrfToken == if old(s.csrfToken).None? then Some(generated) else old(s.csrfToken)
    ensures r.CsrfRejected? <==>
      s.userId.Some? && post.Some? && !CsrfMatches(post.value.csrfToken, s.csrfToken)
    ensures r.Page? ==> (r.invalid <==> post.Some? && !ProfileFilled(post.value))
    ensures (r.Page? && r.updated) <==>
      s.userId.Some? && post.Some? && CsrfMatches(post.value.csrfToken, s.csrfToken) && ProfileFilled(post.value)
    ensures r.Page? && r.updated ==>
      var f := post.value;
      && db.users == UpdateNames(old(db.users), s.userId.value, f.firstName.value, f.lastName.value, f.country.value)
      && db.userLogs == old(db.userLogs) + [UserLog(s.userId.value, ip, browser, f.country.value)]
    ensures !(r.Page? && r.updated) ==> db.users == old(db.users) && db.userLogs == old(db.userLogs)
  {
    if s.userId.None? {
      return ToLogin;
    }
    s.EnsureCsrfToken(generated);
    if post.None? {
      return Page(false, false);
    }
    var f := post.value;
    if !CsrfMatches(f.csrfToken, s.csrfToken) {
      return CsrfRejected;
    }
    if !ProfileFilled(f) {
      return Page(true, false);
    }
    var id := s.userId.value;
    db.users := UpdateNames(db.users, id, f.firstName.value, f.lastName.value, f.country.value);
    db.userLogs := db.userLogs + [UserLog(id, ip, browser, f.country.value)];
    r := Page(false, true);
  }
}
