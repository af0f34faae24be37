/**
 * Registration and sign-in on the backend: a new user is stored with the hash
 * of their password and gets exactly one profile row for their role; sign-in
 * finds the user by email and verifies the password against the stored hash.
 * The hash and verify functions of bcrypt are parameters.
 */
module AuthService {
  import opened Wrappers
  import opened Http
  import opened Db

  const EmailRegistered := "Email already registered"

  /** Looking up an email in a table extended by a user with a new email finds that user. */
  lemma {:induction false} FirstUserWithAppended(users: seq<UserRow>, u: UserRow)
    requires FirstUserWith(users, u.email).None?
    ensures FirstUserWith(users + [u], u.email) == Some(u)
  {
    if users != [] {
      assert (users + [u])[1..] == users[1..] + [u];
      FirstUserWithAppended(users[1..], u);
    } else {
      assert users + [u] == [u];
    }
  }

  /** Appending a user does not change what an existing email finds. */
  lemma {:induction false} FirstUserWithKept(users: seq<UserRow>, u: UserRow, email: string)
    requires FirstUserWith(users, email).Some?
    ensures FirstUserWith(users + [u], email) == FirstUserWith(users, email)
  {
    if users[0].email != email {
      assert (users + [u])[1..] == users[1..] + [u];
      FirstUserWithKept(users[1..], u, email);
    }
  }

  /**
   * create_user: a registered email is refused with 400 before anything is
   * written; otherwise the user row (password hashed) and then one profile
   * row for an hr or applicant role are added.
   */
  method CreateUser(db: Database, email: string, password: string, role: string,
                    hash: string -> string, newUserId: int, newProfileId: int)
    returns (r: Result<UserRow, HttpError>)
    modifies db
    ensures FirstUserWith(old(db.users), email).Some? ==>
      r == Err(HttpError(BadRequest, EmailRegistered)) && db.users == old(db.users)
      && db.hrProfiles == old(db.hrProfiles) && db.applicantProfiles == old(db.applicantProfiles)
    ensures FirstUserWith(old(db.users), email).None? ==>
      r == Ok(UserRow(newUserId, email, hash(password), role)) && db.users == old(db.users) + [r.value]
    ensures FirstUserWith(old(db.users), email).None? && role == HrRole ==>
      db.hrProfiles == old(db.hrProfiles) + [HrProfileRow(newProfileId, newUserId, None, None, None, None, None)]
      && db.applicantProfiles == old(db.applicantProfiles)
    ensures FirstUserWith(old(db.users), email).None? && role == ApplicantRole ==>
      db.applicantProfiles == old(db.applicantProfiles) + [ApplicantProfileRow(newProfileId, newUserId, None, None, None, None, None, None)]
      && db.hrProfiles == old(db.hrProfiles)
    ensures FirstUserWith(old(db.users), email).None? && role != HrRole && role != ApplicantRole ==>
      db.hrProfiles == old(db.hrProfiles) && db.applicantProfiles == old(db.applicantProfiles)
    ensures db.vacancies == old(db.vacancies) && db.applications == old(db.applications)
    ensures db.meetings == old(db.meetings) && db.resumeVersions == old(db.resumeVersions)
    ensures db.interviews == old(db.interviews)
  {
    if FirstUserWith(db.users, email).Some? {
      return Err(HttpError(BadRequest, EmailRegistered));
    }
    var newUser := UserRow(newUserId, email, hash(password), role);
    db.users := db.users + [newUser];
    if role == HrRole {
      db.hrProfiles := db.hrProfiles + [HrProfileRow(newProfileId, newUserId, None, None, None, None, None)];
    } else if role == ApplicantRole {
      db.applicantProfiles := db.applicantProfiles + [ApplicantProfileRow(newProfileId, newUserId, None, None, None, None, None, None)];
    }
    r := Ok(newUser);
  }

  /** authenticate_user: the user with that email when the password verifies against their hash. */
  function AuthenticateUser(users: seq<UserRow>, email: string, password: string,
                            verify: (string, string) -> bool): (r: Option<UserRow>)
    ensures r.Some? <==> FirstUserWith(users, email).Some? && verify(password, FirstUserWith(users, email).value.passwordHash)
    ensures r.Some? ==> r.value in users && r.value.email == email
  {
    match FirstUserWith(users, email)
    case None => None
    case Some(u) => if !verify(password, u.passwordHash) then None else Some(u)
  }

  /** get_user_info_from_token: the user with that email, or 404. */
  function GetUserInfo(users: seq<UserRow>, email: string): (r: Result<UserRow, HttpError>)
    ensures r.Err? <==> forall i :: 0 <= i < |users| ==> users[i].email != email
    ensures r.Err? ==> r.error.status == NotFound
    ensures r.Ok? ==> r.value in users && r.value.email == email
  {
    match FirstUserWith(users, email)
    case None => Err(HttpError(NotFound, "User not found"))
    case Some(u) => Ok(u)
  }

  /**
   * A user just created signs in with their password (when the hash verifies
   * its own password, as bcrypt's does), and every earlier user signs in as before.
   */
  lemma RegisteredUserAuthenticates(users: seq<UserRow>, email: string, password: string, role: string,
                                    hash: string -> string, verify: (string, string) -> bool, id: int)
    requires FirstUserWith(users, email).None?
    requires verify(password, hash(password))
    ensures var u := UserRow(id, email, hash(password), role);
      AuthenticateUser(users + [u], email, password, verify) == Some(u)
      && forall e, p :: e != email ==> AuthenticateUser(users + [u], e, p, verify) == AuthenticateUser(users, e, p, verify)
  {
    var u := UserRow(id, email, hash(password), role);
    FirstUserWithAppended(users, u);
    forall e, p | e != email
      ensures AuthenticateUser(users + [u], e, p, verify) == AuthenticateUser(users, e, p, verify)
    {
      if FirstUserWith(users, e).Some? {
        FirstUserWithKept(users, u, e);
      } else {
        assert forall i :: 0 <= i < |users + [u]| ==> (users + [u])[i].email != e;
      }
    }
  }
}
