/** The session store of src/store/auth-store.ts: who is signed in and with
    which role. The OTP check and the sign-out call belong to the hosted auth
    service; each method receives what that call produced (an identity, or
    nothing when it threw). */
module Session {
  import opened Collections
  import Text

  datatype Role = Admin | Manager | Resident

  /** The role as the pages compare it against stored strings. */
  function RoleName(r: Role): (s: string)
    ensures s in {"admin", "manager", "resident"}
  {
    match r
    case Admin => "admin"
    case Manager => "manager"
    case Resident => "resident"
  }

  datatype User = User(uid: string, email: string, name: string, role: Role)

  /** What the auth service's OTP verification returns about the account. */
  datatype Identity = Identity(uid: string, email: string, name: string)

  /** The user that a successful login stores: identity from the auth
      service, the role picked on the login form, and, when the service has
      no name, the part of the typed email before its first '@'. */
  function SignedInUser(email: string, role: Role, id: Identity): (u: User)
    ensures u.uid == id.uid && u.email == id.email && u.role == role
    ensures id.name != "" ==> u.name == id.name
    ensures id.name == "" ==> u.name <= email && '@' !in u.name
    ensures id.name == "" && '@' in email ==> email[|u.name|] == '@'
    ensures id.name == "" && '@' !in email ==> u.name == email
  {
    User(id.uid, id.email, if id.name != "" then id.name else Text.BeforeAt(email), role)
  }

  /** `user?.uid || ''`: the signed-in user's id, or "" with nobody signed in. */
  function Uid(user: Option<User>): string
  {
    if user.Some? then user.value.uid else ""
  }

  /** `user?.email || ''`. */
  function Email(user: Option<User>): string
  {
    if user.Some? then user.value.email else ""
  }

  /** A row of the user-profiles table: `_uid` (the owning account),
      `user_id`, and the role as a stored string. */
  datatype Profile = Profile(uid: string, userId: string, email: string, name: string, role: string)

  class AuthStore {
    var user: Option<User>
    var isAuthenticated: bool

    /** The flag says exactly whether someone is signed in. */
    ghost predicate Valid()
      reads this
    {
      isAuthenticated <==> user.Some?
    }

    /** The store's initial state: nobody signed in. */
    constructor ()
      ensures Valid()
      ensures user == None && !isAuthenticated
    {
      user := None;
      isAuthenticated := false;
    }

    /** `login(email, otp, role)`. `verified` is the result of the OTP check:
        `None` when it threw, in which case nothing is set. */
    method Login(email: string, role: Role, verified: Option<Identity>) returns (ok: bool)
      requires Valid()
      modifies this
      ensures Valid()
      ensures ok <==> verified.Some?
      ensures verified.Some? ==> user == Some(SignedInUser(email, role, verified.value)) && isAuthenticated
      ensures verified.None? ==> user == old(user) && isAuthenticated == old(isAuthenticated)
    {
      match verified
      case None =>
        ok := false;
      case Some(id) =>
        user := Some(SignedInUser(email, role, id));
        isAuthenticated := true;
        ok := true;
    }

    /** `logout()`. `signedOut` says whether the auth service's sign-out
        returned; when it threw, nothing is cleared. */
    method Logout(signedOut: bool)
      requires Valid()
      modifies this
      ensures Valid()
      ensures signedOut ==> user == None && !isAuthenticated
      ensures !signedOut ==> user == old(user) && isAuthenticated == old(isAuthenticated)
    {
      if signedOut {
        user := None;
        isAuthenticated := false;
      }
    }

    /** `updateUserRole(role)`: only the role of a signed-in user changes;
        with nobody signed in the store stays empty. */
    method UpdateUserRole(role: Role)
      requires Valid()
      modifies this
      ensures Valid()
      ensures isAuthenticated == old(isAuthenticated)
      ensures old(user).None? ==> user == None
      ensures old(user).Some? ==> user == Some(old(user).value.(role := role))
    {
      if user.Some? {
        user := Some(user.value.(role := role));
      }
    }
  }
}
