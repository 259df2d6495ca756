/** The admin session: whether the admin is signed in and as whom, driven
    by `login` against one fixed credential pair and by `logout`. */
module AuthContext {
  import opened Wrappers

  datatype User = User(username: string)

  const AdminUsername: string := "admin"
  const AdminPassword: string := "admin123"

  /** Both fields of the session. */
  datatype AuthState = AuthState(isAuthenticated: bool, user: Option<User>)

  predicate CredentialsMatch(username: string, password: string) {
    username == AdminUsername && password == AdminPassword
  }

  /** The flag the session starts with: set only by the stored text "true". */
  function InitialFlag(stored: Option<string>): (b: bool)
    ensures b <==> stored.Some? && stored.value == "true"
  {
    stored == Some("true")
  }

  /** The session after `login(username, password)`. */
  function AfterLogin(s: AuthState, username: string, password: string): (r: AuthState)
    ensures CredentialsMatch(username, password) ==> r == AuthState(true, Some(User(username)))
    ensures !CredentialsMatch(username, password) ==> r == s
  {
    if CredentialsMatch(username, password) then AuthState(true, Some(User(username))) else s
  }

  /** The session after `logout()`. */
  function AfterLogout(s: AuthState): (r: AuthState)
    ensures !r.isAuthenticated && r.user.None?
  {
    AuthState(false, None)
  }

  /** Signed in exactly when someone is recorded as the user. */
  predicate Consistent(s: AuthState) {
    s.isAuthenticated <==> s.user.Some?
  }

  /** A signed-in session always records the admin. */
  predicate SignedInAsAdmin(s: AuthState) {
    s.user.Some? ==> s.user.value.username == AdminUsername
  }

  datatype AuthOp = Login(username: string, password: string) | Logout

  function Step(s: AuthState, op: AuthOp): AuthState {
    match op
    case Login(u, p) => AfterLogin(s, u, p)
    case Logout => AfterLogout(s)
  }

  function Run(s: AuthState, ops: seq<AuthOp>): AuthState
    decreases |ops|
  {
    if ops == [] then s else Run(Step(s, ops[0]), ops[1..])
  }

  /** From a consistent session (the signed-out one, say), any sequence of
      logins and logouts keeps the flag and the user in step, and the only
      user ever recorded is the admin. */
  lemma {:induction false} RunKeepsConsistent(s: AuthState, ops: seq<AuthOp>)
    requires Consistent(s) && SignedInAsAdmin(s)
    ensures Consistent(Run(s, ops)) && SignedInAsAdmin(Run(s, ops))
    decreases |ops|
  {
    if ops != [] {
      RunKeepsConsistent(Step(s, ops[0]), ops[1..]);
    }
  }

  /** From a signed-out session, a run in which no login presents the admin
      credentials leaves the session signed out. */
  lemma {:induction false} FailedLoginsStaySignedOut(s: AuthState, ops: seq<AuthOp>)
    requires !s.isAuthenticated
    requires forall i :: 0 <= i < |ops| && ops[i].Login? ==> !CredentialsMatch(ops[i].username, ops[i].password)
    ensures !Run(s, ops).isAuthenticated
    decreases |ops|
  {
    if ops != [] {
      assert forall i :: 0 <= i < |ops[1..]| && ops[1..][i].Login? ==>
        !CredentialsMatch(ops[1..][i].username, ops[1..][i].password) by {
        forall i | 0 <= i < |ops[1..]| && ops[1..][i].Login?
          ensures !CredentialsMatch(ops[1..][i].username, ops[1..][i].password) {
          assert ops[1..][i] == ops[i + 1];
        }
      }
      FailedLoginsStaySignedOut(Step(s, ops[0]), ops[1..]);
    }
  }

  class AuthProvider {
    var isAuthenticated: bool
    var user: Option<User>

    /** Starts from what storage holds: the flag text and the decoded user,
        `None` when no user text is stored or it is empty. */
    constructor (storedFlag: Option<string>, storedUser: Option<User>)
      ensures isAuthenticated == InitialFlag(storedFlag)
      ensures user == storedUser
    {
      isAuthenticated := InitialFlag(storedFlag);
      user := storedUser;
    }

    function State(): AuthState
      reads this
    {
      AuthState(isAuthenticated, user)
    }

    method Login(username: string, password: string) returns (ok: bool)
      modifies this
      ensures ok <==> CredentialsMatch(username, password)
      ensures State() == AfterLogin(old(State()), username, password)
      ensures Consistent(old(State())) ==> Consistent(State())
    {
      if username == AdminUsername && password == AdminPassword {
        isAuthenticated := true;
        user := Some(User(username));
        return true;
      }
      return false;
    }

    method Logout()
      modifies this
      ensures State() == AfterLogout(old(State()))
      ensures Consistent(State())
    {
      isAuthenticated := false;
      user := None;
    }
  }
}
