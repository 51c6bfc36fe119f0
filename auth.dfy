/**
 * The local-mode credential store of the authentication context: an in-memory map from
 * lowercased email to password and user record, the current user, and the saved session.
 */
module Auth {
  import opened Wrappers
  import Text

  datatype Plan = Free | Premium | Enterprise

  datatype User = User(id: string, name: string, email: string, plan: Plan, jurisdiction: string)

  datatype Account = Account(password: string, user: User)

  /** The saved `justicegpt_session` record. */
  datatype Session = Session(timestamp: int, email: string)

  /** A saved session is honoured for seven days. */
  const SessionWindowMs := 7 * 24 * 60 * 60 * 1000

  const LocalIdPrefix := "local_"
  const LoginError := "Invalid email or password. Try demo@justicegpt.ai with password: demo123"
  const DuplicateError := "User already exists with this email. Please sign in instead."

  /** The two accounts the store starts with. */
  function DemoUsers(): (users: map<string, Account>)
    ensures users.Keys == {"demo@justicegpt.ai", "test@example.com"}
    ensures WellKeyed(users)
  {
    var demo := User("demo_user_1", "Demo User", "demo@justicegpt.ai", Premium, "United States");
    var test := User("demo_user_2", "Test User", "test@example.com", Free, "Canada");
    assert Text.Lower(demo.email) == demo.email;
    assert Text.Lower(test.email) == test.email;
    map["demo@justicegpt.ai" := Account("demo123", demo), "test@example.com" := Account("test123", test)]
  }

  /** Every account sits under its own email, and that email is lowercase. */
  predicate WellKeyed(users: map<string, Account>) {
    forall k | k in users :: Text.Lower(k) == k && users[k].user.email == k
  }

  /** The credential check of a local login: lowercased email, password compared exactly. */
  predicate Accepts(users: map<string, Account>, email: string, password: string) {
    Text.Lower(email) in users && users[Text.Lower(email)].password == password
  }

  /** The account a successful registration adds. */
  function NewAccount(name: string, email: string, password: string, jurisdiction: string, now: nat): Account {
    Account(password, User(LocalIdPrefix + Text.NatToString(now), name, Text.Lower(email), Premium, jurisdiction))
  }

  /** A saved session is still valid when less than a week has passed since it was written. */
  predicate SessionValid(session: Session, now: int) {
    now - session.timestamp < SessionWindowMs
  }

  /**
   * The demo account accepts any casing of its email: with any email that lowercases to
   * `demo@justicegpt.ai`, exactly the password `demo123` is accepted.
   */
  lemma DemoLoginAnyCase(email: string, password: string)
    requires Text.Lower(email) == "demo@justicegpt.ai"
    ensures Accepts(DemoUsers(), email, password) <==> password == "demo123"
  {
  }

  /** Likewise for the test account: any casing of `test@example.com`, exactly `test123`. */
  lemma TestLoginAnyCase(email: string, password: string)
    requires Text.Lower(email) == "test@example.com"
    ensures Accepts(DemoUsers(), email, password) <==> password == "test123"
  {
  }

  /** The password is compared exactly: a change of case or another account's password fails. */
  lemma DemoWrongPassword()
    ensures !Accepts(DemoUsers(), "demo@justicegpt.ai", "Demo123")
    ensures !Accepts(DemoUsers(), "demo@justicegpt.ai", "test123")
  {
    Text.LowerOfLower("demo@justicegpt.ai");
  }

  /** Registration keeps the store well keyed. */
  lemma RegisterKeepsWellKeyed(users: map<string, Account>, name: string, email: string,
                               password: string, jurisdiction: string, now: nat)
    requires WellKeyed(users)
    ensures WellKeyed(users[Text.Lower(email) := NewAccount(name, email, password, jurisdiction, now)])
  {
    Text.LowerIdempotent(email);
  }

  /**
   * The round trip: after registering `email` with `password`, a login with any casing of
   * that email and exactly that password is accepted, and any other password is refused.
   */
  lemma RegisterThenLogin(users: map<string, Account>, name: string, email: string, password: string,
                          jurisdiction: string, now: nat, loginEmail: string, loginPassword: string)
    requires Text.Lower(loginEmail) == Text.Lower(email)
    ensures
      var after := users[Text.Lower(email) := NewAccount(name, email, password, jurisdiction, now)];
      Accepts(after, loginEmail, loginPassword) <==> loginPassword == password
  {
  }

  /** Registering one email never changes what logging in with another accepts. */
  lemma RegisterLeavesOthers(users: map<string, Account>, name: string, email: string, password: string,
                             jurisdiction: string, now: nat, other: string, otherPassword: string)
    requires Text.Lower(other) != Text.Lower(email)
    ensures
      var after := users[Text.Lower(email) := NewAccount(name, email, password, jurisdiction, now)];
      Accepts(after, other, otherPassword) <==> Accepts(users, other, otherPassword)
  {
  }

  /** The authentication context in local mode, with the browser's two stored keys. */
  class AuthProvider {
    var users: map<string, Account>
    var user: Option<User>
    var isLoading: bool
    var storedUser: Option<User>
    var storedSession: Option<Session>

    /** A fresh page: the demo store, nobody logged in, and whatever the browser kept. */
    constructor(savedUser: Option<User>, savedSession: Option<Session>)
      ensures users == DemoUsers() && user == None && !isLoading
      ensures storedUser == savedUser && storedSession == savedSession
    {
      users := DemoUsers();
      user := None;
      isLoading := false;
      storedUser := savedUser;
      storedSession := savedSession;
    }

    /**
     * The session check on start-up: with both keys saved, the user is restored when the
     * session is under a week old, and both keys are cleared otherwise. `parses` says whether
     * `JSON.parse` accepts both stored strings; when it throws, both keys are cleared as well.
     */
    method RestoreSession(now: int, parses: bool)
      modifies this
      ensures users == old(users) && isLoading == old(isLoading)
      ensures storedUser.Some? && storedSession.Some? ==>
        old(storedUser).Some? && old(storedSession).Some? && parses && SessionValid(old(storedSession).value, now)
        && user == old(storedUser) && storedUser == old(storedUser) && storedSession == old(storedSession)
      ensures old(storedUser).Some? && old(storedSession).Some? && parses && SessionValid(old(storedSession).value, now) ==>
        user == old(storedUser) && storedUser == old(storedUser) && storedSession == old(storedSession)
      ensures old(storedUser).Some? && old(storedSession).Some? && !parses ==>
        user == old(user) && storedUser.None? && storedSession.None?
      ensures old(storedUser).Some? && old(storedSession).Some? && !SessionValid(old(storedSession).value, now) ==>
        user == old(user) && storedUser.None? && storedSession.None?
      ensures (old(storedUser).None? || old(storedSession).None?) ==>
        user == old(user) && storedUser == old(storedUser) && storedSession == old(storedSession)
    {
      if storedUser.Some? && storedSession.Some? {
        if !parses {
          storedUser := None;
          storedSession := None;
        } else if now - storedSession.value.timestamp < SessionWindowMs {
          user := storedUser;
        } else {
          storedUser := None;
          storedSession := None;
        }
      }
    }

    /** Local `login`: on success the stored account's user becomes current and a session is saved. */
    method Login(email: string, password: string, now: nat) returns (r: Outcome<string>)
      modifies this
      ensures users == old(users) && !isLoading
      ensures r.Pass? <==> Accepts(old(users), email, password)
      ensures r.Pass? ==>
        && user == Some(users[Text.Lower(email)].user)
        && storedUser == user
        && storedSession == Some(Session(now, Text.Lower(email)))
      ensures r.Fail? ==>
        r.error == LoginError
        && user == old(user) && storedUser == old(storedUser) && storedSession == old(storedSession)
    {
      isLoading := true;
      var key := Text.Lower(email);
      if key in users && users[key].password == password {
        user := Some(users[key].user);
        storedUser := user;
        storedSession := Some(Session(now, key));
        r := Pass;
      } else {
        r := Fail(LoginError);
      }
      isLoading := false;
    }

    /** Local `logout`: nobody is current and both stored keys are removed. */
    method Logout()
      modifies this
      ensures users == old(users) && isLoading == old(isLoading)
      ensures user.None? && storedUser.None? && storedSession.None?
    {
      user := None;
      storedUser := None;
      storedSession := None;
    }

    /**
     * Local `register`: a taken email is refused and the store is unchanged; otherwise one
     * premium account is added under the lowercased email and becomes current.
     */
    method Register(name: string, email: string, password: string, jurisdiction: string,
                    idTime: nat, sessionTime: nat) returns (r: Outcome<string>)
      modifies this
      ensures !isLoading
      ensures r.Fail? <==> Text.Lower(email) in old(users)
      ensures r.Fail? ==>
        r.error == DuplicateError && users == old(users)
        && user == old(user) && storedUser == old(storedUser) && storedSession == old(storedSession)
      ensures r.Pass? ==>
        var account := NewAccount(name, email, password, jurisdiction, idTime);
        && users == old(users)[Text.Lower(email) := account]
        && user == Some(account.user) && storedUser == user
        && storedSession == Some(Session(sessionTime, Text.Lower(email)))
    {
      isLoading := true;
      var key := Text.Lower(email);
      if key in users {
        r := Fail(DuplicateError);
      } else {
        var account := NewAccount(name, email, password, jurisdiction, idTime);
        users := users[key := account];
        user := Some(account.user);
        storedUser := user;
        storedSession := Some(Session(sessionTime, key));
        r := Pass;
      }
      isLoading := false;
    }
  }
}
