/** Account handlers: admin self-signup gated by a server-side code, login
    (with the built-in demo administrator), the current-principal route and
    the admin listing. Password hashing is outside the model: signup is given
    the hash it stores, login is given `matches`, the hash comparison. */
module Accounts {
  import opened Common
  import opened Text
  import opened Seqs
  import opened Store
  import opened Auth

  datatype SignupBody = SignupBody(
    fullName: Option<string>, email: Option<string>, username: Option<string>,
    password: Option<string>, code: Option<string>)

  datatype LoginBody = LoginBody(username: Option<string>, password: Option<string>)

  /** A handler's effect on the store together with the status it answers with. */
  datatype Reply = Reply(db: Db, status: Status)

  /** The user shown by `/api/auth/me`. */
  datatype Profile = Profile(id: string, username: string, fullName: string, email: Option<string>, role: string)

  /** One row of the admin listing. */
  datatype AdminEntry = AdminEntry(id: string, fullName: string, username: string, email: string, createdAt: int)

  /** The built-in administrator's credentials and identity. */
  const DemoUsername: string := "admin"
  const DemoPassword: string := "admin123"
  const DemoPrincipal: Principal := Principal("demo", "admin", "admin")

  /** Usernames, and e-mails, are pairwise distinct ignoring case. */
  ghost predicate UniqueAccounts(users: seq<User>) {
    forall i, j :: 0 <= i < j < |users| ==>
      && !EqualsIgnoreCase(users[i].username, users[j].username)
      && !EqualsIgnoreCase(users[i].email, users[j].email)
  }

  /** The signup lookup: a stored user whose username or e-mail equals the
      requested one ignoring case. */
  function IndexOfClash(users: seq<User>, username: string, email: string): (r: Option<nat>)
    ensures r.None? <==> forall i :: 0 <= i < |users| ==>
              !EqualsIgnoreCase(users[i].username, username) && !EqualsIgnoreCase(users[i].email, email)
  {
    FirstWhere(users, (u: User) => EqualsIgnoreCase(u.username, username) || EqualsIgnoreCase(u.email, email))
  }

  /** The login lookup: the first stored user whose username equals the given one ignoring case. */
  function IndexOfUsername(users: seq<User>, username: string): (r: Option<nat>)
    ensures r.None? <==> forall i :: 0 <= i < |users| ==> !EqualsIgnoreCase(users[i].username, username)
    ensures r.Some? ==> r.value < |users| && EqualsIgnoreCase(users[r.value].username, username)
    ensures r.Some? ==> forall i :: 0 <= i < r.value ==> !EqualsIgnoreCase(users[i].username, username)
  {
    FirstWhere(users, (u: User) => EqualsIgnoreCase(u.username, username))
  }

  predicate SignupComplete(body: SignupBody) {
    Truthy(body.fullName) && Truthy(body.email) && Truthy(body.username) && Truthy(body.password)
  }

  /** POST /api/auth/signup. `signupCode` is the configured code, "" when
      none is configured. The checks run in this order: missing field (400),
      signup disabled (503), wrong code (401), username or e-mail taken (409);
      then an admin is stored with the e-mail lower-cased (201). */
  function Signup(db: Db, body: SignupBody, signupCode: string, newId: string, passwordHash: string, now: int): (r: Reply)
    ensures r.status == BadRequest <==> !SignupComplete(body)
    ensures r.status == ServiceUnavailable <==> SignupComplete(body) && signupCode == ""
    ensures r.status == Unauthorized <==>
              SignupComplete(body) && signupCode != "" && body.code != Some(signupCode)
    ensures r.status == Conflict <==>
              && SignupComplete(body) && signupCode != "" && body.code == Some(signupCode)
              && exists i :: 0 <= i < |db.users| &&
                   (EqualsIgnoreCase(db.users[i].username, body.username.value) || EqualsIgnoreCase(db.users[i].email, body.email.value))
    ensures r.status != Created ==> r.db == db
    ensures r.status == Created ==>
              && r.db == db.(users := r.db.users)
              && |r.db.users| == |db.users| + 1
              && r.db.users[..|db.users|] == db.users
              && r.db.users[|db.users|] ==
                   User(newId, body.fullName.value, Lower(body.email.value), body.username.value, passwordHash, "admin", now)
    ensures r.status in {BadRequest, ServiceUnavailable, Unauthorized, Conflict, Created}
  {
    if !SignupComplete(body) then Reply(db, BadRequest)
    else if signupCode == "" then Reply(db, ServiceUnavailable)
    else if body.code != Some(signupCode) then Reply(db, Unauthorized)
    else if IndexOfClash(db.users, body.username.value, body.email.value).Some? then Reply(db, Conflict)
    else
      var user := User(newId, body.fullName.value, Lower(body.email.value), body.username.value, passwordHash, "admin", now);
      Reply(db.(users := db.users + [user]), Created)
  }

  /** Signup keeps usernames and e-mails unique ignoring case. */
  lemma SignupKeepsAccountsUnique(db: Db, body: SignupBody, signupCode: string, newId: string, passwordHash: string, now: int)
    requires UniqueAccounts(db.users)
    ensures UniqueAccounts(Signup(db, body, signupCode, newId, passwordHash, now).db.users)
  {
  }

  /** The role a token is signed with: the stored role, "admin" when it has none. */
  function SignedRole(u: User): (role: string)
    ensures role != ""
    ensures u.role != "" ==> role == u.role
    ensures role == "admin" <==> u.role == "" || u.role == "admin"
  {
    if u.role == "" then "admin" else u.role
  }

  predicate IsDemoLogin(body: LoginBody) {
    body.username == Some(DemoUsername) && body.password == Some(DemoPassword)
  }

  /** POST /api/auth/login, as the principal the issued token carries. Missing
      credentials give 400; the demo credentials succeed without looking at the
      store; otherwise an unknown username and a wrong password give the same 401. */
  function Login(db: Db, body: LoginBody, matches: (string, string) -> bool): (r: Result<Principal>)
    ensures r == Failure(BadRequest) <==> !Truthy(body.username) || !Truthy(body.password)
    ensures IsDemoLogin(body) ==> r == Success(DemoPrincipal)
    ensures r.Failure? ==> r.status == BadRequest || r.status == Unauthorized
    ensures Truthy(body.username) && Truthy(body.password) && !IsDemoLogin(body) ==>
              (r == Failure(Unauthorized) <==>
                 || IndexOfUsername(db.users, body.username.value).None?
                 || !matches(body.password.value, db.users[IndexOfUsername(db.users, body.username.value).value].passwordHash))
  {
    if !Truthy(body.username) || !Truthy(body.password) then Failure(BadRequest)
    else if IsDemoLogin(body) then Success(DemoPrincipal)
    else
      match IndexOfUsername(db.users, body.username.value)
      case None => Failure(Unauthorized)
      case Some(k) =>
        var u := db.users[k];
        if !matches(body.password.value, u.passwordHash) then Failure(Unauthorized)
        else Success(Principal(u.id, u.username, SignedRole(u)))
  }

  /** The demo login does not depend on the store or the hash comparison. */
  lemma DemoLoginIndependentOfStore(db1: Db, db2: Db, m1: (string, string) -> bool, m2: (string, string) -> bool)
    ensures Login(db1, LoginBody(Some(DemoUsername), Some(DemoPassword)), m1)
         == Login(db2, LoginBody(Some(DemoUsername), Some(DemoPassword)), m2)
    ensures Login(db1, LoginBody(Some(DemoUsername), Some(DemoPassword)), m1).value.role == "admin"
  {
  }

  /** A successful login that is not the demo one is for a stored user whose
      hash matches the password. */
  lemma LoginSuccessIsStoredUser(db: Db, body: LoginBody, matches: (string, string) -> bool)
    requires Login(db, body, matches).Success? && !IsDemoLogin(body)
    ensures exists u :: u in db.users
              && EqualsIgnoreCase(u.username, body.username.value)
              && matches(body.password.value, u.passwordHash)
              && Login(db, body, matches).value == Principal(u.id, u.username, SignedRole(u))
  {
  }

  /** After a successful signup the same credentials log in as the new admin,
      provided the stored hash matches the password. */
  lemma SignupThenLogin(
    db: Db, body: SignupBody, signupCode: string, newId: string, passwordHash: string, now: int,
    matches: (string, string) -> bool)
    requires Signup(db, body, signupCode, newId, passwordHash, now).status == Created
    requires matches(body.password.value, passwordHash)
    requires !IsDemoLogin(LoginBody(body.username, body.password))
    ensures Login(Signup(db, body, signupCode, newId, passwordHash, now).db, LoginBody(body.username, body.password), matches)
         == Success(Principal(newId, body.username.value, "admin"))
  {
  }

  predicate IsHexDigit(c: char) {
    IsDigit(c) || 'a' <= c <= 'f' || 'A' <= c <= 'F'
  }

  /** The text `findById` can cast to a MongoDB ObjectId: 24 hexadecimal digits. */
  predicate ObjectIdText(s: string) {
    |s| == 24 && forall i :: 0 <= i < |s| ==> IsHexDigit(s[i])
  }

  /** The profile `/api/auth/me` answers for a stored user. */
  function ProfileOf(u: User): Profile {
    Profile(u.id, u.username, u.fullName, Some(u.email), SignedRole(u))
  }

  /** GET /api/auth/me: 401 without a valid token; the demo principal is
      answered from constants; an id that cannot be cast to an ObjectId makes
      `findById` throw, and the `catch` answers 500; otherwise the stored user
      whose id names the same ObjectId (hexadecimal digits compare without
      case), or 404. */
  function Me(db: Db, header: Option<string>, verify: string -> Option<Principal>): (r: Result<Profile>)
    ensures Authenticate(header, verify).Failure? ==> r == Failure(Unauthorized)
    ensures Authenticate(header, verify).Success? && Authenticate(header, verify).value.id == "demo" ==>
              r == Success(Profile("demo", "admin", "Default Admin", None, "admin"))
    ensures r == Failure(InternalServerError) <==>
              && Authenticate(header, verify).Success?
              && Authenticate(header, verify).value.id != "demo"
              && !ObjectIdText(Authenticate(header, verify).value.id)
    ensures r == Failure(NotFound) <==>
              && Authenticate(header, verify).Success?
              && Authenticate(header, verify).value.id != "demo"
              && ObjectIdText(Authenticate(header, verify).value.id)
              && forall i :: 0 <= i < |db.users| ==> !EqualsIgnoreCase(db.users[i].id, Authenticate(header, verify).value.id)
    ensures r.Success? <==>
              && Authenticate(header, verify).Success?
              && (|| Authenticate(header, verify).value.id == "demo"
                  || (&& ObjectIdText(Authenticate(header, verify).value.id)
                      && exists i :: 0 <= i < |db.users| && EqualsIgnoreCase(db.users[i].id, Authenticate(header, verify).value.id)))
    ensures r.Success? && Authenticate(header, verify).value.id != "demo" ==>
              exists u :: u in db.users && EqualsIgnoreCase(u.id, Authenticate(header, verify).value.id) && r.value == ProfileOf(u)
  {
    match Authenticate(header, verify)
    case Failure(s) => Failure(s)
    case Success(p) =>
      if p.id == "demo" then Success(Profile("demo", "admin", "Default Admin", None, "admin"))
      else if !ObjectIdText(p.id) then Failure(InternalServerError)
      else
        match FirstWhere(db.users, (u: User) => EqualsIgnoreCase(u.id, p.id))
        case None => Failure(NotFound)
        case Some(k) => Success(ProfileOf(db.users[k]))
  }

  /** Stored ids are ObjectId texts and no two of them name the same ObjectId. */
  predicate StoredIdsWellFormed(users: seq<User>) {
    && (forall i :: 0 <= i < |users| ==> ObjectIdText(users[i].id))
    && (forall i, j :: 0 <= i < j < |users| ==> !EqualsIgnoreCase(users[i].id, users[j].id))
  }

  /** The token a non-demo login issues brings `/api/auth/me` back to the
      profile of the user who signed in. */
  lemma LoginThenMe(db: Db, body: LoginBody, matches: (string, string) -> bool,
                    token: string, verify: string -> Option<Principal>)
    requires StoredIdsWellFormed(db.users)
    requires Login(db, body, matches).Success? && !IsDemoLogin(body)
    requires token != "" && verify(token) == Some(Login(db, body, matches).value)
    ensures Me(db, Some(BearerPrefix + token), verify)
         == Success(ProfileOf(db.users[IndexOfUsername(db.users, body.username.value).value]))
  {
    var k := IndexOfUsername(db.users, body.username.value).value;
    var p := Login(db, body, matches).value;
    assert p.id == db.users[k].id;
    BearerRoundTrip(token);
    assert Authenticate(Some(BearerPrefix + token), verify) == Success(p);
    assert ObjectIdText(db.users[k].id);
    var j := FirstWhere(db.users, (u: User) => EqualsIgnoreCase(u.id, p.id));
    assert EqualsIgnoreCase(db.users[k].id, p.id);
    assert j.Some? && j.value <= k;
    if j.value < k {
      assert false;
    }
  }

  /** A sample ObjectId in lower case, and the same ObjectId typed in capitals. */
  const SampleStoredId: string := "507f1f77bcf86cd799439011"
  const SampleTypedId: string := "507F1F77BCF86CD799439011"

  lemma SampleIdsAgree()
    ensures ObjectIdText(SampleTypedId)
    ensures EqualsIgnoreCase(SampleStoredId, SampleTypedId)
  {
    assert forall i :: 0 <= i < 24 ==> LowerChar(SampleStoredId[i]) == LowerChar(SampleTypedId[i]);
  }

  /** An ObjectId typed in capitals finds the user stored in lower case. */
  lemma UpperCaseIdFindsUser(db: Db, token: string, verify: string -> Option<Principal>)
    requires token != ""
    requires verify(token) == Some(Principal(SampleTypedId, "admin", "admin"))
    requires |db.users| == 1 && db.users[0].id == SampleStoredId
    ensures Me(db, Some(BearerPrefix + token), verify) == Success(ProfileOf(db.users[0]))
  {
    BearerRoundTrip(token);
    SampleIdsAgree();
  }

  /** A token signed with the shared secret may carry any id; a numeric one
      reaches `findById` and is answered 500 whatever the store holds. */
  lemma NumericIdIsServerError(db: Db, token: string, verify: string -> Option<Principal>)
    requires token != ""
    requires verify(token) == Some(Principal("42", "admin", "admin"))
    ensures Me(db, Some(BearerPrefix + token), verify) == Failure(InternalServerError)
  {
    BearerRoundTrip(token);
  }

  function EntryOf(u: User): AdminEntry {
    AdminEntry(u.id, u.fullName, u.username, u.email, u.createdAt)
  }

  /** The synthesized row for the demo administrator. */
  function DemoEntry(now: int): AdminEntry {
    AdminEntry("demo", "Default Admin", "admin", "demo@example.com", now)
  }

  predicate IsAdmin(u: User) {
    u.role == "admin"
  }

  /** The rows of the stored administrators: one per admin user, in store order. */
  function AdminRows(users: seq<User>): (rows: seq<AdminEntry>)
    ensures |rows| == |Filter(users, IsAdmin)|
    ensures forall i :: 0 <= i < |rows| ==> rows[i] == EntryOf(Filter(users, IsAdmin)[i])
    ensures forall e | e in rows :: exists u :: u in users && IsAdmin(u) && e == EntryOf(u)
    ensures forall u | u in users && IsAdmin(u) :: EntryOf(u) in rows
  {
    var admins := Filter(users, IsAdmin);
    var rows := seq(|admins|, i requires 0 <= i < |admins| => EntryOf(admins[i]));
    forall e | e in rows
      ensures exists u :: u in users && IsAdmin(u) && e == EntryOf(u)
    {
      var i :| 0 <= i < |rows| && rows[i] == e;
      assert admins[i] in admins;
    }
    forall u | u in users && IsAdmin(u)
      ensures EntryOf(u) in rows
    {
      var i :| 0 <= i < |admins| && admins[i] == u;
      assert rows[i] == EntryOf(u);
    }
    rows
  }

  /** GET /api/admins: behind the admin gate, one synthesized demo row first,
      then every stored user whose role is "admin", in store order. Nothing is
      written: the demo row exists only in the answer. */
  function ListAdmins(db: Db, header: Option<string>, verify: string -> Option<Principal>, now: int): (r: Result<seq<AdminEntry>>)
    ensures r.Success? <==> AdminGate(header, verify).Success?
    ensures r.Failure? ==> r.status == AdminGate(header, verify).status
    ensures r.Success? ==>
              && |r.value| == 1 + |Filter(db.users, IsAdmin)|
              && r.value[0] == DemoEntry(now)
              && (forall i :: 1 <= i < |r.value| ==> r.value[i] == EntryOf(Filter(db.users, IsAdmin)[i - 1]))
              && (forall e | e in r.value[1..] :: exists u :: u in db.users && IsAdmin(u) && e == EntryOf(u))
              && (forall u | u in db.users && IsAdmin(u) :: EntryOf(u) in r.value[1..])
  {
    match AdminGate(header, verify)
    case Failure(s) => Failure(s)
    case Success(_) =>
      var rows := AdminRows(db.users);
      assert ([DemoEntry(now)] + rows)[1..] == rows;
      Success([DemoEntry(now)] + rows)
  }
}
