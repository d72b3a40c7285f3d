/** server/controllers/authController.js: patient signup and login, and the two read-only
    listings. bcrypt is idealised as `Db.Hashed`; a JSON web token is modelled by the claims
    it carries. */
module Auth {
  import opened Wrappers
  import opened Seqs
  import opened Db

  /** One member of a Prisma `OR` list over users. A field whose value is undefined is
      dropped by Prisma, so its clause matches every user (`AnyUser`). */
  datatype Clause = AnyUser | PhoneIs(phone: string) | EmailIs(email: string) | UsernameIs(username: string)

  predicate Satisfies(u: User, c: Clause) {
    match c
    case AnyUser => true
    case PhoneIs(phone) => u.phoneNumber == phone
    case EmailIs(email) => u.email == Some(email)
    case UsernameIs(username) => u.username == Some(username)
  }

  /** `where: {OR: cs}`: an empty list matches nobody. */
  predicate MatchesSome(u: User, cs: seq<Clause>) {
    exists i :: 0 <= i < |cs| && Satisfies(u, cs[i])
  }

  /** `findFirst({where: {OR: cs}})`: the first user in table order that matches. */
  function FindUser(t: Store, cs: seq<Clause>): (r: Option<User>)
    ensures r.Some? ==> r.value in t.users && MatchesSome(r.value, cs)
    ensures r.None? <==> forall i | 0 <= i < |t.users| :: !MatchesSome(t.users[i], cs)
  {
    FindFirst(t.users, (u: User) => MatchesSome(u, cs))
  }

  /** The duplicate-identity query of both signups: the phone number always, the email
      only when one is given. */
  function IdentityClauses(phoneNumber: string, email: Option<string>): (cs: seq<Clause>)
    ensures forall u: User :: MatchesSome(u, cs) <==> (u.phoneNumber == phoneNumber || (Truthy(email) && u.email == email))
  {
    var cs := [PhoneIs(phoneNumber)] + (if Truthy(email) then [EmailIs(email.value)] else []);
    forall u: User ensures MatchesSome(u, cs) <==> (u.phoneNumber == phoneNumber || (Truthy(email) && u.email == email)) {
      if u.phoneNumber == phoneNumber {
        assert Satisfies(u, cs[0]);
      } else if Truthy(email) && u.email == email {
        assert Satisfies(u, cs[1]);
      }
    }
    cs
  }

  const PhoneInUse := "Phone number already in use"
  const EmailInUse := "Email already in use"
  const InvalidCredentials := "Invalid credentials"

  /** The conflict reported about the clashing user found first. */
  function ConflictMessage(existing: User, phoneNumber: string): (m: string)
    ensures m == PhoneInUse <==> existing.phoneNumber == phoneNumber
    ensures m == EmailInUse <==> existing.phoneNumber != phoneNumber
  {
    if existing.phoneNumber == phoneNumber then PhoneInUse else EmailInUse
  }

  /** A user record without its password field. */
  datatype PublicUser = PublicUser(
    id: Id, name: string, phoneNumber: string, email: Option<string>, username: Option<string>,
    role: Role, isActive: bool)

  function Public(u: User): (p: PublicUser)
    ensures p.id == u.id && p.role == u.role && p.phoneNumber == u.phoneNumber && p.email == u.email
  {
    PublicUser(u.id, u.name, u.phoneNumber, u.email, u.username, u.role, u.isActive)
  }

  /** The user id and role claims of a signed token; the issue time and the one-day expiry
      that `jwt.sign` adds are not modelled. */
  datatype Token = Token(userId: Id, role: Option<Role>)

  datatype AuthReply =
    | Authenticated(status: nat, token: Token, user: PublicUser)
    | Failed(status: nat, error: string)

  datatype SignupBody = SignupBody(name: string, phoneNumber: string, email: Option<string>, password: string)

  /** `email || undefined`: an empty email is stored as absent. */
  function StoredEmail(email: Option<string>): (r: Option<string>)
    ensures r.Some? <==> Truthy(email)
    ensures r.Some? ==> r == email
  {
    if Truthy(email) then email else None
  }

  /** `signup`: refuse a clashing phone number or email, otherwise create a patient. */
  function SignupStep(t: Store, body: SignupBody): (r: (Store, AuthReply))
    ensures IdsBelow(t) ==> IdsBelow(r.0)
    ensures r.1.Failed? <==> exists i :: 0 <= i < |t.users| && (t.users[i].phoneNumber == body.phoneNumber
                                          || (Truthy(body.email) && t.users[i].email == body.email))
    ensures r.1.Failed? ==> r.0 == t && r.1.status == 400
    ensures r.1 == Failed(400, PhoneInUse) ==> exists i :: 0 <= i < |t.users| && t.users[i].phoneNumber == body.phoneNumber
    ensures r.1.Failed? && (forall i | 0 <= i < |t.users| :: t.users[i].phoneNumber != body.phoneNumber) ==>
              r.1 == Failed(400, EmailInUse)
    ensures r.1.Authenticated? ==>
              var u := User(t.nextId, body.name, body.phoneNumber, StoredEmail(body.email), None,
                            Hashed(body.password), Patient, t.activeByDefault);
              && r.0 == t.(users := t.users + [u], nextId := t.nextId + 1)
              && r.1 == Authenticated(201, Token(u.id, None), Public(u))
  {
    var existing := FindUser(t, IdentityClauses(body.phoneNumber, body.email));
    if existing.Some? then
      (t, Failed(400, ConflictMessage(existing.value, body.phoneNumber)))
    else
      var (t1, u) := AddUser(t, body.name, body.phoneNumber, StoredEmail(body.email), Hashed(body.password), Patient);
      (t1, Authenticated(201, Token(u.id, None), Public(u)))
  }

  /** On a store whose ids all come from the counter, the token a signup returns names
      the new patient and no other user. */
  lemma SignupTokenNamesNewUserOnly(t: Store, body: SignupBody)
    requires IdsBelow(t) && SignupStep(t, body).1.Authenticated?
    ensures var (t1, reply) := SignupStep(t, body);
            forall i | 0 <= i < |t1.users| :: t1.users[i].id == reply.token.userId <==> i == |t.users|
  {
    var (t1, reply) := SignupStep(t, body);
    var (_, u) := AddUser(t, body.name, body.phoneNumber, StoredEmail(body.email), Hashed(body.password), Patient);
    assert FreshId(t, u.id);
  }

  /** A successful signup leaves no other user with the new phone number. */
  lemma SignupKeepsPhoneUnique(t: Store, body: SignupBody)
    requires SignupStep(t, body).1.Authenticated?
    ensures var t1 := SignupStep(t, body).0;
            forall i | 0 <= i < |t1.users| && t1.users[i].phoneNumber == body.phoneNumber :: i == |t.users|
  {
  }

  datatype LoginBody = LoginBody(phoneNumber: Option<string>, email: Option<string>, username: Option<string>, password: string)

  /** The login query: one clause for each identifier that is present and non-empty. */
  function LoginClauses(body: LoginBody): (cs: seq<Clause>)
    ensures forall i | 0 <= i < |cs| :: !cs[i].AnyUser?
    ensures forall u: User :: MatchesSome(u, cs) <==>
              (|| (Truthy(body.phoneNumber) && u.phoneNumber == body.phoneNumber.value)
               || (Truthy(body.email) && u.email == body.email)
               || (Truthy(body.username) && u.username == body.username))
  {
    var cs := (if Truthy(body.phoneNumber) then [PhoneIs(body.phoneNumber.value)] else [])
              + (if Truthy(body.email) then [EmailIs(body.email.value)] else [])
              + (if Truthy(body.username) then [UsernameIs(body.username.value)] else []);
    forall u: User ensures MatchesSome(u, cs) <==>
              (|| (Truthy(body.phoneNumber) && u.phoneNumber == body.phoneNumber.value)
               || (Truthy(body.email) && u.email == body.email)
               || (Truthy(body.username) && u.username == body.username))
    {
      if Truthy(body.phoneNumber) && u.phoneNumber == body.phoneNumber.value {
        assert Satisfies(u, cs[0]);
      } else if Truthy(body.email) && u.email == body.email {
        var k := if Truthy(body.phoneNumber) then 1 else 0;
        assert Satisfies(u, cs[k]);
      } else if Truthy(body.username) && u.username == body.username {
        assert Satisfies(u, cs[|cs| - 1]);
      }
    }
    cs
  }

  /** `login`: the first user matching any given identifier, and a password that compares
      equal. An unknown user and a wrong password get the same 401. */
  function Login(t: Store, body: LoginBody): (r: AuthReply)
    ensures r.Failed? ==> r == Failed(401, InvalidCredentials)
    ensures r.Authenticated? <==> (var u := FindUser(t, LoginClauses(body));
                                   u.Some? && u.value.password == Hashed(body.password))
    ensures r.Authenticated? ==>
              && r.status == 200
              && r.user.id == r.token.userId && r.token.role.None?
              && exists i :: 0 <= i < |t.users| && r.user == Public(t.users[i])
                             && t.users[i].password == Hashed(body.password)
                             && MatchesSome(t.users[i], LoginClauses(body))
  {
    var found := FindUser(t, LoginClauses(body));
    if found.None? || found.value.password != Hashed(body.password) then Failed(401, InvalidCredentials)
    else Authenticated(200, Token(found.value.id, None), Public(found.value))
  }

  /** With no identifier at all the query is `OR: []`, which matches nobody. */
  lemma LoginWithoutIdentifier(t: Store, password: string)
    ensures Login(t, LoginBody(None, None, None, password)) == Failed(401, InvalidCredentials)
    ensures Login(t, LoginBody(Some(""), Some(""), Some(""), password)) == Failed(401, InvalidCredentials)
  {
  }

  /** Signing up and then logging in with the same phone number and password authenticates
      as the new patient. */
  lemma SignupThenLogin(t: Store, body: SignupBody)
    requires body.phoneNumber != ""
    requires SignupStep(t, body).1.Authenticated?
    ensures var (t1, reply) := SignupStep(t, body);
            Login(t1, LoginBody(Some(body.phoneNumber), None, None, body.password)) == Authenticated(200, reply.token, reply.user)
  {
    var (t1, reply) := SignupStep(t, body);
    var cs := LoginClauses(LoginBody(Some(body.phoneNumber), None, None, body.password));
    var p := (u: User) => MatchesSome(u, cs);
    assert p(t1.users[|t.users|]);
    FindFirstIsFirst(t1.users, p);
    SignupKeepsPhoneUnique(t, body);
  }

  /** `getAllPatients`: every user whose role is PATIENT, whole records included, each row
      once and in table order. */
  function GetAllPatients(t: Store): (r: seq<User>)
    ensures forall i | 0 <= i < |r| :: r[i].role == Patient && r[i] in t.users
    ensures forall i | 0 <= i < |t.users| && t.users[i].role == Patient :: t.users[i] in r
    ensures multiset(r) <= multiset(t.users)
    ensures forall u: User | u.role == Patient :: multiset(r)[u] == multiset(t.users)[u]
    ensures Subsequence(r, t.users)
  {
    var p := (u: User) => u.role == Patient;
    FilterMultiset(t.users, p);
    Filter(t.users, p)
  }

  /** `getPatientMeasurements`: every measurement whose `patientId` is the path parameter,
      each row once and in table order. */
  function GetPatientMeasurements(t: Store, patientId: Id): (r: seq<HealthMeasurement>)
    ensures forall i | 0 <= i < |r| :: r[i].patientId == patientId && r[i] in t.measurements
    ensures forall i | 0 <= i < |t.measurements| && t.measurements[i].patientId == patientId :: t.measurements[i] in r
    ensures multiset(r) <= multiset(t.measurements)
    ensures forall m: HealthMeasurement | m.patientId == patientId :: multiset(r)[m] == multiset(t.measurements)[m]
    ensures Subsequence(r, t.measurements)
  {
    var p := (m: HealthMeasurement) => m.patientId == patientId;
    FilterMultiset(t.measurements, p);
    Filter(t.measurements, p)
  }

  /** The `signup` handler over the live store. */
  method Signup(db: Database, body: SignupBody) returns (reply: AuthReply)
    modifies db
    ensures (db.State(), reply) == SignupStep(old(db.State()), body)
  {
    var existing := FindUser(db.State(), IdentityClauses(body.phoneNumber, body.email));
    if existing.Some? {
      return Failed(400, ConflictMessage(existing.value, body.phoneNumber));
    }
    var u := db.CreateUser(body.name, body.phoneNumber, StoredEmail(body.email), Hashed(body.password), Patient);
    reply := Authenticated(201, Token(u.id, None), Public(u));
  }
}
