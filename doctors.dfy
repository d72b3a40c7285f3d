/** server/controllers/doctorController.js: doctor registration, which creates a user with
    role DOCTOR and its profile in one transaction. */
module Doctors {
  import opened Wrappers
  import opened Seqs
  import opened Db
  import opened Auth
  import opened JsString

  datatype DoctorSignupBody = DoctorSignupBody(
    name: string, phoneNumber: string, email: Option<string>, password: string,
    licenseNumber: string, specialty: Option<string>)

  datatype DoctorReply =
    | Registered(status: nat, message: string, token: Token, user: PublicUser, profile: DoctorProfile)
    | Refused(status: nat, error: string)

  const LicenseTaken := "License number already registered"
  const RegistrationDone := "Doctor registration successful"

  /** Some user already has the phone number, or the email when one is given. */
  predicate IdentityTaken(t: Store, phoneNumber: string, email: Option<string>) {
    exists i :: 0 <= i < |t.users| && (t.users[i].phoneNumber == phoneNumber || (Truthy(email) && t.users[i].email == email))
  }

  /** `findUnique({where: {licenseNumber}})` finds a profile. */
  predicate LicenseRegistered(t: Store, licenseNumber: string) {
    exists i :: 0 <= i < |t.profiles| && t.profiles[i].licenseNumber == licenseNumber
  }

  /** `doctorSignup`: the identity check first, then the license check, then the user and
      its profile together. */
  function DoctorSignupStep(t: Store, body: DoctorSignupBody): (r: (Store, DoctorReply))
    ensures IdsBelow(t) ==> IdsBelow(r.0)
    ensures r.1.Refused? ==> r.0 == t && r.1.status == 400
    ensures IdentityTaken(t, body.phoneNumber, body.email) ==> r.1.Refused? && r.1.error in {PhoneInUse, EmailInUse}
    ensures !IdentityTaken(t, body.phoneNumber, body.email) && LicenseRegistered(t, body.licenseNumber) ==>
              r.1 == Refused(400, LicenseTaken)
    ensures r.1.Registered? <==> !IdentityTaken(t, body.phoneNumber, body.email) && !LicenseRegistered(t, body.licenseNumber)
    ensures r.1.Registered? ==>
              var u := User(t.nextId, body.name, body.phoneNumber, StoredEmail(body.email), None,
                            Hashed(body.password), Doctor, t.activeByDefault);
              var p := DoctorProfile(t.nextId + 1, u.id, body.licenseNumber, body.specialty, None, None);
              && r.0 == t.(users := t.users + [u], profiles := t.profiles + [p], nextId := t.nextId + 2)
              && r.1 == Registered(201, RegistrationDone, Token(u.id, Some(Doctor)), Public(u), p)
  {
    var existing := FindUser(t, IdentityClauses(body.phoneNumber, body.email));
    if existing.Some? then
      (t, Refused(400, ConflictMessage(existing.value, body.phoneNumber)))
    else if LicenseRegistered(t, body.licenseNumber) then
      (t, Refused(400, LicenseTaken))
    else
      var (t1, u) := AddUser(t, body.name, body.phoneNumber, StoredEmail(body.email), Hashed(body.password), Doctor);
      var (t2, p) := AddProfile(t1, u.id, body.licenseNumber, body.specialty);
      (t2, Registered(201, RegistrationDone, Token(u.id, Some(Doctor)), Public(u), p))
  }

  /** Every doctor created this way has a profile: if each DOCTOR user had a profile before,
      each still has one after. */
  lemma {:induction false} DoctorSignupKeepsProfiles(t: Store, body: DoctorSignupBody)
    requires forall i | 0 <= i < |t.users| && t.users[i].role == Doctor ::
               exists j :: 0 <= j < |t.profiles| && t.profiles[j].userId == t.users[i].id
    ensures var t1 := DoctorSignupStep(t, body).0;
            forall i | 0 <= i < |t1.users| && t1.users[i].role == Doctor ::
              exists j :: 0 <= j < |t1.profiles| && t1.profiles[j].userId == t1.users[i].id
  {
    var (t1, reply) := DoctorSignupStep(t, body);
    if reply.Registered? {
      forall i | 0 <= i < |t1.users| && t1.users[i].role == Doctor
        ensures exists j :: 0 <= j < |t1.profiles| && t1.profiles[j].userId == t1.users[i].id
      {
        if i == |t.users| {
          assert t1.profiles[|t.profiles|].userId == t1.users[i].id;
        } else {
          var j :| 0 <= j < |t.profiles| && t.profiles[j].userId == t.users[i].id;
          assert t1.profiles[j] == t.profiles[j];
        }
      }
    }
  }

  /** Registering and then logging in with the same phone number and password signs in
      the new doctor. */
  lemma DoctorSignupThenLogin(t: Store, body: DoctorSignupBody)
    requires body.phoneNumber != ""
    requires DoctorSignupStep(t, body).1.Registered?
    ensures var (t1, reply) := DoctorSignupStep(t, body);
            var login := Login(t1, LoginBody(Some(body.phoneNumber), None, None, body.password));
            login.Authenticated? && login.user == reply.user && login.user.role == Doctor
  {
    var (t1, reply) := DoctorSignupStep(t, body);
    var cs := LoginClauses(LoginBody(Some(body.phoneNumber), None, None, body.password));
    var p := (u: User) => MatchesSome(u, cs);
    assert p(t1.users[|t.users|]);
    FindFirstIsFirst(t1.users, p);
    assert forall i | 0 <= i < |t.users| :: t1.users[i] == t.users[i] && !p(t.users[i]);
  }

  /** The sanitizers of server/middleware/validateDoctorSignup.js: `.trim()` rewrites the
      name, phone number, license number and specialty in the body; the email and the
      password pass through. */
  function Sanitized(body: DoctorSignupBody): (b: DoctorSignupBody)
    ensures b.name == Trim(body.name) && b.phoneNumber == Trim(body.phoneNumber)
    ensures b.licenseNumber == Trim(body.licenseNumber)
    ensures b.specialty.Some? <==> body.specialty.Some?
    ensures b.specialty.Some? ==> b.specialty.value == Trim(body.specialty.value)
    ensures b.email == body.email && b.password == body.password
  {
    body.(name := Trim(body.name), phoneNumber := Trim(body.phoneNumber), licenseNumber := Trim(body.licenseNumber),
          specialty := if body.specialty.Some? then Some(Trim(body.specialty.value)) else None)
  }

  /** Sanitizing a sanitized body changes nothing. */
  lemma SanitizedIdempotent(body: DoctorSignupBody)
    ensures Sanitized(Sanitized(body)) == Sanitized(body)
  {
    TrimIdempotent(body.name);
    TrimIdempotent(body.phoneNumber);
    TrimIdempotent(body.licenseNumber);
    if body.specialty.Some? {
      TrimIdempotent(body.specialty.value);
    }
  }

  /** POST `/api/doctors/signup` as server/routes/doctorRoutes.js mounts it: the sanitizers
      run before the controller. Their validators have no effect, because nothing reads
      their result. The controller therefore checks and stores the trimmed phone number
      and license number. */
  function SignupRoute(t: Store, body: DoctorSignupBody): (r: (Store, DoctorReply))
    ensures r.1.Registered? <==> !IdentityTaken(t, Trim(body.phoneNumber), body.email)
                                 && !LicenseRegistered(t, Trim(body.licenseNumber))
    ensures r.1.Refused? ==> r.0 == t && r.1.status == 400
    ensures r.1.Registered? ==>
              && |r.0.users| == |t.users| + 1 && r.0.users[..|t.users|] == t.users
              && r.0.users[|t.users|].id == r.1.user.id
              && r.0.users[|t.users|].phoneNumber == Trim(body.phoneNumber)
              && r.1.profile.licenseNumber == Trim(body.licenseNumber)
  {
    DoctorSignupStep(t, Sanitized(body))
  }

  /** The `doctorSignup` handler over the live store; the transaction's two writes are
      both done, since nothing between them can fail in this model. */
  method DoctorSignup(db: Database, body: DoctorSignupBody) returns (reply: DoctorReply)
    modifies db
    ensures (db.State(), reply) == DoctorSignupStep(old(db.State()), body)
  {
    var existing := FindUser(db.State(), IdentityClauses(body.phoneNumber, body.email));
    if existing.Some? {
      return Refused(400, ConflictMessage(existing.value, body.phoneNumber));
    }
    if LicenseRegistered(db.State(), body.licenseNumber) {
      return Refused(400, LicenseTaken);
    }
    var u := db.CreateUser(body.name, body.phoneNumber, StoredEmail(body.email), Hashed(body.password), Doctor);
    var p := db.CreateProfile(u.id, body.licenseNumber, body.specialty);
    reply := Registered(201, RegistrationDone, Token(u.id, Some(Doctor)), Public(u), p);
  }
}
