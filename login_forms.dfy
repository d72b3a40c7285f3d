/** The two login pages: the patient's single identifier field
    (client/src/patient/login.jsx) and the doctor's email-or-phone field
    (client/src/doctor/doctorLogin.jsx). Both post to the same `login` endpoint (module
    Auth); a property left undefined in the request object is dropped by
    `JSON.stringify` and reaches the server as absent. */
module LoginForms {
  import opened Wrappers
  import opened Db
  import Auth

  /** `\d` in a JavaScript regular expression without the `u` flag: ASCII 0-9. */
  predicate IsDigit(c: char) {
    '0' <= c <= '9'
  }

  /** `/^\d+$/.test(s)`. */
  predicate AllDigits(s: string) {
    |s| > 0 && forall i | 0 <= i < |s| :: IsDigit(s[i])
  }

  /** The patient's login request. */
  datatype PatientLogin = PatientLogin(
    password: string, phoneNumber: Option<string>, email: Option<string>, username: Option<string>)

  /** `handleSubmit`: the identifier goes to exactly one of three fields. */
  function PatientPayload(identifier: string, password: string): (p: PatientLogin)
    ensures p.password == password
    ensures p.phoneNumber.Some? <==> AllDigits(identifier)
    ensures p.email.Some? <==> !AllDigits(identifier) && '@' in identifier
    ensures p.username.Some? <==> !AllDigits(identifier) && '@' !in identifier
    ensures p.phoneNumber.Some? ==> p.phoneNumber.value == identifier
    ensures p.email.Some? ==> p.email.value == identifier
    ensures p.username.Some? ==> p.username.value == identifier
  {
    if AllDigits(identifier) then PatientLogin(password, Some(identifier), None, None)
    else if '@' in identifier then PatientLogin(password, None, Some(identifier), None)
    else PatientLogin(password, None, None, Some(identifier))
  }

  function PatientRequest(p: PatientLogin): Auth.LoginBody {
    Auth.LoginBody(p.phoneNumber, p.email, p.username, p.password)
  }

  /** `handleSubmit` called with an empty identifier sends an empty username, which the
      server leaves out of its query: nobody matches and the login is refused. The page's
      `required` input stops an empty identifier before the handler runs. */
  lemma EmptyIdentifierIsRefused(t: Store, password: string)
    ensures PatientPayload("", password).username == Some("")
    ensures Auth.Login(t, PatientRequest(PatientPayload("", password))) == Auth.Failed(401, Auth.InvalidCredentials)
  {
    assert !AllDigits("");
  }

  /** A digits-only identifier is looked up by phone number alone. */
  lemma DigitsLookUpPhone(t: Store, identifier: string, password: string, u: User)
    requires AllDigits(identifier)
    ensures Auth.MatchesSome(u, Auth.LoginClauses(PatientRequest(PatientPayload(identifier, password))))
            <==> u.phoneNumber == identifier
  {
  }

  const FillAllFields := "Please fill in all fields"

  /** The doctor's login request; `role` is sent but the server never reads it. */
  datatype DoctorLogin = DoctorLogin(phoneNumber: Option<string>, email: Option<string>, password: string, role: string)

  /** `handleLogin`: both fields are required, then the input is an email when it holds an
      "@" and a phone number otherwise. */
  function DoctorPayload(emailOrPhone: string, password: string): (r: Result<DoctorLogin, string>)
    ensures r.Err? <==> emailOrPhone == "" || password == ""
    ensures r.Err? ==> r.error == FillAllFields
    ensures r.Ok? ==> (&& r.value.password == password && r.value.role == "DOCTOR"
                       && (r.value.email.Some? <==> '@' in emailOrPhone)
                       && (r.value.phoneNumber.Some? <==> '@' !in emailOrPhone)
                       && (r.value.email.Some? ==> r.value.email.value == emailOrPhone)
                       && (r.value.phoneNumber.Some? ==> r.value.phoneNumber.value == emailOrPhone))
  {
    if emailOrPhone == "" || password == "" then Err(FillAllFields)
    else Ok(DoctorLogin(if '@' in emailOrPhone then None else Some(emailOrPhone),
                        if '@' in emailOrPhone then Some(emailOrPhone) else None,
                        password, "DOCTOR"))
  }

  function DoctorRequest(d: DoctorLogin): Auth.LoginBody {
    Auth.LoginBody(d.phoneNumber, d.email, None, d.password)
  }

  /** The two pages send the same request for a phone number or an email; an identifier
      that is neither goes out as a username from the patient page and as a phone number
      from the doctor page. */
  lemma LoginPagesAgree(identifier: string, password: string)
    requires identifier != "" && password != ""
    ensures (AllDigits(identifier) || '@' in identifier) <==>
            DoctorRequest(DoctorPayload(identifier, password).value) == PatientRequest(PatientPayload(identifier, password))
  {
  }

  /** The server ignores `role`: the doctor page signs in a patient whose phone number
      and password it is given. */
  lemma DoctorPageAdmitsPatients()
    ensures var t := Store([User(1, "P", "9000000002", None, None, Hashed("pw"), Patient, true)], [], [], [], [], [], 2, true);
            var reply := Auth.Login(t, DoctorRequest(DoctorPayload("9000000002", "pw").value));
            reply.Authenticated? && reply.user.role == Patient
  {
    var t := Store([User(1, "P", "9000000002", None, None, Hashed("pw"), Patient, true)], [], [], [], [], [], 2, true);
    var body := DoctorRequest(DoctorPayload("9000000002", "pw").value);
    assert Auth.MatchesSome(t.users[0], Auth.LoginClauses(body));
  }
}
