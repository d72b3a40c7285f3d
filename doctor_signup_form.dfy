/** The doctor registration page, client/src/doctor/doctorSignup.jsx: the form state, the
    validation run on submit, the error clearing on input, and the two requests a valid
    form leads to (registration, then login with the same phone number and password). */
module DoctorSignupForm {
  import opened Wrappers
  import opened Seqs
  import opened Db
  import opened JsString
  import Auth
  import Doctors

  datatype Field = Name | PhoneNumber | Email | Password | ConfirmPassword | LicenseNumber | Specialty

  const AllFields: set<Field> := {Name, PhoneNumber, Email, Password, ConfirmPassword, LicenseNumber, Specialty}

  /** The `formData` object: one string per field. */
  type Form = map<Field, string>

  predicate WellFormed(f: Form) {
    f.Keys == AllFields
  }

  const EmptyForm: Form := map[Name := "", PhoneNumber := "", Email := "", Password := "",
                               ConfirmPassword := "", LicenseNumber := "", Specialty := ""]

  /** The message `validateForm` sets for a field. */
  function Message(k: Field): (m: string)
    requires k != Email
    ensures m != ""
  {
    match k
    case Name => "Name is required"
    case PhoneNumber => "Phone number is required"
    case Password => "Password is required"
    case ConfirmPassword => "Passwords do not match"
    case LicenseNumber => "License number is required"
    case Specialty => "Specialty is required"
  }

  /** The check `validateForm` applies to each field; the email is never checked. */
  predicate Fails(f: Form, k: Field)
    requires WellFormed(f)
  {
    match k
    case Name => Blank(f[Name])
    case PhoneNumber => Blank(f[PhoneNumber])
    case Password => f[Password] == ""
    case ConfirmPassword => f[Password] != f[ConfirmPassword]
    case LicenseNumber => Blank(f[LicenseNumber])
    case Specialty => Blank(f[Specialty])
    case Email => false
  }

  /** `validateForm`: the error map it builds. */
  function ValidateForm(f: Form): (errors: map<Field, string>)
    requires WellFormed(f)
    ensures Name in errors <==> Blank(f[Name])
    ensures PhoneNumber in errors <==> Blank(f[PhoneNumber])
    ensures Password in errors <==> f[Password] == ""
    ensures ConfirmPassword in errors <==> f[ConfirmPassword] != f[Password]
    ensures LicenseNumber in errors <==> Blank(f[LicenseNumber])
    ensures Specialty in errors <==> Blank(f[Specialty])
    ensures Email !in errors
    ensures forall k | k in errors :: errors[k] == Message(k) && errors[k] != ""
  {
    map k | k in AllFields && Fails(f, k) :: Message(k)
  }

  /** The registration request a valid form sends; the email field is sent even when
      empty. */
  function SignupRequest(f: Form): (body: Doctors.DoctorSignupBody)
    requires WellFormed(f)
    ensures body.phoneNumber == f[PhoneNumber] && body.password == f[Password]
    ensures body.licenseNumber == f[LicenseNumber] && body.specialty == Some(f[Specialty])
  {
    Doctors.DoctorSignupBody(f[Name], f[PhoneNumber], Some(f[Email]), f[Password], f[LicenseNumber], Some(f[Specialty]))
  }

  /** The login request sent after a successful registration. */
  function FollowUpLogin(f: Form): (body: Auth.LoginBody)
    requires WellFormed(f)
    ensures body.phoneNumber == Some(f[PhoneNumber]) && body.email.None? && body.username.None?
  {
    Auth.LoginBody(Some(f[PhoneNumber]), None, None, f[Password])
  }

  /** The login request a follow-up evidently needs: the phone number as the server
      stored it, trimmed. */
  function FollowUpLoginCorrected(f: Form): (body: Auth.LoginBody)
    requires WellFormed(f)
    ensures body.phoneNumber == Some(Trim(f[PhoneNumber])) && body.email.None? && body.username.None?
    ensures body.password == f[Password]
    ensures Trim(f[PhoneNumber]) == f[PhoneNumber] ==> body == FollowUpLogin(f)
  {
    Auth.LoginBody(Some(Trim(f[PhoneNumber])), None, None, f[Password])
  }

  /** With the trimmed phone number, every form that passes validation and that the
      registration route accepts is followed by a login that signs in the new doctor. */
  lemma CorrectedRegistrationThenLogin(t: Store, f: Form)
    requires WellFormed(f) && ValidateForm(f) == map[]
    requires Doctors.SignupRoute(t, SignupRequest(f)).1.Registered?
    ensures var (t1, reply) := Doctors.SignupRoute(t, SignupRequest(f));
            var login := Auth.Login(t1, FollowUpLoginCorrected(f));
            login.Authenticated? && login.user == reply.user && login.user.role == Doctor
  {
    assert PhoneNumber !in ValidateForm(f);
    Doctors.DoctorSignupThenLogin(t, Doctors.Sanitized(SignupRequest(f)));
  }

  /** The page as written, for a phone number without surrounding white space: a form that
      passes validation and that the registration route accepts is followed by a login
      that signs in the new doctor. */
  lemma ValidRegistrationThenLogin(t: Store, f: Form)
    requires WellFormed(f) && ValidateForm(f) == map[] && Trim(f[PhoneNumber]) == f[PhoneNumber]
    requires Doctors.SignupRoute(t, SignupRequest(f)).1.Registered?
    ensures var (t1, reply) := Doctors.SignupRoute(t, SignupRequest(f));
            var login := Auth.Login(t1, FollowUpLogin(f));
            login.Authenticated? && login.user == reply.user && login.user.role == Doctor
  {
    CorrectedRegistrationThenLogin(t, f);
  }

  /** The page as written, for a phone number with surrounding white space: validation
      trims only to test, the route stores the trimmed number, and the follow-up login
      sends the number as typed, so it matches nobody and is refused, whether or not the
      form passed validation. */
  lemma PaddedPhoneLoginRefused(t: Store, f: Form)
    requires WellFormed(f) && Trim(f[PhoneNumber]) != f[PhoneNumber]
    requires forall i | 0 <= i < |t.users| :: t.users[i].phoneNumber != f[PhoneNumber]
    requires Doctors.SignupRoute(t, SignupRequest(f)).1.Registered?
    ensures var (t1, reply) := Doctors.SignupRoute(t, SignupRequest(f));
            && reply.user.phoneNumber == Trim(f[PhoneNumber])
            && Auth.Login(t1, FollowUpLogin(f)) == Auth.Failed(401, Auth.InvalidCredentials)
  {
    var (t1, reply) := Doctors.SignupRoute(t, SignupRequest(f));
    assert forall i | 0 <= i < |t1.users| :: t1.users[i].phoneNumber != f[PhoneNumber] by {
      forall i | 0 <= i < |t1.users| ensures t1.users[i].phoneNumber != f[PhoneNumber] {
        if i < |t.users| {
          assert t1.users[i] == t.users[i];
        }
      }
    }
  }

  /** An empty store and a form whose phone number starts with a space. */
  const PaddedStore := Store([], [], [], [], [], [], 0, true)

  const PaddedPhone := " 9876543210"

  const PaddedForm: Form := map[Name := "Dr A", PhoneNumber := PaddedPhone, Email := "", Password := "secret",
                                ConfirmPassword := "secret", LicenseNumber := "L-1", Specialty := "Cardiology"]

  /** Trimming removes the leading space and nothing else. */
  lemma PaddedPhoneTrimmed()
    ensures Trim(PaddedPhone) == "9876543210"
  {
    var p := PaddedPhone;
    assert !IsJsSpace(p[1]);
    assert TrimStart(p[1..]) == p[1..];
    assert TrimStart(p) == p[1..];
    assert !IsJsSpace(p[|p| - 1]);
    assert TrimEnd(p[1..]) == p[1..];
  }

  /** A value that neither starts nor ends with white space is its own trim. */
  lemma TrimmedAlready(v: string)
    requires v != [] && !IsJsSpace(v[0]) && !IsJsSpace(v[|v| - 1])
    ensures Trim(v) == v && !Blank(v)
  {
  }

  /** The other text fields of the padded form have nothing to trim. */
  lemma PaddedFormOtherFields()
    ensures !Blank("Dr A") && !Blank("L-1") && !Blank("Cardiology")
  {
    var name, license, specialty := "Dr A", "L-1", "Cardiology";
    assert name[0] == 'D' && name[|name| - 1] == 'A';
    TrimmedAlready(name);
    assert license[0] == 'L' && license[|license| - 1] == '1';
    TrimmedAlready(license);
    assert specialty[0] == 'C' && specialty[|specialty| - 1] == 'y';
    TrimmedAlready(specialty);
  }

  /** A form none of whose fields fails has no errors. */
  lemma NoFailureNoErrors(f: Form)
    requires WellFormed(f) && !Blank(f[Name]) && !Blank(f[PhoneNumber]) && f[Password] != ""
    requires f[ConfirmPassword] == f[Password] && !Blank(f[LicenseNumber]) && !Blank(f[Specialty])
    ensures ValidateForm(f) == map[]
  {
    var errors := ValidateForm(f);
    forall k: Field ensures k !in errors {
      match k
      case Name =>
      case PhoneNumber =>
      case Email =>
      case Password =>
      case ConfirmPassword =>
      case LicenseNumber =>
      case Specialty =>
    }
    assert errors.Keys == {};
  }

  /** The padded form passes validation: no trimmed field is blank. */
  lemma PaddedFormValid()
    ensures WellFormed(PaddedForm) && ValidateForm(PaddedForm) == map[]
  {
    var f := PaddedForm;
    assert f.Keys == AllFields;
    assert f[Name] == "Dr A" && f[PhoneNumber] == PaddedPhone && f[LicenseNumber] == "L-1";
    assert f[Specialty] == "Cardiology" && f[Password] == "secret" == f[ConfirmPassword];
    PaddedPhoneTrimmed();
    PaddedFormOtherFields();
    NoFailureNoErrors(f);
  }

  /** The padded form, which passes validation (PaddedFormValid), registers the doctor under
      "9876543210", and the follow-up login with " 9876543210" is refused. */
  lemma PaddedPhoneWitness()
    ensures WellFormed(PaddedForm)
    ensures var (t1, reply) := Doctors.SignupRoute(PaddedStore, SignupRequest(PaddedForm));
            && reply.Registered? && reply.user.phoneNumber == "9876543210"
            && Auth.Login(t1, FollowUpLogin(PaddedForm)) == Auth.Failed(401, Auth.InvalidCredentials)
  {
    var f := PaddedForm;
    assert f.Keys == AllFields;
    assert f[PhoneNumber] == PaddedPhone;
    PaddedPhoneTrimmed();
    assert |Trim(f[PhoneNumber])| == 10 != |f[PhoneNumber]|;
    PaddedPhoneLoginRefused(PaddedStore, f);
  }

  /** The registration page's state. */
  class Page {
    var formData: Form
    var errors: map<Field, string>
    var isSubmitting: bool
    /** The registration requests sent, in order. */
    var sent: seq<Doctors.DoctorSignupBody>

    predicate Valid()
      reads this
    {
      WellFormed(formData)
    }

    constructor ()
      ensures Valid() && formData == EmptyForm && errors == map[] && !isSubmitting && sent == []
    {
      formData, errors, isSubmitting, sent := EmptyForm, map[], false, [];
    }

    /** `handleChange`: the named field takes the value, and its error, if it has a
        non-empty one, is cleared to the empty string; nothing else changes. */
    method HandleChange(name: Field, value: string)
      requires Valid()
      modifies this
      ensures Valid()
      ensures formData == old(formData)[name := value]
      ensures errors == if name in old(errors) && old(errors)[name] != "" then old(errors)[name := ""] else old(errors)
      ensures isSubmitting == old(isSubmitting) && sent == old(sent)
    {
      formData := formData[name := value];
      if name in errors && errors[name] != "" {
        errors := errors[name := ""];
      }
    }

    /** `handleSubmit` up to the registration request: validation replaces the error map,
        and only a form without errors is sent. */
    method HandleSubmit() returns (request: Option<Doctors.DoctorSignupBody>)
      requires Valid()
      modifies this
      ensures Valid() && formData == old(formData)
      ensures errors == ValidateForm(formData)
      ensures request.Some? <==> errors == map[]
      ensures request.Some? ==> request.value == SignupRequest(formData) && isSubmitting && sent == old(sent) + [request.value]
      ensures request.None? ==> isSubmitting == old(isSubmitting) && sent == old(sent)
    {
      errors := ValidateForm(formData);
      if errors != map[] {
        return None;
      }
      isSubmitting := true;
      request := Some(SignupRequest(formData));
      sent := sent + [request.value];
    }
  }
}
