/** The patient registration page, client/src/patient/signup.jsx: the form state, the
    required-field check on submit, and the registration and login requests that follow a
    complete form. */
module PatientSignupForm {
  import opened Wrappers
  import opened Db
  import Auth
  import DoctorSignupForm
  import JsString

  datatype Field = Name | PhoneNumber | Email | Password

  const AllFields: set<Field> := {Name, PhoneNumber, Email, Password}

  type Form = map<Field, string>

  predicate WellFormed(f: Form) {
    f.Keys == AllFields
  }

  const EmptyForm: Form := map[Name := "", PhoneNumber := "", Email := "", Password := ""]

  const FieldsRequired := "Name, phone number, and password are required"

  /** The check in `handleSubmit`: only the empty string counts as missing; nothing is
      trimmed, and the email is optional. */
  predicate Incomplete(f: Form)
    requires WellFormed(f)
  {
    f[Name] == "" || f[PhoneNumber] == "" || f[Password] == ""
  }

  /** Unlike the doctor's page, which trims, this page lets a name of spaces through, and
      it never looks at the email. */
  lemma BlankNamePasses(f: Form, name: string, email: string)
    requires WellFormed(f) && f[PhoneNumber] != "" && f[Password] != ""
    requires name != "" && JsString.Blank(name)
    ensures !Incomplete(f[Name := name][Email := email])
  {
  }

  /** The body of the registration request: the whole form object. */
  function SignupRequest(f: Form): (body: Auth.SignupBody)
    requires WellFormed(f)
    ensures body.phoneNumber == f[PhoneNumber] && body.password == f[Password] && body.email == Some(f[Email])
  {
    Auth.SignupBody(f[Name], f[PhoneNumber], Some(f[Email]), f[Password])
  }

  /** The login request sent after a successful registration. */
  function FollowUpLogin(f: Form): (body: Auth.LoginBody)
    requires WellFormed(f)
    ensures body == Auth.LoginBody(Some(f[PhoneNumber]), None, None, f[Password])
  {
    Auth.LoginBody(Some(f[PhoneNumber]), None, None, f[Password])
  }

  /** A complete form that the server accepts is followed by a login that signs in the
      patient just created, with the same token claims and user. */
  lemma RegistrationThenLogin(t: Store, f: Form)
    requires WellFormed(f) && !Incomplete(f)
    requires Auth.SignupStep(t, SignupRequest(f)).1.Authenticated?
    ensures var (t1, reply) := Auth.SignupStep(t, SignupRequest(f));
            Auth.Login(t1, FollowUpLogin(f)) == Auth.Authenticated(200, reply.token, reply.user)
  {
    Auth.SignupThenLogin(t, SignupRequest(f));
  }

  /** The registration page's state. */
  class Page {
    var formData: Form
    var error: string
    var isLoading: bool
    /** The registration requests sent, in order. */
    var sent: seq<Auth.SignupBody>

    predicate Valid()
      reads this
    {
      WellFormed(formData)
    }

    constructor ()
      ensures Valid() && formData == EmptyForm && error == "" && !isLoading && sent == []
    {
      formData, error, isLoading, sent := EmptyForm, "", false, [];
    }

    /** `handleInputChange`: only the named field changes. */
    method HandleInputChange(name: Field, value: string)
      requires Valid()
      modifies this
      ensures Valid() && formData == old(formData)[name := value]
      ensures error == old(error) && isLoading == old(isLoading) && sent == old(sent)
    {
      formData := formData[name := value];
    }

    /** `handleSubmit` up to the registration request: an incomplete form shows the error,
        stops loading and sends nothing; a complete one is sent as it is. */
    method HandleSubmit() returns (request: Option<Auth.SignupBody>)
      requires Valid()
      modifies this
      ensures Valid() && formData == old(formData)
      ensures request.None? <==> Incomplete(formData)
      ensures request.None? ==> error == FieldsRequired && !isLoading && sent == old(sent)
      ensures request.Some? ==> (&& request.value == SignupRequest(formData) && error == "" && isLoading
                                 && sent == old(sent) + [request.value])
    {
      error := "";
      isLoading := true;
      if formData[Name] == "" || formData[PhoneNumber] == "" || formData[Password] == "" {
        error := FieldsRequired;
        isLoading := false;
        return None;
      }
      request := Some(SignupRequest(formData));
      sent := sent + [request.value];
    }
  }
}
