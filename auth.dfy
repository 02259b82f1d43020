/** The login / sign-up page (src/app/auth/page.js): a two-mode form whose
    submit picks the endpoint and payload by mode, refuses a sign-up
    without a username before any request, and on success stores the
    returned user under the key "user". */
module AuthPage {

  import opened Common

  /** The three inputs of the form, by their `name`. */
  datatype Field = Username | Email | Password

  datatype FormData = FormData(username: string, email: string, password: string)

  const EmptyForm := FormData("", "", "")

  /** `setFormData((prev) => ({ ...prev, [name]: value }))` */
  function WithField(form: FormData, name: Field, value: string): (r: FormData)
    ensures name == Username ==> r.username == value && r.email == form.email && r.password == form.password
    ensures name == Email ==> r.email == value && r.username == form.username && r.password == form.password
    ensures name == Password ==> r.password == value && r.username == form.username && r.email == form.email
  {
    match name
    case Username => form.(username := value)
    case Email => form.(email := value)
    case Password => form.(password := value)
  }

  /** Editing a field and then another field gives the same form in either
      order, and a second edit of the same field overrides the first. */
  lemma FieldEditsCommute(form: FormData, a: Field, x: string, b: Field, y: string)
    ensures a != b ==> WithField(WithField(form, a, x), b, y) == WithField(WithField(form, b, y), a, x)
    ensures a == b ==> WithField(WithField(form, a, x), b, y) == WithField(form, b, y)
  {
  }

  /** The JSON body of the request. */
  datatype Payload = LoginPayload(email: string, password: string) | RegisterPayload(username: string, email: string, password: string)

  datatype AuthRequest = AuthRequest(endpoint: string, payload: Payload)

  /** The endpoint and body that the mode selects. */
  function RequestFor(isLogin: bool, form: FormData): (r: AuthRequest)
    ensures isLogin <==> r.endpoint == "/auth/login"
    ensures !isLogin <==> r.endpoint == "/auth/register"
    ensures isLogin <==> r.payload.LoginPayload?
    ensures r.payload.email == form.email && r.payload.password == form.password
    ensures r.payload.RegisterPayload? ==> r.payload.username == form.username
  {
    if isLogin then AuthRequest("/auth/login", LoginPayload(form.email, form.password))
    else AuthRequest("/auth/register", RegisterPayload(form.username, form.email, form.password))
  }

  /** A login request does not depend on the username field. */
  lemma LoginIgnoresUsername(form: FormData, name: string)
    ensures RequestFor(true, form) == RequestFor(true, form.(username := name))
  {
  }

  function SuccessText(isLogin: bool): (r: string)
    ensures r == "Login successful! Welcome back." <==> isLogin
    ensures r == "Account created successfully! Please log in." <==> !isLogin
  {
    if isLogin then "Login successful! Welcome back." else "Account created successfully! Please log in."
  }

  class AuthForm {
    var isLogin: bool
    var formData: FormData
    var loading: bool
    var error: string
    var successMessage: string
    /** The browser's `localStorage`, decoded. */
    var storage: map<string, User>

    constructor (storage: map<string, User>)
      ensures isLogin && formData == EmptyForm && !loading && error == "" && successMessage == ""
      ensures this.storage == storage
    {
      isLogin, formData, loading, error, successMessage := true, EmptyForm, false, "", "";
      this.storage := storage;
    }

    /** `handleInputChange` */
    method InputChange(name: Field, value: string)
      modifies this`formData
      ensures formData == WithField(old(formData), name, value)
    {
      formData := WithField(formData, name, value);
    }

    /** `handleSubmit` with the server's reply. A sign-up without a
        username sets the error and sends nothing. Otherwise the request
        for the mode is sent; a success stores the user, shows the mode's
        message and navigates to "/", and after a sign-up switches to login
        with a cleared form; a failure shows the server's message. */
    method Submit(reply: Reply<User>) returns (request: Option<AuthRequest>, redirect: Option<string>)
      modifies this`isLogin, this`formData, this`loading, this`error, this`successMessage, this`storage
      ensures !loading
      ensures !old(isLogin) && old(formData).username == "" ==>
        request.None? && redirect.None? && error == "Username is required for sign up." && successMessage == ""
        && isLogin == old(isLogin) && formData == old(formData) && storage == old(storage)
      ensures (old(isLogin) || old(formData).username != "") ==>
        request == Some(RequestFor(old(isLogin), old(formData)))
      ensures request.Some? && reply.Ok? ==>
        storage == old(storage)["user" := reply.data] && successMessage == SuccessText(old(isLogin))
        && error == "" && redirect == Some("/") && isLogin
        && formData == (if old(isLogin) then old(formData) else EmptyForm)
      ensures request.Some? && reply.NotOk? ==>
        error == MessageOr(reply.message, "Something went wrong") && successMessage == ""
        && redirect.None? && storage == old(storage) && isLogin == old(isLogin) && formData == old(formData)
    {
      loading, error, successMessage := true, "", "";
      if !isLogin && formData.username == "" {
        error, loading := "Username is required for sign up.", false;
        return None, None;
      }
      request := Some(RequestFor(isLogin, formData));
      redirect := None;
      if reply.Ok? {
        storage := storage["user" := reply.data];
        successMessage := SuccessText(isLogin);
        redirect := Some("/");
        if !isLogin {
          isLogin, formData := true, EmptyForm;
        }
      } else {
        error := MessageOr(reply.message, "Something went wrong");
      }
      loading := false;
    }

    /** `toggleFormMode`: the other mode with a cleared form and no messages. */
    method ToggleMode()
      modifies this`isLogin, this`error, this`successMessage, this`formData
      ensures isLogin == !old(isLogin) && error == "" && successMessage == "" && formData == EmptyForm
    {
      isLogin, error, successMessage, formData := !isLogin, "", "", EmptyForm;
    }
  }

  /** A sign-up that the server accepts is followed by the login form:
      toggling into sign-up, filling the username and submitting leaves
      the page in login mode with the user stored and the form cleared. */
  method SignUpThenLogin(storage: map<string, User>, name: string, user: User)
    returns (request: Option<AuthRequest>, afterMode: bool, stored: map<string, User>, afterForm: FormData)
    requires name != ""
    ensures request == Some(AuthRequest("/auth/register", RegisterPayload(name, "", "")))
    ensures afterMode && stored == storage["user" := user] && afterForm == EmptyForm
  {
    var page := new AuthForm(storage);
    page.ToggleMode();
    page.InputChange(Username, name);
    var redirect;
    request, redirect := page.Submit(Ok(user));
    afterMode, stored, afterForm := page.isLogin, page.storage, page.formData;
  }
}
