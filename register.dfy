/*
 * The registration form: the password must match its confirmation; empty
 * contact fields are left out of the request; a token in the reply signs
 * the user in, otherwise the user is sent to log in.
 */
module Register {
  import opened Js
  import opened Browser
  import opened QueryClient
  import Api

  const PasswordsDiffer := Toast("Passwords don't match", "Please make sure your passwords match", true)
  const WelcomeToast := Toast("Registration successful", "Welcome! Redirecting to dashboard.", false)
  const PleaseLogInToast := Toast("Registration successful", "Please log in with your credentials", false)
  const RegistrationFailed := Toast("Registration failed", "Please try again", true)

  const DashboardPath := "/dashboard"

  /** `email ? "email" : "phone"`: the channel the submission is logged under. */
  function Channel(email: string): string {
    if email != "" then "email" else "phone"
  }

  /** `key: value || undefined`: an empty field is left out of the JSON body. */
  function OptionalField(key: string, value: string): map<string, Json> {
    if value != "" then map[key := JStr(value)] else map[]
  }

  /** `{email: email || undefined, phone: phone || undefined, password}` */
  function RegisterBody(email: string, phone: string, password: string): Json {
    JObj(OptionalField("email", email) + OptionalField("phone", phone) + map["password" := JStr(password)])
  }

  /**
   * The password is always sent; email and phone are sent exactly when
   * non-empty; and the logged channel is "email" exactly when the email is sent.
   */
  lemma RegisterBodyFields(email: string, phone: string, password: string)
    ensures var f := RegisterBody(email, phone, password).fields;
            "password" in f && f["password"] == JStr(password)
            && ("email" in f <==> email != "") && ("email" in f ==> f["email"] == JStr(email))
            && ("phone" in f <==> phone != "") && ("phone" in f ==> f["phone"] == JStr(phone))
            && f.Keys <= {"email", "phone", "password"}
            && (Channel(email) == "email" <==> "email" in f)
  {
  }

  class RegisterPage {
    var isLoading: bool
    var email: string
    var phone: string
    var password: string
    var confirmPassword: string

    constructor ()
      ensures !isLoading && email == "" && phone == "" && password == "" && confirmPassword == ""
    {
      isLoading := false;
      email := "";
      phone := "";
      password := "";
      confirmPassword := "";
    }

    /** `handleRegister` up to its await: differing passwords only warn; otherwise loading starts and the form is posted. */
    method BeginRegister(w: Window) returns (req: Option<Request>)
      modifies this`isLoading, w`toasts, w`fetches
      ensures password != confirmPassword ==> req.None? && isLoading == old(isLoading)
      ensures password != confirmPassword ==> w.toasts == old(w.toasts) + [PasswordsDiffer] && w.fetches == old(w.fetches)
      ensures password == confirmPassword ==> req.Some? && isLoading && w.toasts == old(w.toasts)
      ensures password == confirmPassword ==> w.fetches == old(w.fetches) + [req.value]
      ensures password == confirmPassword ==>
        IsApiRequest(req.value, "POST", Api.AuthRegister, Some(RegisterBody(email, phone, password)), w.GetItem(TokenKey), BaseUrl(w.env))
    {
      if password != confirmPassword {
        w.ShowToast(PasswordsDiffer);
        return None;
      }
      isLoading := true;
      var sent := ApiSend(w, "POST", Api.AuthRegister, Some(RegisterBody(email, phone, password)));
      req := Some(sent);
    }

    /**
     * `handleRegister` after the reply: a truthy token is stored (as
     * `setItem` prints it) and the user goes to the dashboard; no token sends
     * the user to log in; any error only shows the failure toast. Loading
     * ends in every case.
     */
    method FinishRegister(w: Window, res: Response)
      modifies this`isLoading, w`localStorage, w`pathname, w`navigations, w`toasts
      ensures !isLoading
      ensures var t := TokenOutcome(res, w.json.parse);
              if t.Throws? then
                w.toasts == old(w.toasts) + [RegistrationFailed]
                && w.localStorage == StorageAfter(res, old(w.localStorage))
                && w.navigations == NavigationsAfter(res, old(w.pathname), old(w.navigations))
                && w.pathname == PathAfter(res, old(w.pathname))
              else if TruthyOpt(t.value) then
                w.toasts == old(w.toasts) + [WelcomeToast]
                && w.localStorage == old(w.localStorage)[TokenKey := ToJsString(t.value.value)]
                && w.navigations == old(w.navigations) + [DashboardPath] && w.pathname == DashboardPath
              else
                w.toasts == old(w.toasts) + [PleaseLogInToast]
                && w.localStorage == old(w.localStorage)
                && w.navigations == old(w.navigations) + [LoginPath] && w.pathname == LoginPath
    {
      var data := ReceiveJson(w, res);
      var t := if data.Throws? then Throws(data.message) else GetTokenFromAuthResponse(data.value);
      if t.Throws? {
        w.ShowToast(RegistrationFailed);
      } else if TruthyOpt(t.value) {
        w.SetItem(TokenKey, ToJsString(t.value.value));
        w.Navigate(DashboardPath);
        w.ShowToast(WelcomeToast);
      } else {
        w.Navigate(LoginPath);
        w.ShowToast(PleaseLogInToast);
      }
      isLoading := false;
    }
  }
}
