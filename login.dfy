/*
 * The login page: sign-in with an email or phone and a password, and the
 * callback the Google sign-in widget calls with its credential. Either way
 * a token in the reply is stored and the user goes to the dashboard.
 */
module Login {
  import opened Js
  import opened Browser
  import opened QueryClient
  import Api
  import UseAuth

  const LoginSuccessful := Toast("Login successful", "Welcome back!", false)
  const LoginFailed := Toast("Login failed", "Invalid credentials", true)
  const GoogleLoginFailed := Toast("Google login failed", "Please try again", true)

  const DashboardPath := "/dashboard"
  /** The path the Google callback posts to, written out in the page rather than taken from the path table. */
  const GoogleLoginPath := "/api/auth/google-login"

  /** The literal path is the table's Google login path. */
  lemma GoogleLoginPathMatchesTable()
    ensures GoogleLoginPath == Api.AuthGoogleLogin
  {
  }

  /** `email || phone` */
  function Identifier(email: string, phone: string): (r: string)
    ensures r == "" <==> email == "" && phone == ""
  {
    if email != "" then email else phone
  }

  /** The test before any request: an identifier and a password. */
  predicate HasCredentials(email: string, phone: string, password: string) {
    Identifier(email, phone) != "" && password != ""
  }

  /** `{identifier, password}` */
  function LoginBody(identifier: string, password: string): Json {
    JObj(map["identifier" := JStr(identifier), "password" := JStr(password)])
  }

  /** The email is the identifier whenever it is given; the phone only stands in for a missing email. */
  lemma IdentifierPrefersEmail(email: string, phone: string)
    ensures email != "" ==> Identifier(email, phone) == email
    ensures email == "" ==> Identifier(email, phone) == phone
  {
  }

  /** What a successful sign-in leaves in storage: the token as `setItem` prints it. */
  function StorageWithToken(storage: map<string, string>, token: Json): map<string, string> {
    storage[TokenKey := ToJsString(token)]
  }

  /**
   * A sign-in that stores a truthy token other than an array leaves the
   * session authenticated; nothing else in storage changes.
   */
  lemma SignInAuthenticates(storage: map<string, string>, token: Json)
    requires Truthy(token) && !token.JArr?
    ensures UseAuth.IsAuthenticated(ItemOf(StorageWithToken(storage, token), TokenKey))
    ensures forall k :: k != TokenKey ==> ItemOf(StorageWithToken(storage, token), k) == ItemOf(storage, k)
  {
    TruthyPrintsNonEmpty(token);
  }

  class LoginPage {
    var isLoading: bool
    var email: string
    var phone: string
    var password: string

    constructor ()
      ensures !isLoading && email == "" && phone == "" && password == ""
    {
      isLoading := false;
      email := "";
      phone := "";
      password := "";
    }

    /**
     * `handleLogin` up to its await: loading starts; missing credentials
     * throw at once, so the failure toast shows and loading ends with no
     * request; otherwise the credentials are posted.
     */
    method BeginLogin(w: Window) returns (req: Option<Request>)
      modifies this`isLoading, w`toasts, w`fetches
      ensures !HasCredentials(email, phone, password) ==> req.None? && !isLoading
      ensures !HasCredentials(email, phone, password) ==> w.toasts == old(w.toasts) + [LoginFailed] && w.fetches == old(w.fetches)
      ensures HasCredentials(email, phone, password) ==> req.Some? && isLoading && w.toasts == old(w.toasts)
      ensures HasCredentials(email, phone, password) ==> w.fetches == old(w.fetches) + [req.value]
      ensures HasCredentials(email, phone, password) ==>
        IsApiRequest(req.value, "POST", Api.AuthLogin, Some(LoginBody(Identifier(email, phone), password)), w.GetItem(TokenKey), BaseUrl(w.env))
    {
      isLoading := true;
      var identifier := Identifier(email, phone);
      if identifier == "" || password == "" {
        w.ShowToast(LoginFailed);
        isLoading := false;
        return None;
      }
      var sent := ApiSend(w, "POST", Api.AuthLogin, Some(LoginBody(identifier, password)));
      req := Some(sent);
    }

    /**
     * `handleLogin` after the reply: a truthy token is stored and the user
     * goes to the dashboard; every failure, a missing token included, shows
     * the same toast and stores nothing. Loading ends in every case.
     */
    method FinishLogin(w: Window, res: Response)
      modifies this`isLoading, w`localStorage, w`pathname, w`navigations, w`toasts
      ensures !isLoading
      ensures var t := TokenOutcome(res, w.json.parse);
              if t.Returns? && TruthyOpt(t.value) then
                w.toasts == old(w.toasts) + [LoginSuccessful]
                && w.localStorage == StorageWithToken(old(w.localStorage), t.value.value)
                && w.navigations == old(w.navigations) + [DashboardPath] && w.pathname == DashboardPath
              else
                w.toasts == old(w.toasts) + [LoginFailed]
                && w.localStorage == StorageAfter(res, old(w.localStorage))
                && w.navigations == NavigationsAfter(res, old(w.pathname), old(w.navigations))
                && w.pathname == PathAfter(res, old(w.pathname))
    {
      FinishSignIn(w, res, LoginFailed);
      isLoading := false;
    }
  }

  /** The shared tail of both sign-ins: store a truthy token and go to the dashboard, or show `failure`. */
  method FinishSignIn(w: Window, res: Response, failure: Toast)
    modifies w`localStorage, w`pathname, w`navigations, w`toasts
    ensures var t := TokenOutcome(res, w.json.parse);
            if t.Returns? && TruthyOpt(t.value) then
              w.toasts == old(w.toasts) + [LoginSuccessful]
              && w.localStorage == StorageWithToken(old(w.localStorage), t.value.value)
              && w.navigations == old(w.navigations) + [DashboardPath] && w.pathname == DashboardPath
            else
              w.toasts == old(w.toasts) + [failure]
              && w.localStorage == StorageAfter(res, old(w.localStorage))
              && w.navigations == NavigationsAfter(res, old(w.pathname), old(w.navigations))
              && w.pathname == PathAfter(res, old(w.pathname))
  {
    var data := ReceiveJson(w, res);
    var t := if data.Throws? then Throws(data.message) else GetTokenFromAuthResponse(data.value);
    if t.Returns? && TruthyOpt(t.value) {
      w.SetItem(TokenKey, ToJsString(t.value.value));
      w.ShowToast(LoginSuccessful);
      w.Navigate(DashboardPath);
    } else {
      w.ShowToast(failure);
    }
  }

  /** `handleGoogleCallback` up to its await: without a credential it fails at once; otherwise the credential is posted as `token`. */
  method BeginGoogleCallback(w: Window, response: Json) returns (req: Option<Request>)
    modifies w`toasts, w`fetches
    ensures !TruthyOpt(Prop(response, "credential")) ==> req.None?
    ensures !TruthyOpt(Prop(response, "credential")) ==> w.toasts == old(w.toasts) + [GoogleLoginFailed] && w.fetches == old(w.fetches)
    ensures TruthyOpt(Prop(response, "credential")) ==> req.Some? && w.toasts == old(w.toasts)
    ensures TruthyOpt(Prop(response, "credential")) ==> w.fetches == old(w.fetches) + [req.value]
    ensures TruthyOpt(Prop(response, "credential")) ==>
      IsApiRequest(req.value, "POST", GoogleLoginPath, Some(JObj(map["token" := Prop(response, "credential").value])),
                   w.GetItem(TokenKey), BaseUrl(w.env))
  {
    var credential := Prop(response, "credential");
    if !TruthyOpt(credential) {
      w.ShowToast(GoogleLoginFailed);
      return None;
    }
    var sent := ApiSend(w, "POST", GoogleLoginPath, Some(JObj(map["token" := credential.value])));
    req := Some(sent);
  }

  /** `handleGoogleCallback` after the reply: the same ending as the password sign-in, with its own failure toast. */
  method FinishGoogleCallback(w: Window, res: Response)
    modifies w`localStorage, w`pathname, w`navigations, w`toasts
    ensures var t := TokenOutcome(res, w.json.parse);
            if t.Returns? && TruthyOpt(t.value) then
              w.toasts == old(w.toasts) + [LoginSuccessful]
              && w.localStorage == StorageWithToken(old(w.localStorage), t.value.value)
              && w.navigations == old(w.navigations) + [DashboardPath] && w.pathname == DashboardPath
            else
              w.toasts == old(w.toasts) + [GoogleLoginFailed]
              && w.localStorage == StorageAfter(res, old(w.localStorage))
              && w.navigations == NavigationsAfter(res, old(w.pathname), old(w.navigations))
              && w.pathname == PathAfter(res, old(w.pathname))
  {
    FinishSignIn(w, res, GoogleLoginFailed);
  }
}
