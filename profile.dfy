/*
 * The profile page: the current user's editable fields are loaded into the
 * form, a missing or null field showing as "", and sent back on submit with
 * every empty field sent as null.
 */
module Profile {
  import opened Js
  import opened Browser
  import opened QueryClient
  import Api
  import UseAuth

  const ProfileUpdated := Toast("Profile updated", "Your profile has been saved.", false)

  /** The failure toast; its description is the error's message. */
  function UpdateFailed(message: string): Toast {
    Toast("Update failed", message, true)
  }

  /** The five form fields, each as its state holds it (the loaded value may be any JSON value). */
  datatype ProfileForm = ProfileForm(fullName: Json, bio: Json, avatarUrl: Json, profession: Json, interests: Json)

  const EmptyForm := ProfileForm(JStr(""), JStr(""), JStr(""), JStr(""), JStr(""))

  /** `data.x ?? ""`: what a loaded field shows in the form. */
  function FormValue(v: Option<Json>): Json {
    Coalesce(v, JStr(""))
  }

  /** `x || null`: what a form field sends. */
  function SubmitValue(f: Json): Json {
    OrElse(Some(f), JNull)
  }

  /** The form the load fills in from the reply body `data`. */
  function LoadedForm(data: Json): ProfileForm {
    ProfileForm(FormValue(Prop(data, "full_name")), FormValue(Prop(data, "bio")), FormValue(Prop(data, "avatar_url")),
                FormValue(Prop(data, "profession")), FormValue(Prop(data, "interests")))
  }

  /** The body of the update request. */
  function SubmitPayload(form: ProfileForm): Json {
    JObj(map[
      "full_name" := SubmitValue(form.fullName),
      "bio" := SubmitValue(form.bio),
      "avatar_url" := SubmitValue(form.avatarUrl),
      "profession" := SubmitValue(form.profession),
      "interests" := SubmitValue(form.interests)])
  }

  /** A field never shows as null or undefined; a present value shows as it is. */
  lemma FormValueShowsValue(v: Option<Json>)
    ensures !FormValue(v).JNull?
    ensures Present(v) ==> FormValue(v) == v.value
    ensures !Present(v) ==> FormValue(v) == JStr("")
  {
  }

  /** Submit never sends a falsy value other than null: "" becomes null, a truthy value is sent as it is. */
  lemma SubmitValueSendsNullForEmpty(f: Json)
    ensures Truthy(f) ==> SubmitValue(f) == f
    ensures !Truthy(f) ==> SubmitValue(f) == JNull
  {
  }

  /**
   * Loading a field and submitting it unedited sends back the loaded value
   * when it was truthy, and null otherwise: a null or missing field stays
   * null, and a loaded "" comes back as null.
   */
  lemma UneditedFieldRoundTrip(v: Option<Json>)
    ensures SubmitValue(FormValue(v)) == if TruthyOpt(v) then v.value else JNull
  {
    FormValueShowsValue(v);
  }

  /** Submitting the unedited loaded form sends, for each of the five fields, the loaded value or null. */
  lemma UneditedFormRoundTrip(data: Json)
    ensures var p := SubmitPayload(LoadedForm(data));
            p.fields.Keys == {"full_name", "bio", "avatar_url", "profession", "interests"}
            && forall k :: k in p.fields ==> p.fields[k] == (if TruthyOpt(Prop(data, k)) then Prop(data, k).value else JNull)
  {
    UneditedFieldRoundTrip(Prop(data, "full_name"));
    UneditedFieldRoundTrip(Prop(data, "bio"));
    UneditedFieldRoundTrip(Prop(data, "avatar_url"));
    UneditedFieldRoundTrip(Prop(data, "profession"));
    UneditedFieldRoundTrip(Prop(data, "interests"));
  }

  class ProfilePage {
    var loading: bool
    var saving: bool
    /** The `user` state; JNull stands for null. */
    var user: Json
    var form: ProfileForm

    constructor ()
      ensures loading && !saving && user == JNull && form == EmptyForm
    {
      loading := true;
      saving := false;
      user := JNull;
      form := EmptyForm;
    }

    /** The load effect up to its await: a signed-out visitor goes to the login page; otherwise the current user is requested. */
    method BeginLoad(w: Window, auth: UseAuth.AuthHook) returns (req: Option<Request>)
      modifies w`pathname, w`navigations, w`fetches
      ensures !UseAuth.IsAuthenticated(auth.token) ==> req.None? && w.fetches == old(w.fetches)
      ensures !UseAuth.IsAuthenticated(auth.token) ==> w.navigations == old(w.navigations) + [LoginPath] && w.pathname == LoginPath
      ensures UseAuth.IsAuthenticated(auth.token) ==> req.Some? && w.navigations == old(w.navigations) && w.pathname == old(w.pathname)
      ensures UseAuth.IsAuthenticated(auth.token) ==> w.fetches == old(w.fetches) + [req.value]
      ensures UseAuth.IsAuthenticated(auth.token) ==>
        IsApiRequest(req.value, "GET", Api.AuthMe, None, w.GetItem(TokenKey), BaseUrl(w.env))
    {
      if !UseAuth.IsAuthenticated(auth.token) {
        w.Navigate(LoginPath);
        return None;
      }
      var sent := ApiSend(w, "GET", Api.AuthMe, None);
      req := Some(sent);
    }

    /**
     * The load effect after the reply: the user and the form are filled in;
     * a failure, a null body included (reading its fields throws after the
     * user was set), goes to the login page. Loading ends in every case.
     */
    method FinishLoad(w: Window, res: Response)
      modifies this`loading, this`user, this`form, w`localStorage, w`pathname, w`navigations
      ensures !loading
      ensures var d := JsonResult(res, w.json.parse);
              if d.Returns? && !d.value.JNull? then
                user == d.value && form == LoadedForm(d.value)
                && w.localStorage == old(w.localStorage) && w.navigations == old(w.navigations) && w.pathname == old(w.pathname)
              else
                user == (if d.Returns? then JNull else old(user)) && form == old(form)
                && w.localStorage == StorageAfter(res, old(w.localStorage))
                && w.navigations == NavigationsAfter(res, old(w.pathname), old(w.navigations)) + [LoginPath]
                && w.pathname == LoginPath
    {
      var d := ReceiveJson(w, res);
      if d.Returns? {
        user := d.value;
      }
      if d.Returns? && !d.value.JNull? {
        form := LoadedForm(d.value);
      } else {
        w.Navigate(LoginPath);
      }
      loading := false;
    }

    /** `handleSubmit` up to its await: saving starts and the form is sent, empty fields as null. */
    method BeginSubmit(w: Window) returns (req: Request)
      modifies this`saving, w`fetches
      ensures saving
      ensures w.fetches == old(w.fetches) + [req]
      ensures IsApiRequest(req, "PUT", Api.AuthUpdateMe, Some(SubmitPayload(form)), w.GetItem(TokenKey), BaseUrl(w.env))
    {
      saving := true;
      req := ApiSend(w, "PUT", Api.AuthUpdateMe, Some(SubmitPayload(form)));
    }

    /** `handleSubmit` after the reply: one toast tells the outcome, its failure text being the error's message; saving ends. */
    method FinishSubmit(w: Window, res: Response)
      modifies this`saving, w`toasts, w`localStorage, w`pathname, w`navigations
      ensures !saving
      ensures var c := Classify(res, w.json.parse);
              if c.Returns? then w.toasts == old(w.toasts) + [ProfileUpdated]
              else w.toasts == old(w.toasts) + [UpdateFailed(c.message)]
      ensures w.localStorage == StorageAfter(res, old(w.localStorage))
      ensures w.navigations == NavigationsAfter(res, old(w.pathname), old(w.navigations))
      ensures w.pathname == PathAfter(res, old(w.pathname))
    {
      var c := ThrowIfResNotOk(w, res);
      if c.Returns? {
        w.ShowToast(ProfileUpdated);
      } else {
        w.ShowToast(UpdateFailed(c.message));
      }
      saving := false;
    }
  }

  /** A failed update's toast names the status of the failed response. */
  lemma UpdateFailureNamesStatus(res: Response, parse: string -> Option<Json>)
    requires !IsOk(res.status)
    ensures Classify(res, parse).Throws?
    ensures StatusOfMessage(UpdateFailed(Classify(res, parse).message).description) == Some(res.status)
  {
    ClassifyReportsStatus(res, parse);
  }
}
