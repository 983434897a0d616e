/*
 * The authentication hook: the token and the user kept in localStorage and
 * mirrored in component state, the user normalised from the `/auth/me`
 * reply, and the mount-time choice between fetching the user and reading
 * the stored one.
 */
module UseAuth {
  import opened Js
  import opened Browser
  import opened QueryClient
  import Api

  /** `isAuthenticated: Boolean(token)`: a stored, non-empty token. */
  predicate IsAuthenticated(token: Option<string>) {
    token.Some? && token.value != ""
  }

  /** `getStoredUser()`: null when the item is missing, empty or not JSON; otherwise the parsed value, unchecked. */
  function StoredUser(stored: Option<string>, parse: string -> Option<Json>): Json {
    var raw := ItemText(stored);
    if raw == "" then JNull
    else match parse(raw)
      case Some(v) => v
      case None => JNull
  }

  /** The storage `setStoredUser(user)` leaves: a truthy user is stored as JSON, anything else removes the item. */
  function StorageWithUser(storage: map<string, string>, user: Json, stringify: Json -> string): map<string, string> {
    if Truthy(user) then storage[UserKey := stringify(user)] else storage - {UserKey}
  }

  /** `setStoredUser(user)` */
  method SetStoredUser(w: Window, user: Json)
    modifies w`localStorage
    ensures w.localStorage == StorageWithUser(old(w.localStorage), user, w.json.stringify)
  {
    if Truthy(user) {
      w.SetItem(UserKey, w.json.stringify(user));
    } else {
      w.RemoveItem(UserKey);
    }
  }

  /** Reading the user back after storing it gives it back; a falsy user reads back as null. Nothing else is touched. */
  lemma StoredUserReadsBack(codec: JsonCodec, storage: map<string, string>, user: Json)
    requires RoundTrips(codec)
    ensures StoredUser(ItemOf(StorageWithUser(storage, user, codec.stringify), UserKey), codec.parse)
            == if Truthy(user) then user else JNull
    ensures forall k :: k != UserKey ==> ItemOf(StorageWithUser(storage, user, codec.stringify), k) == ItemOf(storage, k)
  {
    if Truthy(user) {
      assert codec.stringify(user) != "" && codec.parse(codec.stringify(user)) == Some(user);
    }
  }

  /** A field copied as it is: an undefined field stays undefined (absent). */
  function CopyField(data: Json, key: string): map<string, Json> {
    if Prop(data, key).Some? then map[key := Prop(data, key).value] else map[]
  }

  const UserFields: set<string> := {"id", "username", "full_name", "email", "role"}

  /**
   * The user `fetchMe` builds from the reply body `data`: id and username
   * copied, full name and email defaulting to null, role to "reader".
   * Reading a field of a null body throws.
   */
  function NormalizeUser(data: Json): (r: Outcome<Json>)
    ensures r.Throws? <==> data.JNull?
    ensures r.Returns? ==> r.value.JObj? && r.value.fields.Keys <= UserFields
  {
    if data.JNull? then Throws(NullReadMessage)
    else Returns(JObj(CopyField(data, "id") + CopyField(data, "username") + map[
      "full_name" := Coalesce(Prop(data, "full_name"), JNull),
      "email" := Coalesce(Prop(data, "email"), JNull),
      "role" := Coalesce(Prop(data, "role"), JStr("reader"))]))
  }

  /**
   * The normalised user keeps id and username as they were, always has a
   * non-null role (the reply's, or "reader"), and has a full name and an
   * email that are the reply's or null; it is an object, so it is stored.
   */
  lemma NormalizedUserShape(data: Json)
    requires !data.JNull?
    ensures var u := NormalizeUser(data).value;
            Truthy(u)
            && Prop(u, "id") == Prop(data, "id") && Prop(u, "username") == Prop(data, "username")
            && Present(Prop(u, "role"))
            && (Present(Prop(data, "role")) ==> Prop(u, "role") == Prop(data, "role"))
            && (!Present(Prop(data, "role")) ==> Prop(u, "role") == Some(JStr("reader")))
            && (Present(Prop(data, "email")) ==> Prop(u, "email") == Prop(data, "email"))
            && (!Present(Prop(data, "email")) ==> Prop(u, "email") == Some(JNull))
            && (Present(Prop(data, "full_name")) ==> Prop(u, "full_name") == Prop(data, "full_name"))
            && (!Present(Prop(data, "full_name")) ==> Prop(u, "full_name") == Some(JNull))
  {
  }

  /** Normalising a normalised user changes nothing. */
  lemma NormalizeUserIdempotent(data: Json)
    requires !data.JNull?
    ensures NormalizeUser(NormalizeUser(data).value) == NormalizeUser(data)
  {
    var u := NormalizeUser(data).value;
    NormalizedUserShape(data);
    var v := NormalizeUser(u).value;
    assert v.fields.Keys == u.fields.Keys;
    forall k | k in u.fields
      ensures v.fields[k] == u.fields[k]
    {
      assert Prop(v, k) == Prop(u, k);
    }
  }

  /** What `fetchMe` makes of the reply once a request was sent: the user, or the error it swallows. */
  function FetchMeOutcome(res: Response, parse: string -> Option<Json>): Outcome<Json> {
    match JsonResult(res, parse)
    case Throws(m) => Throws(m)
    case Returns(data) => NormalizeUser(data)
  }

  class AuthHook {
    /** The `token` state. */
    var token: Option<string>
    /** The `user` state; JNull stands for null. */
    var user: Json

    /** The `useState` initialisers: both read from storage. */
    constructor (w: Window)
      ensures token == w.GetItem(TokenKey)
      ensures user == StoredUser(w.GetItem(UserKey), w.json.parse)
    {
      token := w.GetItem(TokenKey);
      user := StoredUser(w.GetItem(UserKey), w.json.parse);
    }

    /** `fetchMe()` up to its await: no token, no request; otherwise the GET of the current user is sent. */
    method BeginFetchMe(w: Window) returns (req: Option<Request>)
      modifies w`fetches
      ensures req.None? <==> !IsAuthenticated(w.GetItem(TokenKey))
      ensures req.None? ==> w.fetches == old(w.fetches)
      ensures req.Some? ==> IsApiRequest(req.value, "GET", Api.AuthMe, None, w.GetItem(TokenKey), BaseUrl(w.env))
      ensures req.Some? ==> w.fetches == old(w.fetches) + [req.value]
    {
      if !IsAuthenticated(w.GetItem(TokenKey)) {
        return None;
      }
      var sent := ApiSend(w, "GET", Api.AuthMe, None);
      req := Some(sent);
    }

    /**
     * `fetchMe()` after the reply: on success the normalised user is stored
     * and shown and returned; any failure returns null and leaves the user
     * state alone (only a 401 touches storage, through `apiRequest`).
     */
    method FinishFetchMe(w: Window, res: Response) returns (r: Json)
      modifies this`user, w`localStorage, w`pathname, w`navigations
      ensures var outcome := FetchMeOutcome(res, w.json.parse);
              if outcome.Returns? then
                r == outcome.value && user == outcome.value
                && w.localStorage == old(w.localStorage)[UserKey := w.json.stringify(outcome.value)]
              else
                r == JNull && user == old(user) && w.localStorage == StorageAfter(res, old(w.localStorage))
      ensures FetchMeOutcome(res, w.json.parse).Throws? && res.status != 401 ==> w.localStorage == old(w.localStorage)
      ensures w.pathname == PathAfter(res, old(w.pathname))
      ensures w.navigations == NavigationsAfter(res, old(w.pathname), old(w.navigations))
    {
      var data := ReceiveJson(w, res);
      if data.Throws? {
        return JNull;
      }
      var u := NormalizeUser(data.value);
      if u.Throws? {
        return JNull;
      }
      NormalizedUserShape(data.value);
      SetStoredUser(w, u.value);
      user := u.value;
      r := u.value;
    }

    /** The mount effect: take the stored token; fetch the user when there is a token but no stored user, else show the stored one. */
    method Mount(w: Window) returns (req: Option<Request>)
      modifies this, w`fetches
      ensures token == w.GetItem(TokenKey)
      ensures var stored := StoredUser(w.GetItem(UserKey), w.json.parse);
              if IsAuthenticated(token) && !Truthy(stored) then
                req.Some? && user == old(user) && w.fetches == old(w.fetches) + [req.value]
                && IsApiRequest(req.value, "GET", Api.AuthMe, None, token, BaseUrl(w.env))
              else
                req.None? && user == stored && w.fetches == old(w.fetches)
    {
      token := w.GetItem(TokenKey);
      if IsAuthenticated(token) && !Truthy(StoredUser(w.GetItem(UserKey), w.json.parse)) {
        req := BeginFetchMe(w);
      } else {
        req := None;
        user := StoredUser(w.GetItem(UserKey), w.json.parse);
      }
    }
  }

  /** A user `fetchMe` stored reads back from storage as the same user. */
  lemma FetchedUserReadsBack(codec: JsonCodec, storage: map<string, string>, res: Response)
    requires RoundTrips(codec) && FetchMeOutcome(res, codec.parse).Returns?
    ensures var u := FetchMeOutcome(res, codec.parse).value;
            StoredUser(ItemOf(storage[UserKey := codec.stringify(u)], UserKey), codec.parse) == u
  {
    var u := FetchMeOutcome(res, codec.parse).value;
    assert codec.stringify(u) != "" && codec.parse(codec.stringify(u)) == Some(u);
  }
}
