/*
 * The creator dashboard: without a stored token it sends the user to log
 * in; otherwise it loads the dashboard figures, treats an error that
 * mentions 401 or 403 as a lost session, and shows any other error.
 */
module Dashboard {
  import opened Js
  import opened Browser
  import opened QueryClient
  import Api
  import UseAuth

  const LoadFailedMessage := "Failed to load dashboard"

  /** `data ?? {...}`: the figures shown when nothing was loaded. */
  const EmptyStats := JObj(map[
    "total_articles" := JNum(0),
    "total_views" := JNum(0),
    "total_earnings" := JNum(0),
    "top_articles" := JArr([])])

  /** `e?.message?.includes("401") || e?.message?.includes("403")` */
  predicate MentionsAuthFailure(message: string) {
    Contains(message, "401") || Contains(message, "403")
  }

  /** What the load ends in: figures, a lost session, or an error to show. */
  datatype LoadResult = Loaded(data: Json) | SignedOut | Failed(error: string)

  /** How the effect's `try`/`catch` sorts the outcome of the request and `response.json()`. */
  function LoadResultOf(outcome: Outcome<Json>): (r: LoadResult)
    ensures outcome.Returns? <==> r.Loaded?
    ensures r.Loaded? ==> r.data == outcome.value
    ensures r.SignedOut? <==> outcome.Throws? && MentionsAuthFailure(outcome.message)
    ensures r.Failed? ==> r.error != "" && (r.error == outcome.message || (outcome.message == "" && r.error == LoadFailedMessage))
  {
    match outcome
    case Returns(data) => Loaded(data)
    case Throws(m) =>
      if MentionsAuthFailure(m) then SignedOut
      else Failed(if m != "" then m else LoadFailedMessage)
  }

  class DashboardPage {
    /** The `data` state; JNull stands for null. */
    var data: Json
    var loading: bool
    /** The `error` state. */
    var error: Option<string>

    constructor ()
      ensures data == JNull && loading && error.None?
    {
      data := JNull;
      loading := true;
      error := None;
    }

    /** The load effect up to its await: no token sends the user to log in, and loading never ends; otherwise the figures are requested. */
    method BeginLoad(w: Window) returns (req: Option<Request>)
      modifies w`pathname, w`navigations, w`fetches
      ensures !UseAuth.IsAuthenticated(w.GetItem(TokenKey)) ==> req.None? && w.fetches == old(w.fetches)
      ensures !UseAuth.IsAuthenticated(w.GetItem(TokenKey)) ==> w.navigations == old(w.navigations) + [LoginPath] && w.pathname == LoginPath
      ensures UseAuth.IsAuthenticated(w.GetItem(TokenKey)) ==> req.Some? && w.navigations == old(w.navigations) && w.pathname == old(w.pathname)
      ensures UseAuth.IsAuthenticated(w.GetItem(TokenKey)) ==> w.fetches == old(w.fetches) + [req.value]
      ensures UseAuth.IsAuthenticated(w.GetItem(TokenKey)) ==>
        IsApiRequest(req.value, "GET", Api.AnalyticsCreatorDashboard, None, w.GetItem(TokenKey), BaseUrl(w.env))
    {
      if !UseAuth.IsAuthenticated(w.GetItem(TokenKey)) {
        w.Navigate(LoginPath);
        return None;
      }
      var sent := ApiSend(w, "GET", Api.AnalyticsCreatorDashboard, None);
      req := Some(sent);
    }

    /**
     * The load effect after the reply: the figures are kept; a lost session
     * removes the token and goes to the login page without an error; any
     * other failure sets the error. Loading ends in every case, the early
     * return included.
     */
    method FinishLoad(w: Window, res: Response)
      modifies this, w`localStorage, w`pathname, w`navigations
      ensures !loading
      ensures match LoadResultOf(JsonResult(res, w.json.parse))
              case Loaded(d) =>
                data == d && error == old(error)
                && w.localStorage == old(w.localStorage) && w.navigations == old(w.navigations)
                && w.pathname == old(w.pathname)
              case SignedOut =>
                data == old(data) && error == old(error)
                && w.localStorage == StorageAfter(res, old(w.localStorage)) - {TokenKey}
                && w.navigations == NavigationsAfter(res, old(w.pathname), old(w.navigations)) + [LoginPath]
                && w.pathname == LoginPath
              case Failed(e) =>
                data == old(data) && error == Some(e)
                && w.localStorage == StorageAfter(res, old(w.localStorage))
                && w.navigations == NavigationsAfter(res, old(w.pathname), old(w.navigations))
                && w.pathname == PathAfter(res, old(w.pathname))
    {
      var outcome := ReceiveJson(w, res);
      var result := LoadResultOf(outcome);
      match result {
        case Loaded(d) =>
          data := d;
        case SignedOut =>
          w.RemoveItem(TokenKey);
          w.Navigate(LoginPath);
        case Failed(e) =>
          error := Some(e);
      }
      loading := false;
    }
  }

  /** The digits of 403 as `${status}` prints them. */
  lemma PrintsForbidden()
    ensures NatToString(403) == "403"
  {
    assert NatToString(4) == "4";
    assert NatToString(40) == "40";
  }

  /**
   * A 401 or a 403 always ends the session: the classified error names the
   * status at its start, so the page signs the user out.
   */
  lemma UnauthorizedOrForbiddenSignsOut(res: Response, parse: string -> Option<Json>)
    requires res.status == 401 || res.status == 403
    ensures LoadResultOf(JsonResult(res, parse)) == SignedOut
  {
    var m := JsonResult(res, parse).message;
    if res.status == 401 {
      assert m == UnauthorizedMessage;
      assert OccursAt(m, "401", 0);
    } else {
      PrintsForbidden();
      assert m[..3] == "403";
      assert OccursAt(m, "403", 0);
    }
  }

  /** An error the page shows for a failed response names that response's status. */
  lemma ShownErrorNamesStatus(res: Response, parse: string -> Option<Json>)
    requires !IsOk(res.status)
    ensures LoadResultOf(JsonResult(res, parse)).Failed? ==>
            StatusOfMessage(LoadResultOf(JsonResult(res, parse)).error) == Some(res.status)
  {
    ClassifyReportsStatus(res, parse);
  }

  /** A string without digits contains no digit-led substring. */
  lemma NoDigitsNoMatch(s: string, sub: string)
    requires |sub| > 0 && IsDigit(sub[0])
    requires forall i :: 0 <= i < |s| ==> !IsDigit(s[i])
    ensures !Contains(s, sub)
  {
    forall i | 0 <= i <= |s| - |sub|
      ensures !OccursAt(s, sub, i)
    {
      assert s[i..i + |sub|][0] == s[i];
    }
  }

  /**
   * With the error classification as written, a 403 whose body is not JSON
   * reaches the page as "body stream already read", which names no status:
   * the page shows that text and keeps the token instead of signing out.
   */
  lemma ForbiddenNonJsonAsWrittenKeepsSession(res: Response, parse: string -> Option<Json>)
    requires res.status == 403 && parse(res.body).None?
    ensures ClassifyAsWritten(res, parse) == Throws(BodyUsedMessage)
    ensures LoadResultOf(Throws(BodyUsedMessage)) == Failed(BodyUsedMessage)
  {
    NoDigitsNoMatch(BodyUsedMessage, "401");
    NoDigitsNoMatch(BodyUsedMessage, "403");
  }

  /** `data ?? {...}`: the figures the page shows. */
  function Stats(data: Json): (r: Json)
    ensures data.JNull? ==> r == EmptyStats
    ensures !data.JNull? ==> r == data
  {
    Coalesce(Some(data), EmptyStats)
  }

  /** The body of the top-articles table. */
  datatype TopRows = NoArticlesRow | ArticleRows(articles: seq<Json>)

  /** `.length === 0`: true of an empty array or string, or an object whose `length` is 0. */
  predicate LengthIsZero(v: Json) {
    match v
    case JArr(xs) => |xs| == 0
    case JStr(s) => |s| == 0
    case JObj(_) => Prop(v, "length") == Some(JNum(0))
    case _ => false
  }

  /**
   * `stats.top_articles.length === 0 ? <no articles row> : stats.top_articles.map(...)`:
   * reading `length` of a missing list throws, and only an array has `map`.
   */
  function TopRowsOf(stats: Json): (r: Outcome<TopRows>)
    ensures r == Returns(NoArticlesRow) <==> Prop(stats, "top_articles").Some? && LengthIsZero(Prop(stats, "top_articles").value)
    ensures r.Returns? && r.value.ArticleRows? <==> exists xs :: Prop(stats, "top_articles") == Some(JArr(xs)) && |xs| > 0
    ensures r.Returns? && r.value.ArticleRows? ==> Prop(stats, "top_articles") == Some(JArr(r.value.articles))
  {
    match Prop(stats, "top_articles")
    case None => Throws(NullReadMessage)
    case Some(top) =>
      if top.JNull? then Throws(NullReadMessage)
      else if LengthIsZero(top) then Returns(NoArticlesRow)
      else if top.JArr? then Returns(ArticleRows(top.items))
      else Throws("stats.top_articles.map is not a function")
  }

  /** With nothing loaded the page shows zero totals and the single "No articles yet" row. */
  lemma NothingLoadedShowsNoArticles()
    ensures var s := Stats(JNull);
            Prop(s, "total_articles") == Some(JNum(0)) && Prop(s, "total_views") == Some(JNum(0))
            && Prop(s, "total_earnings") == Some(JNum(0))
            && TopRowsOf(s) == Returns(NoArticlesRow)
  {
  }

  /** Loaded figures with a non-empty article list show one row per article, in order. */
  lemma LoadedArticlesShowRows(data: Json, xs: seq<Json>)
    requires Prop(data, "top_articles") == Some(JArr(xs)) && |xs| > 0
    ensures TopRowsOf(Stats(data)) == Returns(ArticleRows(xs))
  {
  }
}
