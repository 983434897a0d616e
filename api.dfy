/*
 * The backend paths the client calls: fixed paths under "/api" and
 * builders that append an article slug or a numeric id.
 */
module Api {
  import opened Js

  const Prefix := "/api"

  const AuthLogin := Prefix + "/auth/login"
  const AuthRegister := Prefix + "/auth/register"
  const AuthGoogleLogin := Prefix + "/auth/google-login"
  const AuthOtpSend := Prefix + "/auth/otp/send"
  const AuthOtpVerify := Prefix + "/auth/otp/verify"
  const AuthMe := Prefix + "/auth/me"
  const AuthUpdateMe := Prefix + "/auth/me"

  const ArticlesList := Prefix + "/articles/"
  const ArticlesCreate := Prefix + "/articles/"

  function ArticleGet(slug: string): string { Prefix + "/articles/" + slug }
  function ArticleUpdate(slug: string): string { Prefix + "/articles/" + slug }
  function ArticlePatch(slug: string): string { Prefix + "/articles/" + slug }
  function ArticleDelete(slug: string): string { Prefix + "/articles/" + slug }
  function ArticlePublish(slug: string): string { Prefix + "/articles/" + slug + "/publish" }
  function ArticleUnpublish(slug: string): string { Prefix + "/articles/" + slug + "/unpublish" }
  function ArticleRelated(slug: string): string { Prefix + "/articles/" + slug + "/related" }
  function ArticleCrosspost(slug: string): string { Prefix + "/articles/" + slug + "/crosspost" }

  const AiTldr := Prefix + "/ai/tldr"
  const AiExplain := Prefix + "/ai/explain"
  const AiImprove := Prefix + "/ai/improve"
  const AiSeo := Prefix + "/ai/seo"
  const AiDiagram := Prefix + "/ai/diagram"
  const AiUsage := Prefix + "/ai/usage"

  const BillingSubscribe := Prefix + "/billing/subscribe"
  const BillingCancel := Prefix + "/billing/cancel"
  const BillingResume := Prefix + "/billing/resume"
  const BillingUpgrade := Prefix + "/billing/upgrade"
  const BillingPortal := Prefix + "/billing/portal"
  const BillingStatus := Prefix + "/billing/status"

  /** `${API_PREFIX}/analytics/article/${id}` */
  function AnalyticsArticleStats(id: int): string { Prefix + "/analytics/article/" + IntToString(id) }
  const AnalyticsCodeCopy := Prefix + "/analytics/code-copy"
  const AnalyticsCreatorDashboard := Prefix + "/analytics/creator/dashboard"
  const AnalyticsPlatform := Prefix + "/analytics/platform"
  const AnalyticsReadingProgress := Prefix + "/analytics/reading-progress"
  const AnalyticsRecommendations := Prefix + "/analytics/recommendations"
  const AnalyticsTrending := Prefix + "/analytics/trending"

  /** Every fixed path of the table, in its order. */
  function FixedPaths(): seq<string> {
    [ AuthLogin, AuthRegister, AuthGoogleLogin, AuthOtpSend, AuthOtpVerify, AuthMe, AuthUpdateMe,
      ArticlesList, ArticlesCreate,
      AiTldr, AiExplain, AiImprove, AiSeo, AiDiagram, AiUsage,
      BillingSubscribe, BillingCancel, BillingResume, BillingUpgrade, BillingPortal, BillingStatus,
      AnalyticsCodeCopy, AnalyticsCreatorDashboard, AnalyticsPlatform, AnalyticsReadingProgress,
      AnalyticsRecommendations, AnalyticsTrending ]
  }

  predicate UnderPrefix(path: string) {
    |path| >= |Prefix| && path[..|Prefix|] == Prefix
  }

  /** Every fixed path lies under "/api/". */
  lemma FixedPathsUnderPrefix()
    ensures forall p :: p in FixedPaths() ==> UnderPrefix(p) && p[|Prefix|] == '/'
  {
  }

  /** Every path built from any slug or id lies under "/api". */
  lemma BuiltPathsUnderPrefix(slug: string, id: int)
    ensures UnderPrefix(ArticleGet(slug)) && UnderPrefix(ArticleUpdate(slug))
    ensures UnderPrefix(ArticlePatch(slug)) && UnderPrefix(ArticleDelete(slug))
    ensures UnderPrefix(ArticlePublish(slug)) && UnderPrefix(ArticleUnpublish(slug))
    ensures UnderPrefix(ArticleRelated(slug)) && UnderPrefix(ArticleCrosspost(slug))
    ensures UnderPrefix(AnalyticsArticleStats(id))
  {
  }

  /** The read, update, patch and delete builders address one resource; the two pairs of equal constants coincide. */
  lemma SameResourcePaths(slug: string)
    ensures ArticleUpdate(slug) == ArticleGet(slug)
    ensures ArticlePatch(slug) == ArticleGet(slug)
    ensures ArticleDelete(slug) == ArticleGet(slug)
    ensures AuthMe == AuthUpdateMe && ArticlesList == ArticlesCreate
  {
  }

  /** The action builders are the article path with the action appended. */
  lemma ActionPathsExtendArticlePath(slug: string)
    ensures ArticlePublish(slug) == ArticleGet(slug) + "/publish"
    ensures ArticleUnpublish(slug) == ArticleGet(slug) + "/unpublish"
    ensures ArticleRelated(slug) == ArticleGet(slug) + "/related"
    ensures ArticleCrosspost(slug) == ArticleGet(slug) + "/crosspost"
  {
  }

  lemma {:induction false} PrefixCancels(p: string, a: string, b: string)
    requires p + a == p + b
    ensures a == b
  {
    assert a == (p + a)[|p|..];
    assert b == (p + b)[|p|..];
  }

  lemma {:induction false} SuffixCancels(a: string, b: string, q: string)
    requires a + q == b + q
    ensures a == b
  {
    assert |a| == |b|;
    assert a == (a + q)[..|a|];
    assert b == (b + q)[..|b|];
  }

  /** Distinct slugs give distinct paths, for every slug builder. */
  lemma SlugBuildersInjective(s: string, t: string)
    ensures ArticleGet(s) == ArticleGet(t) ==> s == t
    ensures ArticlePublish(s) == ArticlePublish(t) ==> s == t
    ensures ArticleUnpublish(s) == ArticleUnpublish(t) ==> s == t
    ensures ArticleRelated(s) == ArticleRelated(t) ==> s == t
    ensures ArticleCrosspost(s) == ArticleCrosspost(t) ==> s == t
  {
    var base := Prefix + "/articles/";
    if ArticleGet(s) == ArticleGet(t) {
      PrefixCancels(base, s, t);
    }
    var actions := ["/publish", "/unpublish", "/related", "/crosspost"];
    forall q | q in actions && base + s + q == base + t + q
      ensures s == t
    {
      SuffixCancels(base + s, base + t, q);
      PrefixCancels(base, s, t);
    }
  }

  /** Distinct ids give distinct statistics paths. */
  lemma ArticleStatsInjective(i: int, j: int)
    requires AnalyticsArticleStats(i) == AnalyticsArticleStats(j)
    ensures i == j
  {
    PrefixCancels(Prefix + "/analytics/article/", IntToString(i), IntToString(j));
    IntToStringInjective(i, j);
  }

  /**
   * The builders are not prefix-free: the action path of a slug is the
   * plain path of a longer slug that contains a '/'.
   */
  lemma ActionPathIsArticlePathOfLongerSlug(slug: string)
    ensures ArticlePublish(slug) == ArticleGet(slug + "/publish")
  {
  }
}
