/*
 * The article editor: saving a draft (a title is required; the reply may
 * carry the new slug) and the AI assist (content is required; the reply's
 * improved text replaces the content). Each handler is split at its await:
 * `Begin...` is what runs on the click, `Finish...` what runs once the
 * reply `res` has arrived.
 */
module Editor {
  import opened Js
  import opened Browser
  import opened QueryClient
  import Api

  const InitialHeading := "# Introduction"
  const InitialContent := InitialHeading + "\n\nWrite your technical deep dive here..."
  const AssistInstruction := "Add a concise TL;DR (2-3 sentences) at the beginning. Keep the rest unchanged."

  const TitleRequired := Toast("Title required", "Please enter a title before saving.", true)
  const DraftSaved := Toast("Draft saved", "Your draft has been saved successfully.", false)
  const SaveFailed := Toast("Save failed", "Failed to save draft. Please try again.", true)
  const ContentRequired := Toast("Content required", "Add some content before using AI assist.", true)
  const AssistApplied := Toast("AI Assist applied", "Content updated with TL;DR.", false)
  const AssistFailed := Toast("AI Assist failed", "Failed to improve content. Please try again.", true)

  /** The message of the TypeError `content.trim()` throws when the content is not a string. */
  const TrimNotFunction := "content.trim is not a function"

  /** `{title: title.trim(), content: content || ""}` */
  function SavePayload(title: string, content: Json): Json {
    JObj(map["title" := JStr(Trim(title)), "content" := OrElse(Some(content), JStr(""))])
  }

  /**
   * A payload sent past the guard carries a non-empty title that trimming
   * leaves alone, and the content itself unless it is falsy, in which case "".
   */
  lemma SavePayloadShape(title: string, content: Json)
    requires Trim(title) != ""
    ensures var p := SavePayload(title, content).fields;
            p.Keys == {"title", "content"}
            && p["title"].JStr? && p["title"].s != "" && Trim(p["title"].s) == p["title"].s
            && (if Truthy(content) then p["content"] == content else p["content"] == JStr(""))
  {
    TrimIdempotent(title);
  }

  /** The new slug once the reply body's `slug` was read: a truthy one replaces the old. */
  function SlugAfter(current: Json, slug: Option<Json>): Json {
    if TruthyOpt(slug) then slug.value else current
  }

  /** What `handleSaveDraft` makes of the reply: the body's `slug` field, or the error it catches. */
  function SaveOutcome(res: Response, parse: string -> Option<Json>): Outcome<Option<Json>> {
    match JsonResult(res, parse)
    case Throws(m) => Throws(m)
    case Returns(data) => Member(data, "slug")
  }

  /** `!content?.trim()`: whether the content counts as blank; a content without `trim` throws. */
  function ContentBlank(content: Json): Outcome<bool> {
    match content
    case JNull => Returns(true)
    case JStr(s) => Returns(Trim(s) == "")
    case _ => Throws(TrimNotFunction)
  }

  /** `{content, instruction}` */
  function AssistPayload(content: Json): Json {
    JObj(map["content" := content, "instruction" := JStr(AssistInstruction)])
  }

  /** `data.improved_content || data.content`, then `if (improved) setContent(improved)`. */
  function ImprovedContent(current: Json, data: Json): Outcome<Json> {
    if data.JNull? then Throws(NullReadMessage)
    else
      var improved := if TruthyOpt(Prop(data, "improved_content")) then Prop(data, "improved_content") else Prop(data, "content");
      Returns(if TruthyOpt(improved) then improved.value else current)
  }

  /**
   * The improved text wins over the reply's `content`, which wins over the
   * old content; the content never turns falsy once it was truthy.
   */
  lemma ImprovedContentChoice(current: Json, data: Json)
    requires !data.JNull?
    ensures TruthyOpt(Prop(data, "improved_content")) ==> ImprovedContent(current, data) == Returns(Prop(data, "improved_content").value)
    ensures !TruthyOpt(Prop(data, "improved_content")) && TruthyOpt(Prop(data, "content")) ==> ImprovedContent(current, data) == Returns(Prop(data, "content").value)
    ensures !TruthyOpt(Prop(data, "improved_content")) && !TruthyOpt(Prop(data, "content")) ==> ImprovedContent(current, data) == Returns(current)
    ensures Truthy(current) ==> Truthy(ImprovedContent(current, data).value)
  {
  }

  /** What `handleAiAssist` makes of the reply: the new content, or the error it catches. */
  function AssistOutcome(current: Json, res: Response, parse: string -> Option<Json>): Outcome<Json> {
    match JsonResult(res, parse)
    case Throws(m) => Throws(m)
    case Returns(data) => ImprovedContent(current, data)
  }

  class EditorPage {
    var isSaving: bool
    var isAiGenerating: bool
    var title: string
    var content: Json
    var slug: Json

    constructor ()
      ensures !isSaving && !isAiGenerating && title == "" && content == JStr(InitialContent) && slug == JStr("")
    {
      isSaving := false;
      isAiGenerating := false;
      title := "";
      content := JStr(InitialContent);
      slug := JStr("");
    }

    /** `handleSaveDraft` up to its await: a blank title only warns; otherwise saving starts and the draft is posted. */
    method BeginSaveDraft(w: Window) returns (req: Option<Request>)
      modifies this`isSaving, w`toasts, w`fetches
      ensures Trim(title) == "" ==> req.None? && isSaving == old(isSaving)
      ensures Trim(title) == "" ==> w.toasts == old(w.toasts) + [TitleRequired] && w.fetches == old(w.fetches)
      ensures Trim(title) != "" ==> req.Some? && isSaving && w.toasts == old(w.toasts)
      ensures Trim(title) != "" ==> w.fetches == old(w.fetches) + [req.value]
      ensures Trim(title) != "" ==>
        IsApiRequest(req.value, "POST", Api.ArticlesCreate, Some(SavePayload(title, content)), w.GetItem(TokenKey), BaseUrl(w.env))
    {
      if |Trim(title)| == 0 {
        w.ShowToast(TitleRequired);
        return None;
      }
      isSaving := true;
      var sent := ApiSend(w, "POST", Api.ArticlesCreate, Some(SavePayload(title, content)));
      req := Some(sent);
    }

    /** `handleSaveDraft` after the reply: the slug is taken when present, one toast tells the outcome, saving ends. */
    method FinishSaveDraft(w: Window, res: Response)
      modifies this`isSaving, this`slug, w`toasts, w`localStorage, w`pathname, w`navigations
      ensures !isSaving
      ensures var outcome := SaveOutcome(res, w.json.parse);
              if outcome.Returns? then slug == SlugAfter(old(slug), outcome.value) && w.toasts == old(w.toasts) + [DraftSaved]
              else slug == old(slug) && w.toasts == old(w.toasts) + [SaveFailed]
      ensures w.localStorage == StorageAfter(res, old(w.localStorage))
      ensures w.navigations == NavigationsAfter(res, old(w.pathname), old(w.navigations))
      ensures w.pathname == PathAfter(res, old(w.pathname))
    {
      var data := ReceiveJson(w, res);
      var outcome := if data.Throws? then Throws(data.message) else Member(data.value, "slug");
      if outcome.Returns? {
        slug := SlugAfter(slug, outcome.value);
        w.ShowToast(DraftSaved);
      } else {
        w.ShowToast(SaveFailed);
      }
      isSaving := false;
    }

    /**
     * `handleAiAssist` up to its await: blank content only warns; content
     * that is not a string makes the handler reject with nothing done;
     * otherwise generation starts and the content is posted.
     */
    method BeginAiAssist(w: Window) returns (req: Option<Request>)
      modifies this`isAiGenerating, w`toasts, w`fetches
      ensures ContentBlank(content) != Returns(false) ==> req.None? && isAiGenerating == old(isAiGenerating) && w.fetches == old(w.fetches)
      ensures ContentBlank(content) == Returns(true) ==> w.toasts == old(w.toasts) + [ContentRequired]
      ensures ContentBlank(content).Throws? ==> w.toasts == old(w.toasts)
      ensures ContentBlank(content) == Returns(false) ==> req.Some? && isAiGenerating && w.toasts == old(w.toasts)
      ensures ContentBlank(content) == Returns(false) ==> w.fetches == old(w.fetches) + [req.value]
      ensures ContentBlank(content) == Returns(false) ==>
        IsApiRequest(req.value, "POST", Api.AiImprove, Some(AssistPayload(content)), w.GetItem(TokenKey), BaseUrl(w.env))
    {
      var blank := ContentBlank(content);
      if blank.Throws? {
        return None;
      }
      if blank.value {
        w.ShowToast(ContentRequired);
        return None;
      }
      isAiGenerating := true;
      var sent := ApiSend(w, "POST", Api.AiImprove, Some(AssistPayload(content)));
      req := Some(sent);
    }

    /** `handleAiAssist` after the reply: the content is replaced when the reply improves it, one toast tells the outcome, generation ends. */
    method FinishAiAssist(w: Window, res: Response)
      modifies this`isAiGenerating, this`content, w`toasts, w`localStorage, w`pathname, w`navigations
      ensures !isAiGenerating
      ensures var outcome := AssistOutcome(old(content), res, w.json.parse);
              if outcome.Returns? then content == outcome.value && w.toasts == old(w.toasts) + [AssistApplied]
              else content == old(content) && w.toasts == old(w.toasts) + [AssistFailed]
      ensures w.localStorage == StorageAfter(res, old(w.localStorage))
      ensures w.navigations == NavigationsAfter(res, old(w.pathname), old(w.navigations))
      ensures w.pathname == PathAfter(res, old(w.pathname))
    {
      var data := ReceiveJson(w, res);
      var outcome := if data.Throws? then Throws(data.message) else ImprovedContent(content, data.value);
      if outcome.Returns? {
        content := outcome.value;
        w.ShowToast(AssistApplied);
      } else {
        w.ShowToast(AssistFailed);
      }
      isAiGenerating := false;
    }
  }

  /** The assist is only ever requested for a string with visible characters. */
  lemma AssistNeedsVisibleText(content: Json)
    ensures ContentBlank(content) == Returns(false) <==> content.JStr? && !Blank(content.s)
  {
    if content.JStr? {
      TrimEmptyIffBlank(content.s);
    }
  }

  /** The initial content is not blank, so the assist is available from the start. */
  lemma InitialContentNotBlank()
    ensures ContentBlank(JStr(InitialContent)) == Returns(false)
  {
    assert !IsWhitespace(InitialContent[0]);
    TrimEmptyIffBlank(InitialContent);
  }
}
