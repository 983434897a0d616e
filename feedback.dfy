/*
 * The feedback dialog: a non-blank message is appended, with its time, to
 * the pending list kept in localStorage; the user is thanked even when the
 * stored list cannot be read, and a blank message is refused.
 */
module Feedback {
  import opened Js
  import opened Browser

  const FeedbackKey := "devlog-feedback-pending"

  const EmptyToast := Toast("Enter your feedback", "", true)
  const ThanksToast := Toast("Thank you!", "We've received your feedback.", false)

  /** `{text, at}` */
  function FeedbackEntry(text: string, at: string): Json {
    JObj(map["text" := JStr(text), "at" := JStr(at)])
  }

  /**
   * The text the `try` block writes, or None when it throws before writing:
   * the stored text does not parse, or parses to something without `push`
   * (anything but an array).
   */
  function PendingWrite(stored: Option<string>, text: string, at: string, codec: JsonCodec): (r: Option<string>)
    ensures r.Some? <==> ParseOrEmpty(ItemText(stored), codec.parse).Some? && ParseOrEmpty(ItemText(stored), codec.parse).value.JArr?
  {
    match ParseOrEmpty(ItemText(stored), codec.parse)
    case Some(JArr(pending)) => Some(codec.stringify(JArr(pending + [FeedbackEntry(text, at)])))
    case _ => None
  }

  /** The pending entries the stored text holds, [] where there is no readable array. */
  function PendingList(stored: Option<string>, parse: string -> Option<Json>): seq<Json> {
    match ParseOrEmpty(ItemText(stored), parse)
    case Some(JArr(pending)) => pending
    case _ => []
  }

  class FeedbackDialog {
    var open: bool
    var message: string

    constructor ()
      ensures !open && message == ""
    {
      open := false;
      message := "";
    }

    /** `submit()`, with `now` the current time as `toISOString` prints it. */
    method Submit(w: Window, now: string)
      modifies this, w`localStorage, w`toasts
      ensures var text := Trim(old(message));
              if |text| == 0 then
                w.localStorage == old(w.localStorage) && w.toasts == old(w.toasts) + [EmptyToast]
                && message == old(message) && open == old(open)
              else
                var write := PendingWrite(old(w.GetItem(FeedbackKey)), text, now, w.json);
                w.localStorage == (if write.Some? then old(w.localStorage)[FeedbackKey := write.value] else old(w.localStorage))
                && w.toasts == old(w.toasts) + [ThanksToast]
                && message == "" && !open
    {
      var text := Trim(message);
      if |text| == 0 {
        w.ShowToast(EmptyToast);
        return;
      }
      var write := PendingWrite(w.GetItem(FeedbackKey), text, now, w.json);
      if write.Some? {
        w.SetItem(FeedbackKey, write.value);
      }
      w.ShowToast(ThanksToast);
      message := "";
      open := false;
    }
  }

  /**
   * With a faithful JSON, a successful write appends exactly one entry, the
   * trimmed text with its time, to the pending list, keeping the ones before.
   */
  lemma SubmitAppends(codec: JsonCodec, stored: Option<string>, text: string, at: string)
    requires RoundTrips(codec)
    requires PendingWrite(stored, text, at, codec).Some?
    ensures PendingList(PendingWrite(stored, text, at, codec), codec.parse)
            == PendingList(stored, codec.parse) + [FeedbackEntry(text, at)]
  {
    var pending := PendingList(stored, codec.parse);
    var written := codec.stringify(JArr(pending + [FeedbackEntry(text, at)]));
    assert written != "" && codec.parse(written) == Some(JArr(pending + [FeedbackEntry(text, at)]));
  }

  /** A list never written before starts with this one entry. */
  lemma FirstSubmitStartsList(codec: JsonCodec, text: string, at: string)
    requires RoundTrips(codec)
    ensures PendingWrite(None, text, at, codec).Some?
    ensures PendingList(PendingWrite(None, text, at, codec), codec.parse) == [FeedbackEntry(text, at)]
  {
    SubmitAppends(codec, None, text, at);
  }

  /** Stored text that is not a JSON array is never overwritten. */
  lemma UnreadableListKept(stored: Option<string>, text: string, at: string, codec: JsonCodec)
    requires stored.Some? && stored.value != ""
    requires codec.parse(stored.value).None? || !codec.parse(stored.value).value.JArr?
    ensures PendingWrite(stored, text, at, codec).None?
  {
  }
}
