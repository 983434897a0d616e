/*
 * The bookmarks page: the saved list lives in localStorage as JSON text; it
 * is normalised on every read (anything that is not an array of objects with
 * a truthy id, slug and title is dropped), and removing a bookmark writes the
 * filtered list back and shows it.
 */
module Bookmarks {
  import opened Js
  import opened Browser

  const BookmarksKey := "devlog-bookmarks"

  // ---------------------------------------------------------------------------
  // Order-preserving filtering

  /** The elements of `xs` that satisfy `keep`, in their order. */
  function Keep(xs: seq<Json>, keep: Json -> bool): seq<Json> {
    if xs == [] then [] else (if keep(xs[0]) then [xs[0]] else []) + Keep(xs[1..], keep)
  }

  /** `a` is `b` with some elements left out, the rest in their order. */
  predicate IsSubsequence(a: seq<Json>, b: seq<Json>)
    decreases |b|
  {
    if a == [] then true
    else if b == [] then false
    else (a[0] == b[0] && IsSubsequence(a[1..], b[1..])) || IsSubsequence(a, b[1..])
  }

  lemma {:induction false} KeepMembers(xs: seq<Json>, keep: Json -> bool)
    ensures forall x :: x in Keep(xs, keep) <==> x in xs && keep(x)
    decreases |xs|
  {
    if xs != [] {
      KeepMembers(xs[1..], keep);
      assert xs == [xs[0]] + xs[1..];
    }
  }

  lemma {:induction false} KeepIsSubsequence(xs: seq<Json>, keep: Json -> bool)
    ensures IsSubsequence(Keep(xs, keep), xs)
    decreases |xs|
  {
    if xs != [] {
      KeepIsSubsequence(xs[1..], keep);
      if keep(xs[0]) {
        assert Keep(xs, keep)[1..] == Keep(xs[1..], keep);
      } else {
        assert Keep(xs, keep) == Keep(xs[1..], keep);
      }
    }
  }

  lemma {:induction false} KeepAllWhenAllKept(xs: seq<Json>, keep: Json -> bool)
    requires forall x :: x in xs ==> keep(x)
    ensures Keep(xs, keep) == xs
    decreases |xs|
  {
    if xs != [] {
      assert xs[0] in xs;
      KeepAllWhenAllKept(xs[1..], keep);
    }
  }

  /** Filtering twice by the same test is filtering once. */
  lemma KeepIdempotent(xs: seq<Json>, keep: Json -> bool)
    ensures Keep(Keep(xs, keep), keep) == Keep(xs, keep)
  {
    KeepMembers(xs, keep);
    KeepAllWhenAllKept(Keep(xs, keep), keep);
  }

  // ---------------------------------------------------------------------------
  // Normalisation

  /** `typeof x === "object" && x?.id && x?.slug && x?.title` */
  predicate IsEntry(x: Json) {
    IsObjectType(x) && TruthyOpt(Prop(x, "id")) && TruthyOpt(Prop(x, "slug")) && TruthyOpt(Prop(x, "title"))
  }

  /** `.map(x => IsEntry(x) ? x : null)` */
  function MarkEntries(xs: seq<Json>): (r: seq<Json>)
    ensures |r| == |xs|
  {
    seq(|xs|, i requires 0 <= i < |xs| => if IsEntry(xs[i]) then xs[i] else JNull)
  }

  /** `.filter(Boolean)` */
  function FilterTruthy(xs: seq<Json>): seq<Json> {
    Keep(xs, Truthy)
  }

  /** The valid entries of `xs`, in order: the reference the map-then-filter chain must meet. */
  function Entries(xs: seq<Json>): seq<Json> {
    Keep(xs, IsEntry)
  }

  /** Mapping the invalid elements to null and filtering out falsy ones keeps exactly the entries, in order. */
  lemma {:induction false} MapThenFilterKeepsEntries(xs: seq<Json>)
    ensures FilterTruthy(MarkEntries(xs)) == Entries(xs)
    decreases |xs|
  {
    if xs != [] {
      assert MarkEntries(xs)[1..] == MarkEntries(xs[1..]);
      MapThenFilterKeepsEntries(xs[1..]);
    }
  }

  /** `normalizeList(raw)`: the entries of the parsed array; [] when parsing fails or gives no array. */
  function NormalizeList(raw: string, parse: string -> Option<Json>): (r: seq<Json>)
    ensures forall x :: x in r ==> IsEntry(x)
    ensures parse(raw).None? && raw != "" ==> r == []
  {
    match ParseOrEmpty(raw, parse)
    case Some(JArr(xs)) =>
      MapThenFilterKeepsEntries(xs);
      KeepMembers(xs, IsEntry);
      FilterTruthy(MarkEntries(xs))
    case _ => []
  }

  /** `normalizeList(localStorage.getItem(KEY) || "[]")`: a missing or empty item is the empty list. */
  function StoredList(stored: Option<string>, parse: string -> Option<Json>): seq<Json> {
    NormalizeList(ItemText(stored), parse)
  }

  /** The normalised list is the parsed array with the non-entries left out, in order; every entry kept as it was. */
  lemma NormalizeKeepsEntriesInOrder(raw: string, parse: string -> Option<Json>, xs: seq<Json>)
    requires raw != "" && parse(raw) == Some(JArr(xs))
    ensures NormalizeList(raw, parse) == Entries(xs)
    ensures IsSubsequence(NormalizeList(raw, parse), xs)
    ensures forall x :: x in NormalizeList(raw, parse) <==> x in xs && IsEntry(x)
  {
    MapThenFilterKeepsEntries(xs);
    KeepIsSubsequence(xs, IsEntry);
    KeepMembers(xs, IsEntry);
  }

  /** Input that parses to something other than an array is the empty list. */
  lemma NonArrayIsEmpty(raw: string, parse: string -> Option<Json>)
    requires raw != "" && parse(raw).Some? && !parse(raw).value.JArr?
    ensures NormalizeList(raw, parse) == []
  {
  }

  /** Normalising a list that is already normalised returns it unchanged. */
  lemma EntriesIdempotent(xs: seq<Json>)
    ensures Entries(Entries(xs)) == Entries(xs)
  {
    KeepIdempotent(xs, IsEntry);
  }

  // ---------------------------------------------------------------------------
  // Removal

  /**
   * `a.id !== id` is false: `id` is a primitive equal to the entry's id. An
   * object or array id read from storage is a fresh object and never identical.
   */
  predicate SameId(a: Json, id: Json) {
    Prop(a, "id") == Some(id) && !(id.JArr? || id.JObj?)
  }

  /** `list.filter(a => a.id !== id)` */
  function WithoutId(list: seq<Json>, id: Json): seq<Json> {
    Keep(list, a => !SameId(a, id))
  }

  /** After removal no entry has the id, every other entry stays, and they keep their order. */
  lemma WithoutIdSpec(list: seq<Json>, id: Json)
    ensures forall a :: a in WithoutId(list, id) <==> a in list && !SameId(a, id)
    ensures IsSubsequence(WithoutId(list, id), list)
  {
    KeepMembers(list, a => !SameId(a, id));
    KeepIsSubsequence(list, a => !SameId(a, id));
  }

  /** Removing an id no entry has leaves the list as it was. */
  lemma WithoutAbsentId(list: seq<Json>, id: Json)
    requires forall a :: a in list ==> !SameId(a, id)
    ensures WithoutId(list, id) == list
  {
    KeepAllWhenAllKept(list, a => !SameId(a, id));
  }

  class BookmarksPage {
    /** The `articles` state: the list on screen. */
    var articles: seq<Json>

    constructor ()
      ensures articles == []
    {
      articles := [];
    }

    /** The mount effect: show the stored list. */
    method Load(w: Window)
      modifies this
      ensures articles == StoredList(w.GetItem(BookmarksKey), w.json.parse)
    {
      var raw := ItemText(w.GetItem(BookmarksKey));
      articles := NormalizeList(raw, w.json.parse);
    }

    /** `removeBookmark(id)`: re-read the stored list, drop the id, write it back and show it. */
    method RemoveBookmark(w: Window, id: Json)
      modifies this, w`localStorage
      ensures articles == WithoutId(StoredList(old(w.GetItem(BookmarksKey)), w.json.parse), id)
      ensures w.localStorage == old(w.localStorage)[BookmarksKey := w.json.stringify(JArr(articles))]
    {
      var raw := ItemText(w.GetItem(BookmarksKey));
      var list := NormalizeList(raw, w.json.parse);
      var next := WithoutId(list, id);
      w.SetItem(BookmarksKey, w.json.stringify(JArr(next)));
      articles := next;
    }
  }

  /**
   * What removal writes is what it shows: reading the stored list back
   * gives exactly the list on screen, without the removed id.
   */
  lemma RemovedListReadsBack(codec: JsonCodec, stored: Option<string>, id: Json)
    requires RoundTrips(codec)
    ensures var next := WithoutId(StoredList(stored, codec.parse), id);
            StoredList(Some(codec.stringify(JArr(next))), codec.parse) == next
  {
    var list := StoredList(stored, codec.parse);
    var next := WithoutId(list, id);
    var text := codec.stringify(JArr(next));
    assert text != "" && codec.parse(text) == Some(JArr(next));
    KeepMembers(list, a => !SameId(a, id));
    MapThenFilterKeepsEntries(next);
    KeepAllWhenAllKept(next, IsEntry);
  }
}
