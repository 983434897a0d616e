/*
 * The browser as the client sees it: `localStorage` (a map from keys to
 * strings), the current path and every navigation, the requests handed to
 * `fetch`, the toasts shown, and the JSON implementation. Network replies
 * are inputs: a `Response` is what `fetch` resolved to.
 */
module Browser {
  import opened Js

  /** What `apiRequest` hands to `fetch`: method, full URL, headers, and the value `JSON.stringify` serialises as the body. */
  datatype Request = Request(verb: string, url: string, headers: map<string, string>, body: Option<Json>)

  /** What `fetch` resolved to: status, status text and the body text. */
  datatype Response = Response(status: nat, statusText: string, body: string)

  datatype Toast = Toast(title: string, description: string, destructive: bool)

  /** `JSON.parse` (None where it throws) and `JSON.stringify`. */
  datatype JsonCodec = JsonCodec(parse: string -> Option<Json>, stringify: Json -> string)

  /**
   * What holds of the browser's JSON for the values `Json` can express:
   * stringifying never gives "" and parsing the text gives the value back.
   */
  ghost predicate RoundTrips(codec: JsonCodec) {
    forall v :: codec.stringify(v) != "" && codec.parse(codec.stringify(v)) == Some(v)
  }

  /** `getItem(key)` on a storage map, None standing for null. */
  function ItemOf(storage: map<string, string>, key: string): Option<string> {
    if key in storage then Some(storage[key]) else None
  }

  /** A stored item as text for `||`: a missing item, like "", is falsy. */
  function ItemText(stored: Option<string>): string {
    if stored.Some? then stored.value else ""
  }

  /** `JSON.parse(raw || "[]")`, where "[]" parses to the empty array and None stands for a throw. */
  function ParseOrEmpty(raw: string, parse: string -> Option<Json>): Option<Json> {
    if raw == "" then Some(JArr([])) else parse(raw)
  }

  /** The `window` object with the parts of it the client reads and writes. */
  class Window {
    /** `import.meta.env`: build-time settings. */
    const env: map<string, string>
    const json: JsonCodec
    var localStorage: map<string, string>
    var pathname: string
    /** Every navigation, client-side (`setLocation`) or by assigning `location.href`, in order. */
    var navigations: seq<string>
    /** Every request handed to `fetch`, in order. */
    var fetches: seq<Request>
    var toasts: seq<Toast>

    constructor (env: map<string, string>, json: JsonCodec, storage: map<string, string>, pathname: string)
      ensures this.env == env && this.json == json
      ensures localStorage == storage && this.pathname == pathname
      ensures navigations == [] && fetches == [] && toasts == []
    {
      this.env := env;
      this.json := json;
      localStorage := storage;
      this.pathname := pathname;
      navigations := [];
      fetches := [];
      toasts := [];
    }

    /** `localStorage.getItem(key)`, None standing for null. */
    function GetItem(key: string): Option<string>
      reads this`localStorage
    {
      ItemOf(localStorage, key)
    }

    method SetItem(key: string, value: string)
      modifies this`localStorage
      ensures localStorage == old(localStorage)[key := value]
    {
      localStorage := localStorage[key := value];
    }

    method RemoveItem(key: string)
      modifies this`localStorage
      ensures localStorage == old(localStorage) - {key}
    {
      localStorage := localStorage - {key};
    }

    method Navigate(path: string)
      modifies this`pathname, this`navigations
      ensures pathname == path && navigations == old(navigations) + [path]
    {
      pathname := path;
      navigations := navigations + [path];
    }

    method Fetch(req: Request)
      modifies this`fetches
      ensures fetches == old(fetches) + [req]
    {
      fetches := fetches + [req];
    }

    method ShowToast(t: Toast)
      modifies this`toasts
      ensures toasts == old(toasts) + [t]
    {
      toasts := toasts + [t];
    }
  }
}
