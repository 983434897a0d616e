/*
 * The client's logger: four ordered levels, a current level chosen once from
 * the build environment, and a shallow redaction of secrets in the payload
 * before it reaches the console.
 */
module Logger {
  import opened Js

  datatype Level = Debug | Info | Warn | Error

  /** `LEVELS[l]` */
  function Rank(l: Level): nat {
    match l
    case Debug => 10
    case Info => 20
    case Warn => 30
    case Error => 40
  }

  function Name(l: Level): string {
    match l
    case Debug => "debug"
    case Info => "info"
    case Warn => "warn"
    case Error => "error"
  }

  /** `name in LEVELS`, for the four level names only. */
  function ParseLevel(name: string): (r: Option<Level>)
    ensures r.Some? ==> Name(r.value) == name
  {
    if name == "debug" then Some(Debug)
    else if name == "info" then Some(Info)
    else if name == "warn" then Some(Warn)
    else if name == "error" then Some(Error)
    else None
  }

  /** The ranks order the levels strictly, and a level is fixed by its rank. */
  lemma RanksStrictlyOrdered(a: Level, b: Level)
    ensures Rank(Debug) < Rank(Info) < Rank(Warn) < Rank(Error)
    ensures Rank(a) == Rank(b) ==> a == b
  {
  }

  /** Every level name parses back to its level. */
  lemma NameRoundTrip(l: Level)
    ensures ParseLevel(Name(l)) == Some(l)
  {
  }

  /** `CURRENT_LEVEL`: the lower-cased `VITE_LOG_LEVEL` when it names a level, else info. */
  function CurrentLevel(env: map<string, string>): (l: Level)
    ensures "VITE_LOG_LEVEL" !in env ==> l == Info
    ensures "VITE_LOG_LEVEL" in env && ParseLevel(ToLower(env["VITE_LOG_LEVEL"])).None? ==> l == Info
    ensures "VITE_LOG_LEVEL" in env && ParseLevel(ToLower(env["VITE_LOG_LEVEL"])).Some? ==>
            l == ParseLevel(ToLower(env["VITE_LOG_LEVEL"])).value
    ensures l != Info ==> "VITE_LOG_LEVEL" in env && Name(l) == ToLower(env["VITE_LOG_LEVEL"])
  {
    if "VITE_LOG_LEVEL" in env then
      var lowered := ToLower(env["VITE_LOG_LEVEL"]);
      match ParseLevel(lowered)
      case Some(l) => l
      case None => Info
    else Info
  }

  /** Level names are already lower case. */
  lemma NameIsLowerCase(l: Level)
    ensures ToLower(Name(l)) == Name(l)
  {
    var n := Name(l);
    assert forall i :: 0 <= i < |n| ==> !('A' <= n[i] <= 'Z');
    assert forall i :: 0 <= i < |n| ==> ToLower(n)[i] == n[i];
  }

  /**
   * Any spelling of a level name selects that level: `VITE_LOG_LEVEL=warn`
   * (or "WARN", "Warn") gives warn, and a level's own name gives it back.
   */
  lemma CurrentLevelSelectsNamedLevel(l: Level, setting: string)
    requires ToLower(setting) == Name(l)
    ensures CurrentLevel(map["VITE_LOG_LEVEL" := setting]) == l
    ensures CurrentLevel(map["VITE_LOG_LEVEL" := Name(l)]) == l
  {
    NameRoundTrip(l);
    NameIsLowerCase(l);
  }

  /** An upper-case setting is accepted: "WARN" selects warn. */
  lemma UpperCaseSettingAccepted()
    ensures CurrentLevel(map["VITE_LOG_LEVEL" := "WARN"]) == Warn
  {
    assert ToLower("WARN") == "warn";
    CurrentLevelSelectsNamedLevel(Warn, "WARN");
  }

  /** `shouldLog(level)` */
  predicate ShouldLog(level: Level, current: Level) {
    Rank(level) >= Rank(current)
  }

  /** Whatever is logged at one level is logged at every higher level, and errors always are. */
  lemma ShouldLogMonotone(l: Level, m: Level, current: Level)
    requires ShouldLog(l, current) && Rank(l) <= Rank(m)
    ensures ShouldLog(m, current)
    ensures ShouldLog(Error, current)
  {
  }

  // ---------------------------------------------------------------------------
  // Redaction

  const RedactKeys: set<string> := {"password", "confirmPassword", "token"}
  const Redacted := "***redacted***"

  /** The value a top-level key carries after redaction. */
  function RedactedValue(key: string, v: Json): Json {
    if key in RedactKeys then JStr(Redacted) else v
  }

  /**
   * What `sanitizePayload` returns: falsy values and non-objects as they
   * are, arrays as a copy (their keys are indices, never secret), objects
   * as a copy whose secret top-level keys hold the marker.
   */
  function Sanitized(payload: Json): Json {
    if payload.JObj? then JObj(map k | k in payload.fields :: RedactedValue(k, payload.fields[k]))
    else payload
  }

  /**
   * `sanitizePayload`: copy the payload, then overwrite each secret key met
   * while walking `Object.keys` of the copy.
   */
  method SanitizePayload(payload: Json) returns (r: Json)
    ensures r == Sanitized(payload)
  {
    if !Truthy(payload) || !IsObjectType(payload) {
      return payload;
    }
    if payload.JArr? {
      return JArr(payload.items);
    }
    var clone := payload.fields;
    var keys := clone.Keys;
    while keys != {}
      invariant keys <= payload.fields.Keys
      invariant clone.Keys == payload.fields.Keys
      invariant forall k :: k in clone ==> clone[k] == if k in keys then payload.fields[k] else RedactedValue(k, payload.fields[k])
      decreases keys
    {
      var k :| k in keys;
      if k in RedactKeys {
        clone := clone[k := JStr(Redacted)];
      }
      keys := keys - {k};
    }
    r := JObj(clone);
  }

  /** Redaction keeps every key, marks exactly the secret ones, and leaves every other value as it was, nested secrets included. */
  lemma SanitizedShape(payload: Json)
    requires payload.JObj?
    ensures Sanitized(payload).JObj?
    ensures Sanitized(payload).fields.Keys == payload.fields.Keys
    ensures forall k :: k in payload.fields && k in RedactKeys ==> Sanitized(payload).fields[k] == JStr(Redacted)
    ensures forall k :: k in payload.fields && k !in RedactKeys ==> Sanitized(payload).fields[k] == payload.fields[k]
  {
  }

  /** Non-objects, null and arrays pass through unchanged. */
  lemma SanitizedPassesNonObjects(payload: Json)
    requires !payload.JObj?
    ensures Sanitized(payload) == payload
  {
  }

  /** Sanitising a sanitised payload changes nothing. */
  lemma SanitizedIdempotent(payload: Json)
    ensures Sanitized(Sanitized(payload)) == Sanitized(payload)
  {
    if payload.JObj? {
      var once := Sanitized(payload).fields;
      var twice := Sanitized(Sanitized(payload)).fields;
      assert twice.Keys == once.Keys;
      forall k | k in once ensures twice[k] == once[k] {
      }
    }
  }

  /** A console line: the level, the "[app]" tag, the message and the sanitised context. */
  datatype LogLine = LogLine(level: Level, tag: string, message: string, context: Json)

  /** `logger.<level>(message, context)`: nothing below the current level, else one sanitised line. */
  function Log(level: Level, current: Level, message: string, context: Json): (r: Option<LogLine>)
    ensures r.Some? <==> ShouldLog(level, current)
    ensures r.Some? ==> r.value.context == Sanitized(context) && r.value.message == message
    ensures r.Some? ==> r.value.level == level && r.value.tag == "[app]"
  {
    if !ShouldLog(level, current) then None
    else Some(LogLine(level, "[app]", message, Sanitized(context)))
  }

  /** A logged context never shows a top-level password, confirmation or token. */
  lemma LoggedContextHidesSecrets(level: Level, current: Level, message: string, context: Json, k: string)
    requires Log(level, current, message, context).Some?
    requires context.JObj? && k in context.fields && k in RedactKeys
    ensures Log(level, current, message, context).value.context.fields[k] == JStr(Redacted)
  {
  }
}
