/**
 * The response side of CORS (section 3.2 of the WHATWG Fetch Standard) as the
 * handler implements it: which origin goes into `Access-Control-Allow-Origin`,
 * and the four headers every response carries.
 */
module Cors {
  import opened Py

  /** The primary production site, sent back to any origin the policy does not admit. */
  const DefaultOrigin := "https://smart-study-buddy-tnef.vercel.app"

  /** Origins admitted by exact match. */
  const AllowedOrigins: set<string> := {
    "http://localhost:5173",
    "http://localhost:3000",
    "http://127.0.0.1:5173",
    "https://smart-study-buddy-tnef.vercel.app",
    "https://smart-study-buddy-lemon.vercel.app",
    "https://smart-study-buddy-tan.vercel.app"
  }

  /**
   * The origin policy: a local development origin (a prefix test, so
   * `http://localhost.evil.com` passes), a listed origin, or any `https://`
   * origin under `.vercel.app`.
   */
  predicate Admitted(origin: string): (b: bool)
    ensures b ==> StartsWith(origin, "http://") || StartsWith(origin, "https://")
  {
    assert StartsWith(origin, "http://localhost") || StartsWith(origin, "http://127.0.0.1") ==>
             StartsWith(origin, "http://") by {
      if StartsWith(origin, "http://localhost") {
        PrefixOfPrefix(origin, "http://localhost", "http://");
      } else if StartsWith(origin, "http://127.0.0.1") {
        PrefixOfPrefix(origin, "http://127.0.0.1", "http://");
      }
    }
    assert origin in AllowedOrigins ==> StartsWith(origin, "http://") || StartsWith(origin, "https://");

    || StartsWith(origin, "http://localhost")
    || StartsWith(origin, "http://127.0.0.1")
    || origin in AllowedOrigins
    || (StartsWith(origin, "https://") && EndsWith(origin, ".vercel.app"))
  }

  /**
   * The request's origin: `headers` (or `{}` when it is falsy), then its
   * `origin` entry, then `Origin`, then `""`. Raises when `headers` is a truthy
   * non-object (it has no `.get`) or when the chosen value is a truthy
   * non-string (it has no `.startswith`).
   */
  function RequestOrigin(event: map<string, Json>): (r: Result<string>)
    ensures r.Ok? <==> OriginHeadersUsable(event)
    ensures var h := Get(event, "headers");
            r.Ok? && h.JObject? && Truthy(Get(h.fields, "origin")) ==> Get(h.fields, "origin") == JString(r.value)
    ensures var h := Get(event, "headers");
            r.Ok? && h.JObject? && !Truthy(Get(h.fields, "origin")) && Truthy(Get(h.fields, "Origin")) ==>
              Get(h.fields, "Origin") == JString(r.value)
    ensures var h := Get(event, "headers");
            r.Ok? && (!h.JObject? || (!Truthy(Get(h.fields, "origin")) && !Truthy(Get(h.fields, "Origin")))) ==>
              r.value == ""
  {
    var hdrs := Or(Get(event, "headers"), JObject(map[]));
    if !hdrs.JObject? then Raise(AttributeError)
    else
      var origin := Or(Or(Get(hdrs.fields, "origin"), Get(hdrs.fields, "Origin")), JString(""));
      if origin.JString? then Ok(origin.s) else Raise(AttributeError)
  }

  /** Header values as API gateways deliver them: absent or falsy, or an object whose origin entries are strings or falsy. */
  predicate OriginHeadersUsable(event: map<string, Json>)
  {
    var hdrs := Get(event, "headers");
    !Truthy(hdrs)
    || (hdrs.JObject?
        && (Truthy(Get(hdrs.fields, "origin")) ==> Get(hdrs.fields, "origin").JString?)
        && ((!Truthy(Get(hdrs.fields, "origin")) && Truthy(Get(hdrs.fields, "Origin")))
            ==> Get(hdrs.fields, "Origin").JString?))
  }

  /**
   * `_pick_allow_origin`: the request's origin when the policy admits it, else
   * the default. Whatever it returns is itself admitted.
   */
  function PickAllowOrigin(event: map<string, Json>): (r: Result<string>)
    ensures r.Ok? <==> RequestOrigin(event).Ok?
    ensures r.Ok? ==> (Admitted(RequestOrigin(event).value) ==> r.value == RequestOrigin(event).value)
    ensures r.Ok? ==> (!Admitted(RequestOrigin(event).value) ==> r.value == DefaultOrigin)
    ensures r.Ok? ==> Admitted(r.value)
  {
    match RequestOrigin(event)
    case Raise(e) => Raise(e)
    case Ok(origin) =>
      if StartsWith(origin, "http://localhost") || StartsWith(origin, "http://127.0.0.1") then Ok(origin)
      else if origin in AllowedOrigins then Ok(origin)
      else if StartsWith(origin, "https://") && EndsWith(origin, ".vercel.app") then Ok(origin)
      else Ok(DefaultOrigin)
  }

  /** `_cors_headers`: the chosen origin plus the fixed `Vary`, allowed-headers and allowed-methods entries. */
  function CorsHeaders(event: map<string, Json>): (r: Result<map<string, string>>)
    ensures r.Ok? <==> PickAllowOrigin(event).Ok?
    ensures r.Ok? ==> r.value.Keys == {"Access-Control-Allow-Origin", "Vary", "Access-Control-Allow-Headers", "Access-Control-Allow-Methods"}
    ensures r.Ok? ==> r.value["Access-Control-Allow-Origin"] == PickAllowOrigin(event).value
    ensures r.Ok? ==> r.value["Vary"] == "Origin"
    ensures r.Ok? ==> r.value["Access-Control-Allow-Headers"] == "Content-Type, Authorization"
    ensures r.Ok? ==> r.value["Access-Control-Allow-Methods"] == "OPTIONS,POST,GET"
  {
    match PickAllowOrigin(event)
    case Raise(e) => Raise(e)
    case Ok(allow) =>
      Ok(map[
        "Access-Control-Allow-Origin" := allow,
        "Vary" := "Origin",
        "Access-Control-Allow-Headers" := "Content-Type, Authorization",
        "Access-Control-Allow-Methods" := "OPTIONS,POST,GET"
      ])
  }

  /** An event whose headers carry exactly one string entry. */
  function EventWithHeader(name: string, value: string): map<string, Json>
  {
    map["headers" := JObject(map[name := JString(value)])]
  }

  /** The lower-case `origin` header wins over `Origin` whenever it is non-empty. */
  lemma LowerCaseOriginFirst(event: map<string, Json>, hdrs: map<string, Json>, lower: string)
    requires Get(event, "headers") == JObject(hdrs)
    requires Get(hdrs, "origin") == JString(lower) && lower != ""
    ensures PickAllowOrigin(event) == PickAllowOrigin(EventWithHeader("origin", lower))
  {
  }

  /** With no usable header the request counts as origin `""`, which is refused: the default comes back. */
  lemma NoOriginGetsDefault(event: map<string, Json>)
    requires !Truthy(Get(event, "headers"))
    ensures PickAllowOrigin(event) == Ok(DefaultOrigin)
  {
    assert !Admitted("") by {
      assert !StartsWith("", "http://localhost");
      assert !StartsWith("", "http://127.0.0.1");
      assert !StartsWith("", "https://");
    }
  }

  /** Picking is idempotent: a request from the origin that was picked gets that same origin back. */
  lemma PickIsIdempotent(event: map<string, Json>)
    requires PickAllowOrigin(event).Ok?
    ensures PickAllowOrigin(EventWithHeader("origin", PickAllowOrigin(event).value)) == PickAllowOrigin(event)
  {
  }

  /** A Vercel preview deployment is echoed back. */
  lemma PreviewDeploymentEchoed()
    ensures PickAllowOrigin(EventWithHeader("Origin", "https://preview-123.vercel.app")) == Ok("https://preview-123.vercel.app")
  {
    var o := "https://preview-123.vercel.app";
    assert StartsWith(o, "https://") && EndsWith(o, ".vercel.app");
  }

  /** A foreign site is not admitted by any clause of the policy. */
  lemma ForeignSiteRefused()
    ensures !Admitted("https://evil.com")
  {
    var o := "https://evil.com";
    assert !StartsWith(o, "http://localhost") by { assert o[4] != "http://localhost"[4]; }
    assert !StartsWith(o, "http://127.0.0.1") by { assert o[4] != "http://127.0.0.1"[4]; }
    assert o !in AllowedOrigins by { assert |o| == 16; }
    assert !EndsWith(o, ".vercel.app") by { assert o[|o| - 1] == 'm'; }
  }

  /** A foreign site is not echoed: it receives the default origin. */
  lemma ForeignSiteGetsDefault()
    ensures PickAllowOrigin(EventWithHeader("Origin", "https://evil.com")) == Ok(DefaultOrigin)
  {
    ForeignSiteRefused();
    assert RequestOrigin(EventWithHeader("Origin", "https://evil.com")) == Ok("https://evil.com") by {
      assert "origin" != "Origin" by { assert "origin"[0] != "Origin"[0]; }
    }
  }

  /** The localhost test is a bare prefix test: a look-alike host under another domain is echoed too. */
  lemma LocalhostLookAlikeEchoed()
    ensures PickAllowOrigin(EventWithHeader("origin", "http://localhost.evil.com")) == Ok("http://localhost.evil.com")
  {
    assert StartsWith("http://localhost.evil.com", "http://localhost");
  }
}
