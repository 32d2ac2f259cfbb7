/**
 * Where each call goes: the URL `_request` builds, the request each public
 * operation issues (or the result it returns without issuing one), and the
 * result of performing it.
 */
module Endpoints {
  import opened Wrappers
  import opened Json
  import opened Text
  import opened Results

  /** The part of `CheckboxConfig` that shapes URLs. */
  datatype Config = Config(apiUrl: string, apiVersion: string)

  /** The versioned API root, `api_url + api_version`. */
  function Root(cfg: Config): string
  {
    cfg.apiUrl + cfg.apiVersion
  }

  /**
   * The URL of an endpoint: the root, exactly one `/`, and the endpoint with
   * its leading slashes removed.
   */
  function RequestUrl(cfg: Config, endpoint: string): (url: string)
    ensures |url| > |Root(cfg)| && url[..|Root(cfg)|] == Root(cfg) && url[|Root(cfg)|] == '/'
    ensures url[|Root(cfg)| + 1..] == LStripSlashes(endpoint)
    ensures |url| == |Root(cfg)| + 1 || url[|Root(cfg)| + 1] != '/'
  {
    var root, rest := Root(cfg), LStripSlashes(endpoint);
    var url := root + "/" + rest;
    assert url[..|root|] == root;
    assert url[|root| + 1..] == rest;
    assert |url| > |root| + 1 ==> url[|root| + 1] == rest[0];
    url
  }

  /** Any number of leading slashes on the endpoint gives the same URL. */
  lemma UrlIgnoresLeadingSlashes(cfg: Config, k: nat, endpoint: string)
    ensures RequestUrl(cfg, Slashes(k) + endpoint) == RequestUrl(cfg, endpoint)
  {
    LStripIgnoresSlashes(k, endpoint);
  }

  /** An endpoint written without a leading slash is appended unchanged. */
  lemma UrlOfPlainEndpoint(cfg: Config, endpoint: string)
    requires endpoint == [] || endpoint[0] != '/'
    ensures RequestUrl(cfg, endpoint) == cfg.apiUrl + cfg.apiVersion + "/" + endpoint
  {
  }

  datatype Method = Get | Post

  /**
   * What an operation does: send one request (endpoint relative to the API
   * root, per-call headers, JSON body), or return a result at once without
   * any request.
   */
  datatype Action =
    | Send(verb: Method, endpoint: string, headers: map<string, string>, body: Json)
    | Immediate(result: Result)

  /** The result of an action, given what the transport does with its request. */
  function Perform(a: Action, transport: Outcome): (r: Result)
    ensures a.Immediate? ==> r == a.result
    ensures a.Send? ==> r == Normalise(transport)
  {
    match a
    case Immediate(r) => r
    case Send(_, _, _, _) => Normalise(transport)
  }

  /** An operation that returns at once ignores the transport entirely. */
  lemma ImmediateIgnoresTransport(a: Action, o1: Outcome, o2: Outcome)
    requires a.Immediate?
    ensures Perform(a, o1) == Perform(a, o2)
  {
  }

  /** The client-side validation failure: status 400, "Bad request", `{"detail": detail}`. */
  function BadRequest(detail: string): (r: Result)
    ensures !r.success && r.status == 400 && r.error == Some(BadRequestLabel)
    ensures r.errorDescription == Some(JStr(BadRequestLabel))
    ensures r.data == Single("detail", JStr(detail))
  {
    Error(400, BadRequestLabel, Some(Single("detail", JStr(detail))))
  }

  /** `json=body or {}`: a call without a body sends the empty object. */
  const NoBody: Json := JObj(map[])

  function Bearer(token: string): (h: map<string, string>)
    ensures h.Keys == {"Authorization"} && h["Authorization"] == "Bearer " + token
  {
    map["Authorization" := "Bearer " + token]
  }

  function LicensedBearer(licenseKey: string, token: string): (h: map<string, string>)
    ensures h.Keys == {"X-License-Key", "Authorization"}
    ensures h["X-License-Key"] == licenseKey && h["Authorization"] == "Bearer " + token
  {
    map["X-License-Key" := licenseKey, "Authorization" := "Bearer " + token]
  }

  /** Python's `not s` for an optional string argument. */
  predicate Blank(s: Option<string>)
  {
    s.None? || s.value == ""
  }

  /**
   * `cashier_signin`: both credentials must be present and non-empty;
   * otherwise a bad-request result is returned and nothing is sent.
   */
  function CashierSignin(login: Option<string>, password: Option<string>): (a: Action)
    ensures a.Immediate? <==> Blank(login) || Blank(password)
    ensures a.Immediate? ==> a.result == BadRequest("login and password are required")
    ensures a.Send? ==> a.verb == Post && a.endpoint == "cashier/signin" && a.headers == map[]
    ensures a.Send? ==> a.body == JObj(map["login" := JStr(login.value), "password" := JStr(password.value)])
  {
    if Blank(login) || Blank(password) then Immediate(BadRequest("login and password are required"))
    else Send(Post, "cashier/signin", map[], JObj(map["login" := JStr(login.value), "password" := JStr(password.value)]))
  }

  /** A rejected sign-in is a 400 "Bad request" whatever the transport would have done. */
  lemma SigninRejectedLocally(login: Option<string>, password: Option<string>, transport: Outcome)
    requires Blank(login) || Blank(password)
    ensures Perform(CashierSignin(login, password), transport).status == 400
    ensures Perform(CashierSignin(login, password), transport).error == Some(BadRequestLabel)
  {
  }

  /** `open_shift`, with the fresh shift id passed in. */
  function OpenShift(licenseKey: string, token: string, shiftId: string): (a: Action)
    ensures a.Send? && a.verb == Post && a.endpoint == "shifts"
    ensures a.headers == LicensedBearer(licenseKey, token) && a.body == Single("id", JStr(shiftId))
  {
    Send(Post, "shifts", LicensedBearer(licenseKey, token), Single("id", JStr(shiftId)))
  }

  /** `status_shift`: a read, carrying only the bearer token and no body. */
  function StatusShift(token: string, shiftId: string): (a: Action)
    ensures a.Send? && a.verb == Get && a.endpoint == "shifts/" + shiftId
    ensures a.headers == Bearer(token) && a.body == NoBody
  {
    Send(Get, "shifts/" + shiftId, Bearer(token), NoBody)
  }

  /** `close_shift`: licence key and bearer token, no body. */
  function CloseShift(licenseKey: string, token: string, shiftId: string): (a: Action)
    ensures a.Send? && a.verb == Post && a.endpoint == "shifts/" + shiftId + "/close"
    ensures a.headers == LicensedBearer(licenseKey, token) && a.body == NoBody
  {
    Send(Post, "shifts/" + shiftId + "/close", LicensedBearer(licenseKey, token), NoBody)
  }

  /** The shift of a status or close request is addressed under `<root>/shifts/`. */
  lemma ShiftUrls(cfg: Config, licenseKey: string, token: string, shiftId: string)
    ensures RequestUrl(cfg, StatusShift(token, shiftId).endpoint) == Root(cfg) + "/shifts/" + shiftId
    ensures RequestUrl(cfg, CloseShift(licenseKey, token, shiftId).endpoint) == Root(cfg) + "/shifts/" + shiftId + "/close"
  {
    UrlOfPlainEndpoint(cfg, "shifts/" + shiftId);
    UrlOfPlainEndpoint(cfg, "shifts/" + shiftId + "/close");
  }
}
