/**
 * security.py: the public URL Twilio signed, and the gates in front of the
 * signature check. The HMAC check itself (twilio's RequestValidator) is the
 * `validator` parameter: token, URL, parameters and signature in, verdict out.
 */
module Security {
  import opened Wrappers
  import opened Text

  datatype Url = Url(scheme: string, netloc: string, path: string, query: string)

  /** A request: header names are stored lower-case, as header lookup is case-insensitive. */
  datatype Request = Request(headers: map<string, string>, url: Url)

  datatype SecuritySettings = SecuritySettings(
    baseUrl: Option<string>,
    validateSignature: bool,
    authToken: Option<string>)

  /** The form as the request carries it: its fields in order, possibly repeating a name. */
  type Form = seq<(string, Option<string>)>

  type Validator = (string, string, map<string, string>, string) -> bool

  /** headers.get(name) */
  function Header(req: Request, name: string): Option<string> {
    if name in req.headers then Some(req.headers[name]) else None
  }

  /**
   * resolve_public_base_url: the configured base without trailing slashes;
   * otherwise the forwarded or own scheme and the first non-empty of the
   * forwarded host, the host header and the URL's netloc.
   */
  function ResolvePublicBaseUrl(req: Request, s: SecuritySettings): (base: string)
    ensures Truthy(s.baseUrl) ==> base == RStripSlash(s.baseUrl.value)
    ensures !Truthy(s.baseUrl) ==>
              var scheme := if "x-forwarded-proto" in req.headers then req.headers["x-forwarded-proto"]
                            else req.url.scheme;
              StartsWith(base, scheme + "://")
  {
    if Truthy(s.baseUrl) then RStripSlash(s.baseUrl.value)
    else
      var scheme := if "x-forwarded-proto" in req.headers then req.headers["x-forwarded-proto"]
                    else req.url.scheme;
      var host := if Truthy(Header(req, "x-forwarded-host")) then req.headers["x-forwarded-host"]
                  else if Truthy(Header(req, "host")) then req.headers["host"]
                  else req.url.netloc;
      var base := scheme + "://" + host;
      assert base[..|scheme + "://"|] == scheme + "://";
      base
  }

  /** The host part of the derived base: the first non-empty candidate. */
  lemma DerivedHost(req: Request, s: SecuritySettings)
    requires !Truthy(s.baseUrl)
    ensures Truthy(Header(req, "x-forwarded-host")) ==>
              EndsWith(ResolvePublicBaseUrl(req, s), "://" + req.headers["x-forwarded-host"])
    ensures !Truthy(Header(req, "x-forwarded-host")) && Truthy(Header(req, "host")) ==>
              EndsWith(ResolvePublicBaseUrl(req, s), "://" + req.headers["host"])
    ensures !Truthy(Header(req, "x-forwarded-host")) && !Truthy(Header(req, "host")) ==>
              EndsWith(ResolvePublicBaseUrl(req, s), "://" + req.url.netloc)
  {
    var base := ResolvePublicBaseUrl(req, s);
    var scheme := if "x-forwarded-proto" in req.headers then req.headers["x-forwarded-proto"]
                  else req.url.scheme;
    var host := base[|scheme| + 3..];
    assert base == scheme + ("://" + host);
    assert base[|base| - |"://" + host|..] == "://" + host;
  }

  /** A configured base URL makes the result independent of the request. */
  lemma ConfiguredBaseIgnoresRequest(r1: Request, r2: Request, s: SecuritySettings)
    requires Truthy(s.baseUrl)
    ensures ResolvePublicBaseUrl(r1, s) == ResolvePublicBaseUrl(r2, s)
  {
  }

  /** The path part of build_public_url: the given path, else the request's, with a leading "/". */
  function TargetPath(req: Request, path: Option<string>): (target: string)
    ensures target != [] && target[0] == '/'
    ensures var p := if Truthy(path) then path.value else req.url.path;
            (StartsWith(p, "/") ==> target == p) && (!StartsWith(p, "/") ==> target == "/" + p)
  {
    var p := if Truthy(path) then path.value else req.url.path;
    if StartsWith(p, "/") then p else "/" + p
  }

  /**
   * build_public_url: the base, the target path, and the request's query only
   * when no path argument was passed at all and the query is not empty.
   */
  function BuildPublicUrl(req: Request, s: SecuritySettings, path: Option<string>): (url: string)
    ensures StartsWith(url, ResolvePublicBaseUrl(req, s) + TargetPath(req, path))
    ensures path.Some? ==> url == ResolvePublicBaseUrl(req, s) + TargetPath(req, path)
    ensures path.None? && req.url.query != "" ==>
              url == ResolvePublicBaseUrl(req, s) + TargetPath(req, path) + "?" + req.url.query
    ensures path.None? && req.url.query == "" ==> url == ResolvePublicBaseUrl(req, s) + TargetPath(req, path)
  {
    var head := ResolvePublicBaseUrl(req, s) + TargetPath(req, path);
    var queryString := if path.None? then req.url.query else "";
    if queryString != "" then
      var url := head + "?" + queryString;
      assert url[..|head|] == head;
      url
    else
      assert head[..|head|] == head;
      head
  }

  /** No field after index i has the name of field i. */
  predicate LastOfName(form: Form, i: int)
    requires 0 <= i < |form|
  {
    forall j :: i < j < |form| ==> form[j].0 != form[i].0
  }

  /**
   * form.get(key): a multi-dict read, where a later field of the same name
   * overrides an earlier one, so the value of the last field with that name;
   * None when there is none.
   */
  function FormGet(form: Form, key: string): (v: Option<string>)
    ensures (forall i :: 0 <= i < |form| ==> form[i].0 != key) ==> v.None?
    ensures forall i :: 0 <= i < |form| && form[i].0 == key && LastOfName(form, i) ==> v == form[i].1
  {
    if form == [] then None
    else if form[|form| - 1].0 == key then form[|form| - 1].1
    else
      var init := form[..|form| - 1];
      var v := FormGet(init, key);
      assert forall i :: 0 <= i < |form| && form[i].0 == key && LastOfName(form, i) ==> v == form[i].1 by {
        forall i | 0 <= i < |form| && form[i].0 == key && LastOfName(form, i) ensures v == form[i].1 {
          assert i < |init| && init[i] == form[i];
          assert LastOfName(init, i) by {
            forall j | i < j < |init| ensures init[j].0 != init[i].0 {
              assert init[j] == form[j];
            }
          }
        }
      }
      assert (forall i :: 0 <= i < |form| ==> form[i].0 != key) ==> v.None? by {
        if forall i :: 0 <= i < |form| ==> form[i].0 != key {
          assert forall i :: 0 <= i < |init| ==> init[i] == form[i];
        }
      }
      v
  }

  /** Two fields of the same name: the later one wins. */
  lemma RepeatedFieldTakesLast()
    ensures FormGet([("CallSid", Some("CA1")), ("CallSid", Some("CA2"))], "CallSid") == Some("CA2")
  {
    var form: Form := [("CallSid", Some("CA1")), ("CallSid", Some("CA2"))];
    assert LastOfName(form, 1);
  }

  function FieldNames(form: Form): set<string> {
    set i | 0 <= i < |form| :: form[i].0
  }

  /** The parameters handed to the validator: every field name whose value is present, with that value. */
  function FormParams(form: Form): map<string, string> {
    map key | key in FieldNames(form) && FormGet(form, key).Some? :: FormGet(form, key).value
  }

  /**
   * The validator sees exactly the names of the form, each with the value of
   * its last field; a name whose last field has no value is dropped.
   */
  lemma FormParamsSpec(form: Form)
    ensures forall key :: key in FormParams(form) ==> key in FieldNames(form)
    ensures forall i :: 0 <= i < |form| && LastOfName(form, i) ==>
              (form[i].0 in FormParams(form) <==> form[i].1.Some?)
    ensures forall i :: 0 <= i < |form| && LastOfName(form, i) && form[i].1.Some? ==>
              FormParams(form)[form[i].0] == form[i].1.value
  {
  }

  /** The loop of validate_twilio_signature that fills the params dict. */
  method CollectParams(form: Form) returns (params: map<string, string>)
    ensures params == FormParams(form)
  {
    params := map[];
    for i := 0 to |form|
      invariant params == map key | key in FieldNames(form[..i]) && FormGet(form, key).Some? :: FormGet(form, key).value
    {
      var key := form[i].0;
      var value := FormGet(form, key);
      assert FieldNames(form[..i + 1]) == FieldNames(form[..i]) + {key} by {
        assert forall j :: 0 <= j < i + 1 ==> form[..i + 1][j] == form[j];
        assert forall j :: 0 <= j < i ==> form[..i][j] == form[j];
      }
      if value.None? {
        continue;
      }
      params := params[key := value.value];
    }
    assert form[..|form|] == form;
  }

  /** The verdict validate_twilio_signature reaches. */
  function SignatureAccepted(req: Request, form: Form, s: SecuritySettings, validator: Validator): (ok: bool)
    ensures !s.validateSignature ==> ok
    ensures s.validateSignature && !Truthy(s.authToken) ==> !ok
    ensures s.validateSignature && !Truthy(Header(req, "x-twilio-signature")) ==> !ok
    ensures s.validateSignature && Truthy(s.authToken) && Truthy(Header(req, "x-twilio-signature")) ==>
              (ok <==> validator(s.authToken.value, BuildPublicUrl(req, s, None), FormParams(form),
                                 req.headers["x-twilio-signature"]))
  {
    if !s.validateSignature then true
    else if !Truthy(s.authToken) then false
    else
      var signature := if "x-twilio-signature" in req.headers then req.headers["x-twilio-signature"] else "";
      if signature == "" then false
      else validator(s.authToken.value, BuildPublicUrl(req, s, None), FormParams(form), signature)
  }

  /** validate_twilio_signature */
  method ValidateTwilioSignature(req: Request, form: Form, s: SecuritySettings, validator: Validator)
    returns (ok: bool)
    ensures ok == SignatureAccepted(req, form, s, validator)
  {
    if !s.validateSignature {
      return true;
    }
    if !Truthy(s.authToken) {
      return false;
    }
    var signature := if "x-twilio-signature" in req.headers then req.headers["x-twilio-signature"] else "";
    if signature == "" {
      return false;
    }
    var targetUrl := BuildPublicUrl(req, s, None);
    var params := CollectParams(form);
    ok := validator(s.authToken.value, targetUrl, params, signature);
  }
}
