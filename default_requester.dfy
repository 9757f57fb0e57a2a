/** The stand-alone requester of src/easy-requester.ts, whose module exports one shared instance.
    `setConfig` overwrites the instance's fields one by one and validates only afterwards, so a
    rejected configuration has already replaced the previous one. Header generation, URL
    generation and validation only read the fields; they are functions of `Settings`, the
    snapshot of those fields. */
module DefaultInstance {
  import opened Js
  import Generator
  import Generators
  import Validator

  /** The fields `setConfig` writes, as a value. */
  datatype Settings = Settings(
    protocol: Value, baseURL: Value, port: Value, endpoint: Value, httpMethod: Value,
    headers: Value, contentType: Value, accessToken: Value, includeCookies: Value,
    responseLang: Value, statusCodes: seq<int>, query: Value, payload: Value,
    additionalOptions: Value)

  /** The argument of `setConfig`; `statusCodes` is `None` when absent or `null`. */
  datatype Config = Config(
    protocol: Value, baseURL: Value, port: Value, endpoint: Value, httpMethod: Value,
    headers: Value, contentType: Value, accessToken: Value, includeCookies: Value,
    responseLang: Value, statusCodes: Option<seq<int>>, query: Value, payload: Value,
    additionalOptions: Value)

  /** This file's own wording of the protocol guard; the other six messages are the validator's. */
  const ProtocolMessage := "[EasyRequester_ERROR] Protocol should be 'http' or 'https'."

  /** The settings the constructor leaves: https, POST, JSON, an empty `{route, controller}`
      endpoint, and empty base URL, token, language, status codes, payload and headers. */
  function Initial(): Settings
  {
    Settings(Str("https"), Str(""), Undefined, Obj([("route", Str("")), ("controller", Str(""))]), Str("POST"),
             Obj([]), Str(Generator.DefaultContentType), Str(""), Bool(false), Str(""), [], Undefined, Obj([]), Obj([]))
  }

  /** generateHeaders: custom headers first, then `Content-Type` (the content type when truthy,
      otherwise `application/json`), then `Authorization` and `Accept-Language` for truthy inputs. */
  function GenerateHeaders(p: Generator.HeaderParams): (h: map<string, Value>)
    ensures "Content-Type" in h && h["Content-Type"] == if Truthy(p.contentType) then p.contentType else Str(Generator.DefaultContentType)
    ensures Truthy(p.accessToken) ==> "Authorization" in h && h["Authorization"] == Str("Bearer " + JsString(p.accessToken))
    ensures !Truthy(p.accessToken) ==>
      ("Authorization" in h <==> "Authorization" in Spread(p.customHeaders)) &&
      ("Authorization" in h ==> h["Authorization"] == Spread(p.customHeaders)["Authorization"])
    ensures Truthy(p.responseLang) ==> "Accept-Language" in h && h["Accept-Language"] == p.responseLang
    ensures !Truthy(p.responseLang) ==>
      ("Accept-Language" in h <==> "Accept-Language" in Spread(p.customHeaders)) &&
      ("Accept-Language" in h ==> h["Accept-Language"] == Spread(p.customHeaders)["Accept-Language"])
    ensures forall k :: !Generator.IsReservedHeader(k) ==>
      (k in h <==> k in Spread(p.customHeaders)) && (k in h ==> h[k] == Spread(p.customHeaders)[k])
  {
    var contentType := if Truthy(p.contentType) then p.contentType else Str(Generator.DefaultContentType);
    Generator.GenerateHeaders(p.(contentType := contentType))
  }

  function HeaderParamsOf(s: Settings): Generator.HeaderParams
  {
    Generator.HeaderParams(s.contentType, s.responseLang, s.headers, s.accessToken)
  }

  function UrlParamsOf(s: Settings): Generator.UrlParams
  {
    Generator.UrlParams(s.protocol, s.baseURL, s.port, s.endpoint, s.query)
  }

  function ValidatorParamsOf(s: Settings): Validator.ValidatorParams
  {
    Validator.ValidatorParams(s.protocol, s.baseURL, s.port, s.endpoint, s.contentType, s.responseLang, s.accessToken)
  }

  /** generateURL: origin, the endpoint as src/utils/generators.ts builds it, then always "?",
      followed by the serialized query when one is given. Compared with generators.ts, the URL is
      the same when a query is given and carries one extra trailing "?" when none is. */
  function GenerateURL(s: Settings, encodeQuery: Value -> string): (r: Result<string, Exception>)
    ensures var older := Generators.GenerateURL(UrlParamsOf(s), encodeQuery);
      && (r.Ok? <==> older.Ok?)
      && (r.Err? ==> r.error == older.error)
      && (r.Ok? && Truthy(s.query) ==> r.value == older.value)
      && (r.Ok? && !Truthy(s.query) ==> r.value == older.value + "?")
  {
    var endpoint := Generators.EndpointFromObject(s.endpoint);
    if endpoint.Err? then Err(endpoint.error)
    else
      var queryString := if Truthy(s.query) then encodeQuery(s.query) else "";
      Ok(Generator.Origin(s.protocol, s.baseURL, s.port) + endpoint.value + "?" + queryString)
  }

  /** validateConfig: the seven guards of src/utils/validator.ts in the same order, with this
      file's protocol message. It passes exactly on conforming settings. */
  function ValidateConfig(s: Settings): (r: Outcome<Exception>)
    ensures r.Pass? <==> Validator.Conforms(ValidatorParamsOf(s))
    ensures r.Fail? ==>
      var checks := Validator.Checks(ValidatorParamsOf(s), ProtocolMessage);
      exists i :: 0 <= i < 7 && checks[i].violated && r.error == Error(checks[i].message)
  {
    var r := Validator.ValidateWith(ValidatorParamsOf(s), ProtocolMessage);
    if r.Pass? then r
    else
      Validator.GuardChainIsFirstViolation(ValidatorParamsOf(s), ProtocolMessage);
      Validator.FirstViolationNamesAViolatedCheck(Validator.Checks(ValidatorParamsOf(s), ProtocolMessage));
      r
  }

  /** `config.baseURL.replace(/\/$/, "")`: one trailing slash is dropped from a string; anything
      else has no `replace`, and `setConfig` throws there. */
  function BaseUrlOf(v: Value): (r: Result<Value, Exception>)
    ensures r.Ok? <==> v.Str?
    ensures r.Ok? ==> r.value.Str? && (r.value.s == v.s || r.value.s + "/" == v.s) && !(EndsWithSlash(v.s) && r.value.s == v.s)
  {
    match v
    case Str(s) => Ok(Str(StripTrailingSlash(s)))
    case Undefined => Err(TypeError("Cannot read properties of undefined (reading 'replace')"))
    case Null => Err(TypeError("Cannot read properties of null (reading 'replace')"))
    case _ => Err(TypeError("config.baseURL.replace is not a function"))
  }

  /** The assignments of `setConfig`. Protocol, port, content type, token, cookies flag, language
      and query keep their previous values when the config leaves them out; status codes, payload,
      additional options and headers fall back to empty values instead. */
  function ApplyConfig(s: Settings, c: Config): Settings
    requires c.baseURL.Str?
  {
    Settings(
      Coalesce(c.protocol, s.protocol), BaseUrlOf(c.baseURL).value, Coalesce(c.port, s.port), c.endpoint, c.httpMethod,
      Coalesce(c.headers, Obj([])), Coalesce(c.contentType, s.contentType), Coalesce(c.accessToken, s.accessToken),
      Coalesce(c.includeCookies, s.includeCookies), Coalesce(c.responseLang, s.responseLang),
      if c.statusCodes.Some? then c.statusCodes.value else [], Coalesce(c.query, s.query),
      Coalesce(c.payload, Obj([])), Coalesce(c.additionalOptions, Obj([])))
  }

  /** The fields a config leaving them out inherits from the previous settings. */
  predicate AgreeWhereInherited(s1: Settings, s2: Settings, c: Config)
  {
    && (IsNullish(c.protocol) ==> s1.protocol == s2.protocol)
    && (IsNullish(c.port) ==> s1.port == s2.port)
    && (IsNullish(c.contentType) ==> s1.contentType == s2.contentType)
    && (IsNullish(c.accessToken) ==> s1.accessToken == s2.accessToken)
    && (IsNullish(c.includeCookies) ==> s1.includeCookies == s2.includeCookies)
    && (IsNullish(c.responseLang) ==> s1.responseLang == s2.responseLang)
    && (IsNullish(c.query) ==> s1.query == s2.query)
  }

  /** Previous settings show through only in the inherited fields: two instances whose settings
      agree there end up identical after the same `setConfig`. */
  lemma HistoryOnlyThroughInheritedFields(s1: Settings, s2: Settings, c: Config)
    requires c.baseURL.Str?
    requires AgreeWhereInherited(s1, s2, c)
    ensures ApplyConfig(s1, c) == ApplyConfig(s2, c)
  {
  }

  /** Each inherited field does show through: a config leaving it out keeps the old value, one
      giving it takes the new value. */
  lemma InheritedFieldsKept(s: Settings, c: Config)
    requires c.baseURL.Str?
    ensures ApplyConfig(s, c).protocol == if IsNullish(c.protocol) then s.protocol else c.protocol
    ensures ApplyConfig(s, c).port == if IsNullish(c.port) then s.port else c.port
    ensures ApplyConfig(s, c).query == if IsNullish(c.query) then s.query else c.query
    ensures ApplyConfig(s, c).accessToken == if IsNullish(c.accessToken) then s.accessToken else c.accessToken
  {
  }

  /** Setting the same config twice gives the same settings as setting it once. */
  lemma ApplyConfigIdempotent(s: Settings, c: Config)
    requires c.baseURL.Str?
    ensures ApplyConfig(ApplyConfig(s, c), c) == ApplyConfig(s, c)
  {
  }

  /** Outside an empty-string (or otherwise falsy but present) content type, this file's headers
      are those of src/utils/generator.ts; there, this file substitutes `application/json` while
      generator.ts keeps the falsy value. */
  lemma HeadersAgreeWithGenerator(p: Generator.HeaderParams)
    ensures Truthy(p.contentType) || IsNullish(p.contentType) ==> GenerateHeaders(p) == Generator.GenerateHeaders(p)
    ensures p.contentType == Str("") ==>
      GenerateHeaders(p)["Content-Type"] == Str(Generator.DefaultContentType) && Generator.GenerateHeaders(p)["Content-Type"] == Str("")
  {
  }

  /** The constructor's settings do not validate: the base URL is still empty. */
  lemma InitialSettingsFailValidation()
    ensures ValidateConfig(Initial()) == Fail(Error(Validator.BaseUrlMessage))
  {
  }

  /** A request that changes only its protocol string, away from the allowed two, fails with
      this file's wording, not the validator's. */
  lemma ProtocolWording(s: Settings)
    requires s.protocol == Str("ftp")
    ensures ValidateConfig(s) == Fail(Error(ProtocolMessage))
    ensures Validator.ValidateConfig(ValidatorParamsOf(s)) == Fail(Error(Validator.ProtocolMessage))
  {
  }

  /** The configuration of tests/easy-requester.test.ts. */
  function SuiteConfig(): Config
  {
    Config(Undefined, Str("example.com/api"), Undefined, Obj([("route", Str("route")), ("controller", Str("controller"))]),
           Str("POST"), Obj([("X-Test-Header-1", Str("Foo")), ("X-Test-Header-2", Str("Bar"))]), Undefined,
           Str("Hey! I am a token!"), Undefined, Str("en"), None, Obj([("foo", Str("bar"))]),
           Obj([("data_1", Str("foo")), ("data_2", Str("bar"))]), Undefined)
  }

  /** After the constructor and `setConfig(SuiteConfig())`, the request goes to
      `https://example.com/api/route/controller?foo=bar`. */
  lemma SuiteUrl(encodeQuery: Value -> string)
    requires encodeQuery(Obj([("foo", Str("bar"))])) == "foo=bar"
    ensures GenerateURL(ApplyConfig(Initial(), SuiteConfig()), encodeQuery) == Ok("https://example.com/api/route/controller?foo=bar")
  {
    var s := ApplyConfig(Initial(), SuiteConfig());
    SuiteSettings();
    SuitePath();
    SuiteOrigin();
    var url := "https://example.com/api" + "/route/controller" + "?" + "foo=bar";
    assert GenerateURL(s, encodeQuery) == Ok(url);
    SuiteUrlText();
  }

  lemma SuiteOrigin()
    ensures Generator.Origin(Str("https"), Str("example.com/api"), Undefined) == "https://example.com/api"
  {
  }

  lemma SuiteUrlText()
    ensures "https://example.com/api" + "/route/controller" + "?" + "foo=bar" == "https://example.com/api/route/controller?foo=bar"
  {
  }

  /** The test's config leaves protocol and port out, so the constructor's https and missing port
      remain; the base URL has no trailing slash to drop. */
  lemma SuiteSettings()
    ensures var s := ApplyConfig(Initial(), SuiteConfig());
      s.protocol == Str("https") && s.baseURL == Str("example.com/api") && s.port == Undefined
      && s.endpoint == SuiteConfig().endpoint && s.query == Obj([("foo", Str("bar"))])
      && HeaderParamsOf(s) == Generator.HeaderParams(Str("application/json"), Str("en"), SuiteConfig().headers, Str("Hey! I am a token!"))
  {
    assert !EndsWithSlash("example.com/api");
  }

  /** The endpoint `{route: "route", controller: "controller"}` becomes `/route/controller`. */
  lemma SuitePath()
    ensures Generators.EndpointFromObject(SuiteConfig().endpoint) == Ok("/route/controller")
  {
    assert '/' !in "route" && '/' !in "controller";
    TwoSegmentPath("route", "route", "controller", "controller");
    assert "/" + "route" + "/" + "controller" == "/route/controller";
  }

  /** A two-entry object whose values hold no slash at all becomes "/" + first + "/" + second:
      such an object is accepted, and accepted objects give the path src/utils/generator.ts gives. */
  lemma TwoSegmentPath(k1: string, a: string, k2: string, b: string)
    requires '/' !in a && '/' !in b
    ensures Generators.ObjectPath([(k1, Str(a)), (k2, Str(b))]) == Ok("/" + a + "/" + b)
  {
    var entries := [(k1, Str(a)), (k2, Str(b))];
    assert !StartsWithSlash(a) && !EndsWithSlash(a) && !StartsWithSlash(b) && !EndsWithSlash(b);
    Generators.ObjectPathOkIff(entries);
    Generators.ObjectPathAgreesWithGenerator(entries);
    Generator.TwoEntryPath(k1, a, k2, b);
  }

  /** The same test's header expectations: the default content type, the bearer token, the
      language, and both custom headers. */
  lemma SuiteHeaders()
    ensures var h := GenerateHeaders(HeaderParamsOf(ApplyConfig(Initial(), SuiteConfig())));
      && h["Content-Type"] == Str("application/json")
      && h["Authorization"] == Str("Bearer Hey! I am a token!")
      && h["Accept-Language"] == Str("en")
      && h["X-Test-Header-1"] == Str("Foo") && h["X-Test-Header-2"] == Str("Bar")
  {
    TwoProperties("X-Test-Header-1", Str("Foo"), "X-Test-Header-2", Str("Bar"));
    SuiteSettings();
    assert "Bearer " + "Hey! I am a token!" == "Bearer Hey! I am a token!";
  }

  /** An object of two properties with distinct names spreads into the map of those two. */
  lemma TwoProperties(k1: string, v1: Value, k2: string, v2: Value)
    requires k1 != k2
    ensures Spread(Obj([(k1, v1), (k2, v2)])) == map[k1 := v1, k2 := v2]
  {
    var props := [(k1, v1), (k2, v2)];
    assert props[..1] == [(k1, v1)];
    assert [(k1, v1)][..0] == [];
    assert ObjectOf([(k1, v1)]) == ObjectOf([])[k1 := v1];
    assert ObjectOf(props) == ObjectOf([(k1, v1)])[k2 := v2];
  }

  class EasyRequester {
    var isDebugMode: bool
    var protocol: Value
    var baseURL: Value
    var port: Value
    var endpoint: Value
    var httpMethod: Value
    var headers: Value
    var generatedHeaders: map<string, Value>
    var contentType: Value
    var accessToken: Value
    var includeCookies: Value
    var responseLang: Value
    var statusCodes: seq<int>
    var query: Value
    var payload: Value
    var additionalOptions: Value

    function Current(): Settings
      reads this
    {
      Settings(protocol, baseURL, port, endpoint, httpMethod, headers, contentType, accessToken, includeCookies,
               responseLang, statusCodes, query, payload, additionalOptions)
    }

    /** The generated headers are those of the current settings. */
    predicate HeadersCurrent()
      reads this
    {
      generatedHeaders == GenerateHeaders(HeaderParamsOf(Current()))
    }

    constructor()
      ensures Current() == Initial() && isDebugMode
      ensures HeadersCurrent()
      ensures generatedHeaders == map["Content-Type" := Str(Generator.DefaultContentType)]
    {
      isDebugMode := true;
      protocol := Str("https");
      baseURL := Str("");
      port := Undefined;
      endpoint := Obj([("route", Str("")), ("controller", Str(""))]);
      httpMethod := Str("POST");
      contentType := Str(Generator.DefaultContentType);
      accessToken := Str("");
      includeCookies := Bool(false);
      responseLang := Str("");
      statusCodes := [];
      query := Undefined;
      payload := Obj([]);
      additionalOptions := Obj([]);
      headers := Obj([]);
      new;
      generatedHeaders := GenerateHeaders(HeaderParamsOf(Current()));
    }

    /** setConfig. Assignments happen first and validation last: whatever the verdict, the
        settings are those of `ApplyConfig`; only a non-string base URL stops the assignments
        early, after the protocol. On success the instance itself is returned, for chaining. */
    method SetConfig(config: Config) returns (r: Result<EasyRequester, Exception>)
      modifies this
      ensures isDebugMode == old(isDebugMode)
      ensures config.baseURL.Str? ==> Current() == ApplyConfig(old(Current()), config) && HeadersCurrent()
      ensures !config.baseURL.Str? ==>
        && Current() == old(Current()).(protocol := Coalesce(config.protocol, old(protocol)))
        && generatedHeaders == old(generatedHeaders)
        && r == Err(BaseUrlOf(config.baseURL).error)
      ensures old(HeadersCurrent()) ==> HeadersCurrent()
      ensures r.Ok? <==> config.baseURL.Str? && Validator.Conforms(ValidatorParamsOf(Current()))
      ensures r.Ok? ==> r.value == this
      ensures config.baseURL.Str? && r.Err? ==> Fail(r.error) == ValidateConfig(Current())
    {
      ghost var before := Current();
      protocol := Coalesce(config.protocol, protocol);
      var base := BaseUrlOf(config.baseURL);
      if base.Err? {
        return Err(base.error);
      }
      HistoryOnlyThroughInheritedFields(Current(), before, config);
      AssignFields(config);
      generatedHeaders := GenerateHeaders(HeaderParamsOf(Current()));
      var verdict := ValidateConfig(Current());
      if verdict.Fail? {
        return Err(verdict.error);
      }
      r := Ok(this);
    }

    /** The assignments of `setConfig` after the protocol's, once the base URL is known to be a
        string: each field takes its value in `ApplyConfig`. */
    method AssignFields(config: Config)
      requires config.baseURL.Str?
      requires !IsNullish(config.protocol) ==> protocol == config.protocol
      modifies this
      ensures Current() == ApplyConfig(old(Current()), config)
      ensures isDebugMode == old(isDebugMode) && generatedHeaders == old(generatedHeaders)
    {
      var next := ApplyConfig(Current(), config);
      AssignAddressing(next);
      AssignContent(next);
    }

    /** The fields that say where and how to send: base URL, port, endpoint, method, status codes, query. */
    method AssignAddressing(next: Settings)
      modifies this
      ensures baseURL == next.baseURL && port == next.port && endpoint == next.endpoint
      ensures httpMethod == next.httpMethod && statusCodes == next.statusCodes && query == next.query
      ensures protocol == old(protocol) && contentType == old(contentType) && accessToken == old(accessToken)
      ensures includeCookies == old(includeCookies) && responseLang == old(responseLang) && payload == old(payload)
      ensures additionalOptions == old(additionalOptions) && headers == old(headers)
      ensures isDebugMode == old(isDebugMode) && generatedHeaders == old(generatedHeaders)
    {
      baseURL := next.baseURL;
      port := next.port;
      endpoint := next.endpoint;
      httpMethod := next.httpMethod;
      statusCodes := next.statusCodes;
      query := next.query;
    }

    /** The fields that say what to send: content type, token, cookies flag, language, payload,
        additional options and custom headers. */
    method AssignContent(next: Settings)
      modifies this
      ensures contentType == next.contentType && accessToken == next.accessToken && includeCookies == next.includeCookies
      ensures responseLang == next.responseLang && payload == next.payload
      ensures additionalOptions == next.additionalOptions && headers == next.headers
      ensures protocol == old(protocol) && baseURL == old(baseURL) && port == old(port) && endpoint == old(endpoint)
      ensures httpMethod == old(httpMethod) && statusCodes == old(statusCodes) && query == old(query)
      ensures isDebugMode == old(isDebugMode) && generatedHeaders == old(generatedHeaders)
    {
      contentType := next.contentType;
      accessToken := next.accessToken;
      includeCookies := next.includeCookies;
      responseLang := next.responseLang;
      payload := next.payload;
      additionalOptions := next.additionalOptions;
      headers := next.headers;
    }

    /** debugMode: the flag is the argument, `false` when none is passed; nothing else changes. */
    method DebugMode(isToggled: Option<bool>) returns (r: EasyRequester)
      modifies this
      ensures isDebugMode <==> isToggled == Some(true)
      ensures Current() == old(Current()) && generatedHeaders == old(generatedHeaders)
      ensures r == this
    {
      isDebugMode := if isToggled.Some? then isToggled.value else false;
      r := this;
    }

    /** generateEndpointFromObject: the same loop as in src/utils/generators.ts, over this
        instance's endpoint. */
    method GenerateEndpointFromObject() returns (r: Result<string, Exception>)
      ensures r == Generators.EndpointFromObject(endpoint)
    {
      r := Generators.GenerateEndpointFromObject(endpoint);
    }
  }

  /** The test flow on the shared instance: constructed, then configured with the test suite's
      config, which validates and returns the instance. */
  method SuiteSetConfig() returns (requester: EasyRequester, r: Result<EasyRequester, Exception>)
    ensures r == Ok(requester)
    ensures requester.HeadersCurrent()
    ensures requester.Current() == ApplyConfig(Initial(), SuiteConfig())
  {
    requester := new EasyRequester();
    r := requester.SetConfig(SuiteConfig());
  }
}
