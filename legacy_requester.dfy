/** The earliest requester, src/easy_requester.ts: every setting comes from the constructor's
    argument and stays as given; `sendRequest` builds the URL with no trimming and accepts a
    status exactly when it is in the configured list, or in the 2xx default list. */
module LegacyRequester {
  import opened Js
  import Generator
  import DefaultInstance
  import Base
  import Configs

  /** The constructor's argument: the destructured properties, plus `others`, the config's
      remaining own properties in order. `statusCodes` is `None` when absent or `null`. */
  datatype LegacyConfig = LegacyConfig(
    protocol: Value, baseURL: Value, port: Value, endpoint: Value, httpMethod: Value,
    headers: Value, contentType: Value, accessToken: Value, includeCookies: Value,
    responseLang: Value, statusCodes: Option<seq<int>>, query: Value, payload: Value,
    others: seq<(string, Value)>)

  /** The property names the constructor's parameter list destructures. */
  predicate Destructured(key: string)
  {
    key in {"protocol", "baseURL", "port", "endpoint", "method", "headers", "contentType", "accessToken",
            "includeCookies", "responseLang", "statusCodes", "query", "payload"}
  }

  /** `...additionalOptions`: the properties not destructured, in their order. */
  function Rest(props: seq<(string, Value)>): (r: seq<(string, Value)>)
    ensures forall i :: 0 <= i < |r| ==> !Destructured(r[i].0)
    ensures forall p :: p in r <==> p in props && !Destructured(p.0)
    ensures |r| <= |props|
  {
    if props == [] then []
    else
      var init := Rest(props[..|props| - 1]);
      var last := props[|props| - 1];
      assert props == props[..|props| - 1] + [last];
      if Destructured(last.0) then init else init + [last]
  }

  /** Filtering twice removes nothing more. */
  lemma {:induction false} RestIdempotent(props: seq<(string, Value)>)
    ensures Rest(Rest(props)) == Rest(props)
  {
    if props != [] {
      var init := props[..|props| - 1];
      var last := props[|props| - 1];
      RestIdempotent(init);
      if !Destructured(last.0) {
        var r := Rest(init) + [last];
        assert r[..|r| - 1] == Rest(init);
      }
    }
  }

  /** The filter keeps order: it works entry by entry, and an entry stays exactly when its key
      is not destructured. */
  lemma {:induction false} RestKeepsOrder(a: seq<(string, Value)>, b: seq<(string, Value)>)
    ensures Rest(a + b) == Rest(a) + Rest(b)
    decreases |b|
  {
    if b != [] {
      var b' := b[..|b| - 1];
      assert (a + b)[..|a + b| - 1] == a + b';
      RestKeepsOrder(a, b');
    } else {
      assert a + b == a;
    }
  }

  /** One property is kept exactly when its key is not destructured. */
  lemma RestOfOne(p: (string, Value))
    ensures Rest([p]) == if Destructured(p.0) then [] else [p]
  {
    assert [p][..0] == [];
  }

  /** The accepted codes when none are configured: 200 to 208 and 226. */
  const DefaultStatusCodes: seq<int> := [200, 201, 202, 203, 204, 205, 206, 207, 208, 226]

  /** `this.statusCodes ?? [...]`: a configured list replaces the default list entirely. */
  function PossibleStatusCodes(statusCodes: Option<seq<int>>): seq<int>
  {
    if statusCodes.Some? then statusCodes.value else DefaultStatusCodes
  }

  /** `validateStatus`: a status is accepted exactly when the list includes it. */
  predicate ValidateStatus(possibleStatusCodes: seq<int>, status: int)
  {
    status in possibleStatusCodes
  }

  /** Unconfigured, the accepted statuses are 200 to 208 and 226. */
  lemma DefaultAcceptance(status: int)
    ensures ValidateStatus(PossibleStatusCodes(None), status) <==> (200 <= status <= 208 || status == 226)
  {
  }

  /** A configured list is the whole story: no default code survives unless listed. */
  lemma ConfiguredListReplacesDefaults(codes: seq<int>, status: int)
    ensures ValidateStatus(PossibleStatusCodes(Some(codes)), status) <==> status in codes
  {
  }

  /** The later requester of src/core/baseRequester.ts behaves differently on both counts: its
      default list stops at 206, and a configured list is added to that default. */
  lemma DiffersFromBaseRequester()
    ensures ValidateStatus(PossibleStatusCodes(None), 207)
    ensures 207 !in Base.NormalizeClientConfig(Configs.ClientConfigInput(None, None, None)).acceptStatusCodes
    ensures !ValidateStatus(PossibleStatusCodes(Some([404])), 200)
    ensures 200 in Base.NormalizeClientConfig(Configs.ClientConfigInput(None, Some([404]), None)).acceptStatusCodes
  {
  }

  /** The path part of the request URL: "/" + the string endpoint verbatim, or
      "/" + route + "/" + controller read off an endpoint of any other type. Reading `route`
      off `undefined` or `null` throws. */
  function RequestPath(endpoint: Value): Result<string, Exception>
  {
    if endpoint.Str? then Ok("/" + endpoint.s)
    else
      var route := Property(endpoint, "route");
      if route.Err? then Err(route.error)
      else
        var controller := Property(endpoint, "controller");
        if controller.Err? then Err(controller.error)
        else Ok("/" + JsString(route.value) + "/" + JsString(controller.value))
  }

  /** The request URL: origin, then the path, then "?" + the serialized query when a query is given. */
  function RequestUrl(protocol: Value, baseURL: Value, port: Value, endpoint: Value, query: Value,
                      encodeQuery: Value -> string): Result<string, Exception>
  {
    var path := RequestPath(endpoint);
    if path.Err? then Err(path.error)
    else Ok(Generator.Origin(protocol, baseURL, port) + path.value + Generator.QueryPart(query, encodeQuery))
  }

  /** The query only ever adds "?" and its serialization at the end: the URL without a query,
      then that suffix exactly when the query is truthy. */
  lemma QueryOnlyAppends(protocol: Value, baseURL: Value, port: Value, endpoint: Value, query: Value,
                         encodeQuery: Value -> string)
    ensures var withQuery := RequestUrl(protocol, baseURL, port, endpoint, query, encodeQuery);
      var without := RequestUrl(protocol, baseURL, port, endpoint, Undefined, encodeQuery);
      && (withQuery.Ok? <==> without.Ok?)
      && (withQuery.Ok? ==> withQuery.value == without.value + (if Truthy(query) then "?" + encodeQuery(query) else ""))
  {
  }

  /** A string endpoint with no slash at either end gives the URL src/utils/generator.ts gives. */
  lemma StringEndpointVersusGenerator(protocol: Value, baseURL: Value, port: Value, s: string, query: Value,
                                      encodeQuery: Value -> string)
    requires !StartsWithSlash(s) && !EndsWithSlash(s)
    ensures RequestUrl(protocol, baseURL, port, Str(s), query, encodeQuery)
      == Generator.GenerateURL(Generator.UrlParams(protocol, baseURL, port, Str(s), query), encodeQuery)
  {
    assert TrimSlashes(s) == s;
    assert Generator.Endpoint(Str(s)) == Ok("/" + s);
  }

  /** A string endpoint is never trimmed here, so a leading slash doubles. */
  lemma LeadingSlashDoubles(protocol: Value, baseURL: Value, port: Value, s: string, query: Value,
                            encodeQuery: Value -> string)
    ensures RequestUrl(protocol, baseURL, port, Str("/" + s), query, encodeQuery)
      == Ok(Generator.Origin(protocol, baseURL, port) + "//" + s + Generator.QueryPart(query, encodeQuery))
  {
    var origin, tail := Generator.Origin(protocol, baseURL, port), Generator.QueryPart(query, encodeQuery);
    assert "/" + ("/" + s) == "//" + s;
    assert origin + ("//" + s) + tail == origin + "//" + s + tail;
  }

  /** A `{route, controller}` object in that order, with values free of slashes, gives the URL
      src/utils/generator.ts gives. */
  lemma RouteControllerVersusGenerator(protocol: Value, baseURL: Value, port: Value, route: string, controller: string,
                                       query: Value, encodeQuery: Value -> string)
    requires '/' !in route && '/' !in controller
    ensures var endpoint := Obj([("route", Str(route)), ("controller", Str(controller))]);
      RequestUrl(protocol, baseURL, port, endpoint, query, encodeQuery)
        == Generator.GenerateURL(Generator.UrlParams(protocol, baseURL, port, endpoint, query), encodeQuery)
  {
    var first, second := ("route", Str(route)), ("controller", Str(controller));
    var props := [first, second];
    assert props[..1] == [first];
    assert [first][..0] == [];
    assert !StartsWithSlash(route) && !EndsWithSlash(route) && !StartsWithSlash(controller) && !EndsWithSlash(controller);
    assert Generator.ObjectPath([first]) == Ok("" + "/" + route);
    assert "" + "/" + route == "/" + route;
    assert Generator.ObjectPath(props) == Ok("/" + route + "/" + controller);
    assert ObjectOf(props) == map["route" := Str(route), "controller" := Str(controller)] by {
      assert props[..|props| - 1] == [first];
    }
  }

  class EasyRequester {
    const protocol: Value
    const baseURL: Value
    const port: Value
    const endpoint: Value
    const httpMethod: Value
    const contentType: Value
    const accessToken: Value
    const includeCookies: Value
    const responseLang: Value
    const statusCodes: Option<seq<int>>
    const headers: map<string, Value>
    const query: Value
    const payload: Value
    const additionalOptions: seq<(string, Value)>

    /** The constructor: protocol defaults to https and the cookies flag to false; the headers are
        generated once, by the rule src/easy-requester.ts uses; every other property is kept as
        given, and the undestructured ones become the additional options. */
    constructor(config: LegacyConfig)
      ensures protocol == Coalesce(config.protocol, Str("https"))
      ensures includeCookies == Coalesce(config.includeCookies, Bool(false))
      ensures baseURL == config.baseURL && port == config.port && endpoint == config.endpoint
      ensures httpMethod == config.httpMethod && contentType == config.contentType
      ensures accessToken == config.accessToken && responseLang == config.responseLang
      ensures statusCodes == config.statusCodes && query == config.query && payload == config.payload
      ensures headers == DefaultInstance.GenerateHeaders(
        Generator.HeaderParams(config.contentType, config.responseLang, config.headers, config.accessToken))
      ensures additionalOptions == Rest(config.others)
    {
      protocol := Coalesce(config.protocol, Str("https"));
      baseURL := config.baseURL;
      port := config.port;
      endpoint := config.endpoint;
      httpMethod := config.httpMethod;
      contentType := config.contentType;
      accessToken := config.accessToken;
      includeCookies := Coalesce(config.includeCookies, Bool(false));
      responseLang := config.responseLang;
      statusCodes := config.statusCodes;
      headers := DefaultInstance.GenerateHeaders(
        Generator.HeaderParams(config.contentType, config.responseLang, config.headers, config.accessToken));
      query := config.query;
      payload := config.payload;
      additionalOptions := Rest(config.others);
    }

    /** The URL part of `sendRequest`: `requestUrl` is assigned for the endpoint's type, then
        extended by `+=` when a query is given. */
    method BuildRequestUrl(encodeQuery: Value -> string) returns (url: Result<string, Exception>)
      ensures url == RequestUrl(protocol, baseURL, port, endpoint, query, encodeQuery)
    {
      var requestUrl: string;
      var origin := Generator.Origin(protocol, baseURL, port);
      if endpoint.Str? {
        requestUrl := origin + ("/" + endpoint.s);
      } else {
        var route := Property(endpoint, "route");
        if route.Err? {
          return Err(route.error);
        }
        var controller := Property(endpoint, "controller");
        if controller.Err? {
          return Err(controller.error);
        }
        requestUrl := origin + ("/" + JsString(route.value) + "/" + JsString(controller.value));
      }
      if Truthy(query) {
        var queryString := encodeQuery(query);
        requestUrl := requestUrl + ("?" + queryString);
      } else {
        assert requestUrl + "" == requestUrl;
      }
      url := Ok(requestUrl);
    }

    /** The `validateStatus` of `sendRequest`, over this instance's status codes. */
    method AcceptsStatus(status: int) returns (accepted: bool)
      ensures accepted <==> status in (if statusCodes.Some? then statusCodes.value else DefaultStatusCodes)
    {
      var possibleStatusCodes := PossibleStatusCodes(statusCodes);
      accepted := ValidateStatus(possibleStatusCodes, status);
    }
  }
}
