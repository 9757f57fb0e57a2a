/** URL and header assembly of src/utils/generator.ts, the variant every configured request goes through. */
module Generator {
  import opened Js
  import opened Paths

  /** The `url` section of a request config: protocol, host, optional port, endpoint and query. */
  datatype UrlParams = UrlParams(protocol: Value, baseURL: Value, port: Value, endpoint: Value, query: Value)

  /** Inputs of header generation; any of them may be `undefined`. */
  datatype HeaderParams = HeaderParams(contentType: Value, responseLang: Value, customHeaders: Value, accessToken: Value)

  const DefaultContentType := "application/json"

  predicate AllStrings(entries: seq<(string, Value)>)
  {
    forall i :: 0 <= i < |entries| ==> entries[i].1.Str?
  }

  /** The path segments of an object endpoint: every value with its outer slashes trimmed, in order. */
  function TrimmedValues(entries: seq<(string, Value)>): (segments: seq<string>)
    requires AllStrings(entries)
    ensures |segments| == |entries|
  {
    seq(|entries|, i requires 0 <= i < |entries| => TrimSlashes(entries[i].1.s))
  }

  function NotAStringError(key: string): Exception
  {
    LoggedError("generateEndpoint", "Expected value for key \"" + key + "\" to be typeof 'string'.")
  }

  /** What the `forEach` over `Object.entries(endpoint)` has accumulated, or the error
      `Logger.error` threw, after the given entries. */
  function ObjectPath(entries: seq<(string, Value)>): Result<string, Exception>
  {
    if entries == [] then Ok("")
    else
      var prefix := ObjectPath(entries[..|entries| - 1]);
      var (key, value) := entries[|entries| - 1];
      if prefix.Err? then prefix
      else if !value.Str? then Err(NotAStringError(key))
      else Ok(prefix.value + "/" + TrimSlashes(value.s))
  }

  /** The endpoint part of the URL. An object contributes "/" + trimmed value per entry; a
      string becomes "/" + the trimmed string. `typeof null` is "object", so a `null`
      endpoint reaches `Object.entries` and throws; reading `replace` of `undefined` throws, and
      a boolean or a number has no `replace` method. */
  function Endpoint(endpoint: Value): Result<string, Exception>
  {
    match endpoint
    case Obj(entries) => ObjectPath(entries)
    case Null => Err(TypeError("Cannot convert undefined or null to object"))
    case Undefined => Err(TypeError("Cannot read properties of undefined (reading 'replace')"))
    case Str(s) => Ok("/" + TrimSlashes(s))
    case _ => Err(TypeError("endpoint.replace is not a function"))
  }

  /** generateEndpoint: the loop that appends one segment per entry, proved to compute `Endpoint`. */
  method GenerateEndpoint(endpoint: Value) returns (r: Result<string, Exception>)
    ensures r == Endpoint(endpoint)
  {
    if endpoint.Obj? {
      var entries := endpoint.props;
      assert Endpoint(endpoint) == ObjectPath(entries);
      var path := "";
      var i := 0;
      while i < |entries|
        invariant 0 <= i <= |entries|
        invariant ObjectPath(entries[..i]) == Ok(path)
      {
        var (key, value) := entries[i];
        assert entries[..i + 1][..i] == entries[..i];
        if !value.Str? {
          ObjectPathErrorPersists(entries, i + 1);
          return Err(NotAStringError(key));
        }
        path := path + "/" + TrimSlashes(value.s);
        i := i + 1;
      }
      assert entries[..|entries|] == entries;
      return Ok(path);
    }
    if endpoint.Null? {
      return Err(TypeError("Cannot convert undefined or null to object"));
    }
    if endpoint.Undefined? {
      return Err(TypeError("Cannot read properties of undefined (reading 'replace')"));
    }
    if !endpoint.Str? {
      return Err(TypeError("endpoint.replace is not a function"));
    }
    r := Ok("/" + TrimSlashes(endpoint.s));
  }

  /** `protocol://baseURL`, followed by `:port` only when the port is truthy. */
  function Origin(protocol: Value, baseURL: Value, port: Value): string
  {
    JsString(protocol) + "://" + JsString(baseURL) + (if Truthy(port) then ":" + JsString(port) else "")
  }

  /** "?" + the serialized query whenever a query is given (an empty object included), else "". */
  function QueryPart(query: Value, encodeQuery: Value -> string): string
  {
    if Truthy(query) then "?" + encodeQuery(query) else ""
  }

  /** generateURL. `encodeQuery` stands for `new URLSearchParams(query).toString()`. */
  function GenerateURL(p: UrlParams, encodeQuery: Value -> string): (r: Result<string, Exception>)
    ensures r.Ok? <==> Endpoint(p.endpoint).Ok?
    ensures r.Err? ==> r.error == Endpoint(p.endpoint).error
    ensures r.Ok? ==> r.value == Origin(p.protocol, p.baseURL, p.port) + Endpoint(p.endpoint).value + QueryPart(p.query, encodeQuery)
  {
    var endpoint := Endpoint(p.endpoint);
    if endpoint.Err? then Err(endpoint.error)
    else Ok(Origin(p.protocol, p.baseURL, p.port) + endpoint.value + QueryPart(p.query, encodeQuery))
  }

  predicate IsReservedHeader(k: string)
  {
    k == "Content-Type" || k == "Authorization" || k == "Accept-Language"
  }

  /** generateHeaders: the custom headers, then `Content-Type`, `Authorization` and
      `Accept-Language`, each overwriting a custom header of exactly the same name. */
  function GenerateHeaders(p: HeaderParams): (h: map<string, Value>)
    ensures "Content-Type" in h
    ensures h["Content-Type"] == if IsNullish(p.contentType) then Str(DefaultContentType) else p.contentType
    ensures Truthy(p.accessToken) ==> "Authorization" in h && h["Authorization"] == Str("Bearer " + JsString(p.accessToken))
    ensures !Truthy(p.accessToken) ==>
      ("Authorization" in h <==> "Authorization" in Spread(p.customHeaders)) &&
      ("Authorization" in h ==> h["Authorization"] == Spread(p.customHeaders)["Authorization"])
    ensures Truthy(p.responseLang) ==> "Accept-Language" in h && h["Accept-Language"] == p.responseLang
    ensures !Truthy(p.responseLang) ==>
      ("Accept-Language" in h <==> "Accept-Language" in Spread(p.customHeaders)) &&
      ("Accept-Language" in h ==> h["Accept-Language"] == Spread(p.customHeaders)["Accept-Language"])
    ensures forall k :: !IsReservedHeader(k) ==>
      (k in h <==> k in Spread(p.customHeaders)) && (k in h ==> h[k] == Spread(p.customHeaders)[k])
  {
    var custom := Spread(p.customHeaders);
    var withType := custom["Content-Type" := Coalesce(p.contentType, Str(DefaultContentType))];
    var withAuth := if Truthy(p.accessToken) then withType["Authorization" := Str("Bearer " + JsString(p.accessToken))] else withType;
    if Truthy(p.responseLang) then withAuth["Accept-Language" := p.responseLang] else withAuth
  }

  /** Once a prefix of the entries has failed, the whole object fails with the same error. */
  lemma {:induction false} ObjectPathErrorPersists(entries: seq<(string, Value)>, n: nat)
    requires n <= |entries|
    requires ObjectPath(entries[..n]).Err?
    ensures ObjectPath(entries) == ObjectPath(entries[..n])
    decreases |entries| - n
  {
    if n < |entries| {
      assert entries[..n + 1][..n] == entries[..n];
      ObjectPathErrorPersists(entries, n + 1);
    } else {
      assert entries[..n] == entries;
    }
  }

  /** An object endpoint generates a path exactly when every one of its values is a string. */
  lemma {:induction false} ObjectPathOkIff(entries: seq<(string, Value)>)
    ensures ObjectPath(entries).Ok? <==> AllStrings(entries)
    decreases |entries|
  {
    if entries != [] {
      var init := entries[..|entries| - 1];
      ObjectPathOkIff(init);
      assert AllStrings(entries) <==> AllStrings(init) && entries[|entries| - 1].1.Str? by {
        assert forall i :: 0 <= i < |init| ==> init[i] == entries[i];
      }
    }
  }

  /** With string values only, the path is "/" + trimmed value for each entry, in the order
      `Object.entries` lists them; the keys take no part in it. */
  lemma {:induction false} ObjectPathIsJoin(entries: seq<(string, Value)>)
    requires AllStrings(entries)
    ensures ObjectPath(entries) == Ok(JoinPath(TrimmedValues(entries)))
    decreases |entries|
  {
    if entries != [] {
      var init := entries[..|entries| - 1];
      assert AllStrings(init) by {
        assert forall i :: 0 <= i < |init| ==> init[i] == entries[i];
      }
      ObjectPathIsJoin(init);
      assert TrimmedValues(entries)[..|init|] == TrimmedValues(init);
    }
  }

  /** The first entry whose value is not a string decides the error, and the error names its key. */
  lemma {:induction false} ObjectPathFirstBadKey(entries: seq<(string, Value)>, i: nat)
    requires i < |entries| && !entries[i].1.Str?
    requires AllStrings(entries[..i])
    ensures ObjectPath(entries) == Err(NotAStringError(entries[i].0))
  {
    ObjectPathOkIff(entries[..i]);
    assert entries[..i + 1][..i] == entries[..i];
    ObjectPathErrorPersists(entries, i + 1);
  }

  /** Two endpoint objects with the same values in the same order give the same path,
      whatever their keys. */
  lemma ObjectPathIgnoresKeys(a: seq<(string, Value)>, b: seq<(string, Value)>)
    requires |a| == |b|
    requires forall i :: 0 <= i < |a| ==> a[i].1 == b[i].1
    requires AllStrings(a)
    ensures ObjectPath(a) == ObjectPath(b)
  {
    ObjectPathIsJoin(a);
    ObjectPathIsJoin(b);
    assert TrimmedValues(a) == TrimmedValues(b);
  }

  /** A two-entry endpoint object whose values hold no slash becomes "/" + first + "/" + second. */
  lemma TwoEntryPath(k1: string, a: string, k2: string, b: string)
    requires '/' !in a && '/' !in b
    ensures Endpoint(Obj([(k1, Str(a)), (k2, Str(b))])) == Ok("/" + a + "/" + b)
  {
    var first, second := (k1, Str(a)), (k2, Str(b));
    assert [first, second][..1] == [first];
    assert [first][..0] == [];
    assert !StartsWithSlash(a) && !EndsWithSlash(a) && !StartsWithSlash(b) && !EndsWithSlash(b);
    assert ObjectPath([first]) == Ok("" + "/" + a);
    assert "" + "/" + a == "/" + a;
  }

  /** A typical call: base `https://api.example.com`, endpoint
      `{route: "user", controller: "login"}`, no port and no query. */
  lemma UserLoginExample(encodeQuery: Value -> string)
    ensures GenerateURL(UrlParams(Str("https"), Str("api.example.com"), Undefined,
                                  Obj([("route", Str("user")), ("controller", Str("login"))]), Undefined), encodeQuery)
            == Ok("https://api.example.com/user/login")
  {
    TwoEntryPath("route", "user", "controller", "login");
    assert "/" + "user" + "/" + "login" == "/user/login";
    assert "https" + "://" + "api.example.com" + "" == "https://api.example.com";
    assert "https://api.example.com" + "/user/login" + "" == "https://api.example.com/user/login";
  }

  /** A port of 0 is falsy and is left out of the URL, as if no port were given. */
  lemma ZeroPortOmitted(p: UrlParams, encodeQuery: Value -> string)
    ensures GenerateURL(p.(port := Num(0)), encodeQuery) == GenerateURL(p.(port := Undefined), encodeQuery)
  {
  }

  /** Even an empty query object is truthy: the URL then ends in "?" and its serialization. */
  lemma EmptyQueryStillAddsQuestionMark(p: UrlParams, encodeQuery: Value -> string)
    requires Endpoint(p.endpoint).Ok?
    ensures var r := GenerateURL(p.(query := Obj([])), encodeQuery);
            r.Ok? && r.value == Origin(p.protocol, p.baseURL, p.port) + Endpoint(p.endpoint).value + "?" + encodeQuery(Obj([]))
  {
  }
}
