/** The older assembly helpers of src/utils/generators.ts. They differ from src/utils/generator.ts
    in three ways: `Content-Type` is copied with no default, an endpoint value that still holds a
    slash after trimming is rejected, and a string endpoint gets no leading slash. */
module Generators {
  import opened Js
  import opened Paths
  import Generator

  /** Header inputs as this variant reads them; the custom headers sit under `headers`. */
  datatype HeaderParams = HeaderParams(headers: Value, contentType: Value, accessToken: Value, responseLang: Value)

  /** generateHeaders: custom headers first; `Content-Type` is the given value verbatim (even
      `undefined`); `Authorization` and `Accept-Language` only for truthy inputs. */
  function GenerateHeaders(p: HeaderParams): (h: map<string, Value>)
    ensures "Content-Type" in h && h["Content-Type"] == p.contentType
    ensures Truthy(p.accessToken) ==> "Authorization" in h && h["Authorization"] == Str("Bearer " + JsString(p.accessToken))
    ensures !Truthy(p.accessToken) ==>
      ("Authorization" in h <==> "Authorization" in Spread(p.headers)) &&
      ("Authorization" in h ==> h["Authorization"] == Spread(p.headers)["Authorization"])
    ensures Truthy(p.responseLang) ==> "Accept-Language" in h && h["Accept-Language"] == p.responseLang
    ensures !Truthy(p.responseLang) ==>
      ("Accept-Language" in h <==> "Accept-Language" in Spread(p.headers)) &&
      ("Accept-Language" in h ==> h["Accept-Language"] == Spread(p.headers)["Accept-Language"])
    ensures forall k :: !Generator.IsReservedHeader(k) ==>
      (k in h <==> k in Spread(p.headers)) && (k in h ==> h[k] == Spread(p.headers)[k])
  {
    var withType := Spread(p.headers)["Content-Type" := p.contentType];
    var withAuth := if Truthy(p.accessToken) then withType["Authorization" := Str("Bearer " + JsString(p.accessToken))] else withType;
    if Truthy(p.responseLang) then withAuth["Accept-Language" := p.responseLang] else withAuth
  }

  function NotAStringError(key: string): Exception
  {
    Error("[EasyRequester_ERROR] Value for key \"" + key + "\" must be a string")
  }

  function InvalidSlashError(key: string): Exception
  {
    Error("[EasyRequester_ERROR] Value for key \"" + key + "\" contains an invalid slash")
  }

  /** The error one entry raises, if any: a non-string value, or a value with a slash left inside it after trimming. */
  function EntryError(entry: (string, Value)): Option<Exception>
  {
    if !entry.1.Str? then Some(NotAStringError(entry.0))
    else if '/' in TrimSlashes(entry.1.s) then Some(InvalidSlashError(entry.0))
    else None
  }

  /** What the `forEach` has accumulated, or the error it threw, after the given entries. */
  function ObjectPath(entries: seq<(string, Value)>): Result<string, Exception>
  {
    if entries == [] then Ok("")
    else
      var prefix := ObjectPath(entries[..|entries| - 1]);
      var last := entries[|entries| - 1];
      if prefix.Err? then prefix
      else if EntryError(last).Some? then Err(EntryError(last).value)
      else Ok(prefix.value + "/" + TrimSlashes(last.1.s))
  }

  /** The endpoint part of the URL: an object as above; a string only trimmed, with no leading slash added. */
  function EndpointFromObject(endpoint: Value): Result<string, Exception>
  {
    match endpoint
    case Obj(entries) => ObjectPath(entries)
    case Null => Err(TypeError("Cannot convert undefined or null to object"))
    case Undefined => Err(TypeError("Cannot read properties of undefined (reading 'replace')"))
    case Str(s) => Ok(TrimSlashes(s))
    case _ => Err(TypeError("endpoint.replace is not a function"))
  }

  /** generateEndpointFromObject: the accumulating loop, proved to compute `EndpointFromObject`. */
  method GenerateEndpointFromObject(endpoint: Value) returns (r: Result<string, Exception>)
    ensures r == EndpointFromObject(endpoint)
  {
    if endpoint.Obj? {
      var entries := endpoint.props;
      assert EndpointFromObject(endpoint) == ObjectPath(entries);
      var generated := "";
      var i := 0;
      while i < |entries|
        invariant 0 <= i <= |entries|
        invariant ObjectPath(entries[..i]) == Ok(generated)
      {
        var (key, value) := entries[i];
        assert entries[..i + 1][..i] == entries[..i];
        if !value.Str? {
          ObjectPathErrorPersists(entries, i + 1);
          return Err(NotAStringError(key));
        }
        var sanitized := TrimSlashes(value.s);
        if '/' in sanitized {
          ObjectPathErrorPersists(entries, i + 1);
          return Err(InvalidSlashError(key));
        }
        generated := generated + "/" + sanitized;
        i := i + 1;
      }
      assert entries[..|entries|] == entries;
      return Ok(generated);
    }
    if endpoint.Null? {
      return Err(TypeError("Cannot convert undefined or null to object"));
    }
    if endpoint.Undefined? {
      return Err(TypeError("Cannot read properties of undefined (reading 'replace')"));
    }
    if !endpoint.Str? {
      return Err(TypeError("endpoint.replace is not a function"));
    }
    r := Ok(TrimSlashes(endpoint.s));
  }

  /** generateURL: the same composition as src/utils/generator.ts, over this endpoint rule. */
  function GenerateURL(p: Generator.UrlParams, encodeQuery: Value -> string): (r: Result<string, Exception>)
    ensures r.Ok? <==> EndpointFromObject(p.endpoint).Ok?
    ensures r.Err? ==> r.error == EndpointFromObject(p.endpoint).error
    ensures r.Ok? ==> r.value == Generator.Origin(p.protocol, p.baseURL, p.port) + EndpointFromObject(p.endpoint).value + Generator.QueryPart(p.query, encodeQuery)
  {
    var endpoint := EndpointFromObject(p.endpoint);
    if endpoint.Err? then Err(endpoint.error)
    else Ok(Generator.Origin(p.protocol, p.baseURL, p.port) + endpoint.value + Generator.QueryPart(p.query, encodeQuery))
  }

  lemma {:induction false} ObjectPathErrorPersists(entries: seq<(string, Value)>, n: nat)
    requires n <= |entries|
    requires ObjectPath(entries[..n]).Err?
    ensures ObjectPath(entries) == ObjectPath(entries[..n])
    decreases |entries| - n
  {
    if n < |entries| {
      assert entries[..n + 1][..n] == entries[..n];
      ObjectPathErrorPersists(entries, n + 1);
    } else {
      assert entries[..n] == entries;
    }
  }

  /** Every value is a string that, once trimmed, holds no slash. */
  predicate Acceptable(entries: seq<(string, Value)>)
  {
    forall i :: 0 <= i < |entries| ==> EntryError(entries[i]).None?
  }

  /** An object endpoint is accepted exactly when each value is a string without an inner slash. */
  lemma {:induction false} ObjectPathOkIff(entries: seq<(string, Value)>)
    ensures ObjectPath(entries).Ok? <==> Acceptable(entries)
    decreases |entries|
  {
    if entries != [] {
      var init := entries[..|entries| - 1];
      ObjectPathOkIff(init);
      assert Acceptable(entries) <==> Acceptable(init) && EntryError(entries[|entries| - 1]).None? by {
        assert forall i :: 0 <= i < |init| ==> init[i] == entries[i];
      }
    }
  }

  /** On accepted objects this variant and src/utils/generator.ts build the same path. */
  lemma {:induction false} ObjectPathAgreesWithGenerator(entries: seq<(string, Value)>)
    requires ObjectPath(entries).Ok?
    ensures Generator.ObjectPath(entries) == ObjectPath(entries)
    decreases |entries|
  {
    if entries != [] {
      ObjectPathAgreesWithGenerator(entries[..|entries| - 1]);
    }
  }

  /** Because inner slashes are rejected, splitting the generated path at '/' gives back
      exactly the trimmed values, one per entry. */
  lemma RoundTrip(entries: seq<(string, Value)>)
    requires ObjectPath(entries).Ok?
    ensures Generator.AllStrings(entries)
    ensures SplitPath(ObjectPath(entries).value) == Generator.TrimmedValues(entries)
  {
    ObjectPathOkIff(entries);
    assert Generator.AllStrings(entries) by {
      forall i | 0 <= i < |entries| ensures entries[i].1.Str? {
        assert EntryError(entries[i]).None?;
      }
    }
    ObjectPathAgreesWithGenerator(entries);
    Generator.ObjectPathIsJoin(entries);
    var segments := Generator.TrimmedValues(entries);
    assert NoSlashIn(segments) by {
      forall i | 0 <= i < |segments| ensures '/' !in segments[i] {
        assert EntryError(entries[i]).None?;
      }
    }
    SplitJoin(segments);
  }

  /** For a string endpoint the newer generator only adds the leading slash this variant leaves out. */
  lemma StringEndpointLacksLeadingSlash(s: string)
    ensures Generator.Endpoint(Str(s)) == Ok("/" + EndpointFromObject(Str(s)).value)
  {
  }
}
