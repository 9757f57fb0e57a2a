/** The parts of the JavaScript runtime and of the Fetch API the requester touches: promises,
    abort controllers, `Map`, the request-init object handed to `fetch`, and the outcome of a
    fetch. Serialisers the library calls but does not implement are parameters. */
module Runtime {
  import opened Js

  /** How a promise ends: resolved with a value or rejected with an exception. */
  datatype Settlement<+V> = Fulfilled(value: V) | Rejected(reason: Exception)

  /** A promise, reduced to its settlement; `None` while pending. */
  class Promise<V> {
    var state: Option<Settlement<V>>

    constructor()
      ensures state == None
    {
      state := None;
    }

    /** `resolve(v)` or `reject(e)`: only the first settlement of a promise takes effect. */
    method Settle(s: Settlement<V>)
      modifies this
      ensures state == if old(state).None? then Some(s) else old(state)
    {
      if state.None? {
        state := Some(s);
      }
    }
  }

  /** An `AbortController`; its signal is identified with the controller itself. */
  class AbortController {
    var aborted: bool

    constructor()
      ensures !aborted
    {
      aborted := false;
    }

    method Abort()
      modifies this
      ensures aborted
    {
      aborted := true;
    }
  }

  /** A JavaScript `Map`, as a mutable object: whoever holds a reference sees every update. */
  class JsMap<K(==), V> {
    var entries: map<K, V>

    constructor()
      ensures entries == map[]
    {
      entries := map[];
    }

    method Has(k: K) returns (b: bool)
      ensures b <==> k in entries
    {
      b := k in entries;
    }

    method Get(k: K) returns (v: Option<V>)
      ensures v.Some? <==> k in entries
      ensures v.Some? ==> v.value == entries[k]
    {
      v := if k in entries then Some(entries[k]) else None;
    }

    method Set(k: K, v: V)
      modifies this
      ensures entries == old(entries)[k := v]
    {
      entries := entries[k := v];
    }

    method Delete(k: K)
      modifies this
      ensures entries == old(entries) - {k}
    {
      entries := entries - {k};
    }
  }

  datatype Method = GET | HEAD | OPTIONS | TRACE | PUT | DELETE | POST | PATCH | CONNECT

  datatype Credentials = Include | SameOrigin

  /** The `RequestInit` object passed to `fetch` (its `method` is `httpMethod` here); the requester
      fills it in step by step. */
  class RequestInit {
    var httpMethod: Method
    var credentials: Credentials
    var headers: map<string, Value>
    var body: Option<string>
    var signal: Option<AbortController>

    constructor(httpMethod: Method, credentials: Credentials, headers: map<string, Value>)
      ensures this.httpMethod == httpMethod && this.credentials == credentials && this.headers == headers
      ensures body == None && signal == None
    {
      this.httpMethod := httpMethod;
      this.credentials := credentials;
      this.headers := headers;
      body := None;
      signal := None;
    }
  }

  /** What the transport reports for one request: a response, or the text of the error `fetch`
      (or reading the body) rejected with. */
  datatype Response = Response(status: int, contentType: Option<string>, statusText: string, body: string)

  datatype FetchOutcome = Responded(response: Response) | Failed(cause: string)

  /** What an aborted fetch rejects with, as a template literal renders it. */
  const AbortCause := "AbortError: This operation was aborted"

  /** Serialisers the library calls without implementing them: `new URLSearchParams(q).toString()`,
      `JSON.stringify`, and the parse behind `response.json()` (failing with the error's text). */
  datatype Foreign = Foreign(
    encodeQuery: Value -> string,
    stringify: Value -> string,
    parseJson: string -> Result<Value, string>)
}
