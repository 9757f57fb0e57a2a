/** One configured request (src/core/configuredRequester.ts). `sendRequest` generates the URL and the
    headers, wraps the work in a `requestFn` and either enqueues it on the shared queue or runs it
    directly. `requestFn` is split at its `await fetch(...)`: `StartRequestFn` is the part before
    (building the `RequestInit`, registering with the tracker), `Resume` the part after (shaping
    the result from the transport outcome, releasing the tracker entry, settling the promise). */
module Requester {
  import opened Js
  import opened Runtime
  import opened Configs
  import opened Queue
  import opened Aborter
  import Generator

  /** The object a request resolves with. */
  type ResponseObject = map<string, Value>

  /** The `requestFn` closure: the requester whose `this` it closes over, and the URL, headers and
      payload it captured. */
  datatype RequestFn = RequestFn(owner: ConfiguredRequester, generatedURL: string, generatedHeaders: map<string, Value>, payload: Value)

  /** A request whose `fetch` is under way: its closure, the `RequestInit` handed to `fetch`, and,
      when it runs outside the queue, the promise `sendRequest` returned. */
  datatype InFlight = InFlight(job: RequestFn, init: RequestInit, direct: Option<Promise<ResponseObject>>)

  /** What header generation is given: the `header` section's fields, and never the access token. */
  function HeaderParamsOf(rc: RequestConfig): (p: Generator.HeaderParams)
    ensures p.accessToken == Undefined
    ensures rc.header.None? ==> p == Generator.HeaderParams(Undefined, Undefined, Undefined, Undefined)
  {
    match rc.header
    case Some(h) => Generator.HeaderParams(h.contentType, h.responseLang, h.headers, Undefined)
    case None => Generator.HeaderParams(Undefined, Undefined, Undefined, Undefined)
  }

  /** The headers of every request of a configuration. `Authorization` can only come from the custom
      headers, and the `auth` section plays no part. */
  function RequestHeaders(rc: RequestConfig): (h: map<string, Value>)
    ensures "Content-Type" in h
    ensures "Authorization" in h <==> rc.header.Some? && "Authorization" in Spread(rc.header.value.headers)
    ensures forall auth :: Generator.GenerateHeaders(HeaderParamsOf(rc.(auth := auth))) == h
  {
    Generator.GenerateHeaders(HeaderParamsOf(rc))
  }

  /** `"include"` exactly when the `auth` section asks for cookies. */
  function CredentialsOf(auth: Option<AuthSection>): (c: Credentials)
    ensures c == Include <==> auth.Some? && Truthy(auth.value.includeCookies)
  {
    if auth.Some? && Truthy(auth.value.includeCookies) then Include else SameOrigin
  }

  /** Whether a request with this method carries the serialized payload. */
  predicate SendsBody(m: Method)
  {
    m != GET && m != HEAD
  }

  /** What the `catch` of `requestFn` ends in: `Logger.error` throws before anything after it runs. */
  function RequestFailure(cause: string): Exception
  {
    LoggedError("requestFn", "An error ocurred during request " + cause)
  }

  predicate Accepted(client: ClientConfig, outcome: FetchOutcome)
  {
    outcome.Responded? && outcome.response.status in client.acceptStatusCodes
  }

  predicate IsJson(r: Response)
  {
    r.contentType.Some? && Includes(r.contentType.value, "application/json")
  }

  function SuccessBase(r: Response): ResponseObject
  {
    map["isSuccess" := Bool(true), "message" := Str(r.statusText)]
  }

  /** How `requestFn` ends, and whether it deletes the URL's tracker entry on the way. */
  datatype Completion = Completion(settlement: Settlement<ResponseObject>, releasesEntry: bool)

  /** The part of `requestFn` after `fetch`. Only a response with a non-accepted status releases the
      tracker entry (in abort-previous mode) and resolves with `{isSuccess: false}`. A transport
      error, or an accepted JSON response whose body does not parse, rejects; nothing else does.
      An accepted response resolves with `isSuccess` and `message`, overridden by the JSON body's own
      fields, or followed by a `text` field. */
  function CompleteRequest(client: ClientConfig, outcome: FetchOutcome, parseJson: string -> Result<Value, string>): (c: Completion)
    ensures c.releasesEntry <==> client.onNewRequest == AbortPrevious && outcome.Responded? && !Accepted(client, outcome)
    ensures c.settlement.Rejected? <==>
      outcome.Failed? || (Accepted(client, outcome) && IsJson(outcome.response) && parseJson(outcome.response.body).Err?)
    ensures outcome.Failed? ==> c.settlement == Rejected(RequestFailure(outcome.cause))
    ensures Accepted(client, outcome) && IsJson(outcome.response) && parseJson(outcome.response.body).Err? ==>
      c.settlement == Rejected(RequestFailure(parseJson(outcome.response.body).error))
    ensures outcome.Responded? && !Accepted(client, outcome) ==> c.settlement == Fulfilled(map["isSuccess" := Bool(false)])
    ensures Accepted(client, outcome) && !IsJson(outcome.response) ==>
      c.settlement == Fulfilled(map["isSuccess" := Bool(true), "message" := Str(outcome.response.statusText), "text" := Str(outcome.response.body)])
    ensures Accepted(client, outcome) && IsJson(outcome.response) && parseJson(outcome.response.body).Ok? ==>
      c.settlement == Fulfilled(SuccessBase(outcome.response) + Spread(parseJson(outcome.response.body).value))
  {
    match outcome
    case Failed(cause) => Completion(Rejected(RequestFailure(cause)), false)
    case Responded(r) =>
      if r.status in client.acceptStatusCodes then
        if IsJson(r) then
          match parseJson(r.body)
          case Ok(v) => Completion(Fulfilled(SuccessBase(r) + Spread(v)), false)
          case Err(e) => Completion(Rejected(RequestFailure(e)), false)
        else Completion(Fulfilled(SuccessBase(r)["text" := Str(r.body)]), false)
      else Completion(Fulfilled(map["isSuccess" := Bool(false)]), client.onNewRequest == AbortPrevious)
  }

  /** An accepted JSON response resolves with `isSuccess` and `message` plus every field of the
      parsed body, the body's fields winning where the names collide. */
  lemma JsonBodyFieldsWin(client: ClientConfig, outcome: FetchOutcome, parseJson: string -> Result<Value, string>)
    requires Accepted(client, outcome) && IsJson(outcome.response) && parseJson(outcome.response.body).Ok?
    ensures var c := CompleteRequest(client, outcome, parseJson);
      var json := Spread(parseJson(outcome.response.body).value);
      && c.settlement.Fulfilled?
      && (forall k :: k in c.settlement.value <==> k == "isSuccess" || k == "message" || k in json)
      && (forall k :: k in json ==> c.settlement.value[k] == json[k])
      && ("isSuccess" !in json ==> c.settlement.value["isSuccess"] == Bool(true))
      && ("message" !in json ==> c.settlement.value["message"] == Str(outcome.response.statusText))
  {
  }

  /** A JSON body that parses to a string is spread character by character: `"OK"` adds the
      fields "0" and "1". */
  lemma JsonStringBodySpreadsCharacters(client: ClientConfig, outcome: FetchOutcome, parseJson: string -> Result<Value, string>, i: nat)
    requires Accepted(client, outcome) && IsJson(outcome.response)
    requires parseJson(outcome.response.body).Ok? && parseJson(outcome.response.body).value.Str?
    requires i < |parseJson(outcome.response.body).value.s|
    ensures var c := CompleteRequest(client, outcome, parseJson);
      var s := parseJson(outcome.response.body).value.s;
      c.settlement.Fulfilled? && IndexKey(i) in c.settlement.value && c.settlement.value[IndexKey(i)] == Str([s[i]])
  {
    IndexPropertyAt(parseJson(outcome.response.body).value.s, i);
  }

  /** A fetch whose signal was aborted before it settled rejects with an `AbortError`, whatever the
      server would have sent. */
  function EffectiveOutcome(aborted: bool, outcome: FetchOutcome): (o: FetchOutcome)
    ensures aborted ==> o == Failed(AbortCause)
    ensures !aborted ==> o == outcome
  {
    if aborted then Failed(AbortCause) else outcome
  }

  predicate SignalAborted(init: RequestInit)
    reads init, if init.signal.Some? then {init.signal.value} else {}
  {
    init.signal.Some? && init.signal.value.aborted
  }

  class ConfiguredRequester {
    const requestConfig: RequestConfig
    const clientConfig: ClientConfig
    const requestQueuer: RequestQueuer<RequestFn, ResponseObject>
    const requestAborter: RequestAborter

    constructor(requestConfig: RequestConfig, clientConfig: ClientConfig,
                requestQueuer: RequestQueuer<RequestFn, ResponseObject>, requestAborter: RequestAborter)
      ensures this.requestConfig == requestConfig && this.clientConfig == clientConfig
      ensures this.requestQueuer == requestQueuer && this.requestAborter == requestAborter
    {
      this.requestConfig := requestConfig;
      this.clientConfig := clientConfig;
      this.requestQueuer := requestQueuer;
      this.requestAborter := requestAborter;
    }

    /** The `RequestInit` `requestFn` builds for `job`: the configured method, the credentials
        mode, the captured headers, and the serialized payload unless the method is GET or HEAD. */
    predicate InitFor(init: RequestInit, job: RequestFn, foreign: Foreign)
      reads init
    {
      && init.httpMethod == requestConfig.httpMethod && init.credentials == CredentialsOf(requestConfig.auth)
      && init.headers == job.generatedHeaders
      && init.body == if SendsBody(requestConfig.httpMethod) then Some(foreign.stringify(job.payload)) else None
    }

    ghost predicate Valid()
      reads requestQueuer, requestQueuer.Promises(), requestAborter, requestAborter.controllers,
            requestAborter.controllers.entries.Values
    {
      requestQueuer.Valid() && requestAborter.Valid()
    }

    /** `requestFn` up to `await fetch`: the `RequestInit` gets the method, the credentials mode and
        the captured headers; in abort-previous mode it is registered with the tracker, superseding
        the URL's previous request; the body is the serialized payload unless the method is GET or
        HEAD. */
    method StartRequestFn(job: RequestFn, foreign: Foreign) returns (init: RequestInit)
      requires job.owner == this && requestAborter.Valid()
      modifies if clientConfig.onNewRequest == AbortPrevious then {requestAborter, requestAborter.controllers} else {}
      modifies if clientConfig.onNewRequest == AbortPrevious && job.generatedURL in requestAborter.controllers.entries
               then {requestAborter.controllers.entries[job.generatedURL]} else {}
      ensures requestAborter.Valid()
      ensures fresh(init) && InitFor(init, job, foreign)
      ensures clientConfig.onNewRequest == EnqueueNew ==>
        init.signal == None && requestAborter.controllers.entries == old(requestAborter.controllers.entries)
      ensures clientConfig.onNewRequest == AbortPrevious ==>
        && init.signal.Some? && fresh(init.signal.value) && !init.signal.value.aborted
        && requestAborter.controllers.entries == old(requestAborter.controllers.entries)[job.generatedURL := init.signal.value]
        && (job.generatedURL in old(requestAborter.controllers.entries) ==> old(requestAborter.controllers.entries)[job.generatedURL].aborted)
    {
      init := new RequestInit(requestConfig.httpMethod, CredentialsOf(requestConfig.auth), job.generatedHeaders);
      if clientConfig.onNewRequest == AbortPrevious {
        requestAborter.SetupAbortController(job.generatedURL, init);
      }
      if SendsBody(requestConfig.httpMethod) {
        init.body := Some(foreign.stringify(job.payload));
      }
    }

    /** sendRequest. A URL that cannot be generated rejects the returned promise at once. Otherwise in
        enqueue-new mode the request goes to the tail of the shared queue and starts only if the queue
        was idle; in abort-previous mode it starts at once. */
    method SendRequest(payload: Value, foreign: Foreign) returns (promise: Promise<ResponseObject>, flight: Option<InFlight>)
      requires Valid()
      modifies requestQueuer, requestAborter, requestAborter.controllers, requestAborter.controllers.entries.Values
      ensures Valid()
      ensures fresh(promise)
      ensures var url := Generator.GenerateURL(requestConfig.url, foreign.encodeQuery);
        url.Err? ==>
          && promise.state == Some(Rejected(url.error)) && flight == None
          && requestQueuer.State() == old(requestQueuer.State())
          && requestAborter.controllers.entries == old(requestAborter.controllers.entries)
      ensures var url := Generator.GenerateURL(requestConfig.url, foreign.encodeQuery);
        url.Ok? ==>
          var job := RequestFn(this, url.value, RequestHeaders(requestConfig), payload);
          && promise.state == None
          && (flight.Some? ==> flight.value.job == job && fresh(flight.value.init) && InitFor(flight.value.init, job, foreign))
          && (clientConfig.onNewRequest == EnqueueNew ==>
                && requestQueuer.State() == EnqueueStep(old(requestQueuer.State()), QueueEntry(job, promise))
                && (flight.Some? <==> old(requestQueuer.running).None?)
                && (flight.Some? ==> flight.value.direct == None && flight.value.init.signal == None)
                && requestAborter.controllers.entries == old(requestAborter.controllers.entries))
          && (clientConfig.onNewRequest == AbortPrevious ==>
                && flight.Some? && flight.value.direct == Some(promise)
                && requestQueuer.State() == old(requestQueuer.State())
                && flight.value.init.signal.Some? && fresh(flight.value.init.signal.value) && !flight.value.init.signal.value.aborted
                && requestAborter.controllers.entries == old(requestAborter.controllers.entries)[url.value := flight.value.init.signal.value]
                && (url.value in old(requestAborter.controllers.entries) ==> old(requestAborter.controllers.entries)[url.value].aborted))
    {
      var url := Generator.GenerateURL(requestConfig.url, foreign.encodeQuery);
      if url.Err? {
        promise := new Promise<ResponseObject>();
        promise.Settle(Rejected(url.error));
        assert unchanged(requestQueuer) && unchanged(requestAborter.controllers);
        return promise, None;
      }
      var job := RequestFn(this, url.value, RequestHeaders(requestConfig), payload);
      if clientConfig.onNewRequest == EnqueueNew {
        promise, flight := SendQueued(job, foreign);
      } else {
        promise, flight := SendDirect(job, foreign);
      }
    }

    /** enqueue-new mode: `enqueueRequest(requestFn)`; the request function starts here only when the
        queue was idle. */
    method SendQueued(job: RequestFn, foreign: Foreign) returns (promise: Promise<ResponseObject>, flight: Option<InFlight>)
      requires Valid() && job.owner == this && clientConfig.onNewRequest == EnqueueNew
      modifies requestQueuer
      ensures Valid()
      ensures fresh(promise) && promise.state == None
      ensures requestQueuer.State() == EnqueueStep(old(requestQueuer.State()), QueueEntry(job, promise))
      ensures flight.Some? <==> old(requestQueuer.running).None?
      ensures flight.Some? ==> flight.value.job == job && fresh(flight.value.init) && flight.value.direct == None && flight.value.init.signal == None
      ensures flight.Some? ==> InitFor(flight.value.init, job, foreign)
      ensures requestAborter.controllers.entries == old(requestAborter.controllers.entries)
    {
      var started;
      promise, started := requestQueuer.EnqueueRequest(job);
      if started.Some? {
        label enqueued:
        var init := StartRequestFn(job, foreign);
        assert unchanged@enqueued(requestQueuer) && unchanged@enqueued(requestAborter.controllers);
        flight := Some(InFlight(job, init, None));
      } else {
        flight := None;
      }
    }

    /** abort-previous mode: `requestFn()` runs at once, superseding the URL's previous request. */
    method SendDirect(job: RequestFn, foreign: Foreign) returns (promise: Promise<ResponseObject>, flight: Option<InFlight>)
      requires Valid() && job.owner == this && clientConfig.onNewRequest == AbortPrevious
      modifies requestAborter, requestAborter.controllers
      modifies if job.generatedURL in requestAborter.controllers.entries then {requestAborter.controllers.entries[job.generatedURL]} else {}
      ensures Valid()
      ensures fresh(promise) && promise.state == None
      ensures requestQueuer.State() == old(requestQueuer.State())
      ensures flight.Some? && flight.value.job == job && fresh(flight.value.init) && flight.value.direct == Some(promise)
      ensures InitFor(flight.value.init, job, foreign)
      ensures flight.value.init.signal.Some? && fresh(flight.value.init.signal.value) && !flight.value.init.signal.value.aborted
      ensures requestAborter.controllers.entries == old(requestAborter.controllers.entries)[job.generatedURL := flight.value.init.signal.value]
      ensures job.generatedURL in old(requestAborter.controllers.entries) ==> old(requestAborter.controllers.entries)[job.generatedURL].aborted
    {
      promise := new Promise<ResponseObject>();
      var init := StartRequestFn(job, foreign);
      flight := Some(InFlight(job, init, Some(promise)));
    }

    /** `requestFn` after `fetch` settled with `outcome`: the result is shaped by `CompleteRequest` (an
        aborted request failing instead), the tracker entry is deleted through the live map when the
        status is not accepted, and the request's promise is settled: directly, or through the queue,
        which then starts its next entry and hands back that entry's request function. */
    method Resume(flight: InFlight, outcome: FetchOutcome, foreign: Foreign) returns (next: Option<RequestFn>)
      requires Valid() && flight.job.owner == this
      requires flight.direct.None? ==> requestQueuer.running.Some? && requestQueuer.running.value.requestFn == flight.job
      requires flight.direct.Some? ==> flight.direct.value !in requestQueuer.Promises()
      modifies requestQueuer, requestAborter.controllers
      modifies if requestQueuer.running.Some? then {requestQueuer.running.value.promise} else {}
      modifies if flight.direct.Some? then {flight.direct.value} else {}
      ensures Valid()
      ensures var c := CompleteRequest(clientConfig, EffectiveOutcome(old(SignalAborted(flight.init)), outcome), foreign.parseJson);
        && requestAborter.controllers.entries ==
             (if c.releasesEntry then old(requestAborter.controllers.entries) - {flight.job.generatedURL} else old(requestAborter.controllers.entries))
        && (flight.direct.Some? ==>
              && flight.direct.value.state == (if old(flight.direct.value.state).None? then Some(c.settlement) else old(flight.direct.value.state))
              && next == None && requestQueuer.State() == old(requestQueuer.State()))
        && (flight.direct.None? ==>
              && old(requestQueuer.running.value.promise).state == Some(c.settlement)
              && requestQueuer.State() == FinishStep(old(requestQueuer.State()))
              && (next.Some? <==> old(requestQueuer.requestQueue) != [])
              && (next.Some? ==> next.value == old(requestQueuer.requestQueue)[0].requestFn))
    {
      var effective := EffectiveOutcome(SignalAborted(flight.init), outcome);
      var c := CompleteRequest(clientConfig, effective, foreign.parseJson);
      if c.releasesEntry {
        ReleaseEntry(flight.job.generatedURL);
      }
      next := Deliver(flight, c.settlement);
    }

    /** The non-accepted-status cleanup: the URL's entry is deleted through the map `getControllers`
        hands out. */
    method ReleaseEntry(generatedURL: string)
      requires Valid()
      modifies requestAborter.controllers
      ensures Valid()
      ensures requestAborter.controllers.entries == old(requestAborter.controllers.entries) - {generatedURL}
    {
      var controllers := requestAborter.GetControllers();
      controllers.Delete(generatedURL);
    }

    /** Settles the request's promise: the one `sendRequest` returned when it ran directly, or the
        queue entry's, in which case the queue moves on to its next entry. */
    method Deliver(flight: InFlight, settlement: Settlement<ResponseObject>) returns (next: Option<RequestFn>)
      requires Valid()
      requires flight.direct.None? ==> requestQueuer.running.Some?
      requires flight.direct.Some? ==> flight.direct.value !in requestQueuer.Promises()
      modifies requestQueuer
      modifies if requestQueuer.running.Some? then {requestQueuer.running.value.promise} else {}
      modifies if flight.direct.Some? then {flight.direct.value} else {}
      ensures Valid()
      ensures requestAborter.controllers.entries == old(requestAborter.controllers.entries)
      ensures flight.direct.Some? ==>
        && flight.direct.value.state == (if old(flight.direct.value.state).None? then Some(settlement) else old(flight.direct.value.state))
        && next == None && requestQueuer.State() == old(requestQueuer.State())
      ensures flight.direct.None? ==>
        && old(requestQueuer.running.value.promise).state == Some(settlement)
        && requestQueuer.State() == FinishStep(old(requestQueuer.State()))
        && (next.Some? <==> old(requestQueuer.requestQueue) != [])
        && (next.Some? ==> next.value == old(requestQueuer.requestQueue)[0].requestFn)
    {
      if flight.direct.Some? {
        flight.direct.value.Settle(settlement);
        assert unchanged(requestQueuer) && requestAborter.Valid();
        next := None;
      } else {
        next := requestQueuer.Finish(settlement);
      }
    }
  }
}
