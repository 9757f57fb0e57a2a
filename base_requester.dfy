/** The entry point of src/core/baseRequester.ts: the client configuration is normalised once, one
    queue and one tracker are created, and every request configuration yields a `ConfiguredRequester`
    that shares them. */
module Base {
  import opened Js
  import opened Runtime
  import opened Configs
  import opened Queue
  import opened Aborter
  import opened Requester
  import Generator

  const PossibleStatusCodes: seq<int> := [200, 201, 202, 203, 204, 205, 206]

  /** The header-section content type used when none is given: the whole header line, as a value. */
  const HeaderSectionContentType := "Content-Type: application/json"

  predicate NoDuplicates(s: seq<int>)
  {
    forall i, j :: 0 <= i < j < |s| ==> s[i] != s[j]
  }

  /** The position of the first occurrence of `x` in `s` (`s.indexOf(x)`). */
  function FirstIndex(s: seq<int>, x: int): (i: nat)
    requires x in s
    ensures i < |s| && s[i] == x && x !in s[..i]
  {
    if s[0] == x then 0
    else
      var j := FirstIndex(s[1..], x);
      assert s[..j + 1] == [s[0]] + s[1..][..j];
      j + 1
  }

  /** The first occurrence is the only position holding `x` with no `x` before it. */
  lemma FirstIndexUnique(s: seq<int>, x: int, k: nat)
    requires k < |s| && s[k] == x && x !in s[..k]
    ensures FirstIndex(s, x) == k
  {
    var i := FirstIndex(s, x);
    assert forall j :: 0 <= j < k ==> s[..k][j] == s[j];
    assert forall j :: 0 <= j < i ==> s[..i][j] == s[j];
  }

  /** Appending cannot move a first occurrence that is already there. */
  lemma FirstIndexInPrefix(p: seq<int>, q: seq<int>, x: int)
    requires x in p
    ensures FirstIndex(p + q, x) == FirstIndex(p, x)
  {
    var i := FirstIndex(p, x);
    assert (p + q)[..i] == p[..i];
    FirstIndexUnique(p + q, x, i);
  }

  /** A value first met in `q` is first met in `p + q` exactly `|p|` places later. */
  lemma FirstIndexAfterPrefix(p: seq<int>, q: seq<int>, x: int)
    requires x !in p && x in q
    ensures FirstIndex(p + q, x) == |p| + FirstIndex(q, x)
  {
    var i := FirstIndex(q, x);
    assert (p + q)[..|p| + i] == p + q[..i];
    FirstIndexUnique(p + q, x, |p| + i);
  }

  /** `Array.from(new Set(s))`: each value once, in the order of first occurrence. */
  function Distinct(s: seq<int>): (r: seq<int>)
    ensures forall x :: x in r <==> x in s
    ensures NoDuplicates(r)
    ensures forall i, j {:trigger FirstIndex(s, r[i]), FirstIndex(s, r[j])} :: 0 <= i < j < |r| ==> FirstIndex(s, r[i]) < FirstIndex(s, r[j])
  {
    if s == [] then []
    else
      var init := s[..|s| - 1];
      var d := Distinct(init);
      var last := s[|s| - 1];
      assert s == init + [last];
      assert forall x :: x in s <==> x in init || x == last;
      assert forall x :: x in init ==> FirstIndex(s, x) == FirstIndex(init, x) by {
        forall x | x in init ensures FirstIndex(s, x) == FirstIndex(init, x) {
          FirstIndexInPrefix(init, [last], x);
        }
      }
      if last in d then d
      else
        assert FirstIndex(s, last) == |init| by {
          FirstIndexAfterPrefix(init, [last], last);
        }
        d + [last]
  }

  /** A sequence without duplicates is its own set order. */
  lemma {:induction false} DistinctOfDuplicateFree(s: seq<int>)
    requires NoDuplicates(s)
    ensures Distinct(s) == s
  {
    if s != [] {
      var init, last := s[..|s| - 1], s[|s| - 1];
      assert NoDuplicates(init);
      DistinctOfDuplicateFree(init);
      assert last !in init by {
        forall i | 0 <= i < |init| ensures init[i] != last {
          assert init[i] == s[i];
        }
      }
      assert last !in Distinct(init);
      assert s == init + [last];
    }
  }

  /** Deduplicating `p + q` keeps a duplicate-free `p` in front, unchanged. */
  lemma {:induction false} DistinctKeepsPrefix(p: seq<int>, q: seq<int>)
    requires NoDuplicates(p)
    ensures |Distinct(p + q)| >= |p| && Distinct(p + q)[..|p|] == p
  {
    if q == [] {
      assert p + q == p;
      DistinctOfDuplicateFree(p);
    } else {
      var q' := q[..|q| - 1];
      DistinctKeepsPrefix(p, q');
      assert (p + q)[..|p + q| - 1] == p + q';
    }
  }

  /** Deduplicating `p + q` with a duplicate-free `p` puts after `p` exactly the values of `q`
      that `p` lacks, in the order of their first occurrence in `q`. */
  lemma DistinctAfterPrefix(p: seq<int>, q: seq<int>)
    requires NoDuplicates(p)
    ensures |Distinct(p + q)| >= |p| && Distinct(p + q)[..|p|] == p
    ensures forall i :: |p| <= i < |Distinct(p + q)| ==> Distinct(p + q)[i] !in p && Distinct(p + q)[i] in q
    ensures forall i, j :: |p| <= i < j < |Distinct(p + q)| ==> FirstIndex(q, Distinct(p + q)[i]) < FirstIndex(q, Distinct(p + q)[j])
  {
    var r := Distinct(p + q);
    DistinctKeepsPrefix(p, q);
    forall i | |p| <= i < |r| ensures r[i] !in p && r[i] in q {
      forall k | 0 <= k < |p| ensures p[k] != r[i] {
        assert r[..|p|][k] == r[k];
      }
      assert r[i] in r;
    }
    forall x | x !in p && x in q ensures FirstIndex(p + q, x) == |p| + FirstIndex(q, x) {
      FirstIndexAfterPrefix(p, q, x);
    }
  }

  /** The caller's accepted codes, or none. */
  function CallerCodes(input: ClientConfigInput): seq<int>
  {
    if input.acceptStatusCodes.Some? then input.acceptStatusCodes.value else []
  }

  /** The constructor's client configuration: `onNewRequest` defaults to enqueue-new and
      `isDebugMode` to false; the accepted codes are 200..206 followed by the caller's other codes,
      each code once, in the order the caller first lists them. */
  function NormalizeClientConfig(input: ClientConfigInput): (c: ClientConfig)
    ensures c.onNewRequest == if input.onNewRequest.Some? then input.onNewRequest.value else EnqueueNew
    ensures c.isDebugMode <==> input.isDebugMode == Some(true)
    ensures forall code :: code in c.acceptStatusCodes <==>
      code in PossibleStatusCodes || (input.acceptStatusCodes.Some? && code in input.acceptStatusCodes.value)
    ensures NoDuplicates(c.acceptStatusCodes)
    ensures |c.acceptStatusCodes| >= |PossibleStatusCodes| && c.acceptStatusCodes[..|PossibleStatusCodes|] == PossibleStatusCodes
    ensures forall i :: |PossibleStatusCodes| <= i < |c.acceptStatusCodes| ==>
      c.acceptStatusCodes[i] !in PossibleStatusCodes && c.acceptStatusCodes[i] in CallerCodes(input)
    ensures forall i, j :: |PossibleStatusCodes| <= i < j < |c.acceptStatusCodes| ==>
      FirstIndex(CallerCodes(input), c.acceptStatusCodes[i]) < FirstIndex(CallerCodes(input), c.acceptStatusCodes[j])
  {
    var extra := CallerCodes(input);
    var codes := Distinct(PossibleStatusCodes + extra);
    DistinctAfterPrefix(PossibleStatusCodes, extra);
    ClientConfig(
      if input.onNewRequest.Some? then input.onNewRequest.value else EnqueueNew,
      codes,
      if input.isDebugMode.Some? then input.isDebugMode.value else false)
  }

  /** setRequestConfig's copy of a request configuration. */
  function NormalizeRequestConfig(rc: RequestConfig): (r: RequestConfig)
    ensures r.url.protocol == Coalesce(rc.url.protocol, Str("http"))
    ensures r.url.(protocol := rc.url.protocol) == rc.url
    ensures r.httpMethod == rc.httpMethod
    ensures r.header.Some? <==> rc.header.Some?
    ensures r.header.Some? ==>
      && r.header.value.contentType == Coalesce(rc.header.value.contentType, Str(HeaderSectionContentType))
      && r.header.value.responseLang == rc.header.value.responseLang
      && r.header.value.headers == Coalesce(rc.header.value.headers, Obj([]))
    ensures r.auth.Some? <==> rc.auth.Some?
    ensures r.auth.Some? ==>
      && r.auth.value.accessToken == rc.auth.value.accessToken
      && r.auth.value.includeCookies == Coalesce(rc.auth.value.includeCookies, Bool(false))
  {
    RequestConfig(
      rc.url.(protocol := Coalesce(rc.url.protocol, Str("http"))),
      rc.httpMethod,
      match rc.header
      case Some(h) => Some(HeaderSection(Coalesce(h.contentType, Str(HeaderSectionContentType)), h.responseLang, Coalesce(h.headers, Obj([]))))
      case None => None,
      match rc.auth
      case Some(a) => Some(AuthSection(a.accessToken, Coalesce(a.includeCookies, Bool(false))))
      case None => None)
  }

  /** Normalising twice changes nothing more: every default is already in place. */
  lemma NormalizeRequestConfigIdempotent(rc: RequestConfig)
    ensures NormalizeRequestConfig(NormalizeRequestConfig(rc)) == NormalizeRequestConfig(rc)
  {
  }

  /** The two content-type defaults differ. Without a `header` section the request says
      `application/json`; with a section lacking `contentType` it sends the whole line
      "Content-Type: application/json" as the header's value. */
  lemma ContentTypeDefaults(rc: RequestConfig)
    ensures rc.header.None? ==>
      RequestHeaders(NormalizeRequestConfig(rc))["Content-Type"] == Str(Generator.DefaultContentType)
    ensures rc.header.Some? && IsNullish(rc.header.value.contentType) ==>
      RequestHeaders(NormalizeRequestConfig(rc))["Content-Type"] == Str(HeaderSectionContentType)
  {
  }

  class BaseRequester {
    const clientConfig: ClientConfig
    const requestQueuer: RequestQueuer<RequestFn, ResponseObject>
    const requestAborter: RequestAborter

    ghost predicate Valid()
      reads requestQueuer, requestQueuer.Promises(), requestAborter, requestAborter.controllers,
            requestAborter.controllers.entries.Values
    {
      requestQueuer.Valid() && requestAborter.Valid()
    }

    constructor(input: ClientConfigInput)
      ensures Valid()
      ensures clientConfig == NormalizeClientConfig(input)
      ensures fresh(requestQueuer) && requestQueuer.State() == QueueState([], None)
      ensures fresh(requestAborter) && fresh(requestAborter.controllers) && requestAborter.controllers.entries == map[]
    {
      requestQueuer := new RequestQueuer<RequestFn, ResponseObject>();
      requestAborter := new RequestAborter();
      clientConfig := NormalizeClientConfig(input);
    }

    /** setRequestConfig: a new requester for the normalised configuration, sharing this client's
        configuration, queue and tracker. */
    method SetRequestConfig(requestConfig: RequestConfig) returns (r: ConfiguredRequester)
      ensures fresh(r)
      ensures r.requestConfig == NormalizeRequestConfig(requestConfig)
      ensures r.clientConfig == clientConfig
      ensures r.requestQueuer == requestQueuer && r.requestAborter == requestAborter
    {
      r := new ConfiguredRequester(NormalizeRequestConfig(requestConfig), clientConfig, requestQueuer, requestAborter);
    }
  }

  /** The configuration the scenarios send: GET https://api.example.com/user/login, no sections. */
  function LoginConfig(): RequestConfig
  {
    RequestConfig(Generator.UrlParams(Str("https"), Str("api.example.com"), Undefined, Str("user/login"), Undefined), GET, None, None)
  }

  /** A client built from `input`, configured with `LoginConfig()`: nothing queued, nothing tracked. */
  method FreshLoginRequester(input: ClientConfigInput, foreign: Foreign) returns (requester: ConfiguredRequester)
    ensures fresh(requester) && fresh(requester.requestQueuer) && fresh(requester.requestAborter) && fresh(requester.requestAborter.controllers)
    ensures requester.Valid()
    ensures requester.clientConfig == NormalizeClientConfig(input)
    ensures requester.requestQueuer.State() == QueueState([], None) && requester.requestAborter.controllers.entries == map[]
    ensures Generator.GenerateURL(requester.requestConfig.url, foreign.encodeQuery).Ok?
  {
    var base := new BaseRequester(input);
    requester := base.SetRequestConfig(LoginConfig());
    assert requester.requestConfig.url.endpoint == Str("user/login");
  }

  /** abort-previous mode, a first send: it starts at once and its fresh controller is the one
      tracked for the URL. */
  method FirstDirectSend(foreign: Foreign) returns (requester: ConfiguredRequester, url: string, f1: InFlight)
    ensures fresh(requester) && fresh(requester.requestQueuer) && fresh(requester.requestAborter) && fresh(requester.requestAborter.controllers)
    ensures requester.Valid() && requester.requestQueuer.State() == QueueState([], None)
    ensures requester.clientConfig.onNewRequest == AbortPrevious && 200 in requester.clientConfig.acceptStatusCodes
    ensures Generator.GenerateURL(requester.requestConfig.url, foreign.encodeQuery) == Ok(url)
    ensures f1.job.owner == requester && f1.direct.Some? && fresh(f1.direct.value) && f1.direct.value.state == None
    ensures f1.init.signal.Some? && fresh(f1.init.signal.value) && !f1.init.signal.value.aborted
    ensures requester.requestAborter.controllers.entries == map[url := f1.init.signal.value]
  {
    requester := FreshLoginRequester(ClientConfigInput(Some(AbortPrevious), None, None), foreign);
    assert 200 in requester.clientConfig.acceptStatusCodes;
    var generated := Generator.GenerateURL(requester.requestConfig.url, foreign.encodeQuery);
    url := generated.value;
    var p1, flight1 := requester.SendRequest(Undefined, foreign);
    f1 := flight1.value;
  }

  /** abort-previous mode, two sends of the same request: the second aborts the first's controller
      and takes its place in the tracker. */
  method SupersededPair(foreign: Foreign)
    returns (requester: ConfiguredRequester, url: string, f1: InFlight, f2: InFlight)
    ensures fresh(requester) && fresh(requester.requestQueuer) && fresh(requester.requestAborter) && fresh(requester.requestAborter.controllers)
    ensures requester.Valid() && requester.requestQueuer.State() == QueueState([], None)
    ensures requester.clientConfig.onNewRequest == AbortPrevious && 200 in requester.clientConfig.acceptStatusCodes
    ensures f1.job.owner == requester && f2.job.owner == requester && f2.job.generatedURL == url
    ensures f1.direct.Some? && f2.direct.Some? && fresh(f1.direct.value) && fresh(f2.direct.value)
    ensures f1.direct.value != f2.direct.value && f1.direct.value.state == None && f2.direct.value.state == None
    ensures SignalAborted(f1.init) && !SignalAborted(f2.init) && f2.init.signal.Some?
    ensures requester.requestAborter.controllers.entries == map[url := f2.init.signal.value]
  {
    requester, url, f1 := FirstDirectSend(foreign);
    var c1 := f1.init.signal.value;
    assert url in requester.requestAborter.controllers.entries && requester.requestAborter.controllers.entries[url] == c1;
    var p2, flight2 := requester.SendRequest(Undefined, foreign);
    f2 := flight2.value;
  }

  /** abort-previous mode: a second request to the same URL aborts the first, which then rejects
      even though its response arrived; the second succeeds and, on this success path, stays in
      the tracker. */
  method SupersededRequestRejects(foreign: Foreign)
    returns (first: Option<Settlement<ResponseObject>>, second: Option<Settlement<ResponseObject>>, stillTracked: bool)
    ensures first == Some(Rejected(RequestFailure(AbortCause)))
    ensures second == Some(Fulfilled(map["isSuccess" := Bool(true), "message" := Str("OK"), "text" := Str("done")]))
    ensures stillTracked
  {
    var requester, url, f1, f2 := SupersededPair(foreign);
    var ok := Responded(Response(200, None, "OK", "done"));
    assert CompleteRequest(requester.clientConfig, Failed(AbortCause), foreign.parseJson).settlement == Rejected(RequestFailure(AbortCause));
    var n1 := requester.Resume(f1, ok, foreign);
    assert !SignalAborted(f2.init);
    assert Accepted(requester.clientConfig, ok) && !IsJson(ok.response);
    var n2 := requester.Resume(f2, ok, foreign);
    first, second := f1.direct.value.state, f2.direct.value.state;
    stillTracked := url in requester.requestAborter.controllers.entries;
  }

  /** enqueue-new mode, a first send: the queue was idle, so it starts at once, without a signal. */
  method FirstQueuedSend(foreign: Foreign)
    returns (requester: ConfiguredRequester, p1: Promise<ResponseObject>, f1: InFlight)
    ensures fresh(requester) && fresh(requester.requestQueuer) && fresh(requester.requestAborter) && fresh(requester.requestAborter.controllers)
    ensures fresh(p1) && p1.state == None
    ensures requester.Valid()
    ensures requester.clientConfig == NormalizeClientConfig(ClientConfigInput(None, None, None))
    ensures Generator.GenerateURL(requester.requestConfig.url, foreign.encodeQuery).Ok?
    ensures f1.job.owner == requester && f1.direct == None && f1.init.signal == None
    ensures f1.job == RequestFn(requester, Generator.GenerateURL(requester.requestConfig.url, foreign.encodeQuery).value,
                                RequestHeaders(requester.requestConfig), Undefined)
    ensures requester.requestQueuer.State() == QueueState([], Some(QueueEntry(f1.job, p1)))
    ensures requester.requestAborter.controllers.entries == map[]
  {
    requester := FreshLoginRequester(ClientConfigInput(None, None, None), foreign);
    var flight1;
    p1, flight1 := requester.SendRequest(Undefined, foreign);
    f1 := flight1.value;
  }

  /** enqueue-new mode, two sends of the same request: the first runs, the second waits behind it. */
  method QueuedPair(foreign: Foreign)
    returns (requester: ConfiguredRequester, p1: Promise<ResponseObject>, f1: InFlight, p2: Promise<ResponseObject>)
    ensures fresh(requester) && fresh(requester.requestQueuer) && fresh(requester.requestAborter) && fresh(requester.requestAborter.controllers)
    ensures fresh(p1) && fresh(p2)
    ensures requester.Valid()
    ensures requester.clientConfig == NormalizeClientConfig(ClientConfigInput(None, None, None))
    ensures f1.job.owner == requester && f1.direct == None && f1.init.signal == None
    ensures p1 != p2 && p1.state == None && p2.state == None
    ensures requester.requestQueuer.State() == QueueState([QueueEntry(f1.job, p2)], Some(QueueEntry(f1.job, p1)))
  {
    requester, p1, f1 := FirstQueuedSend(foreign);
    var flight2;
    p2, flight2 := requester.SendRequest(Undefined, foreign);
  }

  /** The first of the queued pair fails in transport: it rejects, and the queue starts the second. */
  method FirstFails(foreign: Foreign)
    returns (requester: ConfiguredRequester, p1: Promise<ResponseObject>, p2: Promise<ResponseObject>, job: RequestFn)
    ensures fresh(requester) && fresh(requester.requestQueuer) && fresh(requester.requestAborter) && fresh(requester.requestAborter.controllers)
    ensures fresh(p1) && fresh(p2)
    ensures requester.Valid()
    ensures requester.clientConfig == NormalizeClientConfig(ClientConfigInput(None, None, None))
    ensures job.owner == requester
    ensures p1 != p2 && p1.state == Some(Rejected(RequestFailure("TypeError: Failed to fetch")))
    ensures requester.requestQueuer.State() == QueueState([], Some(QueueEntry(job, p2)))
  {
    var f1;
    requester, p1, f1, p2 := QueuedPair(foreign);
    var next := requester.Resume(f1, Failed("TypeError: Failed to fetch"), foreign);
    job := next.value;
  }

  /** The queue's second entry runs once the first has settled: a 404 is not an accepted status,
      so it resolves with `{isSuccess: false}`; the first entry's promise is left as it was. */
  method RunSecond(requester: ConfiguredRequester, p1: Promise<ResponseObject>, p2: Promise<ResponseObject>, job: RequestFn, foreign: Foreign)
    requires requester.Valid()
    requires requester.clientConfig.onNewRequest == EnqueueNew && 404 !in requester.clientConfig.acceptStatusCodes
    requires job.owner == requester && p1 != p2
    requires requester.requestQueuer.State() == QueueState([], Some(QueueEntry(job, p2)))
    modifies requester.requestQueuer, requester.requestAborter.controllers, p2
    ensures p2.state == Some(Fulfilled(map["isSuccess" := Bool(false)]))
    ensures p1.state == old(p1.state)
  {
    var init := requester.StartRequestFn(job, foreign);
    assert !SignalAborted(init);
    var notFound := Responded(Response(404, None, "Not Found", ""));
    assert CompleteRequest(requester.clientConfig, notFound, foreign.parseJson).settlement == Fulfilled(map["isSuccess" := Bool(false)]);
    var n := requester.Resume(InFlight(job, init, None), notFound, foreign);
  }

  /** enqueue-new mode: the second request waits for the first; the first fails in transport and
      rejects, the queue then starts the second, whose 404 resolves with `{isSuccess: false}`. */
  method QueueDrainsAfterTransportError(foreign: Foreign)
    returns (first: Option<Settlement<ResponseObject>>, second: Option<Settlement<ResponseObject>>)
    ensures first == Some(Rejected(RequestFailure("TypeError: Failed to fetch")))
    ensures second == Some(Fulfilled(map["isSuccess" := Bool(false)]))
  {
    var requester, p1, p2, job := FirstFails(foreign);
    assert 404 !in requester.clientConfig.acceptStatusCodes;
    RunSecond(requester, p1, p2, job, foreign);
    first, second := p1.state, p2.state;
  }
}
