/** The supersession tracker of src/core/handlers/requestAborter.ts: a live `Map` from generated URL to
    the `AbortController` of the latest request for that URL. Setting up a URL aborts the controller
    stored for it; releasing deletes by URL alone. */
module Aborter {
  import opened Js
  import opened Runtime

  class RequestAborter {
    const controllers: JsMap<string, AbortController>
    var abortController: Option<AbortController>

    /** Every URL has its own controller object, and no stored controller has been aborted. So
        aborting the controller stored under one URL never touches another URL's request. */
    ghost predicate Valid()
      reads this, controllers, controllers.entries.Values
    {
      var m := controllers.entries;
      && (forall u, v :: u in m && v in m && u != v ==> m[u] != m[v])
      && (forall u :: u in m ==> !m[u].aborted)
    }

    constructor()
      ensures Valid()
      ensures fresh(controllers) && controllers.entries == map[]
      ensures abortController == None
    {
      controllers := new JsMap<string, AbortController>();
      abortController := None;
    }

    /** getControllers: the map itself, not a copy; deleting through it changes the tracker. */
    method GetControllers() returns (m: JsMap<string, AbortController>)
      ensures m == controllers
    {
      m := controllers;
    }

    /** setupAbortController: a fresh controller whose signal goes into `requestConfig`; the controller
        stored for the same URL, if any, is aborted; the fresh one takes its place, and every other
        URL keeps its controller, not aborted. */
    method SetupAbortController(generatedURL: string, requestConfig: RequestInit)
      requires Valid()
      modifies this, requestConfig, controllers
      modifies if generatedURL in controllers.entries then {controllers.entries[generatedURL]} else {}
      ensures Valid()
      ensures abortController.Some? && fresh(abortController.value) && !abortController.value.aborted
      ensures requestConfig.signal == abortController
      ensures requestConfig.httpMethod == old(requestConfig.httpMethod) && requestConfig.credentials == old(requestConfig.credentials)
      ensures requestConfig.headers == old(requestConfig.headers) && requestConfig.body == old(requestConfig.body)
      ensures controllers.entries == old(controllers.entries)[generatedURL := abortController.value]
      ensures generatedURL in old(controllers.entries) ==> old(controllers.entries)[generatedURL].aborted
    {
      var created := new AbortController();
      abortController := Some(created);
      requestConfig.signal := Some(created);
      var known := controllers.Has(generatedURL);
      if known {
        var previous := controllers.Get(generatedURL);
        if previous.Some? {
          previous.value.Abort();
        }
      }
      controllers.Set(generatedURL, created);
    }

    /** handleAbortError: the URL's entry goes, whichever controller it held; absent URLs and other
        entries are left alone. */
    method HandleAbortError(generatedURL: string)
      requires Valid()
      modifies controllers
      ensures Valid()
      ensures controllers.entries == old(controllers.entries) - {generatedURL}
    {
      var m := GetControllers();
      m.Delete(generatedURL);
    }
  }

  /** Release is keyed on the URL only. Two requests to one URL: the second supersedes the first;
      the first one's cleanup then drops the second's controller, which stays live but untracked, so a
      third request to the URL no longer aborts it. */
  method StaleReleaseUntracksNewer()
    returns (firstAborted: bool, secondAborted: bool, secondAbortedByThird: bool)
    ensures firstAborted && !secondAborted && !secondAbortedByThird
  {
    var aborter := new RequestAborter();
    var url := "https://api.example.com/user/login";
    var init1 := new RequestInit(GET, SameOrigin, map[]);
    aborter.SetupAbortController(url, init1);
    var first := aborter.abortController.value;
    var init2 := new RequestInit(GET, SameOrigin, map[]);
    aborter.SetupAbortController(url, init2);
    var second := aborter.abortController.value;
    firstAborted, secondAborted := first.aborted, second.aborted;
    aborter.HandleAbortError(url);
    var init3 := new RequestInit(GET, SameOrigin, map[]);
    aborter.SetupAbortController(url, init3);
    secondAbortedByThird := second.aborted;
  }
}
