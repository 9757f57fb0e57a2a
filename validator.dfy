/** Guard-clause validation of a requester configuration (src/utils/validator.ts). Seven checks run
    in a fixed order; the first that fails throws, and a configuration that passes them all is
    returned from with no effect. */
module Validator {
  import opened Js
  import Generator

  /** The configuration fields validation looks at; each may hold any JavaScript value. */
  datatype ValidatorParams = ValidatorParams(
    protocol: Value, baseURL: Value, port: Value, endpoint: Value,
    contentType: Value, responseLang: Value, accessToken: Value)

  const ProtocolMessage := "[EasyRequester_ERROR] config.protocol should be 'http' or 'https'."
  const BaseUrlMessage := "[EasyRequester_ERROR] BaseURL is required for requester."
  const PortMessage := "[EasyRequester_ERROR] Port should be typeof 'number'."
  const EndpointMessage := "[EasyRequester_ERROR] Endpoint should be typeof 'string' or typeof 'EndpointProps'."
  const ContentTypeMessage := "[EasyRequester_ERROR] contentType should be typeof 'string'."
  const ResponseLangMessage := "[EasyRequester_ERROR] responseLang should be typeof 'string'."
  /** The access-token check reuses an endpoint wording; kept as the source has it. */
  const AccessTokenMessage := "[EasyRequester_ERROR] Endpoint should be typeof 'string' or typeof 'number'."

  /** One guard: whether it fires, and the message it throws with. */
  datatype Check = Check(violated: bool, message: string)

  /** The seven guards in source order. `protocolMessage` is the only wording that differs
      between this validator and the one inside src/easy-requester.ts. */
  function Checks(c: ValidatorParams, protocolMessage: string): (checks: seq<Check>)
    ensures |checks| == 7
  {
    [ Check(Truthy(c.protocol) && c.protocol != Str("https") && c.protocol != Str("http"), protocolMessage),
      Check(!Truthy(c.baseURL), BaseUrlMessage),
      Check(Truthy(c.port) && TypeOf(c.port) != "number", PortMessage),
      Check(TypeOf(c.endpoint) != "string" && TypeOf(c.endpoint) != "object", EndpointMessage),
      Check(Truthy(c.contentType) && TypeOf(c.contentType) != "string", ContentTypeMessage),
      Check(Truthy(c.responseLang) && TypeOf(c.responseLang) != "string", ResponseLangMessage),
      Check(Truthy(c.accessToken) && TypeOf(c.accessToken) != "string" && TypeOf(c.accessToken) != "number", AccessTokenMessage) ]
  }

  /** Running a list of guards in order: the first that fires throws. */
  function FirstViolation(checks: seq<Check>): Outcome<Exception>
  {
    if checks == [] then Pass
    else if checks[0].violated then Fail(Error(checks[0].message))
    else FirstViolation(checks[1..])
  }

  /** What a valid configuration is, stated field by field: an absent or falsy protocol, or exactly
      "http"/"https"; a non-empty baseURL; a falsy port or a number; a string, an object or `null`
      as endpoint (`typeof null` is "object"); a falsy or string content type and response
      language; a falsy, string or number access token. */
  predicate Conforms(c: ValidatorParams)
  {
    && (!Truthy(c.protocol) || c.protocol == Str("http") || c.protocol == Str("https"))
    && Truthy(c.baseURL)
    && (!Truthy(c.port) || c.port.Num?)
    && (c.endpoint.Str? || c.endpoint.Obj? || c.endpoint.Null?)
    && (!Truthy(c.contentType) || c.contentType.Str?)
    && (!Truthy(c.responseLang) || c.responseLang.Str?)
    && (!Truthy(c.accessToken) || c.accessToken.Str? || c.accessToken.Num?)
  }

  /** The guard chain, with the protocol message as a parameter. It passes exactly on conforming
      configurations, and otherwise throws the message of the first guard that fires. */
  function ValidateWith(c: ValidatorParams, protocolMessage: string): (r: Outcome<Exception>)
    ensures r.Pass? <==> Conforms(c)
  {
    if Truthy(c.protocol) && c.protocol != Str("https") && c.protocol != Str("http") then Fail(Error(protocolMessage))
    else if !Truthy(c.baseURL) then Fail(Error(BaseUrlMessage))
    else if Truthy(c.port) && TypeOf(c.port) != "number" then Fail(Error(PortMessage))
    else if TypeOf(c.endpoint) != "string" && TypeOf(c.endpoint) != "object" then Fail(Error(EndpointMessage))
    else if Truthy(c.contentType) && TypeOf(c.contentType) != "string" then Fail(Error(ContentTypeMessage))
    else if Truthy(c.responseLang) && TypeOf(c.responseLang) != "string" then Fail(Error(ResponseLangMessage))
    else if Truthy(c.accessToken) && TypeOf(c.accessToken) != "string" && TypeOf(c.accessToken) != "number" then Fail(Error(AccessTokenMessage))
    else Pass
  }

  /** Validator.validateConfig. */
  function ValidateConfig(c: ValidatorParams): (r: Outcome<Exception>)
    ensures r.Pass? <==> Conforms(c)
    ensures r.Fail? ==> exists i :: 0 <= i < 7 && Checks(c, ProtocolMessage)[i].violated && r.error == Error(Checks(c, ProtocolMessage)[i].message)
  {
    var r := ValidateWith(c, ProtocolMessage);
    if r.Pass? then r
    else
      GuardChainIsFirstViolation(c, ProtocolMessage);
      FirstViolationNamesAViolatedCheck(Checks(c, ProtocolMessage));
      r
  }

  /** The if-chain is exactly the guards of `Checks` tried in order. */
  lemma GuardChainIsFirstViolation(c: ValidatorParams, protocolMessage: string)
    ensures ValidateWith(c, protocolMessage) == FirstViolation(Checks(c, protocolMessage))
  {
    var cs := Checks(c, protocolMessage);
    if cs[0].violated { FirstFiringCheckDecides(cs, 0); }
    else if cs[1].violated { FirstFiringCheckDecides(cs, 1); }
    else if cs[2].violated { FirstFiringCheckDecides(cs, 2); }
    else if cs[3].violated { FirstFiringCheckDecides(cs, 3); }
    else if cs[4].violated { FirstFiringCheckDecides(cs, 4); }
    else if cs[5].violated { FirstFiringCheckDecides(cs, 5); }
    else if cs[6].violated { FirstFiringCheckDecides(cs, 6); }
    else { NoViolationPasses(cs); }
  }

  /** When no guard fires, validation returns normally. */
  lemma {:induction false} NoViolationPasses(checks: seq<Check>)
    requires forall j :: 0 <= j < |checks| ==> !checks[j].violated
    ensures FirstViolation(checks) == Pass
  {
    if checks != [] {
      NoViolationPasses(checks[1..]);
    }
  }

  /** A failing run of guards throws the message of some guard that fires. */
  lemma {:induction false} FirstViolationNamesAViolatedCheck(checks: seq<Check>)
    requires FirstViolation(checks).Fail?
    ensures exists i :: 0 <= i < |checks| && checks[i].violated && FirstViolation(checks).error == Error(checks[i].message)
  {
    if !checks[0].violated {
      FirstViolationNamesAViolatedCheck(checks[1..]);
      var i :| 0 <= i < |checks[1..]| && checks[1..][i].violated && FirstViolation(checks[1..]).error == Error(checks[1..][i].message);
      assert checks[i + 1] == checks[1..][i];
    }
  }

  /** The guards are tried in order: when guard `i` fires and none before it does, its message is
      the one thrown, whatever the later guards would say. */
  lemma {:induction false} FirstFiringCheckDecides(checks: seq<Check>, i: nat)
    requires i < |checks| && checks[i].violated
    requires forall j :: 0 <= j < i ==> !checks[j].violated
    ensures FirstViolation(checks) == Fail(Error(checks[i].message))
  {
    if i > 0 {
      assert !checks[0].violated;
      FirstFiringCheckDecides(checks[1..], i - 1);
    }
  }

  /** A configuration with several faults is reported by its earliest one: an unknown protocol
      wins over a missing baseURL. */
  lemma ProtocolReportedBeforeBaseUrl(c: ValidatorParams)
    requires c.protocol == Str("ftp") && c.baseURL == Str("")
    ensures ValidateConfig(c) == Fail(Error(ProtocolMessage))
  {
  }

  /** A `null` endpoint passes validation, yet endpoint generation throws on it. */
  lemma NullEndpointPassesValidation(c: ValidatorParams)
    requires Conforms(c.(endpoint := Str("")))
    ensures ValidateConfig(c.(endpoint := Null)).Pass?
    ensures Generator.Endpoint(Null).Err?
  {
  }

  /** Apart from `null`, an endpoint that passes validation can make generation fail only through an
      object value that is not a string. */
  lemma ValidatedEndpointFailsOnlyOnValues(c: ValidatorParams)
    requires ValidateConfig(c).Pass? && !c.endpoint.Null?
    ensures Generator.Endpoint(c.endpoint).Err? ==> c.endpoint.Obj? && !Generator.AllStrings(c.endpoint.props)
  {
    if c.endpoint.Obj? {
      Generator.ObjectPathOkIff(c.endpoint.props);
    }
  }
}
