/** The configuration shapes of src/types/globals.d.ts that the requester classes exchange. */
module Configs {
  import opened Js
  import opened Runtime
  import Generator

  /** `onNewRequest`: what a new request does about one already under way. */
  datatype RaceConditionHandler = AbortPrevious | EnqueueNew

  /** The client configuration as a caller passes it; every field is optional. */
  datatype ClientConfigInput = ClientConfigInput(
    onNewRequest: Option<RaceConditionHandler>,
    acceptStatusCodes: Option<seq<int>>,
    isDebugMode: Option<bool>)

  /** The client configuration after defaults are filled in. */
  datatype ClientConfig = ClientConfig(
    onNewRequest: RaceConditionHandler,
    acceptStatusCodes: seq<int>,
    isDebugMode: bool)

  datatype HeaderSection = HeaderSection(contentType: Value, responseLang: Value, headers: Value)

  datatype AuthSection = AuthSection(accessToken: Value, includeCookies: Value)

  /** A request configuration: where to send, with which method, and the optional `header` and
      `auth` sections. */
  datatype RequestConfig = RequestConfig(
    url: Generator.UrlParams,
    httpMethod: Method,
    header: Option<HeaderSection>,
    auth: Option<AuthSection>)
}
