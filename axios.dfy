/** The HTTP client setup (frontend/src/helper/axios.js): which of the two services an endpoint
    is sent to, and the request interceptor that adds the bearer token. */
module Axios {

  import opened JsString

  /** The two client instances: the authentication service and the main service. */
  datatype Instance = AuthInstance | MainInstance

  function BaseUrl(i: Instance): string
  {
    match i
    case AuthInstance => "http://localhost:8081"
    case MainInstance => "http://localhost:8080"
  }

  predicate IsAuthEndpoint(endpoint: string)
  {
    Contains(endpoint, "/login") || Contains(endpoint, "/register") || Contains(endpoint, "/auth")
  }

  /** `getAxiosInstance` */
  function GetAxiosInstance(endpoint: string): (i: Instance)
    ensures i == AuthInstance <==> IsAuthEndpoint(endpoint)
  {
    if IsAuthEndpoint(endpoint) then AuthInstance else MainInstance
  }

  /** Any path with `/login`, `/register` or `/auth` in it, wherever it occurs, goes to the
      authentication service. */
  lemma {:induction false} AuthPathsRouteToAuth(before: string, after: string)
    ensures GetAxiosInstance(before + "/login" + after) == AuthInstance
    ensures GetAxiosInstance(before + "/register" + after) == AuthInstance
    ensures GetAxiosInstance(before + "/auth" + after) == AuthInstance
  {
    ContainsInside(before, "/login", after);
    ContainsInside(before, "/register", after);
    ContainsInside(before, "/auth", after);
  }

  /** A path in which none of the three markers occurs goes to the main service. */
  lemma OtherPathsRouteToMain(endpoint: string)
    requires !Contains(endpoint, "/login") && !Contains(endpoint, "/register") && !Contains(endpoint, "/auth")
    ensures GetAxiosInstance(endpoint) == MainInstance
  {
  }

  /** The headers of one outgoing request, which the interceptor changes in place. */
  class RequestConfig {
    var headers: map<string, string>

    constructor (headers: map<string, string>)
      ensures this.headers == headers
    {
      this.headers := headers;
    }

    /** The request interceptor of the main instance. `authToken` is what local storage holds
        under "authToken", "" when nothing is stored (both are falsy). */
    method ApplyAuthHeader(authToken: string)
      modifies this
      ensures authToken != "" ==> headers == old(headers)["Authorization" := "Bearer " + authToken]
      ensures authToken == "" ==> headers == old(headers)
    {
      if authToken != "" {
        headers := headers["Authorization" := "Bearer " + authToken];
      }
    }
  }

  /** The headers a request to `endpoint` leaves with: only the main instance has the
      interceptor, so only requests to the main service can carry the token. */
  method HeadersSent(endpoint: string, headers: map<string, string>, authToken: string)
    returns (sent: map<string, string>)
    ensures GetAxiosInstance(endpoint) == AuthInstance ==> sent == headers
    ensures GetAxiosInstance(endpoint) == MainInstance && authToken != "" ==>
      "Authorization" in sent && sent["Authorization"] == "Bearer " + authToken
      && forall h :: h in headers && h != "Authorization" ==> h in sent && sent[h] == headers[h]
    ensures GetAxiosInstance(endpoint) == MainInstance && authToken == "" ==> sent == headers
  {
    var request := new RequestConfig(headers);
    if GetAxiosInstance(endpoint) == MainInstance {
      request.ApplyAuthHeader(authToken);
    }
    sent := request.headers;
  }
}
