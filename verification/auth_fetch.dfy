/** `safe_get`: an authenticated GET that, on a 401 answer, refreshes the
    access token once and retries the request once with the new token.

    The network is a parameter: `server` gives the response to each request
    (URL and headers). The credential store is a parameter too: `renew(n)` is
    the outcome of the n-th refresh of the pass, `None` when the refresh
    yields nothing, otherwise the access token that is then read back from
    the token file. */
module AuthFetch {
  import opened Wrappers

  type Headers = map<string, string>

  datatype Request = Request(url: string, headers: Headers)

  /** A status code and the decoded JSON body, `None` when the body is not
      valid JSON. */
  datatype Response<B> = Response(status: int, json: Option<B>)

  datatype FetchError =
    | RefreshFailed        // the refresh after a 401 yielded no tokens
    | HttpError(status: int)
    | MalformedBody

  const Unauthorized: int := 401

  /** The statuses for which `raise_for_status` raises. */
  predicate IsErrorStatus(status: int) {
    400 <= status < 600
  }

  /** `headers["Authorization"] = f"Bearer {token}"`. */
  function WithBearer(headers: Headers, token: string): Headers {
    headers["Authorization" := "Bearer " + token]
  }

  /** `response.raise_for_status(); return response.json()`. */
  function Decode<B>(response: Response<B>): (r: Result<B, FetchError>)
    ensures r.Success? <==> !IsErrorStatus(response.status) && response.json.Some?
    ensures r.Success? ==> r.value == response.json.value
    ensures IsErrorStatus(response.status) ==> r == Failure(HttpError(response.status))
    ensures !IsErrorStatus(response.status) && response.json.None? ==> r == Failure(MalformedBody)
  {
    if IsErrorStatus(response.status) then Failure(HttpError(response.status))
    else if response.json.None? then Failure(MalformedBody)
    else Success(response.json.value)
  }

  /** What one `safe_get` call does: its result, the requests it issued in
      order, whether it asked for a refresh, and the headers afterwards (the
      caller's dictionary is updated in place). */
  datatype Exchange<B> = Exchange(
    result: Result<B, FetchError>,
    sent: seq<Request>,
    refreshed: bool,
    headers: Headers)

  /** The retry state machine of `safe_get`, given the refresh outcome it
      would see. */
  function SafeGetSpec<B>(server: Request -> Response<B>, renewed: Option<string>,
                          url: string, headers: Headers): (x: Exchange<B>)
    // the first request always goes out with the caller's headers
    ensures 1 <= |x.sent| <= 2 && x.sent[0] == Request(url, headers)
    // a refresh is asked for exactly when the first answer is 401
    ensures x.refreshed <==> server(Request(url, headers)).status == Unauthorized
    // a second request is issued only after a refresh that yielded a token
    ensures |x.sent| == 2 <==> x.refreshed && renewed.Some?
    // a refresh that yields nothing raises at once, headers untouched
    ensures x.refreshed && renewed.None? ==> x.result == Failure(RefreshFailed) && x.headers == headers
    // the retry carries the new bearer token, and its answer is final
    ensures |x.sent| == 2 ==>
      x.headers == WithBearer(headers, renewed.value) &&
      x.sent[1] == Request(url, x.headers) &&
      x.result == Decode(server(x.sent[1]))
    ensures !x.refreshed ==> x.headers == headers && x.result == Decode(server(x.sent[0]))
  {
    var first := Request(url, headers);
    if server(first).status == Unauthorized then
      match renewed
      case None => Exchange(Failure(RefreshFailed), [first], true, headers)
      case Some(token) =>
        var retry := Request(url, WithBearer(headers, token));
        Exchange(Decode(server(retry)), [first, retry], true, retry.headers)
    else
      Exchange(Decode(server(first)), [first], false, headers)
  }

  /** A 401 on the retry is not retried again: it surfaces as an HTTP error. */
  lemma SecondUnauthorizedIsFinal<B>(server: Request -> Response<B>, token: string,
                                     url: string, headers: Headers)
    requires server(Request(url, headers)).status == Unauthorized
    requires server(Request(url, WithBearer(headers, token))).status == Unauthorized
    ensures SafeGetSpec(server, Some(token), url, headers).result == Failure(HttpError(Unauthorized))
    ensures |SafeGetSpec(server, Some(token), url, headers).sent| == 2
  {
  }

  /** The authenticated fetcher of one retrieval: the network and credential
      store it talks to, the headers dictionary its requests share, the log
      of requests issued and the number of refreshes done so far. */
  class Session<B> {
    const server: Request -> Response<B>
    const renew: nat -> Option<string>
    var headers: Headers
    var sent: seq<Request>
    var refreshes: nat

    /** `headers = {"Authorization": f"Bearer {access_token}"}`, with the
        number of refreshes the pass has already done. */
    constructor (server: Request -> Response<B>, renew: nat -> Option<string>,
                 accessToken: string, refreshes: nat)
      ensures this.server == server && this.renew == renew
      ensures headers == WithBearer(map[], accessToken)
      ensures sent == [] && this.refreshes == refreshes
    {
      this.server := server;
      this.renew := renew;
      headers := WithBearer(map[], accessToken);
      sent := [];
      this.refreshes := refreshes;
    }

    method SafeGet(url: string) returns (r: Result<B, FetchError>)
      modifies this
      ensures var x := SafeGetSpec(server, renew(old(refreshes)), url, old(headers));
        && r == x.result
        && headers == x.headers
        && sent == old(sent) + x.sent
        && refreshes == old(refreshes) + (if x.refreshed then 1 else 0)
    {
      var response := server(Request(url, headers));
      sent := sent + [Request(url, headers)];
      if response.status == Unauthorized {
        var newTokens := renew(refreshes);
        refreshes := refreshes + 1;
        if newTokens.None? {
          return Failure(RefreshFailed);
        }
        headers := WithBearer(headers, newTokens.value);
        response := server(Request(url, headers));
        sent := sent + [Request(url, headers)];
      }
      r := Decode(response);
    }
  }
}
