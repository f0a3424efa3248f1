/** The second client of the risk-scoring service, `utils.py`.  It shares
    URL assembly, the `items` envelope and the endpoint paths with `api.py`,
    but turns every failure of an answered request into `RiskAPIError` and
    retries at the toggled URL only after that error. */
module RiskClient {
  import opened Text
  import opened JsonValue
  import opened ApiClient

  /** `utils._request(url)`. */
  function RiskRequest(net: Net, url: string): (r: Fetched)
    ensures Send(net, url).Answered? && r.Err? ==> r.error.kind == RiskAPIError
    ensures Send(net, url).NoAnswer? ==> r.Err? && r.error.kind == ConnectionError
  {
    match Send(net, url)
    case NoAnswer => Err(Error(ConnectionError, url))
    case Answered(resp) =>
      if HttpFailure(resp.status) then
        Err(Error(RiskAPIError, Message("Request failed: " + IntToString(resp.status) + " " + resp.reason + " — ", url, resp.text)))
      else
        match BodyValue(resp)
        case Some(v) => Ok(v)
        case None => Err(Error(RiskAPIError, Message("Response was not valid JSON — ", url, Strip(resp.text))))
  }

  /** `utils._get(path)`. */
  function RiskGetWithRetry(base: string, net: Net, path: string): Call
  {
    var url := Url(base, path);
    match RiskRequest(net, url)
    case Ok(v) => Call(Ok(v), [url])
    case Err(e) =>
      if e.kind == RiskAPIError then
        var alt := Alt(url);
        if alt != url then Call(RiskRequest(net, alt), [url, alt]) else Call(Err(e), [url])
      else Call(Err(e), [url])
  }

  /** Only a `RiskAPIError` leads to the one retry; any other failure is the
      call's outcome after a single request. */
  lemma RetryOnlyOnRiskApiError(base: string, net: Net, path: string)
    ensures var url := Url(base, path); var first := RiskRequest(net, url); var c := RiskGetWithRetry(base, net, path);
      (first.Ok? ==> c == Call(first, [url])) &&
      (first.Err? && first.error.kind != RiskAPIError ==> c == Call(first, [url])) &&
      (first.Err? && first.error.kind == RiskAPIError ==> c == Call(RiskRequest(net, Alt(url)), [url, Alt(url)]))
  {
  }

  /** A status error carries the status, the URL and at most 800 characters of
      the unstripped body. */
  lemma StatusErrorMessage(net: Net, url: string)
    requires Send(net, url).Answered? && HttpFailure(Send(net, url).response.status)
    ensures var resp := Send(net, url).response; var r := RiskRequest(net, url);
      r.Err? && r.error.kind == RiskAPIError &&
      StartsWith(r.error.message, "Request failed: " + IntToString(resp.status)) &&
      EndsWith(r.error.message, "\n" + Snippet(resp.text))
  {
    var resp := Send(net, url).response;
    var pre := "Request failed: " + IntToString(resp.status);
    var head := pre + " " + resp.reason + " — ";
    assert (head + url + ("\n" + Snippet(resp.text)))[..|pre|] == pre;
  }

  /** The two clients agree on every successful request and fail on the same
      requests. */
  lemma ClientsAgree(net: Net, url: string)
    ensures RiskRequest(net, url).Ok? <==> Request(net, url).Ok?
    ensures RiskRequest(net, url).Ok? ==> RiskRequest(net, url) == Request(net, url)
  {
  }

  /** Where the first URL does not answer, `api.py` tries the toggled URL and
      `utils.py` does not. */
  lemma NoAnswerRetries(base: string, net: Net, path: string)
    requires Send(net, Url(base, path)).NoAnswer?
    ensures |GetWithRetry(base, net, path).requested| == 2
    ensures RiskGetWithRetry(base, net, path).requested == [Url(base, path)]
  {
  }

  /** An endpoint wrapper of `utils.py`: the same paths and unwrapping as
      `api.py`'s. */
  function RiskFetch(base: string, net: Net, e: Endpoint): Fetched
  {
    Unwrapped(e, RiskGetWithRetry(base, net, Path(e)).result)
  }

  /** Where the service answers the first URL successfully, both clients'
      wrappers return the same value. */
  lemma WrappersAgree(base: string, net: Net, e: Endpoint)
    requires Request(net, Url(base, Path(e))).Ok?
    ensures RiskFetch(base, net, e) == Fetch(base, net, e)
  {
    ClientsAgree(net, Url(base, Path(e)));
  }
}
