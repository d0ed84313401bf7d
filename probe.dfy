/**
 * One probe through a proxy: the request the checker builds and the way it
 * turns what the network answered into success or failure.
 */
module Probe {
  import opened Wrappers
  import opened Models

  /** The two protocols the checker probes, keyed by name in `CHECK_URLS`. */
  datatype Protocol = Http | Https
  {
    function Name(): string
    {
      match this
      case Http => "http"
      case Https => "https"
    }
  }

  /** The echo endpoint probed for each protocol name. */
  const CHECK_URLS: map<string, string> := map["http" := HttpUrl, "https" := HttpsUrl]

  const HttpUrl := "http://httpbin.org/get?show_env=1"
  const HttpsUrl := "https://httpbin.org/get?show_env=1"

  /** A GET request: the target URL and the proxy used for each URL scheme. */
  datatype Request = Request(url: string, proxies: map<string, string>)

  /**
   * The request `check` sends: the endpoint of `protocol`, with both the
   * "http" and the "https" slot routed through the proxy under test.
   */
  function ProbeRequest(protocol: Protocol, proxyUrl: string): (r: Request)
    ensures r.proxies.Keys == {"http", "https"}
    ensures forall slot :: slot in r.proxies ==> r.proxies[slot] == proxyUrl
    ensures StartsWith(r.url, protocol.Name() + "://")
  {
    CheckUrlScheme(protocol);
    Request(CHECK_URLS[protocol.Name()], map["http" := proxyUrl, "https" := proxyUrl])
  }

  /** Each endpoint of `CHECK_URLS` is a URL of the scheme it is keyed by. */
  lemma CheckUrlScheme(protocol: Protocol)
    ensures protocol.Name() in CHECK_URLS
    ensures StartsWith(CHECK_URLS[protocol.Name()], protocol.Name() + "://")
  {
    match protocol
    case Http =>
      assert "http" + "://" == "http://";
      assert StartsWith(HttpUrl, "http://");
    case Https =>
      assert "https" + "://" == "https://";
      assert StartsWith(HttpsUrl, "https://");
  }

  /**
   * What the network gave back for a request: `Raised` when the GET itself
   * raised (connection error, proxy error, timeout), otherwise a response
   * status and the keys of its JSON object body (`None` when the body is not
   * a JSON document).
   */
  datatype Outcome =
    | Raised
    | Response(status: int, body: Option<set<string>>)

  /** The exception that ends a probe early. */
  datatype ProbeError =
    | RequestFailed          // the GET itself failed
    | HttpError(status: int) // a client or server error status
    | InvalidJson            // the body does not decode as JSON
    | OriginMissing          // the decoded body has no "origin" key

  datatype ProbeResult = Passed | Failed(error: ProbeError)

  /**
   * The probe of `check`, step by step: the GET, the status test (400 to 599
   * are errors), JSON decoding, and the origin marker. Any failure is final.
   */
  function Classify(o: Outcome): (r: ProbeResult)
    ensures r.Passed? <==>
      o.Response? && !(400 <= o.status < 600) && o.body.Some? && "origin" in o.body.value
    ensures r.Failed? && r.error.HttpError? <==> o.Response? && 400 <= o.status < 600
    ensures r.Failed? && r.error.HttpError? ==> r.error.status == o.status
  {
    match o
    case Raised => Failed(RequestFailed)
    case Response(status, body) =>
      if 400 <= status < 500 then Failed(HttpError(status))
      else if 500 <= status < 600 then Failed(HttpError(status))
      else match body
        case None => Failed(InvalidJson)
        case Some(keys) => if "origin" in keys then Passed else Failed(OriginMissing)
  }
}
