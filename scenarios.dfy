/**
 * Worked cases of one `worker` run on an http-scheme proxy and on a SOCKS5
 * proxy, for the flag combinations the checker is used with.
 */
module Scenarios {
  import opened Wrappers
  import opened Models
  import opened Probe
  import opened CheckSpec

  const Url := "http://1.2.3.4:80"

  /**
   * `http_check=False, https_force_check=True` on a record that claims only
   * HTTP: HTTPS is probed anyway, and a passing probe adds HTTPS.
   */
  lemma ForcedHttpsProbeSucceeds(network: Request -> Outcome, rec: Record, now: int)
    requires rec.types == {HTTP}
    requires Classify(network(ProbeRequest(Https, Url))).Passed?
    ensures var s := AfterWorker(Config(false, false, true), Url, "http", rec, network, now);
      && s.probes == [ProbeRequest(Https, Url)]
      && s.result == Done
      && s.record == Record({HTTP, HTTPS}, Some(now), None, 0)
  {
  }

  /**
   * The same probe timing out: nothing to revoke, one more failure, and no
   * fallback to HTTP even though HTTP checking is on.
   */
  lemma ForcedHttpsProbeTimesOut(network: Request -> Outcome, rec: Record, now: int)
    requires rec.types == {HTTP} && Healthy(rec)
    requires network(ProbeRequest(Https, Url)) == Raised
    ensures var s := AfterWorker(Config(true, false, true), Url, "http", rec, network, now);
      && s.probes == [ProbeRequest(Https, Url)]
      && s.result == Done
      && s.record == rec.(failAt := Some(now), fail := 1)
  {
  }

  /** With the default flags a SOCKS5 proxy is probed over HTTPS only. */
  lemma Socks5ProbedOverHttpsOnly(network: Request -> Outcome, rec: Record, now: int)
    requires rec.types == {SOCKS5}
    ensures var s := AfterWorker(Config(true, true, false), "socks5://1.2.3.4:1080", "socks5", rec, network, now);
      && s.probes == [ProbeRequest(Https, "socks5://1.2.3.4:1080")]
      && s.record.types == {SOCKS5}
  {
    assert "socks5"[..4][0] != "http"[0];
  }

  /** With HTTP checking off and no HTTPS hint, the worker's assertion fails. */
  lemma NothingSelected(network: Request -> Outcome, rec: Record, now: int)
    requires rec.types == {HTTP}
    ensures var s := AfterWorker(Config(false, true, false), Url, "http", rec, network, now);
      s.result == AssertionError("proxy not checked") && s.probes == [] && s.record == rec
  {
  }
}
