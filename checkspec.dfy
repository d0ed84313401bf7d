/**
 * What one `check` and one `worker` call do to a proxy record, as functions on
 * values, and what repeated checks do to the failure accounting. The `Check`
 * and `Worker` methods of `ProxyChecker.Checker` are proved to have exactly
 * these effects.
 */
module CheckSpec {
  import opened Wrappers
  import opened Models
  import opened Probe

  /** The three flags of a checker that select the protocol to probe. */
  datatype Config = Config(httpCheck: bool, httpsCheck: bool, httpsForceCheck: bool)

  /** The tags from which `worker` infers that HTTPS is supported. */
  const HttpsCapable: set<ProxyType> := {HTTPS, SOCKS4, SOCKS5}

  /** The condition of the HTTPS branch of `worker`. */
  function ShouldProbeHttps(cfg: Config, types: set<ProxyType>): (b: bool)
    ensures b <==>
      (cfg.httpsCheck && (HTTPS in types || SOCKS4 in types || SOCKS5 in types))
      || cfg.httpsForceCheck
  {
    var support := types * HttpsCapable;
    assert support != {} ==> HTTPS in types || SOCKS4 in types || SOCKS5 in types by {
      if support != {} {
        var t :| t in support;
      }
    }
    assert HTTPS in types ==> HTTPS in support;
    assert SOCKS4 in types ==> SOCKS4 in support;
    assert SOCKS5 in types ==> SOCKS5 in support;
    (cfg.httpsCheck && support != {}) || cfg.httpsForceCheck
  }

  /**
   * The protocol `worker` probes: HTTPS when its branch is taken, HTTP only
   * when it is not, and none at all when neither branch fires.
   */
  function ProbedProtocol(cfg: Config, types: set<ProxyType>): (p: Option<Protocol>)
    ensures p == Some(Https) <==> ShouldProbeHttps(cfg, types)
    ensures p == Some(Http) <==> !ShouldProbeHttps(cfg, types) && cfg.httpCheck
    ensures p == None <==> !ShouldProbeHttps(cfg, types) && !cfg.httpCheck
  {
    if ShouldProbeHttps(cfg, types) then Some(Https)
    else if cfg.httpCheck then Some(Http)
    else None
  }

  /**
   * The record after `check` ended with `ok`: a success stamps `successAt`,
   * clears `failAt` and the counter and, for an http-scheme proxy, adds HTTPS
   * whatever protocol was probed; a failure stamps `failAt` and counts one more.
   */
  function AfterCheck(scheme: string, rec: Record, ok: bool, now: int): (r: Record)
    ensures ok ==> r.successAt == Some(now) && r.failAt == None && r.fail == 0
    ensures ok ==> (HTTPS in r.types <==> HTTPS in rec.types || IsHttpScheme(scheme))
    ensures ok ==> r.types - {HTTPS} == rec.types - {HTTPS}
    ensures !ok ==> r.failAt == Some(now) && r.fail == rec.fail + 1
    ensures !ok ==> r.successAt == rec.successAt && r.types == rec.types
    ensures FailureTracked(r)
    ensures Healthy(r) <==> ok
  {
    if ok then
      Record(if IsHttpScheme(scheme) then rec.types + {HTTPS} else rec.types, Some(now), None, 0)
    else
      rec.(failAt := Some(now), fail := rec.fail + 1)
  }

  /**
   * The capability reconciliation `worker` does after an HTTPS probe: for an
   * http-scheme proxy HTTPS is present exactly when the probe succeeded, and
   * no other tag is touched.
   */
  function ReconcileHttps(scheme: string, types: set<ProxyType>, ok: bool): (t: set<ProxyType>)
    ensures IsHttpScheme(scheme) ==> (HTTPS in t <==> ok)
    ensures !IsHttpScheme(scheme) ==> t == types
    ensures t - {HTTPS} == types - {HTTPS}
  {
    if IsHttpScheme(scheme) then
      if ok then types + {HTTPS}
      else if HTTPS in types then types - {HTTPS}
      else types
    else types
  }

  /** How a `worker` call ends: normally, or on its "proxy not checked" assertion. */
  datatype WorkerResult = Done | AssertionError(message: string)

  const NotCheckedMessage := "proxy not checked"

  /**
   * One `worker` run as a value: the new record, how it ended, the value of
   * its `success` local at the assertion, and the probes it sent.
   */
  datatype Step = Step(
    record: Record,
    result: WorkerResult,
    success: Option<bool>,
    probes: seq<Request>)

  /**
   * The effect of `worker` on a proxy with URL `url`, scheme `scheme` and
   * record `rec`, when the network answers each request by `network` and the
   * clock reads `now`.
   */
  function AfterWorker(cfg: Config, url: string, scheme: string, rec: Record,
                       network: Request -> Outcome, now: int): (s: Step)
  {
    match ProbedProtocol(cfg, rec.types)
    case None => Step(rec, AssertionError(NotCheckedMessage), None, [])
    case Some(protocol) =>
      var request := ProbeRequest(protocol, url);
      var ok := Classify(network(request)).Passed?;
      var checked := AfterCheck(scheme, rec, ok, now);
      var types := if protocol == Https then ReconcileHttps(scheme, checked.types, ok) else checked.types;
      Step(checked.(types := types), Done, Some(ok), [request])
  }

  /** What a `worker` run promises about its assertion, the failure accounting and the capabilities. */
  lemma WorkerEffect(cfg: Config, url: string, scheme: string, rec: Record,
                   network: Request -> Outcome, now: int, s: Step)
    requires s == AfterWorker(cfg, url, scheme, rec, network, now)
    // at most one probe; with HTTPS selected it is the only one, whatever it yields
    ensures |s.probes| <= 1
    ensures ShouldProbeHttps(cfg, rec.types) ==> s.probes == [ProbeRequest(Https, url)]
    ensures !ShouldProbeHttps(cfg, rec.types) && cfg.httpCheck ==> s.probes == [ProbeRequest(Http, url)]
    // the assertion fails exactly when nothing was probed, and then nothing changed
    ensures s.result == AssertionError(NotCheckedMessage) <==> s.probes == []
    ensures s.result.AssertionError? <==> !ShouldProbeHttps(cfg, rec.types) && !cfg.httpCheck
    ensures s.result.Done? <==> s.success.Some?
    ensures s.probes == [] ==> s.record == rec
    ensures s.probes != [] ==> s.success == Some(Classify(network(s.probes[0])).Passed?)
    // failure accounting of the one check
    ensures s.success == Some(true) ==> s.record.successAt == Some(now) && s.record.failAt == None && s.record.fail == 0
    ensures s.success == Some(false) ==> s.record.successAt == rec.successAt && s.record.failAt == Some(now) && s.record.fail == rec.fail + 1
    ensures s.probes != [] ==> FailureTracked(s.record)
    // capabilities: only HTTPS may change, and only for an http-scheme proxy
    ensures s.record.types - {HTTPS} == rec.types - {HTTPS}
    ensures !IsHttpScheme(scheme) ==> s.record.types == rec.types
    ensures IsHttpScheme(scheme) && ShouldProbeHttps(cfg, rec.types) ==>
      (HTTPS in s.record.types <==> s.success == Some(true))
    ensures IsHttpScheme(scheme) && !ShouldProbeHttps(cfg, rec.types) ==>
      (HTTPS in s.record.types <==> HTTPS in rec.types || s.success == Some(true))
  {
  }

  /** One completed `check`: whether it succeeded and the time it read. */
  datatype Event = Event(ok: bool, at: int)

  function Last<T>(s: seq<T>): T
    requires s != []
  {
    s[|s| - 1]
  }

  function Init<T>(s: seq<T>): seq<T>
    requires s != []
  {
    s[..|s| - 1]
  }

  /**
   * The record after the checks `events`, in order, on a proxy of scheme
   * `scheme` that started at `rec`.
   */
  function RunChecks(scheme: string, rec: Record, events: seq<Event>): (r: Record)
    ensures r.fail <= rec.fail + |events|
    ensures FailureTracked(rec) ==> FailureTracked(r)
    ensures HTTPS in rec.types ==> HTTPS in r.types
    ensures events != [] ==> (Healthy(r) <==> Last(events).ok)
    decreases |events|
  {
    if events == [] then rec
    else AfterCheck(scheme, RunChecks(scheme, rec, Init(events)), Last(events).ok, Last(events).at)
  }

  /** Some check in `events` succeeded. */
  predicate Recovered(events: seq<Event>)
  {
    exists i :: 0 <= i < |events| && events[i].ok
  }

  /** The number of failed checks after the last successful one. */
  function TrailingFailures(events: seq<Event>): (n: nat)
    ensures n <= |events|
    decreases |events|
  {
    if events == [] || Last(events).ok then 0 else 1 + TrailingFailures(Init(events))
  }

  /**
   * `fail` counts consecutive failures: after a success it is the number of
   * failures since the last one; with no success it grew by one per check.
   */
  lemma {:induction false} FailCountsConsecutiveFailures(scheme: string, rec: Record, events: seq<Event>)
    ensures RunChecks(scheme, rec, events).fail ==
      if Recovered(events) then TrailingFailures(events) else rec.fail + |events|
  {
    if events != [] {
      var init := Init(events);
      FailCountsConsecutiveFailures(scheme, rec, init);
      if Last(events).ok {
        assert events[|events| - 1].ok;
      } else {
        assert Recovered(events) <==> Recovered(init) by {
          if Recovered(events) {
            var i :| 0 <= i < |events| && events[i].ok;
            assert init[i] == events[i];
          }
          if Recovered(init) {
            var i :| 0 <= i < |init| && init[i].ok;
            assert events[i] == init[i];
          }
        }
      }
    }
  }

  /**
   * N consecutive failures from any record add N to `fail`, stamp the last
   * failure time and leave `successAt` and the capabilities alone.
   */
  lemma {:induction false} FailuresOnly(scheme: string, rec: Record, events: seq<Event>)
    requires forall i :: 0 <= i < |events| ==> !events[i].ok
    ensures var r := RunChecks(scheme, rec, events);
      && r.fail == rec.fail + |events|
      && r.successAt == rec.successAt
      && r.types == rec.types
      && r.failAt == (if events == [] then rec.failAt else Some(Last(events).at))
  {
    if events != [] {
      var init := Init(events);
      forall i | 0 <= i < |init| ensures !init[i].ok {
        assert init[i] == events[i];
      }
      FailuresOnly(scheme, rec, init);
      assert !events[|events| - 1].ok;
    }
  }

  /**
   * Starting healthy, N failures give `fail == N`; one success after them
   * brings the counter back to 0 and clears `failAt`.
   */
  lemma FailuresThenSuccess(scheme: string, rec: Record, failures: seq<Event>, success: Event)
    requires Healthy(rec)
    requires forall i :: 0 <= i < |failures| ==> !failures[i].ok
    requires success.ok
    ensures RunChecks(scheme, rec, failures).fail == |failures|
    ensures var r := RunChecks(scheme, rec, failures + [success]);
      r.fail == 0 && r.failAt == None && r.successAt == Some(success.at)
  {
    FailuresOnly(scheme, rec, failures);
    assert Init(failures + [success]) == failures;
  }
}
