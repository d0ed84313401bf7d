/**
 * `ProxyChecker`: probes proxies and updates their records in place. The
 * network a worker talks to is a function from requests to outcomes, the
 * clock the integer `now`, and the `process_proxy` hook a ghost log of the
 * proxies it was called with.
 */
module ProxyChecker {
  import opened Wrappers
  import opened Models
  import opened Probe
  import opened CheckSpec

  class Checker {
    /** Request timeout in seconds, handed to each session. */
    const timeout: int
    /** Stored and never used. */
    const maxRetries: int
    /** Stored and never used. */
    const retryTimeout: int
    const httpCheck: bool
    const httpsCheck: bool
    /** Probe HTTPS even when the record claims only HTTP. */
    const httpsForceCheck: bool

    /** Every probe request sent, in order. */
    ghost var requests: seq<Request>
    /** Every proxy handed to `process_proxy`, in order. */
    ghost var processed: seq<Proxy>

    constructor (timeout: int := 5, maxRetries: int := 0, retryTimeout: int := 0,
                 httpCheck: bool := true, httpsCheck: bool := true, httpsForceCheck: bool := false)
      ensures this.timeout == timeout && this.maxRetries == maxRetries && this.retryTimeout == retryTimeout
      ensures Cfg() == Config(httpCheck, httpsCheck, httpsForceCheck)
      ensures requests == [] && processed == []
    {
      this.timeout := timeout;
      this.maxRetries := maxRetries;
      this.retryTimeout := retryTimeout;
      this.httpCheck := httpCheck;
      this.httpsCheck := httpsCheck;
      this.httpsForceCheck := httpsForceCheck;
      requests := [];
      processed := [];
    }

    function Cfg(): Config
    {
      Config(httpCheck, httpsCheck, httpsForceCheck)
    }

    /** Probes `proxy` with `protocol` and records the outcome in it. */
    method Check(network: Request -> Outcome, protocol: Protocol, proxy: Proxy, now: int)
      returns (ok: bool)
      modifies proxy, this`requests
      ensures requests == old(requests) + [ProbeRequest(protocol, proxy.url)]
      ensures ok <==> Classify(network(ProbeRequest(protocol, proxy.url))).Passed?
      ensures proxy.Snapshot() == AfterCheck(proxy.scheme, old(proxy.Snapshot()), ok, now)
      ensures !ok ==> proxy.failAt == Some(now) && proxy.fail == old(proxy.fail) + 1
      ensures !ok ==> proxy.successAt == old(proxy.successAt) && proxy.types == old(proxy.types)
      ensures ok ==> proxy.successAt == Some(now) && proxy.failAt == None && proxy.fail == 0
      ensures ok ==> proxy.types == if IsHttpScheme(proxy.scheme) then old(proxy.types) + {HTTPS} else old(proxy.types)
    {
      var request := ProbeRequest(protocol, proxy.url);
      requests := requests + [request];
      var result := Classify(network(request));
      if result.Failed? {
        proxy.failAt := Some(now);
        proxy.fail := proxy.fail + 1;
        return false;
      }
      proxy.successAt := Some(now);
      proxy.failAt := None;
      proxy.fail := 0;
      if IsHttpScheme(proxy.scheme) {
        proxy.types := proxy.types + {HTTPS};
      }
      return true;
    }

    /**
     * Checks one proxy: HTTPS when the record or the configuration calls for
     * it, otherwise HTTP when enabled, then hands the proxy to `process_proxy`.
     */
    method Worker(network: Request -> Outcome, proxy: Proxy, now: int)
      returns (result: WorkerResult)
      modifies proxy, this`requests, this`processed
      ensures var s := AfterWorker(Cfg(), proxy.url, proxy.scheme, old(proxy.Snapshot()), network, now);
        && proxy.Snapshot() == s.record
        && result == s.result
        && requests == old(requests) + s.probes
      ensures processed == old(processed) + if result.Done? then [proxy] else []
    {
      ghost var step := AfterWorker(Cfg(), proxy.url, proxy.scheme, proxy.Snapshot(), network, now);
      var httpsSupport := proxy.types * HttpsCapable;
      var success: Option<bool> := None;
      if (httpsCheck && httpsSupport != {}) || httpsForceCheck {
        assert ProbedProtocol(Cfg(), proxy.types) == Some(Https);
        var ok := Check(network, Https, proxy, now);
        success := Some(ok);
        if IsHttpScheme(proxy.scheme) {
          if ok {
            proxy.types := proxy.types + {HTTPS};
          } else if HTTPS in proxy.types {
            proxy.types := proxy.types - {HTTPS};
          }
        }
        assert proxy.Snapshot() == step.record;
      }
      if httpCheck && success.None? {
        assert ProbedProtocol(Cfg(), old(proxy.types)) == Some(Http);
        var ok := Check(network, Http, proxy, now);
        success := Some(ok);
        assert proxy.Snapshot() == step.record;
      }
      if success.None? {
        return AssertionError(NotCheckedMessage);
      }
      processed := processed + [proxy];
      return Done;
    }

    /**
     * One turn of `Run`: the worker on `proxies[i]`. It settles that proxy,
     * leaves every other proxy alone and extends the logs that `Run` keeps
     * since it started from `sent` and `handed`.
     */
    method RunWorker(networks: seq<Request -> Outcome>, proxies: seq<Proxy>, times: seq<int>, i: nat,
                     ghost before: seq<Record>, ghost steps: seq<Step>, ghost results: seq<WorkerResult>,
                     ghost sent: seq<Request>, ghost handed: seq<Proxy>)
      returns (r: WorkerResult)
      requires |times| == |proxies| && |networks| == |proxies| && |before| == |proxies| && i < |proxies|
      requires forall j, k :: 0 <= j < k < |proxies| ==> proxies[j] != proxies[k]
      requires steps == WorkerSteps(Cfg(), proxies, before, networks, times)
      requires Settled(proxies, before, steps, results, i)
      requires requests == sent + SentProbes(steps, i)
      requires processed == handed + Completed(proxies, steps, i)
      modifies proxies[i], this`requests, this`processed
      ensures Settled(proxies, before, steps, results + [r], i + 1)
      ensures requests == sent + SentProbes(steps, i + 1)
      ensures processed == handed + Completed(proxies, steps, i + 1)
    {
      WorkerStepAt(Cfg(), proxies, before, networks, times, i);
      ghost var log, done := requests, processed;
      r := Worker(networks[i], proxies[i], times[i]);
      SentProbesSnoc(sent, log, requests, steps, i);
      CompletedSnoc(handed, done, processed, proxies, steps, i);
    }

    /**
     * Runs `worker` on each proxy in turn, the i-th at time `times[i]` and
     * answered by its own network `networks[i]`, and waits for all of them; a
     * worker's assertion failure does not stop the others.
     */
    method Run(networks: seq<Request -> Outcome>, proxies: seq<Proxy>, times: seq<int>)
      returns (results: seq<WorkerResult>)
      requires |times| == |proxies| && |networks| == |proxies|
      requires forall i, j :: 0 <= i < j < |proxies| ==> proxies[i] != proxies[j]
      modifies proxies, this`requests, this`processed
      ensures |results| == |proxies|
      ensures forall i :: 0 <= i < |proxies| ==>
        var s := AfterWorker(Cfg(), proxies[i].url, proxies[i].scheme, old(proxies[i].Snapshot()), networks[i], times[i]);
        proxies[i].Snapshot() == s.record && results[i] == s.result
      ensures var steps := WorkerSteps(Cfg(), proxies, old(Snapshots(proxies)), networks, times);
        && requests == old(requests) + SentProbes(steps, |proxies|)
        && processed == old(processed) + Completed(proxies, steps, |proxies|)
    {
      ghost var before := Snapshots(proxies);
      ghost var steps := WorkerSteps(Cfg(), proxies, before, networks, times);
      results := [];
      var i := 0;
      while i < |proxies|
        invariant 0 <= i <= |proxies|
        invariant Settled(proxies, before, steps, results, i)
        invariant requests == old(requests) + SentProbes(steps, i)
        invariant processed == old(processed) + Completed(proxies, steps, i)
      {
        var r := RunWorker(networks, proxies, times, i, before, steps, results, old(requests), old(processed));
        results := results + [r];
        i := i + 1;
      }
      forall k | 0 <= k < |proxies|
        ensures steps[k] == AfterWorker(Cfg(), proxies[k].url, proxies[k].scheme, before[k], networks[k], times[k])
      {
        WorkerStepAt(Cfg(), proxies, before, networks, times, k);
      }
    }
  }

  /** The worker runs over `proxies`, the k-th from record `records[k]`. */
  ghost function WorkerSteps(cfg: Config, proxies: seq<Proxy>, records: seq<Record>,
                             networks: seq<Request -> Outcome>, times: seq<int>): (steps: seq<Step>)
    requires |records| == |networks| == |times| == |proxies|
    ensures |steps| == |proxies|
  {
    seq(|proxies|, k requires 0 <= k < |proxies| =>
      AfterWorker(cfg, proxies[k].url, proxies[k].scheme, records[k], networks[k], times[k]))
  }

  /** The `k`-th of the worker runs is the run on the `k`-th proxy. */
  lemma WorkerStepAt(cfg: Config, proxies: seq<Proxy>, records: seq<Record>,
                     networks: seq<Request -> Outcome>, times: seq<int>, k: nat)
    requires |records| == |networks| == |times| == |proxies| && k < |proxies|
    ensures WorkerSteps(cfg, proxies, records, networks, times)[k] ==
      AfterWorker(cfg, proxies[k].url, proxies[k].scheme, records[k], networks[k], times[k])
  {
  }

  /** The probes the first `n` worker runs of `steps` sent, in order. */
  ghost function SentProbes(steps: seq<Step>, n: nat): seq<Request>
    requires n <= |steps|
  {
    if n == 0 then [] else SentProbes(steps, n - 1) + steps[n - 1].probes
  }

  /**
   * The proxies among the first `n` whose worker run in `steps` completed, in
   * order: the calls made to `process_proxy`.
   */
  ghost function Completed(proxies: seq<Proxy>, steps: seq<Step>, n: nat): seq<Proxy>
    requires n <= |proxies| && n <= |steps|
  {
    if n == 0 then []
    else Completed(proxies, steps, n - 1) + if steps[n - 1].result.Done? then [proxies[n - 1]] else []
  }

  /** Appending the probes of run `i` to a log that ends with those of the runs before it. */
  lemma SentProbesSnoc(start: seq<Request>, log: seq<Request>, log': seq<Request>, steps: seq<Step>, i: nat)
    requires i < |steps|
    requires log == start + SentProbes(steps, i)
    requires log' == log + steps[i].probes
    ensures log' == start + SentProbes(steps, i + 1)
  {
  }

  /** Appending the proxy of run `i`, if it completed, to a log that ends with those of the runs before it. */
  lemma CompletedSnoc(start: seq<Proxy>, log: seq<Proxy>, log': seq<Proxy>, proxies: seq<Proxy>,
                      steps: seq<Step>, i: nat)
    requires i < |proxies| && i < |steps|
    requires log == start + Completed(proxies, steps, i)
    requires log' == log + if steps[i].result.Done? then [proxies[i]] else []
    ensures log' == start + Completed(proxies, steps, i + 1)
  {
  }

  /**
   * The first `i` proxies are as their worker runs `steps` left them, with
   * `results` their results, and the others still hold their records `before`.
   */
  ghost predicate Settled(proxies: seq<Proxy>, before: seq<Record>, steps: seq<Step>,
                          results: seq<WorkerResult>, i: nat)
    reads proxies
    requires |before| == |steps| == |proxies| && i <= |proxies|
  {
    && |results| == i
    && (forall k :: 0 <= k < i ==> proxies[k].Snapshot() == steps[k].record && results[k] == steps[k].result)
    && (forall k :: i <= k < |proxies| ==> proxies[k].Snapshot() == before[k])
  }

  /** The current records of `proxies`. */
  ghost function Snapshots(proxies: seq<Proxy>): (rs: seq<Record>)
    reads proxies
    ensures |rs| == |proxies|
    ensures forall i :: 0 <= i < |proxies| ==> rs[i] == proxies[i].Snapshot()
  {
    seq(|proxies|, i reads proxies requires 0 <= i < |proxies| => proxies[i].Snapshot())
  }
}
