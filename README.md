# ProxyChecker: per-proxy protocol selection and record updates

This project models the checking engine of `proxytools`, the `ProxyChecker` class.
`ProxyChecker` probes each candidate proxy through an echo service and writes the
outcome into the proxy's record. The record holds the capability tags `types`, the
timestamps `success_at` and `fail_at`, and the failure counter `fail`.

- `Probe` (probe.dfy) covers one probe. `CHECK_URLS` maps each protocol to its echo URL.
  `ProbeRequest` builds the GET, routing both the "http" and the "https" proxy slots
  through the proxy. `Classify` turns what the network answered into a pass or an
  error. A pass needs three things: the GET did not raise, the status is not in 400..599,
  and the JSON body has an `origin` key.
- `CheckSpec` (checkspec.dfy) holds the value-level meaning of the checker:
  - `ShouldProbeHttps` is the HTTPS selection rule.
  - `ProbedProtocol` is the protocol a worker probes.
  - `AfterCheck` is the record update that `check` performs.
  - `ReconcileHttps` is the capability fix-up that `worker` does after an HTTPS probe.
  - `AfterWorker` is one whole `worker` run.
  - `RunChecks` is a sequence of checks, with the lemmas about failure accounting over it.
- `Models` (models.dfy) holds the proxy record as a class whose fields the checker reassigns.
- `ProxyChecker` (proxychecker.dfy) holds the `Checker` class with the same four operations
  as the source: the constructor, `Check`, `Worker` and `Run`.
  - The constructor stores the settings.
  - `Check` and `Worker` update one `Proxy` in place and are proved to have exactly the
    effect of `AfterCheck` and `AfterWorker`.
  - `Run` has no single matching function. It is proved to leave each proxy as `AfterWorker`
    says, to return each worker's result, and to extend both logs by each worker's entries
    in batch order.
- `Scenarios` (scenarios.dfy) works through the source's typical configurations.

The network a worker talks to is a parameter `network: Request -> Outcome`; `Run` takes one
such network per worker, since each worker sends its own requests. An `Outcome` is either `Raised`
(the GET raised: connection error, proxy error, timeout) or a response status together with
the key set of the JSON object body (`None` when the body is not JSON). The clock is an
integer `now`. The `process_proxy` hook is a ghost log `processed`, and every probe sent is
recorded in a ghost log `requests`.

Three consequences of the code that are easy to miss:
- A successful `check` adds `HTTPS` to an http-scheme proxy whatever protocol was probed,
  including a plain HTTP probe (proxytools/proxychecker.py:87-88).
- `HTTPS` is removed only by `worker`, after a failed HTTPS probe
  (proxytools/proxychecker.py:56-57). A failed HTTP probe never removes it, and neither
  does `check` itself.
- "Starts with http" is true of the scheme "https" too, so an https-scheme proxy is treated
  like an http-scheme one.

## Model

| member | source | states |
|---|---|---|
| `ProxyChecker.Checker.constructor` | proxytools/proxychecker.py:17-31 | stores the timeout, the unused retry settings and the three protocol flags, with the source's defaults (timeout 5, http and https checking on, forced HTTPS off) |
| `Probe.CheckUrlScheme` | proxytools/proxychecker.py:10-13 | both protocol names are keys of `CHECK_URLS`, and each URL uses the scheme it is keyed by |
| `Probe.ProbeRequest` | proxytools/proxychecker.py:70-72 | the probe has exactly the two proxy slots "http" and "https", both routed through the proxy's URL; its URL is the endpoint of the probed protocol's scheme |
| `Probe.Classify` | proxytools/proxychecker.py:71-77 | a probe passes iff the GET did not raise, the status is outside 400..599 and the JSON body has an `origin` key; a 4xx/5xx status is reported as such, before the body is looked at |
| `CheckSpec.ShouldProbeHttps` | proxytools/proxychecker.py:47-51 | HTTPS is probed iff (https checking is on and `types` holds HTTPS, SOCKS4 or SOCKS5) or forced HTTPS checking is on |
| `CheckSpec.ProbedProtocol` | proxytools/proxychecker.py:50-62 | the worker probes HTTPS iff its condition holds, HTTP iff that condition fails and HTTP checking is on, and nothing otherwise |
| `CheckSpec.AfterCheck` | proxytools/proxychecker.py:77-89 | success: `successAt = now`, `failAt` cleared, `fail = 0`, HTTPS added iff the scheme starts with "http", nothing else in `types` touched. Failure: `failAt = now`, `fail` one larger, `successAt` and `types` unchanged. After either, `fail > 0` implies `failAt` is set, and the failure counter is zero iff the check succeeded |
| `CheckSpec.ReconcileHttps` | proxytools/proxychecker.py:53-57 | for an http-scheme proxy, after the HTTPS probe HTTPS is in `types` iff the probe succeeded; other schemes are untouched; no other tag ever changes |
| `CheckSpec.WorkerEffect` | proxytools/proxychecker.py:44-67 | at most one probe per worker. An HTTPS probe, once selected, is the only probe whether it passes or fails (no HTTP fallback). The "proxy not checked" assertion fails exactly when nothing was probed, which is exactly when HTTPS is not selected and HTTP checking is off; the record is then unchanged. The failure accounting is that of the one check. Only HTTPS can change in `types`, and only for http schemes |
| `CheckSpec.RunChecks` | proxytools/proxychecker.py:77-89 | over any sequence of checks: `fail` grows by at most one per check, `fail > 0 ⇒ failAt ≠ None` is preserved, a check never revokes HTTPS, and the failure counter ends at zero iff the last check succeeded |
| `CheckSpec.FailCountsConsecutiveFailures` | proxytools/proxychecker.py:78-86 | `fail` equals the number of failures since the last success, or the starting count plus the number of checks when none succeeded |
| `CheckSpec.FailuresOnly` | proxytools/proxychecker.py:77-81 | N consecutive failures add N to `fail`, set `failAt` to the last failure's time and leave `successAt` and `types` alone |
| `CheckSpec.FailuresThenSuccess` | proxytools/proxychecker.py:77-86 | from `fail = 0`, N failures give `fail = N`, and one success then gives `fail = 0`, `failAt = None` and `successAt` set to its time |
| `ProxyChecker.Checker.Check` | proxytools/proxychecker.py:69-89 | sends exactly the probe request of the protocol, returns whether it passed, and updates the proxy in place as `AfterCheck` says, field by field |
| `ProxyChecker.Checker.Worker` | proxytools/proxychecker.py:44-67 | updates the proxy in place as `AfterWorker` says, logs the probes it sent, and calls `process_proxy` once with the proxy when it completes and not at all when its assertion fails |
| `ProxyChecker.Checker.Run` | proxytools/proxychecker.py:33-37 | running the workers over a batch of distinct proxies, each with its own network: every proxy ends as its own worker leaves it and every worker's end is reported, whatever the other workers did. The probe log grows by each worker's probes and the `process_proxy` log by each completed worker's proxy, in batch order |
| `Scenarios.ForcedHttpsProbeSucceeds` | proxytools/proxychecker.py:47-57 | with forced HTTPS checking, an http-scheme proxy claiming only HTTP is probed over HTTPS; a pass gives `types = {HTTP, HTTPS}`, `successAt = now` and `fail = 0` |
| `Scenarios.ForcedHttpsProbeTimesOut` | proxytools/proxychecker.py:47-62 | the same probe timing out leaves `types = {HTTP}` and gives `failAt = now` and `fail = 1`, with no HTTP probe even though HTTP checking is on |
| `Scenarios.Socks5ProbedOverHttpsOnly` | proxytools/proxychecker.py:47-62 | with the default flags a SOCKS5 proxy gets only the HTTPS probe, and its `types` are untouched |
| `Scenarios.NothingSelected` | proxytools/proxychecker.py:61-66 | with HTTP checking off and no HTTPS hint, the worker fails with "proxy not checked", sends nothing and changes nothing |

## Left out

- Concurrency: `__call__` spawns a pool worker (a gevent greenlet) per proxy and optionally joins the pool. `Checker.Run` is the sequential, joined version. It requires the proxies to be distinct objects, because concurrent workers on one shared record would interleave, and that is not modelled. The fire-and-forget mode (`join=False`) and the pool size bound are not modelled.
- Sessions: `create_session`, the requests-based session, the forgetful cookie jar and the timeout passed to them are HTTP transport. The network is the function parameter `network` instead. Creating a fresh session per worker is not modelled.
- Response bodies: a JSON body is modelled as the key set of a JSON object. For a JSON list or string, the origin test means element or substring membership; that case is not modelled.
- Clock: `datetime.utcnow()` is the integer `now`. A worker performs at most one check, so it reads the clock once.
- Logging calls are side effects only and are left out.
- `max_retries` and `retry_timeout` are stored by the constructor and never used. No retry behaviour exists to model.
- Constructor arguments: `proxy`, `pool` and `pool_size` are passed to the parent class, which is not part of this model. `session` is accepted and then discarded (proxytools/proxychecker.py:20), so the model has no such parameter.
- Proxy record: the record class of the repository's `models` module is not part of this model. Only the fields the checker uses are kept. The URL's scheme is a constructor argument, not parsed from the URL.
- The `worker` result value: the source's worker returns nothing. The model returns `Done`, or `AssertionError("proxy not checked")` for the failed assertion.
- Optimised Python: `check` and `worker` use `assert` for control flow (proxytools/proxychecker.py:74 and :66). Under `python -O` both statements are removed. Then any response outside 400..599 passes without its body being parsed, and an unchecked proxy still reaches `process_proxy`. `Classify`, `AfterWorker` and `Checker.Worker` model only the default interpreter mode, where asserts run.
- The commented-out `main` and tests/test_requests.py (a live-network test) contain no logic to model.
