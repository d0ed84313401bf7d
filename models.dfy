/**
 * The parts of the proxy record (from the repository's `models` module) that the
 * checker reads and updates: its URL, the scheme of that URL, the set of
 * capability tags, the two timestamps and the failure counter.
 */
module Models {
  import opened Wrappers

  /** The fixed capability vocabulary `Proxy.TYPE`. */
  datatype ProxyType = HTTP | HTTPS | SOCKS4 | SOCKS5

  /** A snapshot of the mutable part of a proxy record. Timestamps are integers. */
  datatype Record = Record(
    types: set<ProxyType>,
    successAt: Option<int>,
    failAt: Option<int>,
    fail: nat)

  predicate StartsWith(s: string, prefix: string)
  {
    |prefix| <= |s| && s[..|prefix|] == prefix
  }

  /** The scheme test of the checker: the scheme begins with "http", so "https" passes too. */
  predicate IsHttpScheme(scheme: string)
  {
    StartsWith(scheme, "http")
  }

  /** A positive failure counter always comes with a failure timestamp. */
  predicate FailureTracked(r: Record)
  {
    r.fail > 0 ==> r.failAt.Some?
  }

  /** The failure counter is zero: the most recent check, if any, succeeded. */
  predicate Healthy(r: Record)
  {
    r.fail == 0
  }

  /**
   * A proxy record owned by the caller. The checker never creates one; it only
   * reassigns `types`, `successAt`, `failAt` and `fail`.
   */
  class Proxy {
    const url: string
    /** The scheme of `url`, as the record's parsed URL reports it. */
    const scheme: string
    var types: set<ProxyType>
    var successAt: Option<int>
    var failAt: Option<int>
    var fail: nat

    constructor (url: string, scheme: string, types: set<ProxyType>)
      ensures this.url == url && this.scheme == scheme
      ensures Snapshot() == Record(types, None, None, 0)
    {
      this.url := url;
      this.scheme := scheme;
      this.types := types;
      successAt := None;
      failAt := None;
      fail := 0;
    }

    /** The record's current mutable state as a value. */
    function Snapshot(): Record
      reads this
    {
      Record(types, successAt, failAt, fail)
    }
  }
}
