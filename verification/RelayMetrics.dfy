/** The relay's per-connection counters (infra/cloudflare/worker/src/relay-metrics.js). */
module RelayMetrics {
  import opened Base

  datatype Counter =
    | Messages | InboundBytes | OutboundBytes | Auth | Ping | Pong
    | Datagram | Forwarded | Dropped | ServerPing | ServerPong | EndpointGone

  const ALL_COUNTERS: set<Counter> :=
    {Messages, InboundBytes, OutboundBytes, Auth, Ping, Pong,
     Datagram, Forwarded, Dropped, ServerPing, ServerPong, EndpointGone}

  lemma EveryCounter()
    ensures forall k: Counter :: k in ALL_COUNTERS
  {
    forall k: Counter ensures k in ALL_COUNTERS {
      match k
      case Messages => case InboundBytes => case OutboundBytes => case Auth => case Ping => case Pong =>
      case Datagram => case Forwarded => case Dropped => case ServerPing => case ServerPong => case EndpointGone =>
    }
  }

  function ZeroCounts(): (zero: map<Counter, nat>)
    ensures forall k: Counter :: k in zero && zero[k] == 0
  {
    EveryCounter();
    map k | k in ALL_COUNTERS :: 0
  }

  /** A counters object always carries every counter. */
  type Counts = c: map<Counter, nat> | forall k: Counter :: k in c
    witness ZeroCounts()

  /** A missing key reads as zero. */
  function Of(values: map<Counter, nat>, k: Counter): nat {
    if k in values then values[k] else 0
  }

  function Add(total: Counts, values: map<Counter, nat>): (sum: Counts)
    ensures forall k: Counter :: sum[k] == total[k] + Of(values, k)
  {
    map k | k in total :: total[k] + Of(values, k)
  }

  lemma AddNothing(counts: Counts)
    ensures Add(counts, map[]) == counts
  {
  }

  /** The loop over the keys of `total` computes the pointwise sum. */
  method AddCounters(total: Counts, values: map<Counter, nat>) returns (sum: Counts)
    ensures sum == Add(total, values)
  {
    sum := total;
    var keys := total.Keys;
    while keys != {}
      invariant keys <= total.Keys
      invariant forall k: Counter :: sum[k] == total[k] + if k in keys then 0 else Of(values, k)
      decreases keys
    {
      var key :| key in keys;
      sum := sum[key := sum[key] + Of(values, key)];
      keys := keys - {key};
    }
  }
}
