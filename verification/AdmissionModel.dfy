/**
 The admission limiter as functions on its table of buckets: one bucket per key, at most
 `MAX_BUCKETS` of them, idle ones thrown away under pressure and on a timer.
 */
module AdmissionModel {
  import opened TokenBucket
  import opened PendingPool

  const MAX_BUCKETS := 10_000
  const IDLE_TTL := 600.0

  datatype Budget = Connection(ip: Ip) | Creation(ip: Ip) | Room(id: string)

  datatype Answer = Ok | Limited(retryAfterSecs: nat) | Unavailable

  type Buckets = map<Budget, Bucket>

  function RateOf(key: Budget): (r: Rate)
    ensures r.Valid() && r.capacity == Refill(r, 60.0)
  {
    var capacity := match key
      case Connection(_) => 30.0
      case Creation(_) => 5.0
      case Room(_) => 20.0;
    Rate(capacity, capacity / 60.0)
  }

  function Ceil(x: real): int {
    -((-x).Floor)
  }

  // Whole seconds until the missing fraction of a token is back.
  function RetryAfter(key: Budget, tokens: real): (secs: nat)
    requires tokens < 1.0
    ensures tokens + Refill(RateOf(key), secs as real) >= 1.0
    ensures secs >= 1 && tokens + Refill(RateOf(key), (secs - 1) as real) < 1.0
  {
    var wait := (1.0 - tokens) / RateOf(key).perSec;
    assert wait * RateOf(key).perSec == 1.0 - tokens;
    Ceil(wait)
  }

  function Retain(buckets: Buckets, now: real): Buckets {
    map key | key in buckets && Elapsed(buckets[key], now) < IDLE_TTL :: buckets[key]
  }

  // A new key finding the table full has the idle buckets thrown away first.
  function Relieve(buckets: Buckets, key: Budget, now: real): Buckets {
    if key !in buckets && |buckets| >= MAX_BUCKETS then Retain(buckets, now) else buckets
  }

  predicate NoRoom(buckets: Buckets, key: Budget) {
    key !in buckets && |buckets| >= MAX_BUCKETS
  }

  function Spend(buckets: Buckets, key: Budget, now: real): (Buckets, Answer) {
    var bucket := if key in buckets then buckets[key] else Bucket(RateOf(key).capacity, now);
    var (spent, admitted) := Request(RateOf(key), bucket, now);
    (buckets[key := spent], if admitted then Ok else Limited(RetryAfter(key, spent.tokens)))
  }

  function Check(buckets: Buckets, key: Budget, now: real): (Buckets, Answer) {
    var kept := Relieve(buckets, key, now);
    if NoRoom(kept, key) then (kept, Unavailable) else Spend(kept, key, now)
  }
}
