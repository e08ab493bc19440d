/** The per-socket limiter in place: how many inbound frames one session may have relayed. */
module MessageRate {
  import opened TokenBucket

  const MSG_RATE_CAPACITY := 60.0
  const MSG_RATE_REFILL_PER_SEC := 30.0

  function MessageBudget(): (r: Rate)
    ensures r.Valid()
  {
    Rate(MSG_RATE_CAPACITY, MSG_RATE_REFILL_PER_SEC)
  }

  // `times` is the ghost of every check so far.
  class RateLimiter {
    var tokens: real
    const capacity: real
    const refillPerSec: real
    var lastRefill: real
    ghost const origin: Bucket
    ghost var times: seq<real>

    ghost function Budget(): Rate {
      Rate(capacity, refillPerSec)
    }

    ghost function Answers(): (choices: seq<bool>)
      reads this
      ensures |choices| == |times|
    {
      Admitted(Budget(), origin, times)
    }

    ghost function Held(): Bucket
      reads this
    {
      Bucket(tokens, lastRefill)
    }

    ghost predicate Valid()
      reads this
    {
      Held() == After(Budget(), origin, times)
    }

    constructor (capacity: real, refillPerSec: real, now: real)
      ensures Valid() && times == [] && Budget() == Rate(capacity, refillPerSec) && origin == Bucket(capacity, now)
    {
      this.capacity, this.refillPerSec := capacity, refillPerSec;
      tokens, lastRefill := capacity, now;
      origin, times := Bucket(capacity, now), [];
    }

    method Check(now: real) returns (ok: bool)
      requires Valid()
      modifies this
      ensures Valid() && times == old(times) + [now] && Answers() == old(Answers()) + [ok]
      ensures (Held(), ok) == Request(Budget(), old(Held()), now)
    {
      AdmittedAppend(Budget(), origin, times, now);
      var elapsed := if lastRefill < now then now - lastRefill else 0.0;
      lastRefill := now;
      tokens := Min(tokens + Refill(Rate(capacity, refillPerSec), elapsed), capacity);
      ok := tokens >= 1.0;
      if ok {
        tokens := tokens - 1.0;
      }
      times := times + [now];
    }
  }

  // In any stretch of its checks a socket is admitted at most sixty, and thirty for each
  // second the stretch lasts.
  lemma MessageWindow(start: real, times: seq<real>, lo: nat, hi: nat)
    requires Timely(times) && lo < hi <= |times| && start <= times[0]
    ensures CountTrue(Admitted(MessageBudget(), Bucket(MSG_RATE_CAPACITY, start), times)[lo..hi]) as real <=
            60.0 + 30.0 * (times[hi - 1] - times[lo])
  {
    WindowBound(MessageBudget(), Bucket(MSG_RATE_CAPACITY, start), times, lo, hi);
    RefillIsThirty(times[hi - 1] - times[lo]);
  }

  lemma RefillIsThirty(span: real)
    ensures MessageBudget().capacity == 60.0 && Refill(MessageBudget(), span) == 30.0 * span
  {
  }
}
