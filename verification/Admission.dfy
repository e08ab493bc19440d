/** The admission limiter in place: the buckets and the pending pool behind one mutex. */
module AdmissionControl {
  import opened Wrappers
  import opened TokenBucket
  import opened PendingPool
  import opened AdmissionModel

  // A slot in the pending pool, given back when it is dropped.
  class PendingAuth {
    const ip: Ip

    constructor (ip: Ip)
      ensures this.ip == ip
    {
      this.ip := ip;
    }
  }

  class Limits {
    var buckets: Buckets
    var pending: map<Ip, nat>
    var pendingTotal: nat
    ghost var guards: multiset<Ip>

    ghost predicate Valid()
      reads this
    {
      |buckets| <= MAX_BUCKETS && Accounts(Pool(pending, pendingTotal), guards)
    }

    constructor ()
      ensures Valid() && buckets == map[] && guards == multiset{}
    {
      buckets, pending, pendingTotal, guards := map[], map[], 0, multiset{};
    }

    method CheckAt(key: Budget, now: real) returns (r: Answer)
      requires Valid()
      modifies this`buckets
      ensures Valid()
      ensures (buckets, r) == Check(old(buckets), key, now)
    {
      if key !in buckets && |buckets| >= MAX_BUCKETS {
        RetainShrinks(buckets, now);
        buckets := map k | k in buckets && Elapsed(buckets[k], now) < IDLE_TTL :: buckets[k];
        if |buckets| >= MAX_BUCKETS {
          return Unavailable;
        }
      }
      r := SpendAt(key, now);
    }

    // The entry of the key, full if it is new, is refilled and pays for one request.
    method SpendAt(key: Budget, now: real) returns (r: Answer)
      requires Valid() && !NoRoom(buckets, key)
      modifies this`buckets
      ensures Valid()
      ensures (buckets, r) == Spend(old(buckets), key, now)
    {
      ghost var before := buckets;
      if key !in buckets {
        buckets := buckets[key := Bucket(RateOf(key).capacity, now)];
      }
      FitsOneMore(before, key, buckets[key]);
      var rate, bucket := RateOf(key), buckets[key];
      bucket := bucket.(tokens := Min(bucket.tokens + Refill(rate, Elapsed(bucket, now)), rate.capacity),
          updated := now);
      var limited := bucket.tokens < 1.0;
      r := if limited then Limited(RetryAfter(key, bucket.tokens)) else Ok;
      Write(key, if limited then bucket else bucket.(tokens := bucket.tokens - 1.0));
      assert buckets == before[key := buckets[key]];
    }

    method Write(key: Budget, bucket: Bucket)
      requires Valid() && key in buckets
      modifies this`buckets
      ensures Valid() && buckets == old(buckets)[key := bucket]
    {
      FitsOneMore(buckets, key, bucket);
      buckets := buckets[key := bucket];
    }

    method Maintain(now: real)
      requires Valid()
      modifies this`buckets
      ensures Valid()
      ensures buckets == Retain(old(buckets), now)
    {
      RetainShrinks(buckets, now);
      buckets := map k | k in buckets && Elapsed(buckets[k], now) < IDLE_TTL :: buckets[k];
    }

    // A guard is handed out exactly while fewer than a hundred are out and fewer than ten
    // of them bear this address.
    method Pending(ip: Ip) returns (r: Option<PendingAuth>)
      requires Valid()
      modifies this`pending, this`pendingTotal, this`guards
      ensures Valid()
      ensures r.None? <==> |old(guards)| == MAX_PENDING || old(guards)[ip] == MAX_PENDING_PER_IP
      ensures r.None? ==> guards == old(guards) && pending == old(pending) && pendingTotal == old(pendingTotal)
      ensures r.Some? ==> fresh(r.value) && r.value.ip == ip && guards == old(guards) + multiset{ip}
    {
      ghost var before := Pool(pending, pendingTotal);
      AcquireAccounts(before, guards, ip);
      if pendingTotal >= MAX_PENDING || (if ip in pending then pending[ip] else 0) >= MAX_PENDING_PER_IP {
        return None;
      }
      pending := pending[ip := (if ip in pending then pending[ip] else 0) + 1];
      pendingTotal := pendingTotal + 1;
      guards := guards + multiset{ip};
      var guard := new PendingAuth(ip);
      r := Some(guard);
    }

    // Dropping a guard: its slot is there to be found, and neither count underflows.
    method Drop(guard: PendingAuth)
      requires Valid() && guard.ip in guards
      modifies this`pending, this`pendingTotal, this`guards
      ensures Valid() && guards == old(guards) - multiset{guard.ip}
    {
      ReleaseAccounts(Pool(pending, pendingTotal), guards, guard.ip);
      OneFewer(pending, pendingTotal, guard.ip);
      pending := pending[guard.ip := pending[guard.ip] - 1];
      if pending[guard.ip] == 0 {
        pending := pending - {guard.ip};
      }
      pendingTotal := pendingTotal - 1;
      guards := guards - multiset{guard.ip};
    }
  }

  // Counting down and dropping the entry at zero is the release.
  lemma OneFewer(pending: map<Ip, nat>, total: nat, ip: Ip)
    requires Release(Pool(pending, total), ip).Some?
    ensures ip in pending && pending[ip] > 0 && total > 0
    ensures var counted := pending[ip := pending[ip] - 1];
            Release(Pool(pending, total), ip).value ==
            Pool(if counted[ip] == 0 then counted - {ip} else counted, total - 1)
  {
    assert pending[ip] == 1 ==> pending[ip := 0] - {ip} == pending - {ip};
  }

  lemma RetainShrinks(buckets: Buckets, now: real)
    ensures |Retain(buckets, now)| <= |buckets|
    ensures |Retain(buckets, now)| == |buckets| ==> Retain(buckets, now) == buckets
  {
    var kept := Retain(buckets, now);
    FewerKeys(kept.Keys, buckets.Keys);
    assert |kept.Keys| == |kept| && |buckets.Keys| == |buckets|;
  }

  lemma FitsOneMore(buckets: Buckets, key: Budget, bucket: Bucket)
    requires |buckets| <= MAX_BUCKETS && !NoRoom(buckets, key)
    ensures |buckets[key := bucket]| <= MAX_BUCKETS
    ensures key in buckets ==> |buckets[key := bucket]| == |buckets|
  {
    assert buckets[key := bucket].Keys == buckets.Keys + {key};
    assert |buckets.Keys + {key}| == |buckets.Keys| + if key in buckets then 0 else 1;
  }

  lemma FewerKeys<T>(a: set<T>, b: set<T>)
    requires a <= b
    ensures |a| <= |b| && (|a| == |b| ==> a == b)
  {
    assert b == a + (b - a);
  }
}
