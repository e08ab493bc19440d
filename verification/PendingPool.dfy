/** The pool of sockets waiting for password authentication, counted by guards. */
module PendingPool {
  import opened Wrappers

  type Ip = string

  const MAX_PENDING := 100
  const MAX_PENDING_PER_IP := 10

  datatype Pool = Pool(pending: map<Ip, nat>, total: nat)

  const EMPTY_POOL := Pool(map[], 0)

  function Waiting(p: Pool, ip: Ip): nat {
    if ip in p.pending then p.pending[ip] else 0
  }

  // None is `Unavailable`: no guard is handed out.
  function Acquire(p: Pool, ip: Ip): Option<Pool> {
    if p.total >= MAX_PENDING || Waiting(p, ip) >= MAX_PENDING_PER_IP then None
    else Some(Pool(p.pending[ip := Waiting(p, ip) + 1], p.total + 1))
  }

  // None is a panic: the entry is missing, or a counter would underflow.
  function Release(p: Pool, ip: Ip): Option<Pool> {
    if Waiting(p, ip) == 0 || p.total == 0 then None
    else Some(Pool(if p.pending[ip] == 1 then p.pending - {ip} else p.pending[ip := p.pending[ip] - 1], p.total - 1))
  }

  // The pool accounts for a bag of live guards, each bearing its address.
  ghost predicate Accounts(p: Pool, guards: multiset<Ip>) {
    && p.total == |guards| <= MAX_PENDING
    && (forall ip :: ip in p.pending <==> ip in guards)
    && (forall ip :: ip in p.pending ==> p.pending[ip] == guards[ip] <= MAX_PENDING_PER_IP)
  }

  lemma AcquireAccounts(p: Pool, guards: multiset<Ip>, ip: Ip)
    requires Accounts(p, guards)
    ensures Acquire(p, ip).None? <==> |guards| == MAX_PENDING || guards[ip] == MAX_PENDING_PER_IP
    ensures Acquire(p, ip).Some? ==> Accounts(Acquire(p, ip).value, guards + multiset{ip})
  {
    assert Waiting(p, ip) == guards[ip];
    if Acquire(p, ip).Some? {
      var p', more := Acquire(p, ip).value, guards + multiset{ip};
      forall x ensures x in p'.pending <==> x in more {
        if x != ip { assert more[x] == guards[x]; }
      }
    }
  }

  // Dropping a guard finds its slot, and takes back exactly that guard.
  lemma ReleaseAccounts(p: Pool, guards: multiset<Ip>, ip: Ip)
    requires Accounts(p, guards) && ip in guards
    ensures Release(p, ip).Some? && Accounts(Release(p, ip).value, guards - multiset{ip})
  {
    assert |guards| > 0 by { assert guards == (guards - multiset{ip}) + multiset{ip}; }
    var p', fewer := Release(p, ip).value, guards - multiset{ip};
    forall x ensures x in p'.pending <==> x in fewer {
      if x != ip { assert fewer[x] == guards[x]; }
    }
  }

  ghost function Sum(m: map<Ip, nat>): nat
    decreases |m|
  {
    if m == map[] then 0
    else
      var ip :| ip in m;
      assert (m - {ip}).Keys == m.Keys - {ip};
      m[ip] + Sum(m - {ip})
  }

  // The total is the sum of the map.
  lemma {:induction false} TotalIsSum(pending: map<Ip, nat>, guards: multiset<Ip>)
    requires forall ip :: ip in pending <==> ip in guards
    requires forall ip :: ip in pending ==> pending[ip] == guards[ip]
    ensures Sum(pending) == |guards|
    decreases |pending|
  {
    if pending == map[] {
      assert guards == multiset{};
    } else {
      var ip :| ip in pending && Sum(pending) == pending[ip] + Sum(pending - {ip});
      var rest := guards[ip := 0];
      assert (pending - {ip}).Keys == pending.Keys - {ip};
      TotalIsSum(pending - {ip}, rest);
      assert guards == rest[ip := guards[ip]];
    }
  }
}
