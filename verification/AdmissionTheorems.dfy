/** What the admission limiter promises over every run, evictions and maintenance included. */
module AdmissionTheorems {
  import opened TokenBucket
  import opened AdmissionModel
  import opened AdmissionRuns
  import AdmissionControl

  // ---------- Eviction is unobservable ----------

  // Once the `Unavailable` steps are erased, the answers of a run are those of the limiter
  // that never evicts; and any one check gets the ideal answer or `Unavailable`.
  lemma {:induction false} EvictionIsUnobservable(ops: seq<Op>, key: Budget, now: real)
    requires Upto(ops, now)
    ensures Answers(ops) == IdealAnswers(Answered(ops))
    ensures Reply(ops, key, now) == Unavailable || Reply(ops, key, now) == IdealReply(Answered(ops), key, now)
  {
    RunTracks(ops, now);
    CheckTracks(ops, key, now);
  }

  lemma CheckIsBounded(buckets: Buckets, key: Budget, now: real)
    requires |buckets| <= MAX_BUCKETS
    ensures |Check(buckets, key, now).0| <= MAX_BUCKETS
  {
    AdmissionControl.RetainShrinks(buckets, now);
    var kept := Relieve(buckets, key, now);
    if !NoRoom(kept, key) {
      AdmissionControl.FitsOneMore(kept, key, Spend(kept, key, now).0[key]);
    }
  }

  lemma {:induction false} TableIsBounded(ops: seq<Op>)
    ensures |TableAfter(ops)| <= MAX_BUCKETS
  {
    if ops != [] {
      var prior, op := ops[..|ops| - 1], ops[|ops| - 1];
      TableIsBounded(prior);
      AdmissionControl.RetainShrinks(TableAfter(prior), op.at);
      if op.CheckOp? {
        CheckIsBounded(TableAfter(prior), op.key, op.at);
      }
    }
  }

  // ---------- When a check is unavailable ----------

  // The keys with an answered check less than `IDLE_TTL` ago.
  function Recent(asks: seq<Ask>, now: real): set<Budget> {
    set ask | ask in asks && now - ask.at < IDLE_TTL :: ask.key
  }

  predicate InOrder(asks: seq<Ask>, now: real) {
    asks == [] || (asks[|asks| - 1].at <= now && InOrder(asks[..|asks| - 1], asks[|asks| - 1].at))
  }

  lemma {:induction false} NoneIsLater(asks: seq<Ask>, now: real)
    requires InOrder(asks, now)
    ensures forall ask | ask in asks :: ask.at <= now
  {
    if asks != [] {
      NoneIsLater(asks[..|asks| - 1], asks[|asks| - 1].at);
      assert asks == asks[..|asks| - 1] + [asks[|asks| - 1]];
    }
  }

  lemma {:induction false} AnsweredInOrder(ops: seq<Op>, now: real)
    requires Upto(ops, now)
    ensures InOrder(Answered(ops), now)
  {
    if ops != [] {
      var prior, op := ops[..|ops| - 1], ops[|ops| - 1];
      AnsweredInOrder(prior, op.at);
      if IsAnswered(prior, op) {
        assert Answered(ops)[..|Answered(ops)| - 1] == Answered(prior);
      } else {
        InOrderLater(Answered(prior), op.at, now);
      }
    }
  }

  lemma InOrderLater(asks: seq<Ask>, before: real, now: real)
    requires InOrder(asks, before) && before <= now
    ensures InOrder(asks, now)
  {
  }

  lemma {:induction false} RecentMeans(asks: seq<Ask>, key: Budget, from: real, now: real)
    requires InOrder(asks, from)
    ensures key in Recent(asks, now) <==> key in IdealTable(asks) && now - IdealTable(asks)[key].updated < IDLE_TTL
  {
    if asks != [] {
      var prior, ask := asks[..|asks| - 1], asks[|asks| - 1];
      RecentMeans(prior, key, ask.at, now);
      NoneIsLater(prior, ask.at);
      RecentStep(prior, ask, now);
      assert asks == prior + [ask];
    }
  }

  lemma RecentStep(prior: seq<Ask>, ask: Ask, now: real)
    ensures Recent(prior + [ask], now) == Recent(prior, now) + if now - ask.at < IDLE_TTL then {ask.key} else {}
  {
    assert forall i :: 0 <= i < |prior| ==> (prior + [ask])[i] == prior[i];
    assert (prior + [ask])[|prior|] == ask;
  }

  // What a retain leaves is the keys recently answered.
  lemma {:induction false} RetainedAreRecent(ops: seq<Op>, now: real)
    requires Upto(ops, now)
    ensures Retain(TableAfter(ops), now).Keys == Recent(Answered(ops), now)
  {
    RunTracks(ops, now);
    AnsweredInOrder(ops, now);
    forall key
      ensures key in Retain(TableAfter(ops), now) <==> key in Recent(Answered(ops), now)
    {
      RecentMeans(Answered(ops), key, now, now);
    }
  }

  // A check is turned away exactly when ten thousand other keys were all answered within
  // the last `IDLE_TTL` and its own was not.
  lemma {:induction false} UnavailableExactly(ops: seq<Op>, key: Budget, now: real)
    requires Upto(ops, now)
    ensures var recent := Recent(Answered(ops), now);
            Reply(ops, key, now) == Unavailable <==> key !in recent && |recent| == MAX_BUCKETS
  {
    var table := TableAfter(ops);
    var kept := Retain(table, now);
    RetainedAreRecent(ops, now);
    TableIsBounded(ops);
    AdmissionControl.RetainShrinks(table, now);
    assert |kept.Keys| == |kept|;
  }

  // In a table with room to spare a new key is admitted, and takes a place.
  lemma NewcomerPasses(ops: seq<Op>, key: Budget, at: real)
    requires key !in TableAfter(ops) && |TableAfter(ops)| < MAX_BUCKETS
    ensures Reply(ops, key, at).Ok? && TableAfter(ops + [CheckOp(key, at)]).Keys == TableAfter(ops).Keys + {key}
  {
    assert (ops + [CheckOp(key, at)])[..|ops|] == ops;
    RefillAdds(RateOf(key), 0.0, 0.0);
  }

  // ---------- One key over a run ----------

  // The answers to the checks of one key, `true` for admitted, `Unavailable` ones left out.
  function Grants(ops: seq<Op>, key: Budget): seq<bool> {
    if ops == [] then []
    else
      var prior, op := ops[..|ops| - 1], ops[|ops| - 1];
      if IsAnswered(prior, op) && op.key == key then Grants(prior, key) + [Reply(prior, key, op.at).Ok?]
      else Grants(prior, key)
  }

  function Times(ops: seq<Op>, key: Budget): seq<real> {
    KeyTimes(Answered(ops), key)
  }

  lemma TimesStep(prior: seq<Op>, op: Op, key: Budget)
    ensures Times(prior + [op], key) ==
            if IsAnswered(prior, op) && op.key == key then Times(prior, key) + [op.at] else Times(prior, key)
  {
    assert (prior + [op])[..|prior|] == prior;
    if IsAnswered(prior, op) {
      KeyTimesAppend(Answered(prior), Ask(op.key, op.at), key);
    }
  }

  // An answered check is admitted exactly when the key's own bucket admits it.
  lemma AnswerIsOwn(prior: seq<Op>, key: Budget, at: real)
    requires Upto(prior, at) && Reply(prior, key, at) != Unavailable
    ensures Reply(prior, key, at).Ok? <==> Request(RateOf(key), KeyBucket(Answered(prior), key), at).1
  {
    EvictionIsUnobservable(prior, key, at);
    IdealReplyProjects(Answered(prior), key, at);
  }

  lemma GrantsStep(prior: seq<Op>, op: Op, key: Budget)
    ensures Grants(prior + [op], key) ==
            if IsAnswered(prior, op) && op.key == key then Grants(prior, key) + [Reply(prior, key, op.at).Ok?]
            else Grants(prior, key)
  {
    assert (prior + [op])[..|prior|] == prior;
  }

  // Traffic on other keys, evictions and maintenance leave a key's answers those of its own
  // token bucket.
  lemma {:induction false} KeysAreIndependent(ops: seq<Op>, key: Budget, now: real)
    requires Upto(ops, now)
    ensures Grants(ops, key) == Admitted(RateOf(key), Full(RateOf(key)), Times(ops, key))
  {
    if ops != [] {
      var prior, op := ops[..|ops| - 1], ops[|ops| - 1];
      KeysAreIndependent(prior, key, op.at);
      OneMoreIsIndependent(prior, op, key);
      assert ops == prior + [op];
    }
  }

  lemma OneMoreIsIndependent(prior: seq<Op>, op: Op, key: Budget)
    requires Upto(prior, op.at) && Grants(prior, key) == Admitted(RateOf(key), Full(RateOf(key)), Times(prior, key))
    ensures Grants(prior + [op], key) == Admitted(RateOf(key), Full(RateOf(key)), Times(prior + [op], key))
  {
    GrantsStep(prior, op, key);
    TimesStep(prior, op, key);
    if IsAnswered(prior, op) && op.key == key {
      AnswerIsOwn(prior, key, op.at);
      AdmittedAppend(RateOf(key), Full(RateOf(key)), Times(prior, key), op.at);
    }
  }

  // No policy that keeps the key's bucket non-negative has admitted more, after any prefix.
  lemma {:induction false} LimiterIsGreedy(ops: seq<Op>, key: Budget, now: real, choices: seq<bool>, n: nat)
    requires Upto(ops, now)
    requires |choices| == |Times(ops, key)| && n <= |choices|
    requires Solvent(RateOf(key), Full(RateOf(key)), Times(ops, key), choices)
    ensures |Grants(ops, key)| == |choices| && CountTrue(choices[..n]) <= CountTrue(Grants(ops, key)[..n])
  {
    KeysAreIndependent(ops, key, now);
    GreedyIsOptimal(RateOf(key), Full(RateOf(key)), Times(ops, key), choices, n);
  }

  // ---------- Rejected checks leave no trace ----------

  lemma {:induction false} IdealIsTended(asks: seq<Ask>, now: real)
    requires InOrder(asks, now)
    ensures forall key | key in IdealTable(asks) :: Tended(key, IdealTable(asks)[key], now)
  {
    if asks != [] {
      var prior, ask := asks[..|asks| - 1], asks[|asks| - 1];
      IdealIsTended(prior, ask.at);
      SpendIsTended(IdealTable(prior), ask.key, ask.at);
    }
  }

  // Two tables no check can tell apart from now on.
  predicate SameFrom(a: Buckets, b: Buckets, now: real) {
    a.Keys == b.Keys && forall key | key in a :: Alike(RateOf(key), a[key], b[key], now)
  }

  lemma SameSpend(a: Buckets, b: Buckets, key: Budget, since: real, now: real)
    requires SameFrom(a, b, since) && since <= now
    ensures Spend(a, key, now).1 == Spend(b, key, now).1
    ensures SameFrom(Spend(a, key, now).0, Spend(b, key, now).0, now)
  {
    forall other | other in a
      ensures Alike(RateOf(other), a[other], b[other], now)
      ensures Request(RateOf(other), a[other], now) == Request(RateOf(other), b[other], now)
    {
      AlikeLater(RateOf(other), a[other], b[other], since, now);
    }
    SpendIsTended(a, key, now);
    SpendIsTended(b, key, now);
  }

  // A check that is rejected, put into a run anywhere, changes no later answer to any key.
  lemma {:induction false} RejectedCheckLeavesNoTrace(first: seq<Ask>, rejected: Ask, rest: seq<Ask>, key: Budget,
                                                      now: real)
    requires InOrder(first, rejected.at) && IdealReply(first, rejected.key, rejected.at).Limited?
    requires InOrder(first + [rejected] + rest, now)
    ensures IdealReply(first + [rejected] + rest, key, now) == IdealReply(first + rest, key, now)
    ensures SameFrom(IdealTable(first + [rejected] + rest), IdealTable(first + rest), now)
  {
    var since := rejected.at;
    if rest == [] {
      assert first + [rejected] + rest == first + [rejected] && first + rest == first;
      IdealAppend(first, rejected);
      RejectedSpend(first, rejected);
    } else {
      var n, ask := |rest| - 1, rest[|rest| - 1];
      assert first + [rejected] + rest == (first + [rejected] + rest[..n]) + [ask];
      assert first + rest == (first + rest[..n]) + [ask];
      assert (first + [rejected] + rest)[..|first + [rejected] + rest| - 1] == first + [rejected] + rest[..n];
      RejectedCheckLeavesNoTrace(first, rejected, rest[..n], ask.key, ask.at);
      IdealAppend(first + [rejected] + rest[..n], ask);
      IdealAppend(first + rest[..n], ask);
      SameSpend(IdealTable(first + [rejected] + rest[..n]), IdealTable(first + rest[..n]), ask.key, ask.at, ask.at);
      since := ask.at;
    }
    SameSpend(IdealTable(first + [rejected] + rest), IdealTable(first + rest), key, since, now);
    SameLater(IdealTable(first + [rejected] + rest), IdealTable(first + rest), since, now);
  }

  lemma SameLater(a: Buckets, b: Buckets, since: real, now: real)
    requires SameFrom(a, b, since) && since <= now
    ensures SameFrom(a, b, now)
  {
    forall key | key in a
      ensures Alike(RateOf(key), a[key], b[key], now)
    {
      AlikeLater(RateOf(key), a[key], b[key], since, now);
    }
  }

  lemma RejectedSpend(first: seq<Ask>, rejected: Ask)
    requires InOrder(first, rejected.at) && IdealReply(first, rejected.key, rejected.at).Limited?
    ensures SameFrom(Spend(IdealTable(first), rejected.key, rejected.at).0, IdealTable(first), rejected.at)
  {
    var table := IdealTable(first);
    IdealIsTended(first, rejected.at);
    if rejected.key in table {
      RejectionIsAlike(RateOf(rejected.key), table[rejected.key], rejected.at);
    } else {
      FullStaysFull(RateOf(rejected.key), rejected.at);
      NewIsFull(rejected.key, rejected.at);
    }
  }

  // ---------- How many in a window ----------

  // How many checks of the key are admitted from the `lo`-th operation on.
  function Oks(ops: seq<Op>, key: Budget, lo: nat): nat {
    if |ops| <= lo then 0
    else
      var prior, op := ops[..|ops| - 1], ops[|ops| - 1];
      Oks(prior, key, lo) + if op.CheckOp? && op.key == key && Reply(prior, key, op.at).Ok? then 1 else 0
  }

  lemma {:induction false} FirstIsEarliest(ops: seq<Op>, lo: nat, now: real)
    requires Upto(ops, now) && lo < |ops|
    ensures ops[lo].at <= ops[|ops| - 1].at <= now
  {
    if lo < |ops| - 1 {
      FirstIsEarliest(ops[..|ops| - 1], lo, ops[|ops| - 1].at);
    }
  }

  // The bucket of a key gains at most what the time refills.
  lemma KeyLevelGrows(ops: seq<Op>, key: Budget, mid: real, now: real)
    requires Upto(ops, mid) && mid <= now
    ensures var r, b := RateOf(key), KeyBucket(Answered(ops), key);
            Sound(r, b) && Level(r, b, now) <= Level(r, b, mid) + Refill(r, now - mid) && Level(r, b, mid) <= r.capacity
  {
    var r, b := RateOf(key), KeyBucket(Answered(ops), key);
    AfterIsSound(r, Full(r), Times(ops, key));
    if Times(ops, key) == [] {
      FullStaysFull(r, mid);
      FullStaysFull(r, now);
      RefillAdds(r, now - mid, 0.0);
    } else {
      RunTracks(ops, mid);
      IdealProjects(Answered(ops), key);
      assert Tended(key, b, mid);
      LevelGrows(r, b, mid, now);
      LevelIsSound(r, b, mid);
    }
  }

  lemma FullStaysFull(r: Rate, now: real)
    requires r.Valid()
    ensures Level(r, Full(r), now) == r.capacity
  {
    RefillAdds(r, Elapsed(Full(r), now), 0.0);
  }

  lemma RequestCovers(r: Rate, b: Bucket, now: real, spent: nat, budget: real, span: real)
    requires Sound(r, b) && Covered(r, spent, Level(r, b, now), budget, span)
    ensures var (b', ok) := Request(r, b, now);
            Covered(r, spent + if ok then 1 else 0, Level(r, b', now), budget, span)
  {
  }

  lemma LaterCovers(r: Rate, spent: nat, before: real, after: real, budget: real, mid: real, now: real, since: real)
    requires r.Valid() && Covered(r, spent, before, budget, mid - since) && after <= before + Refill(r, now - mid)
    ensures Covered(r, spent, after, budget, now - since)
  {
    RefillAdds(r, mid - since, now - mid);
  }

  // Counted from any moment `since`, what a key has been admitted and what its bucket still
  // holds is covered by its capacity and the time gone by.
  lemma {:induction false} LimiterSpends(ops: seq<Op>, key: Budget, lo: nat, since: real, now: real)
    requires Upto(ops, now) && lo <= |ops| && since <= now && (lo < |ops| ==> since <= ops[lo].at)
    ensures Balanced(ops, key, lo, since, now)
  {
    if lo == |ops| {
      KeyLevelGrows(ops, key, now, now);
      RefillAdds(RateOf(key), now - since, 0.0);
    } else {
      FirstIsEarliest(ops, lo, now);
      var prior, op := ops[..|ops| - 1], ops[|ops| - 1];
      LimiterSpends(prior, key, lo, since, op.at);
      LimiterSpendsAt(prior, op, key, lo, since);
      assert ops == prior + [op];
      BalancedLater(ops, key, lo, since, op.at, now);
    }
  }

  lemma BalancedLater(ops: seq<Op>, key: Budget, lo: nat, since: real, mid: real, now: real)
    requires lo <= |ops| && Upto(ops, mid) && mid <= now && Balanced(ops, key, lo, since, mid)
    ensures Balanced(ops, key, lo, since, now)
  {
    KeyLevelGrows(ops, key, mid, now);
    LaterCovers(RateOf(key), Oks(ops, key, lo), Level(RateOf(key), KeyBucket(Answered(ops), key), mid),
                Level(RateOf(key), KeyBucket(Answered(ops), key), now), RateOf(key).capacity, mid, now, since);
  }

  lemma OksStep(prior: seq<Op>, op: Op, key: Budget, lo: nat)
    requires lo <= |prior|
    ensures Oks(prior + [op], key, lo) ==
            Oks(prior, key, lo) +
            if IsAnswered(prior, op) && op.key == key && Reply(prior, key, op.at).Ok? then 1 else 0
  {
    assert (prior + [op])[..|prior|] == prior;
  }

  // Whether an account balances for a key at a moment: its bucket as it then is.
  predicate Balanced(ops: seq<Op>, key: Budget, lo: nat, since: real, at: real) {
    Covered(RateOf(key), Oks(ops, key, lo), Level(RateOf(key), KeyBucket(Answered(ops), key), at), RateOf(key).capacity,
        at - since)
  }

  lemma LimiterSpendsAt(prior: seq<Op>, op: Op, key: Budget, lo: nat, since: real)
    requires lo <= |prior| && Upto(prior, op.at) && Balanced(prior, key, lo, since, op.at)
    ensures Balanced(prior + [op], key, lo, since, op.at)
  {
    var hit := IsAnswered(prior, op) && op.key == key;
    var ok := hit && Reply(prior, key, op.at).Ok?;
    KeyStep(prior, op, key);
    OksStep(prior, op, key, lo);
    BalancedNext(prior, prior + [op], key, lo, since, op.at, hit, ok);
  }

  lemma BalancedNext(ops: seq<Op>, ops': seq<Op>, key: Budget, lo: nat, since: real, at: real, hit: bool, ok: bool)
    requires lo <= |ops| && lo <= |ops'| && Balanced(ops, key, lo, since, at)
    requires Oks(ops', key, lo) == Oks(ops, key, lo) + if ok then 1 else 0
    requires Sound(RateOf(key), KeyBucket(Answered(ops), key))
    requires if hit then (KeyBucket(Answered(ops'), key), ok) == Request(RateOf(key), KeyBucket(Answered(ops), key), at)
             else KeyBucket(Answered(ops'), key) == KeyBucket(Answered(ops), key) && !ok
    ensures Balanced(ops', key, lo, since, at)
  {
    StepCovers(RateOf(key), KeyBucket(Answered(ops), key), KeyBucket(Answered(ops'), key), at, Oks(ops, key, lo),
               RateOf(key).capacity, at - since, hit, ok);
  }

  lemma StepCovers(r: Rate, b: Bucket, b': Bucket, now: real, spent: nat, budget: real, span: real, hit: bool, ok: bool)
    requires Sound(r, b) && Covered(r, spent, Level(r, b, now), budget, span)
    requires if hit then (b', ok) == Request(r, b, now) else b' == b && !ok
    ensures Covered(r, spent + if ok then 1 else 0, Level(r, b', now), budget, span)
  {
    if hit {
      RequestCovers(r, b, now, spent, budget, span);
    }
  }

  // What one operation does to a key's bucket.
  lemma KeyStep(prior: seq<Op>, op: Op, key: Budget)
    requires Upto(prior, op.at)
    ensures var b, b' := KeyBucket(Answered(prior), key), KeyBucket(Answered(prior + [op]), key);
            && Sound(RateOf(key), b)
            && if IsAnswered(prior, op) && op.key == key
               then (b', Reply(prior, key, op.at).Ok?) == Request(RateOf(key), b, op.at)
               else b' == b
  {
    var r := RateOf(key);
    AfterIsSound(r, Full(r), Times(prior, key));
    TimesStep(prior, op, key);
    if IsAnswered(prior, op) && op.key == key {
      AnswerIsOwn(prior, key, op.at);
      AdmittedAppend(r, Full(r), Times(prior, key), op.at);
    }
  }

  // The capacity, and a sixtieth of it for each second.
  function Allowance(key: Budget, span: real): real {
    RateOf(key).capacity + span * (RateOf(key).capacity / 60.0)
  }

  // In any stretch of a run a key is admitted at most what the time of the stretch allows.
  lemma {:induction false} LimiterWindow(ops: seq<Op>, key: Budget, lo: nat, now: real)
    requires Upto(ops, now) && lo < |ops|
    ensures Oks(ops, key, lo) as real <= Allowance(key, now - ops[lo].at)
  {
    FirstIsEarliest(ops, lo, now);
    OksAreAllowed(ops, key, lo, ops[lo].at, now);
  }

  lemma {:induction false} OksAreAllowed(ops: seq<Op>, key: Budget, lo: nat, since: real, now: real)
    requires Upto(ops, now) && lo <= |ops| && since <= now && (lo < |ops| ==> since <= ops[lo].at)
    ensures Oks(ops, key, lo) as real <= Allowance(key, now - since)
  {
    LimiterSpends(ops, key, lo, since, now);
    KeyLevelGrows(ops, key, now, now);
    LevelIsSound(RateOf(key), KeyBucket(Answered(ops), key), now);
    CoveredBounds(key, Oks(ops, key, lo), Level(RateOf(key), KeyBucket(Answered(ops), key), now), now - since);
  }

  lemma CoveredBounds(key: Budget, spent: nat, left: real, span: real)
    requires Covered(RateOf(key), spent, left, RateOf(key).capacity, span) && 0.0 <= left
    ensures spent as real <= Allowance(key, span)
  {
  }

  lemma RoomAllowance(id: string, span: real)
    ensures Allowance(Room(id), span) == 20.0 + span / 3.0
  {
  }

  lemma ConnectionAllowance(ip: string, span: real)
    ensures Allowance(Connection(ip), span) == 30.0 + span / 2.0
  {
  }

  lemma CreationAllowance(ip: string, span: real)
    ensures Allowance(Creation(ip), span) == 5.0 + span / 12.0
  {
  }

  // ---------- Retry times ----------

  predicate Elsewhere(ops: seq<Op>, key: Budget) {
    forall op | op in ops :: op.CheckOp? ==> op.key != key
  }

  lemma {:induction false} ElsewhereKeepsTimes(prior: seq<Op>, ops: seq<Op>, key: Budget)
    requires Elsewhere(ops, key)
    ensures Times(prior + ops, key) == Times(prior, key)
  {
    if ops == [] {
      assert prior + ops == prior;
    } else {
      var n := |ops| - 1;
      ElsewhereKeepsTimes(prior, ops[..n], key);
      assert prior + ops == (prior + ops[..n]) + [ops[n]];
      TimesStep(prior + ops[..n], ops[n], key);
    }
  }

  // How long a client can be told to wait: at most the time one token takes, rounded up.
  lemma RetryIsShort(key: Budget, tokens: real)
    requires 0.0 <= tokens < 1.0
    ensures 1 <= RetryAfter(key, tokens) <= Ceil(60.0 / RateOf(key).capacity) <= 12
  {
    var rate := RateOf(key);
    var wait, most := (1.0 - tokens) / rate.perSec, 60.0 / rate.capacity;
    assert rate.capacity == 30.0 || rate.capacity == 5.0 || rate.capacity == 20.0;
    assert wait <= most;
  }

  // A check limited to `n` seconds, followed by anything at all on other keys: while another
  // check of the key comes less than a whole second short of the `n` it is limited again,
  // and once they have passed it is not. Nor is it ever turned away as `Unavailable` inside
  // `IDLE_TTL`, and `n` is far inside it.
  lemma {:induction false} RetryTimeIsExact(prior: seq<Op>, key: Budget, at: real, n: nat, between: seq<Op>,
                                            later: real)
    requires Reply(prior, key, at) == Limited(n)
    requires Upto(prior + [CheckOp(key, at)] + between, later) && Upto(prior, at) && at <= later
             && Elsewhere(between, key)
    ensures 1 <= n <= Ceil(60.0 / RateOf(key).capacity) <= 12
    ensures var again := Reply(prior + [CheckOp(key, at)] + between, key, later);
            && (later <= at + (n - 1) as real ==> again.Limited?)
            && (at + n as real <= later ==> !again.Limited?)
            && (later < at + IDLE_TTL ==> again != Unavailable)
  {
    var limited := prior + [CheckOp(key, at)];
    var all := limited + between;
    TimesStep(prior, CheckOp(key, at), key);
    ElsewhereKeepsTimes(limited, between, key);
    EvictionIsUnobservable(prior, key, at);
    IdealReplyProjects(Answered(prior), key, at);
    EvictionIsUnobservable(all, key, later);
    IdealReplyProjects(Answered(all), key, later);
    AdmittedAppend(RateOf(key), Full(RateOf(key)), Times(prior, key), at);
    AfterIsSound(RateOf(key), Full(RateOf(key)), Times(limited, key));
    var left := KeyBucket(Answered(all), key);
    assert left == Request(RateOf(key), KeyBucket(Answered(prior), key), at).0;
    RetryIsShort(key, left.tokens);
    WaitIsExact(key, left, at, n, later);
    StillRecent(all, key, at, later);
  }

  lemma WaitIsExact(key: Budget, left: Bucket, at: real, n: nat, later: real)
    requires 0.0 <= left.tokens < 1.0 && left.updated == at <= later && n == RetryAfter(key, left.tokens)
    ensures later <= at + (n - 1) as real ==> !Request(RateOf(key), left, later).1
    ensures at + n as real <= later ==> Request(RateOf(key), left, later).1
  {
    var span := later - at;
    RefillAdds(RateOf(key), span, (n - 1) as real - span);
    RefillAdds(RateOf(key), n as real, span - n as real);
  }

  lemma StillRecent(ops: seq<Op>, key: Budget, at: real, later: real)
    requires Upto(ops, later) && Times(ops, key) != []
    requires KeyBucket(Answered(ops), key).updated == at
    ensures later < at + IDLE_TTL ==> Reply(ops, key, later) != Unavailable
  {
    IdealProjects(Answered(ops), key);
    AnsweredInOrder(ops, later);
    RecentMeans(Answered(ops), key, later, later);
    UnavailableExactly(ops, key, later);
  }
}
