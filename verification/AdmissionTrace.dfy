/**
 Whether an extra check that is rejected leaves a trace in the bounded limiter. It takes no
 token, but it keeps its own key among the recent ones, and so can take the last place in
 the table from a key that is new. Until that happens every later answer is what it would
 have been; from then on the two runs have answered different checks, and anything follows.
 */
module AdmissionTrace {
  import opened Sequences
  import opened TokenBucket
  import opened AdmissionModel
  import opened AdmissionRuns
  import opened AdmissionTheorems

  // The table is one short of full without the rejected check's key, that check is recent
  // enough to count, and the key asking is new.
  predicate TakesLastPlace(recent: set<Budget>, rejected: Ask, key: Budget, now: real) {
    && |recent| == MAX_BUCKETS - 1 && rejected.key !in recent && now - rejected.at < IDLE_TTL
    && key !in recent && key != rejected.key
  }

  lemma RecentWith(first: seq<Ask>, rejected: Ask, rest: seq<Ask>, now: real)
    ensures Recent(first + [rejected] + rest, now) ==
            Recent(first + rest, now) + if now - rejected.at < IDLE_TTL then {rejected.key} else {}
  {
    var extended, without := first + [rejected] + rest, first + rest;
    assert forall ask :: ask in extended <==> ask in without || ask == rejected;
  }

  predicate ShutOut(recent: set<Budget>, key: Budget) {
    key !in recent && |recent| == MAX_BUCKETS
  }

  // The recent keys once the rejected check is counted too.
  function Including(recent: set<Budget>, rejected: Ask, now: real): set<Budget> {
    recent + if now - rejected.at < IDLE_TTL then {rejected.key} else {}
  }

  lemma ShutOutByOne(recent: set<Budget>, rejected: Ask, key: Budget, now: real)
    requires |recent| <= MAX_BUCKETS && |Including(recent, rejected, now)| <= MAX_BUCKETS
    ensures var recent' := Including(recent, rejected, now);
            && (ShutOut(recent, key) ==> ShutOut(recent', key))
            && (ShutOut(recent', key) && !ShutOut(recent, key) <==> TakesLastPlace(recent, rejected, key, now))
  {
    if rejected.key in recent {
      assert recent + {rejected.key} == recent;
    }
    assert recent + {} == recent;
  }

  lemma ReplyIs(ops: seq<Op>, asks: seq<Ask>, key: Budget, now: real)
    requires Upto(ops, now) && Answered(ops) == asks
    ensures Reply(ops, key, now) == if ShutOut(Recent(asks, now), key) then Unavailable else IdealReply(asks, key, now)
    ensures IdealReply(asks, key, now) != Unavailable && |Recent(asks, now)| <= MAX_BUCKETS
  {
    UnavailableExactly(ops, key, now);
    EvictionIsUnobservable(ops, key, now);
    RecentIsBounded(ops, now);
  }

  // Of two runs whose answered checks differ in one, a rejected one, both answer the next
  // check alike unless the rejected one takes the last place; and then the run that has it
  // answers `Unavailable` and the other does not.
  lemma {:induction false} NextReplyExactly(ops: seq<Op>, ops': seq<Op>, first: seq<Ask>, rejected: Ask, rest: seq<Ask>,
                                            key: Budget, now: real)
    requires Upto(ops, now) && Upto(ops', now)
    requires Answered(ops) == first + rest && Answered(ops') == first + [rejected] + rest
    requires InOrder(first, rejected.at) && IdealReply(first, rejected.key, rejected.at).Limited?
    ensures Reply(ops', key, now) == Reply(ops, key, now) <==>
            !TakesLastPlace(Recent(first + rest, now), rejected, key, now)
    ensures Reply(ops', key, now) != Reply(ops, key, now) ==> Reply(ops', key, now) == Unavailable
  {
    AnsweredInOrder(ops', now);
    RepliesCompare(ops, ops', first, rejected, rest, key, now);
  }

  lemma {:induction false} RepliesCompare(ops: seq<Op>, ops': seq<Op>, first: seq<Ask>, rejected: Ask, rest: seq<Ask>,
                                          key: Budget, now: real)
    requires Upto(ops, now) && Upto(ops', now)
    requires Answered(ops) == first + rest && Answered(ops') == first + [rejected] + rest
    requires InOrder(first, rejected.at) && IdealReply(first, rejected.key, rejected.at).Limited?
    requires InOrder(first + [rejected] + rest, now)
    ensures var reply, reply' := Reply(ops, key, now), Reply(ops', key, now);
            && (reply' == reply <==> !TakesLastPlace(Recent(first + rest, now), rejected, key, now))
            && (reply' != reply ==> reply' == Unavailable)
  {
    RejectedCheckLeavesNoTrace(first, rejected, rest, key, now);
    ReplyIs(ops, first + rest, key, now);
    ReplyIs(ops', first + [rejected] + rest, key, now);
    RecentWith(first, rejected, rest, now);
    ShutOutByOne(Recent(first + rest, now), rejected, key, now);
  }

  lemma RecentIsBounded(ops: seq<Op>, now: real)
    requires Upto(ops, now)
    ensures |Recent(Answered(ops), now)| <= MAX_BUCKETS
  {
    RetainedAreRecent(ops, now);
    TableIsBounded(ops);
    AdmissionControl.RetainShrinks(TableAfter(ops), now);
    assert |Retain(TableAfter(ops), now).Keys| == |Retain(TableAfter(ops), now)|;
  }

  // ---------- A rejected check put into a run ----------

  // The n-th operation after the insertion is answered the same without it and with it.
  predicate SameReply(pre: seq<Op>, extra: Op, post: seq<Op>, n: nat)
    requires n < |post|
  {
    post[n].CheckOp? ==>
      Reply(pre + [extra] + post[..n], post[n].key, post[n].at) == Reply(pre + post[..n], post[n].key, post[n].at)
  }

  // The n-th operation after it is a check of a new key that finds the last place taken.
  predicate Squeezed(pre: seq<Op>, extra: Op, post: seq<Op>, n: nat)
    requires n < |post| && extra.CheckOp?
  {
    && post[n].CheckOp?
    && TakesLastPlace(Recent(Answered(pre + post[..n]), post[n].at), Ask(extra.key, extra.at), post[n].key, post[n].at)
  }

  lemma AnsweredStep(prior: seq<Op>, op: Op)
    ensures Answered(prior + [op]) == if IsAnswered(prior, op) then Answered(prior) + [Ask(op.key, op.at)]
            else Answered(prior)
  {
    assert (prior + [op])[..|prior|] == prior;
  }

  // As long as all replies agree, the runs have answered the same checks, the extra one aside.
  lemma {:induction false} AgreementSoFar(pre: seq<Op>, extra: Op, post: seq<Op>, n: nat) returns (rest: seq<Ask>)
    requires extra.CheckOp? && Reply(pre, extra.key, extra.at).Limited? && n <= |post|
    requires forall m: nat :: m < n ==> SameReply(pre, extra, post, m)
    ensures Answered(pre + post[..n]) == Answered(pre) + rest
    ensures Answered(pre + [extra] + post[..n]) == Answered(pre) + [Ask(extra.key, extra.at)] + rest
  {
    if n == 0 {
      rest := [];
      assert pre + post[..0] == pre && pre + [extra] + post[..0] == pre + [extra];
      AnsweredStep(pre, extra);
    } else {
      var op := post[n - 1];
      var shorter := AgreementSoFar(pre, extra, post, n - 1);
      TakeNext(post, n - 1);
      Regroup(pre, post[..n - 1], [op]);
      Regroup(pre + [extra], post[..n - 1], [op]);
      assert SameReply(pre, extra, post, n - 1);
      rest := AgreementNext(pre + post[..n - 1], pre + [extra] + post[..n - 1], op, Answered(pre),
        Answered(pre) + [Ask(extra.key, extra.at)], shorter);
    }
  }

  lemma AgreementNext(ops: seq<Op>, others: seq<Op>, op: Op, base: seq<Ask>, base': seq<Ask>, shorter: seq<Ask>)
    returns (rest: seq<Ask>)
    requires Answered(ops) == base + shorter && Answered(others) == base' + shorter
    requires op.CheckOp? ==> Reply(ops, op.key, op.at) == Reply(others, op.key, op.at)
    ensures Answered(ops + [op]) == base + rest && Answered(others + [op]) == base' + rest
  {
    AnsweredStep(ops, op);
    AnsweredStep(others, op);
    if IsAnswered(ops, op) {
      rest := shorter + [Ask(op.key, op.at)];
      Regroup(base, shorter, [Ask(op.key, op.at)]);
      Regroup(base', shorter, [Ask(op.key, op.at)]);
    } else {
      rest := shorter;
    }
  }

  lemma UptoAppend(ops: seq<Op>, op: Op, now: real)
    ensures Upto(ops + [op], now) <==> Upto(ops, op.at) && op.at <= now
  {
    assert (ops + [op])[..|ops|] == ops;
  }

  // Both runs are in order up to any operation after the insertion.
  lemma {:induction false} UptoThere(pre: seq<Op>, extra: Op, post: seq<Op>, n: nat, now: real)
    requires Upto(pre + [extra] + post, now) && n <= |post|
    ensures var at := if n < |post| then post[n].at else now;
            Upto(pre + [extra] + post[..n], at) && Upto(pre + post[..n], at) && extra.at <= at && Upto(pre, extra.at)
    decreases |post| - n
  {
    var at := if n < |post| then post[n].at else now;
    if n == |post| {
      assert post[..n] == post;
    } else {
      UptoThere(pre, extra, post, n + 1, now);
      TakeNext(post, n);
      Regroup(pre + [extra], post[..n], [post[n]]);
      UptoAppend(pre + [extra] + post[..n], post[n], if n + 1 < |post| then post[n + 1].at else now);
    }
    UptoWithout(pre, extra, post[..n], at);
  }

  lemma {:induction false} UptoWithout(pre: seq<Op>, extra: Op, post: seq<Op>, now: real)
    requires Upto(pre + [extra] + post, now)
    ensures Upto(pre + post, now) && extra.at <= now && Upto(pre, extra.at)
  {
    if post == [] {
      assert pre + [extra] + post == pre + [extra] && pre + post == pre;
      UptoAppend(pre, extra, now);
      UptoLater(pre, extra.at, now);
    } else {
      var n := |post| - 1;
      TakeNext(post, n);
      assert post[..n + 1] == post;
      Regroup(pre + [extra], post[..n], [post[n]]);
      Regroup(pre, post[..n], [post[n]]);
      UptoAppend(pre + [extra] + post[..n], post[n], now);
      UptoWithout(pre, extra, post[..n], post[n].at);
      UptoAppend(pre + post[..n], post[n], now);
    }
  }

  lemma {:induction false} UptoLater(ops: seq<Op>, before: real, now: real)
    requires Upto(ops, before) && before <= now
    ensures Upto(ops, now)
  {
  }

  // Where all replies have agreed so far, the next one differs exactly if it is squeezed out,
  // and it is the run with the extra check that answers `Unavailable`.
  lemma FirstDifference(pre: seq<Op>, extra: Op, post: seq<Op>, n: nat, now: real)
    requires Upto(pre + [extra] + post, now) && n < |post|
    requires extra.CheckOp? && Reply(pre, extra.key, extra.at).Limited?
    requires forall m: nat :: m < n ==> SameReply(pre, extra, post, m)
    ensures SameReply(pre, extra, post, n) <==> !Squeezed(pre, extra, post, n)
    ensures !SameReply(pre, extra, post, n) ==> Reply(pre + [extra] + post[..n], post[n].key, post[n].at) == Unavailable
  {
    if post[n].CheckOp? {
      UptoThere(pre, extra, post, n, now);
      AnsweredInOrder(pre, extra.at);
      EvictionIsUnobservable(pre, extra.key, extra.at);
      var rest := AgreementSoFar(pre, extra, post, n);
      NextReplyExactly(pre + post[..n], pre + [extra] + post[..n], Answered(pre), Ask(extra.key, extra.at), rest,
                       post[n].key, post[n].at);
    }
  }

  // Put a check that is rejected anywhere into any run: every later reply, to any key, stays
  // what it was exactly if no later check is squeezed out of the last place by it.
  lemma {:induction false} NoTraceExactly(pre: seq<Op>, extra: Op, post: seq<Op>, now: real)
    requires Upto(pre + [extra] + post, now)
    requires extra.CheckOp? && Reply(pre, extra.key, extra.at).Limited?
    ensures (forall n: nat :: n < |post| ==> SameReply(pre, extra, post, n)) <==>
            (forall n: nat :: n < |post| ==> !Squeezed(pre, extra, post, n))
  {
    if forall n: nat :: n < |post| ==> SameReply(pre, extra, post, n) {
      forall n: nat | n < |post| ensures !Squeezed(pre, extra, post, n) {
        FirstDifference(pre, extra, post, n, now);
      }
    }
    if forall n: nat :: n < |post| ==> !Squeezed(pre, extra, post, n) {
      forall n: nat | n < |post| ensures SameReply(pre, extra, post, n) {
        SameUpTo(pre, extra, post, n, now);
      }
    }
  }

  lemma {:induction false} SameUpTo(pre: seq<Op>, extra: Op, post: seq<Op>, n: nat, now: real)
    requires Upto(pre + [extra] + post, now) && n < |post|
    requires extra.CheckOp? && Reply(pre, extra.key, extra.at).Limited?
    requires forall m: nat :: m < |post| ==> !Squeezed(pre, extra, post, m)
    ensures SameReply(pre, extra, post, n)
  {
    forall m: nat | m < n ensures SameReply(pre, extra, post, m) {
      SameUpTo(pre, extra, post, m, now);
    }
    FirstDifference(pre, extra, post, n, now);
  }

  // ---------- Anything else put into a run ----------

  lemma {:induction false} SameAnswered(pre: seq<Op>, extra: Op, post: seq<Op>, n: nat, now: real)
    requires Upto(pre + [extra] + post, now) && !IsAnswered(pre, extra) && n <= |post|
    ensures Answered(pre + [extra] + post[..n]) == Answered(pre + post[..n])
  {
    if n == 0 {
      assert pre + post[..0] == pre && pre + [extra] + post[..0] == pre + [extra];
      AnsweredStep(pre, extra);
    } else {
      var op := post[n - 1];
      SameAnswered(pre, extra, post, n - 1, now);
      SameNext(pre, extra, post, n - 1, now);
      TakeNext(post, n - 1);
      Regroup(pre, post[..n - 1], [op]);
      Regroup(pre + [extra], post[..n - 1], [op]);
      AnsweredStep(pre + post[..n - 1], op);
      AnsweredStep(pre + [extra] + post[..n - 1], op);
    }
  }

  // The same answered checks make for the same reply.
  lemma {:induction false} SameNext(pre: seq<Op>, extra: Op, post: seq<Op>, n: nat, now: real)
    requires Upto(pre + [extra] + post, now) && n < |post|
    requires Answered(pre + [extra] + post[..n]) == Answered(pre + post[..n])
    ensures SameReply(pre, extra, post, n)
  {
    if post[n].CheckOp? {
      UptoThere(pre, extra, post, n, now);
      ReplyIs(pre + post[..n], Answered(pre + post[..n]), post[n].key, post[n].at);
      ReplyIs(pre + [extra] + post[..n], Answered(pre + post[..n]), post[n].key, post[n].at);
    }
  }

  // Maintenance, and a check turned away as `Unavailable`, put anywhere into any run, change
  // no later reply to any key.
  lemma {:induction false} UnansweredLeavesNoTrace(pre: seq<Op>, extra: Op, post: seq<Op>, n: nat, now: real)
    requires Upto(pre + [extra] + post, now) && n < |post|
    requires extra.MaintainOp? || Reply(pre, extra.key, extra.at) == Unavailable
    ensures SameReply(pre, extra, post, n)
  {
    SameAnswered(pre, extra, post, n, now);
    SameNext(pre, extra, post, n, now);
  }

  // ---------- A run in which it does ----------

  function Name(i: nat): (name: string)
    ensures |name| == i
  {
    seq(i, _ => 'x')
  }

  function Names(n: nat): set<Budget> {
    if n == 0 then {} else Names(n - 1) + {Room(Name(n - 1))}
  }

  lemma {:induction false} NamesCount(n: nat)
    ensures |Names(n)| == n
    ensures forall key :: key in Names(n) ==> key.Room? && |key.id| < n
  {
    if n > 0 {
      NamesCount(n - 1);
      assert Room(Name(n - 1)) !in Names(n - 1);
    }
  }

  const SPENDER := Creation("")

  // A creation budget asked `n` times at time 0, and then `n` rooms at time 100.
  function Spending(n: nat): seq<Op> {
    if n == 0 then [] else Spending(n - 1) + [CheckOp(SPENDER, 0.0)]
  }

  function Spendings(n: nat): seq<Ask> {
    if n == 0 then [] else Spendings(n - 1) + [Ask(SPENDER, 0.0)]
  }

  function Filled(ops: seq<Op>, n: nat): seq<Op> {
    if n == 0 then ops else Filled(ops, n - 1) + [CheckOp(Room(Name(n - 1)), 100.0)]
  }

  function Fill(n: nat): seq<Ask> {
    if n == 0 then [] else Fill(n - 1) + [Ask(Room(Name(n - 1)), 100.0)]
  }

  lemma AnsweredNext(prior: seq<Op>, key: Budget, at: real)
    requires Upto(prior, at)
    ensures Upto(prior + [CheckOp(key, at)], at)
    ensures |Recent(Answered(prior), at)| < MAX_BUCKETS ==>
              Answered(prior + [CheckOp(key, at)]) == Answered(prior) + [Ask(key, at)]
  {
    var ops := prior + [CheckOp(key, at)];
    assert ops[..|prior|] == prior && ops[|ops| - 1] == CheckOp(key, at);
    UnavailableExactly(prior, key, at);
  }

  lemma FewRecent(asks: seq<Ask>, only: Budget, now: real)
    requires forall ask :: ask in asks ==> ask.key == only
    ensures |Recent(asks, now)| < MAX_BUCKETS
  {
    assert Recent(asks, now) <= {only};
    AdmissionControl.FewerKeys(Recent(asks, now), {only});
  }

  lemma SpendOnce(prior: seq<Op>, at: real)
    requires Upto(prior, at) && forall ask :: ask in Answered(prior) ==> ask.key == SPENDER
    ensures Upto(prior + [CheckOp(SPENDER, at)], at)
    ensures Answered(prior + [CheckOp(SPENDER, at)]) == Answered(prior) + [Ask(SPENDER, at)]
  {
    FewRecent(Answered(prior), SPENDER, at);
    AnsweredNext(prior, SPENDER, at);
  }

  lemma {:induction false} SpendingsAre(n: nat)
    ensures forall ask :: ask in Spendings(n) ==> ask == Ask(SPENDER, 0.0)
  {
    if n > 0 {
      SpendingsAre(n - 1);
    }
  }

  lemma {:induction false} SpendingAnswers(n: nat)
    ensures Upto(Spending(n), 0.0) && Answered(Spending(n)) == Spendings(n)
  {
    if n > 0 {
      var prior := Spending(n - 1);
      SpendingAnswers(n - 1);
      SpendingsAre(n - 1);
      SpendOnce(prior, 0.0);
      assert Spending(n) == prior + [CheckOp(SPENDER, 0.0)];
    }
  }

  // One more check at once takes one more token.
  lemma IdealSpend(asks: seq<Ask>, tokens: real)
    requires if asks == [] then tokens == 5.0
             else SPENDER in IdealTable(asks) && IdealTable(asks)[SPENDER] == Bucket(tokens, 0.0)
    requires 1.0 <= tokens <= 5.0 && InOrder(asks, 0.0)
    ensures var more := asks + [Ask(SPENDER, 0.0)];
            SPENDER in IdealTable(more) && IdealTable(more)[SPENDER] == Bucket(tokens - 1.0, 0.0) && InOrder(more, 0.0)
                && more != []
  {
    IdealAppend(asks, Ask(SPENDER, 0.0));
    assert (asks + [Ask(SPENDER, 0.0)])[..|asks|] == asks;
  }

  lemma {:induction false} SpendingEmpties(n: nat)
    requires 0 < n <= 5
    ensures Spendings(n) != [] && SPENDER in IdealTable(Spendings(n))
    ensures IdealTable(Spendings(n))[SPENDER] == Bucket(5.0 - n as real, 0.0) && InOrder(Spendings(n), 0.0)
  {
    var prior := Spendings(n - 1);
    if n > 1 {
      SpendingEmpties(n - 1);
    }
    IdealSpend(prior, 6.0 - n as real);
    assert Spendings(n) == prior + [Ask(SPENDER, 0.0)];
  }

  // The spender's bucket is empty after five, and a second later it still is short.
  lemma SpentIsLimited()
    ensures IdealReply(Spendings(5), SPENDER, 1.0).Limited? && InOrder(Spendings(5), 1.0)
  {
    SpendingEmpties(5);
    InOrderLater(Spendings(5), 0.0, 1.0);
    assert IdealTable(Spendings(5))[SPENDER] == Bucket(0.0, 0.0);
    assert Refill(RateOf(SPENDER), 1.0) < 1.0;
  }

  lemma {:induction false} FilledAnswers(ops: seq<Op>, n: nat)
    requires Upto(ops, 100.0) && n < MAX_BUCKETS && forall ask :: ask in Answered(ops) ==> ask.key == SPENDER
    ensures Upto(Filled(ops, n), 100.0) && Answered(Filled(ops, n)) == Answered(ops) + Fill(n)
  {
    if n == 0 {
      assert Answered(ops) + [] == Answered(ops);
    } else {
      FilledAnswers(ops, n - 1);
      var asks, ask := Answered(ops) + Fill(n - 1), Ask(Room(Name(n - 1)), 100.0);
      RecentFill(Answered(ops), n - 1, 100.0);
      RoomLeft(Answered(ops), n - 1, 100.0);
      AnsweredNext(Filled(ops, n - 1), ask.key, 100.0);
      Regroup(Answered(ops), Fill(n - 1), [ask]);
    }
  }

  lemma RoomLeft(asks: seq<Ask>, n: nat, now: real)
    requires n < MAX_BUCKETS - 1 && forall ask :: ask in asks ==> ask.key == SPENDER
    ensures |Recent(asks, now) + Names(n)| < MAX_BUCKETS
  {
    NamesCount(n);
    AdmissionControl.FewerKeys(Recent(asks, now) + Names(n), {SPENDER} + Names(n));
  }

  lemma {:induction false} RecentFill(asks: seq<Ask>, n: nat, now: real)
    requires 100.0 <= now < 700.0
    ensures Recent(asks + Fill(n), now) == Recent(asks, now) + Names(n)
  {
    if n == 0 {
      assert asks + [] == asks;
    } else {
      RecentFill(asks, n - 1, now);
      RecentNext(asks + Fill(n - 1), Ask(Room(Name(n - 1)), 100.0), now);
      Regroup(asks, Fill(n - 1), [Ask(Room(Name(n - 1)), 100.0)]);
    }
  }

  lemma RecentNext(asks: seq<Ask>, ask: Ask, now: real)
    ensures Recent(asks + [ask], now) == Recent(asks, now) + if now - ask.at < IDLE_TTL then {ask.key} else {}
  {
    RecentWith(asks, ask, [], now);
    assert asks + [ask] + [] == asks + [ask] && asks + [] == asks;
  }

  lemma FilledRun(ops: seq<Op>, from: real)
    requires Upto(ops, from) && from <= 100.0 && forall ask :: ask in Answered(ops) ==> ask.key == SPENDER
    ensures Upto(Filled(ops, MAX_BUCKETS - 1), 600.5)
    ensures Answered(Filled(ops, MAX_BUCKETS - 1)) == Answered(ops) + Fill(MAX_BUCKETS - 1)
  {
    UptoLater(ops, from, 100.0);
    FilledAnswers(ops, MAX_BUCKETS - 1);
    UptoLater(Filled(ops, MAX_BUCKETS - 1), 100.0, 600.5);
  }

  lemma {:induction false} FilledIs(ops: seq<Op>, n: nat)
    ensures Filled(ops, n) == ops + Filled([], n)
  {
    if n == 0 {
      assert ops + [] == ops;
    } else {
      FilledIs(ops, n - 1);
      Regroup(ops, Filled([], n - 1), [CheckOp(Room(Name(n - 1)), 100.0)]);
    }
  }

  // The spender's sixth check, a second after five, is limited.
  lemma ExtraIsLimited()
    ensures Upto(Spending(5), 0.0) && Upto(Spending(5) + [CheckOp(SPENDER, 1.0)], 1.0)
    ensures Answered(Spending(5)) == Spendings(5)
    ensures Answered(Spending(5) + [CheckOp(SPENDER, 1.0)]) == Spendings(5) + [Ask(SPENDER, 1.0)]
    ensures Reply(Spending(5), SPENDER, 1.0).Limited? && IdealReply(Spendings(5), SPENDER, 1.0).Limited?
            && InOrder(Spendings(5), 1.0)
  {
    SpendingAnswers(5);
    SpendingsAre(5);
    SpentIsLimited();
    UptoLater(Spending(5), 0.0, 1.0);
    SpendOnce(Spending(5), 1.0);
    FewRecent(Spendings(5), SPENDER, 1.0);
    UnavailableExactly(Spending(5), SPENDER, 1.0);
    EvictionIsUnobservable(Spending(5), SPENDER, 1.0);
  }

  // With 9,999 rooms in the table and one check too many by the spender, a new room is
  // turned away that would have been admitted without it.
  lemma {:induction false} ExtraCheckLeavesTrace()
    ensures var pre, extra, post := Spending(5), CheckOp(SPENDER, 1.0), Filled([], MAX_BUCKETS - 1);
            && Reply(pre, extra.key, extra.at).Limited?
            && Reply(pre + [extra] + post, Room(Name(MAX_BUCKETS - 1)), 600.5) == Unavailable
            && Reply(pre + post, Room(Name(MAX_BUCKETS - 1)), 600.5) != Unavailable
  {
    var n, extra := MAX_BUCKETS - 1, CheckOp(SPENDER, 1.0);
    ExtraIsLimited();
    SpendingsAre(5);
    FilledRun(Spending(5), 0.0);
    FilledRun(Spending(5) + [extra], 1.0);
    LastPlaceTaken();
    NextReplyExactly(Filled(Spending(5), n), Filled(Spending(5) + [extra], n), Spendings(5), Ask(SPENDER, 1.0), Fill(n),
                     Room(Name(n)), 600.5);
    FilledIs(Spending(5), n);
    FilledIs(Spending(5) + [extra], n);
  }

  lemma LastPlaceTaken()
    ensures TakesLastPlace(Recent(Spendings(5) + Fill(MAX_BUCKETS - 1), 600.5), Ask(SPENDER, 1.0),
            Room(Name(MAX_BUCKETS - 1)), 600.5)
  {
    SpendingsAre(5);
    NamesCount(MAX_BUCKETS - 1);
    RecentFill(Spendings(5), MAX_BUCKETS - 1, 600.5);
    assert Recent(Spendings(5), 600.5) == {};
  }

  // ---------- And one in which a bucket answers differently ----------

  const LATECOMER := Creation("k")

  // `n` more checks of the latecomer at 600.5.
  function Knocked(ops: seq<Op>, n: nat): seq<Op> {
    if n == 0 then ops else Knocked(ops, n - 1) + [CheckOp(LATECOMER, 600.5)]
  }

  function Knocks(n: nat): seq<Ask> {
    if n == 0 then [] else Knocks(n - 1) + [Ask(LATECOMER, 600.5)]
  }

  // Into a table with a place left they are all answered.
  lemma {:induction false} KnocksAnswered(ops: seq<Op>, n: nat)
    requires Upto(ops, 600.5) && LATECOMER !in Recent(Answered(ops), 600.5)
             && |Recent(Answered(ops), 600.5)| < MAX_BUCKETS
    ensures Upto(Knocked(ops, n), 600.5) && Answered(Knocked(ops, n)) == Answered(ops) + Knocks(n)
    ensures n > 0 ==> LATECOMER in Recent(Answered(ops) + Knocks(n), 600.5)
  {
    if n == 0 {
      assert Answered(ops) + [] == Answered(ops);
    } else {
      KnocksAnswered(ops, n - 1);
      var prior, ask := Knocked(ops, n - 1), Ask(LATECOMER, 600.5);
      UnavailableExactly(prior, LATECOMER, 600.5);
      AnsweredStep(prior, CheckOp(LATECOMER, 600.5));
      UptoAppend(prior, CheckOp(LATECOMER, 600.5), 600.5);
      Regroup(Answered(ops), Knocks(n - 1), [ask]);
      RecentNext(Answered(ops) + Knocks(n - 1), ask, 600.5);
    }
  }

  // Into a full one, none is.
  lemma {:induction false} KnocksIgnored(ops: seq<Op>, n: nat)
    requires Upto(ops, 600.5) && ShutOut(Recent(Answered(ops), 600.5), LATECOMER)
    ensures Upto(Knocked(ops, n), 600.5) && Answered(Knocked(ops, n)) == Answered(ops)
  {
    if n > 0 {
      KnocksIgnored(ops, n - 1);
      var prior := Knocked(ops, n - 1);
      UnavailableExactly(prior, LATECOMER, 600.5);
      AnsweredStep(prior, CheckOp(LATECOMER, 600.5));
      UptoAppend(prior, CheckOp(LATECOMER, 600.5), 600.5);
    }
  }

  // Five of them empty the latecomer's bucket, and half a second brings too little back.
  lemma {:induction false} KnocksSpend(asks: seq<Ask>, n: nat)
    requires KeyTimes(asks, LATECOMER) == [] && 0 < n <= 5
    ensures KeyBucket(asks + Knocks(n), LATECOMER) == Bucket(5.0 - n as real, 600.5)
  {
    var prior, ask := asks + Knocks(n - 1), Ask(LATECOMER, 600.5);
    if n == 1 {
      assert prior == asks;
      FullStaysFull(RateOf(LATECOMER), 600.5);
    } else {
      KnocksSpend(asks, n - 1);
      RefillAdds(RateOf(LATECOMER), 0.0, 0.0);
    }
    Regroup(asks, Knocks(n - 1), [ask]);
    KeyTimesAppend(prior, ask, LATECOMER);
    AdmittedAppend(RateOf(LATECOMER), Full(RateOf(LATECOMER)), KeyTimes(prior, LATECOMER), 600.5);
  }

  lemma {:induction false} NoTimes(asks: seq<Ask>, key: Budget)
    requires forall ask :: ask in asks ==> ask.key != key
    ensures KeyTimes(asks, key) == []
  {
    if asks != [] {
      NoTimes(asks[..|asks| - 1], key);
      assert asks[|asks| - 1] in asks;
      assert forall ask :: ask in asks[..|asks| - 1] ==> ask in asks;
    }
  }

  lemma {:induction false} FillsAreRooms(n: nat)
    ensures forall ask :: ask in Fill(n) ==> ask.key.Room?
  {
    if n > 0 {
      FillsAreRooms(n - 1);
    }
  }

  lemma SpentBeforeKnocks(asks: seq<Ask>)
    requires forall ask :: ask in asks ==> ask.key == SPENDER
    ensures KeyTimes(asks + Fill(MAX_BUCKETS - 1), LATECOMER) == []
  {
    FillsAreRooms(MAX_BUCKETS - 1);
    NoTimes(asks + Fill(MAX_BUCKETS - 1), LATECOMER);
  }

  // Without the extra check the latecomer is admitted five times, and then limited.
  lemma LatecomerLimited(without: seq<Op>)
    requires Upto(without, 600.5) && Answered(without) == Spendings(5) + Fill(MAX_BUCKETS - 1)
    ensures Reply(Knocked(without, 5), LATECOMER, 601.0).Limited?
  {
    var asks := Spendings(5) + Fill(MAX_BUCKETS - 1);
    SpendingsAre(5);
    NamesCount(MAX_BUCKETS - 1);
    RecentFill(Spendings(5), MAX_BUCKETS - 1, 600.5);
    assert Recent(Spendings(5), 600.5) == {};
    assert Recent(asks, 600.5) == Names(MAX_BUCKETS - 1);
    KnocksAnswered(without, 5);
    SpentBeforeKnocks(Spendings(5));
    KnocksSpend(asks, 5);
    UptoLater(Knocked(without, 5), 600.5, 601.0);
    StillKnocking(asks, 5);
    UnavailableExactly(Knocked(without, 5), LATECOMER, 601.0);
    EvictionIsUnobservable(Knocked(without, 5), LATECOMER, 601.0);
    IdealReplyProjects(asks + Knocks(5), LATECOMER, 601.0);
    assert Refill(RateOf(LATECOMER), 0.5) < 1.0;
  }

  lemma StillKnocking(asks: seq<Ask>, n: nat)
    requires n > 0
    ensures LATECOMER in Recent(asks + Knocks(n), 601.0)
  {
    assert Ask(LATECOMER, 600.5) in asks + Knocks(n);
  }

  lemma SpenderIsRecent(spent: seq<Ask>)
    requires spent == Spendings(5) + [Ask(SPENDER, 1.0)]
    ensures Recent(spent, 600.5) == {SPENDER} && Recent(spent, 601.0) == {}
  {
    SpendingsAre(5);
    RecentNext(Spendings(5), Ask(SPENDER, 1.0), 600.5);
    RecentNext(Spendings(5), Ask(SPENDER, 1.0), 601.0);
    assert Recent(Spendings(5), 600.5) == {} && Recent(Spendings(5), 601.0) == {};
  }

  lemma OneMoreName(n: nat, key: Budget)
    requires !key.Room?
    ensures |{key} + Names(n)| == n + 1
  {
    NamesCount(n);
    assert key !in Names(n);
  }

  // With it the table is full until the spender's last check is old enough.
  lemma RecentExtended(spent: seq<Ask>)
    requires spent == Spendings(5) + [Ask(SPENDER, 1.0)]
    ensures var asks := spent + Fill(MAX_BUCKETS - 1);
            && ShutOut(Recent(asks, 600.5), LATECOMER)
            && LATECOMER !in Recent(asks, 601.0) && |Recent(asks, 601.0)| < MAX_BUCKETS
  {
    SpenderIsRecent(spent);
    NamesCount(MAX_BUCKETS - 1);
    OneMoreName(MAX_BUCKETS - 1, SPENDER);
    RecentFill(spent, MAX_BUCKETS - 1, 600.5);
    RecentFill(spent, MAX_BUCKETS - 1, 601.0);
  }

  // So the latecomer is turned away, and then finds a full bucket.
  lemma LatecomerAdmitted(extended: seq<Op>)
    requires Upto(extended, 600.5) && Answered(extended) == (Spendings(5) + [Ask(SPENDER, 1.0)]) + Fill(MAX_BUCKETS - 1)
    ensures Reply(Knocked(extended, 5), LATECOMER, 601.0) == Ok
  {
    var spent := Spendings(5) + [Ask(SPENDER, 1.0)];
    SpendingsAre(5);
    RecentExtended(spent);
    KnocksIgnored(extended, 5);
    SpentBeforeKnocks(spent);
    UptoLater(Knocked(extended, 5), 600.5, 601.0);
    UnavailableExactly(Knocked(extended, 5), LATECOMER, 601.0);
    EvictionIsUnobservable(Knocked(extended, 5), LATECOMER, 601.0);
    IdealReplyProjects(Answered(extended), LATECOMER, 601.0);
    FullStaysFull(RateOf(LATECOMER), 601.0);
  }

  lemma {:induction false} KnockedIs(ops: seq<Op>, rest: seq<Op>, n: nat)
    ensures Knocked(ops + rest, n) == ops + Knocked(rest, n)
  {
    if n > 0 {
      KnockedIs(ops, rest, n - 1);
      Regroup(ops, Knocked(rest, n - 1), [CheckOp(LATECOMER, 600.5)]);
    }
  }

  // After the same extra check and the same rooms come six checks by a latecomer. Without the
  // extra check the sixth is limited; with it the first five find no place, and the sixth,
  // for which the extra check is too old to count, is admitted.
  lemma {:induction false} ExtraCheckChangesAnswer()
    ensures var pre, extra, post := Spending(5), CheckOp(SPENDER, 1.0), Knocked(Filled([], MAX_BUCKETS - 1), 5);
            && Reply(pre, extra.key, extra.at).Limited?
            && Reply(pre + post, LATECOMER, 601.0).Limited?
            && Reply(pre + [extra] + post, LATECOMER, 601.0) == Ok
  {
    var n, extra := MAX_BUCKETS - 1, CheckOp(SPENDER, 1.0);
    ExtraIsLimited();
    SpendingsAre(5);
    FilledRun(Spending(5), 0.0);
    FilledRun(Spending(5) + [extra], 1.0);
    LatecomerLimited(Filled(Spending(5), n));
    LatecomerAdmitted(Filled(Spending(5) + [extra], n));
    FilledIs(Spending(5), n);
    FilledIs(Spending(5) + [extra], n);
    KnockedIs(Spending(5), Filled([], n), 5);
    KnockedIs(Spending(5) + [extra], Filled([], n), 5);
  }
}
