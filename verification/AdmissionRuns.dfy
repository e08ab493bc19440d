/**
 Whole runs of the admission limiter, checks and timer maintenance in any order, held against
 an ideal limiter that keeps every bucket for ever.
 */
module AdmissionRuns {
  import opened TokenBucket
  import opened AdmissionModel

  datatype Op = CheckOp(key: Budget, at: real) | MaintainOp(at: real)

  datatype Ask = Ask(key: Budget, at: real)

  // Times never decrease, and none is after `now`.
  predicate Upto(ops: seq<Op>, now: real) {
    ops == [] || (ops[|ops| - 1].at <= now && Upto(ops[..|ops| - 1], ops[|ops| - 1].at))
  }

  function TableAfter(ops: seq<Op>): Buckets {
    if ops == [] then map[]
    else
      var before := TableAfter(ops[..|ops| - 1]);
      match ops[|ops| - 1]
      case CheckOp(key, at) => Check(before, key, at).0
      case MaintainOp(at) => Retain(before, at)
  }

  // What the limiter answers to a check after these operations.
  function Reply(prior: seq<Op>, key: Budget, at: real): Answer {
    Check(TableAfter(prior), key, at).1
  }

  predicate IsAnswered(prior: seq<Op>, op: Op) {
    op.CheckOp? && Reply(prior, op.key, op.at) != Unavailable
  }

  // The checks of a run that were not turned away as `Unavailable`, and their answers.
  function Answered(ops: seq<Op>): seq<Ask> {
    if ops == [] then []
    else
      var prior, op := ops[..|ops| - 1], ops[|ops| - 1];
      if IsAnswered(prior, op) then Answered(prior) + [Ask(op.key, op.at)] else Answered(prior)
  }

  function Answers(ops: seq<Op>): seq<Answer> {
    if ops == [] then []
    else
      var prior, op := ops[..|ops| - 1], ops[|ops| - 1];
      if IsAnswered(prior, op) then Answers(prior) + [Reply(prior, op.key, op.at)] else Answers(prior)
  }

  // The ideal limiter.
  function IdealTable(asks: seq<Ask>): Buckets {
    if asks == [] then map[]
    else Spend(IdealTable(asks[..|asks| - 1]), asks[|asks| - 1].key, asks[|asks| - 1].at).0
  }

  function IdealReply(prior: seq<Ask>, key: Budget, at: real): Answer {
    Spend(IdealTable(prior), key, at).1
  }

  function IdealAnswers(asks: seq<Ask>): seq<Answer> {
    if asks == [] then []
    else
      var prior, ask := asks[..|asks| - 1], asks[|asks| - 1];
      IdealAnswers(prior) + [IdealReply(prior, ask.key, ask.at)]
  }

  lemma IdealAppend(asks: seq<Ask>, ask: Ask)
    ensures IdealTable(asks + [ask]) == Spend(IdealTable(asks), ask.key, ask.at).0
    ensures IdealAnswers(asks + [ask]) == IdealAnswers(asks) + [IdealReply(asks, ask.key, ask.at)]
  {
    assert (asks + [ask])[..|asks|] == asks;
  }

  // ---------- The simulation ----------

  predicate Tended(key: Budget, bucket: Bucket, now: real) {
    Sound(RateOf(key), bucket) && bucket.updated <= now
  }

  // Every bucket kept is the ideal one; every ideal one not kept has been idle for the
  // whole of `IDLE_TTL`.
  predicate Tracks(table: Buckets, ideal: Buckets, now: real) {
    && (forall key | key in table :: key in ideal && table[key] == ideal[key])
    && (forall key | key in ideal :: Tended(key, ideal[key], now))
    && (forall key | key in ideal :: key in table || IDLE_TTL <= now - ideal[key].updated)
  }

  // A bucket idle that long is full again, which is what a new one would be.
  lemma IdleIsFull(key: Budget, bucket: Bucket, now: real)
    requires Tended(key, bucket, now) && IDLE_TTL <= now - bucket.updated
    ensures Request(RateOf(key), bucket, now) == Request(RateOf(key), Bucket(RateOf(key).capacity, now), now)
  {
    RefillAdds(RateOf(key), 60.0, now - bucket.updated - 60.0);
    RefillAdds(RateOf(key), 0.0, 0.0);
  }

  lemma TracksLater(table: Buckets, ideal: Buckets, before: real, now: real)
    requires Tracks(table, ideal, before) && before <= now
    ensures Tracks(table, ideal, now)
  {
  }

  lemma RetainTracks(table: Buckets, ideal: Buckets, now: real)
    requires Tracks(table, ideal, now)
    ensures Tracks(Retain(table, now), ideal, now)
  {
  }

  lemma SpendIsTended(buckets: Buckets, key: Budget, now: real)
    requires key in buckets ==> Tended(key, buckets[key], now)
    ensures var spent := Spend(buckets, key, now).0; key in spent && Tended(key, spent[key], now)
    ensures Spend(buckets, key, now).0 == buckets[key := Spend(buckets, key, now).0[key]]
  {
    LevelIsSound(RateOf(key), if key in buckets then buckets[key] else Bucket(RateOf(key).capacity, now), now);
  }

  lemma SpendAgrees(table: Buckets, ideal: Buckets, key: Budget, now: real)
    requires Tracks(table, ideal, now)
    ensures Spend(table, key, now).1 == Spend(ideal, key, now).1
    ensures Spend(table, key, now).0[key] == Spend(ideal, key, now).0[key]
  {
    if key !in table && key in ideal {
      IdleIsFull(key, ideal[key], now);
    }
  }

  lemma SpendTracks(table: Buckets, ideal: Buckets, key: Budget, now: real)
    requires Tracks(table, ideal, now)
    ensures Tracks(Spend(table, key, now).0, Spend(ideal, key, now).0, now)
  {
    SpendAgrees(table, ideal, key, now);
    SpendIsTended(table, key, now);
    SpendIsTended(ideal, key, now);
  }

  lemma RelieveTracks(table: Buckets, ideal: Buckets, key: Budget, now: real)
    requires Tracks(table, ideal, now)
    ensures Tracks(Relieve(table, key, now), ideal, now)
  {
    RetainTracks(table, ideal, now);
  }

  // At any moment of a run the table tracks the ideal one, and the answers given are those
  // of the ideal limiter.
  lemma {:induction false} RunTracks(ops: seq<Op>, now: real)
    requires Upto(ops, now)
    ensures Tracks(TableAfter(ops), IdealTable(Answered(ops)), now)
    ensures Answers(ops) == IdealAnswers(Answered(ops))
  {
    if ops != [] {
      var prior, op := ops[..|ops| - 1], ops[|ops| - 1];
      RunTracks(prior, op.at);
      if op.CheckOp? {
        CheckTracks(prior, op.key, op.at);
        IdealAppend(Answered(prior), Ask(op.key, op.at));
      } else {
        RetainTracks(TableAfter(prior), IdealTable(Answered(prior)), op.at);
      }
      TracksLater(TableAfter(ops), IdealTable(Answered(ops)), op.at, now);
    }
  }

  lemma CheckTracks(prior: seq<Op>, key: Budget, now: real)
    requires Tracks(TableAfter(prior), IdealTable(Answered(prior)), now)
    ensures Reply(prior, key, now) == Unavailable ==>
              Tracks(Check(TableAfter(prior), key, now).0, IdealTable(Answered(prior)), now)
    ensures Reply(prior, key, now) != Unavailable ==>
              && Tracks(Check(TableAfter(prior), key, now).0, Spend(IdealTable(Answered(prior)), key, now).0, now)
              && Reply(prior, key, now) == IdealReply(Answered(prior), key, now)
  {
    var table, ideal := TableAfter(prior), IdealTable(Answered(prior));
    RelieveTracks(table, ideal, key, now);
    SpendTracks(Relieve(table, key, now), ideal, key, now);
    SpendAgrees(Relieve(table, key, now), ideal, key, now);
  }

  // ---------- One key at a time ----------

  function KeyTimes(asks: seq<Ask>, key: Budget): seq<real> {
    if asks == [] then []
    else
      var prior, ask := asks[..|asks| - 1], asks[|asks| - 1];
      if ask.key == key then KeyTimes(prior, key) + [ask.at] else KeyTimes(prior, key)
  }

  lemma KeyTimesAppend(asks: seq<Ask>, ask: Ask, key: Budget)
    ensures KeyTimes(asks + [ask], key) == if ask.key == key then KeyTimes(asks, key) + [ask.at]
            else KeyTimes(asks, key)
  {
    assert (asks + [ask])[..|asks|] == asks;
  }

  // A full bucket is the same whenever it is taken up.
  lemma NewIsFull(key: Budget, now: real)
    ensures Request(RateOf(key), Bucket(RateOf(key).capacity, now), now) == Request(RateOf(key), Full(RateOf(key)), now)
  {
    RefillAdds(RateOf(key), Elapsed(Full(RateOf(key)), now), 0.0);
    RefillAdds(RateOf(key), 0.0, 0.0);
  }

  function KeyBucket(asks: seq<Ask>, key: Budget): Bucket {
    After(RateOf(key), Full(RateOf(key)), KeyTimes(asks, key))
  }

  // The ideal bucket of a key is the token bucket run over that key's own checks.
  lemma {:induction false} IdealProjects(asks: seq<Ask>, key: Budget)
    ensures key in IdealTable(asks) <==> KeyTimes(asks, key) != []
    ensures key in IdealTable(asks) ==> IdealTable(asks)[key] == KeyBucket(asks, key)
  {
    if asks != [] {
      var prior, ask := asks[..|asks| - 1], asks[|asks| - 1];
      IdealProjects(prior, key);
      if ask.key == key {
        NewIsFull(key, ask.at);
        AdmittedAppend(RateOf(key), Full(RateOf(key)), KeyTimes(prior, key), ask.at);
      }
    }
  }

  lemma IdealReplyProjects(asks: seq<Ask>, key: Budget, now: real)
    ensures var (spent, admitted) := Request(RateOf(key), KeyBucket(asks, key), now);
            IdealReply(asks, key, now) == if admitted then Ok else Limited(RetryAfter(key, spent.tokens))
  {
    IdealProjects(asks, key);
    NewIsFull(key, now);
  }
}
