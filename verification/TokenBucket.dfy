/**
 The token bucket behind both limiters, over real tokens and real seconds: it refills
 continuously up to its capacity, and admitting a request takes one token.
 */
module TokenBucket {
  import opened Sequences

  datatype Rate = Rate(capacity: real, perSec: real) {
    predicate Valid() {
      1.0 <= capacity && 0.0 < perSec
    }
  }

  datatype Bucket = Bucket(tokens: real, updated: real)

  function Min(a: real, b: real): real {
    if a <= b then a else b
  }

  // A clock that reads earlier than the last update counts as no time passed.
  function Elapsed(b: Bucket, now: real): real {
    if b.updated < now then now - b.updated else 0.0
  }

  // What a stretch of time puts back.
  function Refill(r: Rate, span: real): real {
    span * r.perSec
  }

  function Level(r: Rate, b: Bucket, now: real): real {
    Min(b.tokens + Refill(r, Elapsed(b, now)), r.capacity)
  }

  // The bucket after a request, and whether it was admitted.
  function Request(r: Rate, b: Bucket, now: real): (Bucket, bool) {
    var level := Level(r, b, now);
    if level < 1.0 then (Bucket(level, now), false) else (Bucket(level - 1.0, now), true)
  }

  function Full(r: Rate): Bucket {
    Bucket(r.capacity, 0.0)
  }

  // Ends are met: never negative, never over capacity.
  predicate Sound(r: Rate, b: Bucket) {
    0.0 <= b.tokens <= r.capacity
  }

  lemma RefillAdds(r: Rate, a: real, b: real)
    requires r.Valid()
    ensures Refill(r, a + b) == Refill(r, a) + Refill(r, b)
    ensures 0.0 <= a ==> 0.0 <= Refill(r, a)
    ensures 0.0 <= b ==> 0.0 <= Refill(r, b)
  {
  }

  lemma LevelIsSound(r: Rate, b: Bucket, now: real)
    requires r.Valid() && Sound(r, b)
    ensures b.tokens <= Level(r, b, now) <= r.capacity
    ensures Sound(r, Request(r, b, now).0)
  {
    RefillAdds(r, Elapsed(b, now), 0.0);
  }

  // Looking at the level on the way changes nothing later.
  lemma LevelComposes(r: Rate, b: Bucket, mid: real, now: real)
    requires r.Valid() && Sound(r, b) && b.updated <= mid <= now
    ensures Level(r, Bucket(Level(r, b, mid), mid), now) == Level(r, b, now)
  {
    RefillAdds(r, mid - b.updated, now - mid);
  }

  // Time adds at most its own worth of tokens, and takes none away.
  lemma LevelGrows(r: Rate, b: Bucket, mid: real, now: real)
    requires r.Valid() && Sound(r, b) && b.updated <= mid <= now
    ensures Level(r, b, mid) <= Level(r, b, now) <= Level(r, b, mid) + Refill(r, now - mid)
  {
    RefillAdds(r, mid - b.updated, now - mid);
  }

  // ---------- Schedules ----------

  predicate Timely(times: seq<real>) {
    forall i, j :: 0 <= i < j < |times| ==> times[i] <= times[j]
  }

  function CountTrue(choices: seq<bool>): nat {
    if choices == [] then 0 else CountTrue(choices[..|choices| - 1]) + if choices[|choices| - 1] then 1 else 0
  }

  lemma CountAppend(choices: seq<bool>, c: bool)
    ensures CountTrue(choices + [c]) == CountTrue(choices) + if c then 1 else 0
  {
    assert (choices + [c])[..|choices|] == choices;
  }

  // The bucket after a schedule of requests, and which of them it admitted.
  function After(r: Rate, b: Bucket, times: seq<real>): Bucket {
    if times == [] then b else Request(r, After(r, b, times[..|times| - 1]), times[|times| - 1]).0
  }

  function Admitted(r: Rate, b: Bucket, times: seq<real>): (choices: seq<bool>)
    ensures |choices| == |times|
  {
    if times == [] then []
    else
      var n := |times| - 1;
      Admitted(r, b, times[..n]) + [Request(r, After(r, b, times[..n]), times[n]).1]
  }

  lemma AdmittedAppend(r: Rate, b: Bucket, times: seq<real>, t: real)
    ensures After(r, b, times + [t]) == Request(r, After(r, b, times), t).0
    ensures Admitted(r, b, times + [t]) == Admitted(r, b, times) + [Request(r, After(r, b, times), t).1]
  {
    assert (times + [t])[..|times|] == times;
  }

  // A schedule may be cut in two and taken up where it was left.
  lemma {:induction false} AdmittedConcat(r: Rate, b: Bucket, first: seq<real>, second: seq<real>)
    ensures After(r, b, first + second) == After(r, After(r, b, first), second)
    ensures Admitted(r, b, first + second) == Admitted(r, b, first) + Admitted(r, After(r, b, first), second)
  {
    if second == [] {
      assert first + second == first;
    } else {
      var n := |second| - 1;
      AdmittedConcat(r, b, first, second[..n]);
      ConcatNext(r, b, first, second[..n], second[n]);
      assert second[..n] + [second[n]] == second;
    }
  }

  lemma ConcatNext(r: Rate, b: Bucket, first: seq<real>, second: seq<real>, t: real)
    requires After(r, b, first + second) == After(r, After(r, b, first), second)
    requires Admitted(r, b, first + second) == Admitted(r, b, first) + Admitted(r, After(r, b, first), second)
    ensures var here := After(r, b, first);
            && After(r, b, first + (second + [t])) == After(r, here, second + [t])
            && Admitted(r, b, first + (second + [t])) == Admitted(r, b, first) + Admitted(r, here, second + [t])
  {
    var here, choices := After(r, b, first), Admitted(r, After(r, b, first), second);
    Regroup(first, second, [t]);
    AdmittedAppend(r, b, first + second, t);
    AdmittedAppend(r, here, second, t);
    Regroup(Admitted(r, b, first), choices, [Request(r, After(r, here, second), t).1]);
  }

  lemma {:induction false} AfterIsSound(r: Rate, b: Bucket, times: seq<real>)
    requires r.Valid() && Sound(r, b)
    ensures Sound(r, After(r, b, times))
    ensures times != [] ==> After(r, b, times).updated == times[|times| - 1]
  {
    if times != [] {
      AfterIsSound(r, b, times[..|times| - 1]);
      LevelIsSound(r, After(r, b, times[..|times| - 1]), times[|times| - 1]);
    }
  }

  // ---------- Greedy is optimal ----------

  // Another policy admits what it likes from the same refilling bucket.
  function PolicyAfter(r: Rate, b: Bucket, times: seq<real>, choices: seq<bool>): Bucket
    requires |choices| == |times|
  {
    if times == [] then b
    else
      var n := |times| - 1;
      Bucket(Level(r, PolicyAfter(r, b, times[..n], choices[..n]), times[n]) - if choices[n] then 1.0
          else 0.0, times[n])
  }

  // It never overdraws the bucket.
  predicate Solvent(r: Rate, b: Bucket, times: seq<real>, choices: seq<bool>)
    requires |choices| == |times|
  {
    times == [] ||
    (var n := |times| - 1;
     Solvent(r, b, times[..n], choices[..n]) && 0.0 <= PolicyAfter(r, b, times, choices).tokens)
  }

  // The exchange argument: whatever the policy's bucket is ahead of the greedy one is paid
  // for by requests the greedy bucket has admitted and the policy has not.
  lemma {:induction false} GreedyStaysAhead(r: Rate, b: Bucket, times: seq<real>, choices: seq<bool>)
    requires r.Valid() && |choices| == |times| && Solvent(r, b, times, choices)
    ensures CountTrue(choices) <= CountTrue(Admitted(r, b, times))
    ensures PolicyAfter(r, b, times, choices).tokens - After(r, b, times).tokens <=
            (CountTrue(Admitted(r, b, times)) - CountTrue(choices)) as real
    ensures PolicyAfter(r, b, times, choices).updated == After(r, b, times).updated
  {
    if times != [] {
      var n := |times| - 1;
      GreedyStaysAhead(r, b, times[..n], choices[..n]);
      var greedy := Admitted(r, b, times[..n]);
      CountAppend(greedy, Request(r, After(r, b, times[..n]), times[n]).1);
      assert choices == choices[..n] + [choices[n]];
      CountAppend(choices[..n], choices[n]);
      ExchangeStep(r, PolicyAfter(r, b, times[..n], choices[..n]), After(r, b, times[..n]), times[n],
                   CountTrue(greedy) - CountTrue(choices[..n]));
    }
  }

  lemma ExchangeStep(r: Rate, policy: Bucket, greedy: Bucket, now: real, slack: nat)
    requires policy.updated == greedy.updated && policy.tokens - greedy.tokens <= slack as real
    ensures Level(r, policy, now) - Level(r, greedy, now) <= slack as real
    ensures Level(r, policy, now) >= 1.0 && Level(r, greedy, now) < 1.0 ==> slack >= 1
  {
  }

  lemma {:induction false} PrefixSolvent(r: Rate, b: Bucket, times: seq<real>, choices: seq<bool>, n: nat)
    requires |choices| == |times| && Solvent(r, b, times, choices) && n <= |times|
    ensures Solvent(r, b, times[..n], choices[..n])
  {
    if n == |times| {
      assert times[..n] == times && choices[..n] == choices;
    } else {
      var m := |times| - 1;
      PrefixSolvent(r, b, times[..m], choices[..m], n);
      assert times[..m][..n] == times[..n] && choices[..m][..n] == choices[..n];
    }
  }

  // For every schedule and after every prefix of it, no policy that keeps the bucket
  // non-negative has admitted more.
  lemma {:induction false} GreedyIsOptimal(r: Rate, b: Bucket, times: seq<real>, choices: seq<bool>, n: nat)
    requires r.Valid() && |choices| == |times| && Solvent(r, b, times, choices) && n <= |times|
    ensures CountTrue(choices[..n]) <= CountTrue(Admitted(r, b, times)[..n])
  {
    PrefixSolvent(r, b, times, choices, n);
    AdmittedConcat(r, b, times[..n], times[n..]);
    assert times[..n] + times[n..] == times;
    assert Admitted(r, b, times)[..n] == Admitted(r, b, times[..n]);
    GreedyStaysAhead(r, b, times[..n], choices[..n]);
  }

  // And the bucket's own choices are such a policy.
  lemma {:induction false} GreedyIsSolvent(r: Rate, b: Bucket, times: seq<real>)
    requires r.Valid() && Sound(r, b)
    ensures Solvent(r, b, times, Admitted(r, b, times))
            && PolicyAfter(r, b, times, Admitted(r, b, times)) == After(r, b, times)
  {
    if times != [] {
      var n := |times| - 1;
      GreedyIsSolvent(r, b, times[..n]);
      AfterIsSound(r, b, times);
      assert Admitted(r, b, times)[..n] == Admitted(r, b, times[..n]);
    }
  }

  // ---------- Rejected requests leave no trace ----------

  // Two buckets that show the same level from some moment on.
  predicate Alike(r: Rate, a: Bucket, b: Bucket, since: real) {
    Sound(r, a) && Sound(r, b) && a.updated <= since && b.updated <= since && Level(r, a, since) == Level(r, b, since)
  }

  lemma AlikeLater(r: Rate, a: Bucket, b: Bucket, since: real, now: real)
    requires r.Valid() && Alike(r, a, b, since) && since <= now
    ensures Alike(r, a, b, now) && Request(r, a, now) == Request(r, b, now)
  {
    LevelComposes(r, a, since, now);
    LevelComposes(r, b, since, now);
  }

  lemma {:induction false} AlikeAnswerAlike(r: Rate, a: Bucket, b: Bucket, since: real, times: seq<real>)
    requires r.Valid() && Alike(r, a, b, since) && Timely(times) && (times != [] ==> since <= times[0])
    ensures Admitted(r, a, times) == Admitted(r, b, times)
    ensures Alike(r, After(r, a, times), After(r, b, times), if times == [] then since else times[|times| - 1])
  {
    if times != [] {
      var n := |times| - 1;
      AlikeAnswerAlike(r, a, b, since, times[..n]);
      AlikeLater(r, After(r, a, times[..n]), After(r, b, times[..n]), if n == 0 then since else times[n - 1], times[n]);
      AfterIsSound(r, a, times);
      AfterIsSound(r, b, times);
    }
  }

  lemma TimelyParts(first: seq<real>, t: real, rest: seq<real>)
    requires Timely(first + [t] + rest)
    ensures Timely(first) && Timely(rest)
    ensures first != [] ==> first[|first| - 1] <= t
    ensures rest != [] ==> t <= rest[0]
  {
    var all := first + [t] + rest;
    assert forall i :: 0 <= i < |first| ==> all[i] == first[i];
    assert all[|first|] == t;
    assert forall i :: 0 <= i < |rest| ==> all[|first| + 1 + i] == rest[i];
  }

  // Putting a request that is rejected into a schedule, anywhere, changes no other answer:
  // the answers before it and after it are those of the schedule without it.
  lemma {:induction false} RejectedLeavesNoTrace(r: Rate, b: Bucket, first: seq<real>, t: real, rest: seq<real>)
    requires r.Valid() && Sound(r, b) && Timely(first + [t] + rest) && b.updated <= (first + [t])[0]
    requires !Request(r, After(r, b, first), t).1
    ensures var earlier, later := Admitted(r, b, first), Admitted(r, After(r, b, first), rest);
            && Admitted(r, b, (first + [t]) + rest) == (earlier + [false]) + later
            && Admitted(r, b, first + rest) == earlier + later
  {
    var here := After(r, b, first);
    TimelyParts(first, t, rest);
    AfterIsSound(r, b, first);
    RejectionIsAlike(r, here, t);
    AdmittedAppend(r, b, first, t);
    AdmittedConcat(r, b, first + [t], rest);
    AdmittedConcat(r, b, first, rest);
    AlikeAnswerAlike(r, Request(r, here, t).0, here, t, rest);
  }

  lemma RejectionIsAlike(r: Rate, b: Bucket, t: real)
    requires r.Valid() && Sound(r, b) && b.updated <= t && !Request(r, b, t).1
    ensures Alike(r, Request(r, b, t).0, b, t)
  {
    LevelIsSound(r, b, t);
    LevelComposes(r, b, t, t);
  }

  // ---------- How many in a window ----------

  lemma SpendingStep(r: Rate, b: Bucket, mid: real, now: real, since: real, spent: nat, budget: real)
    requires r.Valid() && Sound(r, b) && b.updated <= mid <= now
    requires Covered(r, spent, Level(r, b, mid), budget, mid - since)
    ensures var (b', ok) := Request(r, b, now); Covered(r, spent + if ok then 1 else 0, b'.tokens, budget, now - since)
  {
    LevelGrows(r, b, mid, now);
    RefillAdds(r, mid - since, now - mid);
  }

  lemma LevelNow(r: Rate, b: Bucket)
    requires Sound(r, b)
    ensures Level(r, b, b.updated) == b.tokens
  {
  }

  // Within `budget` tokens and what `span` seconds refill.
  predicate Covered(r: Rate, spent: nat, left: real, budget: real, span: real) {
    spent as real + left <= budget + Refill(r, span)
  }

  lemma Spent(r: Rate, b: Bucket, prior: seq<real>, t: real)
    ensures var (b', ok) := Request(r, After(r, b, prior), t);
            && After(r, b, prior + [t]) == b'
            && CountTrue(Admitted(r, b, prior + [t])) == CountTrue(Admitted(r, b, prior)) + if ok then 1 else 0
  {
    AdmittedAppend(r, b, prior, t);
    CountAppend(Admitted(r, b, prior), Request(r, After(r, b, prior), t).1);
  }

  // From any moment on, the requests admitted number at most what the bucket then holds
  // plus what the time since refills.
  lemma {:induction false} SpendingBound(r: Rate, b: Bucket, since: real, prior: seq<real>, t: real)
    requires r.Valid() && Sound(r, b) && b.updated <= since && Timely(prior + [t]) && since <= (prior + [t])[0]
    ensures Covered(r, CountTrue(Admitted(r, b, prior + [t])), After(r, b, prior + [t]).tokens, Level(r, b, since),
            t - since)
  {
    Spent(r, b, prior, t);
    if prior == [] {
      SpendingStep(r, b, since, t, since, 0, Level(r, b, since));
    } else {
      var n := |prior| - 1;
      var mid := prior[n];
      TimelyParts(prior, t, []);
      assert prior + [t] + [] == prior + [t];
      assert prior == prior[..n] + [mid];
      SpendingBound(r, b, since, prior[..n], mid);
      AfterIsSound(r, b, prior);
      LevelNow(r, After(r, b, prior));
      SpendingStep(r, After(r, b, prior), mid, t, since, CountTrue(Admitted(r, b, prior)), Level(r, b, since));
    }
  }

  // The answers to a stretch of a schedule are those of the bucket found at its start.
  lemma StretchAnswers(r: Rate, b: Bucket, times: seq<real>, lo: nat, hi: nat)
    requires lo <= hi <= |times|
    ensures Admitted(r, b, times)[lo..hi] == Admitted(r, After(r, b, times[..lo]), times[lo..hi])
  {
    AdmittedConcat(r, b, times[..lo], times[lo..hi]);
    AdmittedConcat(r, b, times[..hi], times[hi..]);
    assert times[..lo] + times[lo..hi] == times[..hi];
    assert times[..hi] + times[hi..] == times;
  }

  // Any stretch of a schedule admits at most the capacity plus what the time between its
  // first and its last request refills.
  lemma {:induction false} WindowBound(r: Rate, b: Bucket, times: seq<real>, lo: nat, hi: nat)
    requires r.Valid() && Sound(r, b) && Timely(times) && lo < hi <= |times| && b.updated <= times[0]
    ensures CountTrue(Admitted(r, b, times)[lo..hi]) as real <= r.capacity + Refill(r, times[hi - 1] - times[lo])
  {
    StretchAnswers(r, b, times, lo, hi);
    ReadyAt(r, b, times, lo);
    StretchCovered(r, After(r, b, times[..lo]), times, lo, hi);
  }

  lemma {:induction false} StretchCovered(r: Rate, here: Bucket, times: seq<real>, lo: nat, hi: nat)
    requires r.Valid() && Sound(r, here) && Timely(times) && lo < hi <= |times| && here.updated <= times[lo]
    ensures CountTrue(Admitted(r, here, times[lo..hi])) as real <= r.capacity + Refill(r, times[hi - 1] - times[lo])
  {
    var window, since, t := times[lo..hi - 1], times[lo], times[hi - 1];
    assert times[lo..hi] == window + [t] && Timely(window + [t]) && since <= (window + [t])[0] by {
      LastOfStretch(times, lo, hi);
    }
    StretchBound(r, here, since, window, t);
  }

  lemma ReadyAt(r: Rate, b: Bucket, times: seq<real>, lo: nat)
    requires r.Valid() && Sound(r, b) && Timely(times) && lo < |times| && b.updated <= times[0]
    ensures Sound(r, After(r, b, times[..lo])) && After(r, b, times[..lo]).updated <= times[lo]
  {
    AfterIsSound(r, b, times[..lo]);
    if lo > 0 {
      assert times[lo - 1] <= times[lo];
    }
  }

  lemma LastOfStretch(times: seq<real>, lo: nat, hi: nat)
    requires lo < hi <= |times|
    ensures times[lo..hi] == times[lo..hi - 1] + [times[hi - 1]]
    ensures times[lo..hi][0] == times[lo]
    ensures Timely(times) ==> Timely(times[lo..hi])
  {
  }

  lemma StretchBound(r: Rate, b: Bucket, since: real, prior: seq<real>, t: real)
    requires r.Valid() && Sound(r, b) && b.updated <= since && Timely(prior + [t]) && since <= (prior + [t])[0]
    ensures CountTrue(Admitted(r, b, prior + [t])) as real <= r.capacity + Refill(r, t - since)
  {
    SpendingBound(r, b, since, prior, t);
    AfterIsSound(r, b, prior + [t]);
  }
}
