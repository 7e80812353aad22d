/** The retry sequence of `runRetry` under the assumed contract of `backoff.Retry`: the
    operation is called at once, then again after each wait the policy grants, until it
    succeeds or the policy stops.  Times are natural numbers of any unit. */
module Retry {
  import opened GoErrors

  /** The policy: a positive `maxElapsed` ends the sequence before a wait that would exceed
      it, zero never does; `interval(i)` is the wait drawn after attempt `i`. */
  datatype Backoff = Backoff(maxElapsed: nat, interval: nat -> nat)

  /** What the handler does when called again: the result and duration of each attempt. */
  datatype Attempts = Attempts(result: nat -> Option<Error>, duration: nat -> nat)

  /** Time since the sequence began when attempt `i` returns. */
  function Elapsed(b: Backoff, a: Attempts, i: nat): nat {
    if i == 0 then a.duration(0) else Elapsed(b, a, i - 1) + b.interval(i - 1) + a.duration(i)
  }

  predicate GivesUp(b: Backoff, a: Attempts, i: nat) {
    b.maxElapsed != 0 && Elapsed(b, a, i) + b.interval(i) > b.maxElapsed
  }

  /** The sequence stops with attempt `i`, if it gets that far. */
  predicate Stops(b: Backoff, a: Attempts, i: nat) {
    a.result(i).None? || GivesUp(b, a, i)
  }

  ghost predicate FirstStop(b: Backoff, a: Attempts, i: nat) {
    Stops(b, a, i) && forall j: nat :: j < i ==> !Stops(b, a, j)
  }

  ghost predicate Ends(b: Backoff, a: Attempts) {
    exists i: nat :: Stops(b, a, i)
  }

  lemma {:induction false} LeastStop(b: Backoff, a: Attempts, i: nat) returns (first: nat)
    requires Stops(b, a, i)
    ensures first <= i && FirstStop(b, a, first)
    decreases i
  {
    if j: nat :| j < i && Stops(b, a, j) {
      first := LeastStop(b, a, j);
    } else {
      first := i;
    }
  }

  /** The last attempt of a sequence that ends. */
  ghost function LastAttempt(b: Backoff, a: Attempts): (i: nat)
    requires Ends(b, a)
    ensures FirstStop(b, a, i)
  {
    var i: nat :| Stops(b, a, i);
    assert exists j: nat :: FirstStop(b, a, j) by {
      var first := LeastStop(b, a, i);
    }
    var j: nat :| FirstStop(b, a, j);
    j
  }

  lemma {:induction false} ElapsedGrows(b: Backoff, a: Attempts, wait: nat, i: nat)
    requires forall j: nat :: b.interval(j) >= wait
    ensures Elapsed(b, a, i) >= i * wait
    decreases i
  {
    if i > 0 {
      ElapsedGrows(b, a, wait, i - 1);
    }
  }

  /** A positive `maxElapsed` and a positive shortest wait bound the retries by the quotient
      of the two plus one, whatever the handler does. */
  lemma RetriesAreBounded(b: Backoff, a: Attempts, wait: nat)
    requires b.maxElapsed > 0 && wait > 0
    requires forall j: nat :: b.interval(j) >= wait
    ensures Ends(b, a)
    ensures LastAttempt(b, a) + 1 <= b.maxElapsed / wait + 1
  {
    var i := b.maxElapsed / wait;
    ElapsedGrows(b, a, wait, i);
    assert i * wait + wait > b.maxElapsed;
    assert Stops(b, a, i);
  }

  /** Without a `maxElapsed` the sequence ends exactly when some attempt succeeds: with a
      handler that keeps failing it goes on for ever. */
  lemma UnboundedRetries(b: Backoff, a: Attempts)
    requires b.maxElapsed == 0
    ensures Ends(b, a) <==> exists i: nat :: a.result(i) == None
    ensures Ends(b, a) ==> a.result(LastAttempt(b, a)) == None
  {
    if i: nat :| a.result(i) == None {
      assert Stops(b, a, i);
    }
    if i: nat :| Stops(b, a, i) {
      assert a.result(i) == None;
    }
  }

  /** A sequence that ends succeeds exactly when an attempt does before the policy stops. */
  lemma RetrySucceeds(b: Backoff, a: Attempts)
    requires Ends(b, a)
    ensures a.result(LastAttempt(b, a)) == None <==>
            exists i: nat :: a.result(i) == None && forall j: nat :: j < i ==> !GivesUp(b, a, j)
  {
    var last := LastAttempt(b, a);
    if i: nat :| a.result(i) == None && forall j: nat :: j < i ==> !GivesUp(b, a, j) {
      assert Stops(b, a, i) && last <= i;
    }
    if a.result(last) == None {
      forall j: nat | j < last
        ensures !GivesUp(b, a, j)
      {
        assert !Stops(b, a, j);
      }
    }
  }

  // ----- The time a sequence takes, written as sums -----

  function SumOf(f: nat -> nat, n: nat): nat {
    if n == 0 then 0 else SumOf(f, n - 1) + f(n - 1)
  }

  /** The durations of attempts 0 to `i` and the waits after each of them. */
  function Spent(b: Backoff, a: Attempts, i: nat): nat {
    SumOf(a.duration, i + 1) + SumOf(b.interval, i + 1)
  }

  lemma {:induction false} ElapsedIsSpent(b: Backoff, a: Attempts, i: nat)
    ensures Elapsed(b, a, i) + b.interval(i) == Spent(b, a, i)
    decreases i
  {
    if i > 0 {
      ElapsedIsSpent(b, a, i - 1);
    } else {
      assert SumOf(a.duration, 1) == SumOf(a.duration, 0) + a.duration(0);
      assert SumOf(b.interval, 1) == SumOf(b.interval, 0) + b.interval(0);
    }
  }

  /** Exactly when a sequence goes on: the attempt failed, and its time with the next wait stays
      within a limit, if there is one.  The last attempt is the first after which it does not. */
  lemma LastAttemptIsExact(b: Backoff, a: Attempts, i: nat)
    ensures (Ends(b, a) && LastAttempt(b, a) == i) <==>
            && (a.result(i) == None || (b.maxElapsed > 0 && Spent(b, a, i) > b.maxElapsed))
            && forall j: nat :: j < i ==>
                 a.result(j) != None && (b.maxElapsed > 0 ==> Spent(b, a, j) <= b.maxElapsed)
  {
    forall j: nat
      ensures Elapsed(b, a, j) + b.interval(j) == Spent(b, a, j)
    {
      ElapsedIsSpent(b, a, j);
    }
    assert Stops(b, a, i) <==> a.result(i) == None || (b.maxElapsed > 0 && Spent(b, a, i) > b.maxElapsed);
    forall j: nat | j < i
      ensures !Stops(b, a, j) <==>
              a.result(j) != None && (b.maxElapsed > 0 ==> Spent(b, a, j) <= b.maxElapsed)
    {
    }
    if FirstStop(b, a, i) {
      var last := LastAttempt(b, a);
      assert Stops(b, a, last) && !(last < i) && !(i < last);
    }
  }

  lemma {:induction false} SumAtMost(f: nat -> nat, most: nat, n: nat)
    requires forall j: nat :: f(j) <= most
    ensures SumOf(f, n) <= n * most
    decreases n
  {
    if n > 0 {
      SumAtMost(f, most, n - 1);
    }
  }

  lemma SpentAtMost(b: Backoff, a: Attempts, wait: nat, duration: nat, i: nat)
    requires forall j: nat :: b.interval(j) <= wait
    requires forall j: nat :: a.duration(j) <= duration
    ensures Spent(b, a, i) <= (i + 1) * (wait + duration)
  {
    SumAtMost(a.duration, duration, i + 1);
    SumAtMost(b.interval, wait, i + 1);
    assert (i + 1) * (wait + duration) == (i + 1) * duration + (i + 1) * wait;
  }

  lemma Times(x: nat, y: nat, k: nat)
    requires x <= y
    ensures x * k <= y * k
  {
  }

  /** An attempt that comes in time is made: with waits of at most `wait` and durations of at
      most `duration`, if attempt `i` succeeds and that many of both fit into the limit, the
      sequence ends with a success, at that attempt or an earlier one. */
  lemma SuccessInTime(b: Backoff, a: Attempts, wait: nat, duration: nat, i: nat)
    requires forall j: nat :: b.interval(j) <= wait
    requires forall j: nat :: a.duration(j) <= duration
    requires a.result(i) == None
    requires b.maxElapsed == 0 || i * (wait + duration) <= b.maxElapsed
    ensures Ends(b, a) && LastAttempt(b, a) <= i
    ensures a.result(LastAttempt(b, a)) == None
  {
    assert Stops(b, a, i);
    var last := LastAttempt(b, a);
    LastAttemptIsExact(b, a, last);
    if last < i {
      SpentAtMost(b, a, wait, duration, last);
      Times(last + 1, i, wait + duration);
    }
  }

  /** A sequence that ends in failure took more than its limit, counting the wait it did not
      make, so it was long: with waits of at most `wait` and durations of at most `duration` it
      made more attempts than fit. */
  lemma FailureTookTooLong(b: Backoff, a: Attempts, wait: nat, duration: nat)
    requires Ends(b, a) && a.result(LastAttempt(b, a)) != None
    requires forall j: nat :: b.interval(j) <= wait
    requires forall j: nat :: a.duration(j) <= duration
    ensures 0 < b.maxElapsed < Spent(b, a, LastAttempt(b, a))
    ensures (LastAttempt(b, a) + 1) * (wait + duration) > b.maxElapsed
  {
    var last := LastAttempt(b, a);
    LastAttemptIsExact(b, a, last);
    SpentAtMost(b, a, wait, duration, last);
  }
}
