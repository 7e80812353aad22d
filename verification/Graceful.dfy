/** `shutdown.Graceful`: every step runs, in order, under one shared deadline. */
module Graceful {
  import opened GoErrors

  /** How a step behaves when started at a time with a deadline: when it returns, and what. */
  datatype Reply = Reply(finish: int, err: Option<Error>)

  type Step = (int, int) -> Reply

  /** The step takes at most `slack` longer than its start or the deadline, whichever is later. */
  ghost predicate Prompt(step: Step, slack: nat) {
    forall start, deadline ::
      start <= step(start, deadline).finish <= (if start > deadline then start else deadline) + slack
  }

  /** When step `n` starts: where the one before it stopped. */
  function StartOf(steps: seq<Step>, n: nat, now: int, deadline: int): int
    requires n <= |steps|
  {
    if n == 0 then now else steps[n - 1](StartOf(steps, n - 1, now, deadline), deadline).finish
  }

  function ErrorOf(steps: seq<Step>, n: nat, now: int, deadline: int): Option<Error>
    requires n < |steps|
  {
    steps[n](StartOf(steps, n, now, deadline), deadline).err
  }

  /** The errors of the first `n` steps, in order. */
  function ErrorsOf(steps: seq<Step>, n: nat, now: int, deadline: int): seq<Error>
    requires n <= |steps|
  {
    if n == 0 then [] else
    var err := ErrorOf(steps, n - 1, now, deadline);
    ErrorsOf(steps, n - 1, now, deadline) + if err.Some? then [err.value] else []
  }

  /** The context's own deadline, when earlier, still holds. */
  function Deadline(now: int, parent: Option<int>, timeout: int): int {
    if parent.Some? && parent.value < now + timeout then parent.value else now + timeout
  }

  /** The deadline is the earlier of the two, and one of them. */
  lemma DeadlineIsTheEarlier(now: int, parent: Option<int>, timeout: int)
    ensures var d := Deadline(now, parent, timeout);
            && d <= now + timeout && (parent.Some? ==> d <= parent.value)
            && (d == now + timeout || (parent.Some? && d == parent.value))
            && (parent.None? ==> d == now + timeout)
  {
  }

  method Graceful(now: int, parent: Option<int>, timeout: int, steps: seq<Step>)
    returns (err: Option<Error>, finish: int)
    ensures finish == StartOf(steps, |steps|, now, Deadline(now, parent, timeout))
    ensures var errs := ErrorsOf(steps, |steps|, now, Deadline(now, parent, timeout));
            err == if errs == [] then None else Some(Join(errs))
  {
    var deadline := Deadline(now, parent, timeout);
    var errs: seq<Error> := [];
    finish := now;
    for i := 0 to |steps|
      invariant finish == StartOf(steps, i, now, deadline)
      invariant errs == ErrorsOf(steps, i, now, deadline)
    {
      var reply := steps[i](finish, deadline);
      finish := reply.finish;
      if reply.err.Some? {
        errs := errs + [reply.err.value];
      }
    }
    err := if errs == [] then None else Some(Join(errs));
  }

  function Sum(slacks: seq<nat>, n: nat): nat
    requires n <= |slacks|
  {
    if n == 0 then 0 else Sum(slacks, n - 1) + slacks[n - 1]
  }

  /** The whole sequence ends by the deadline plus the sum of the slacks, however many steps
      there are and however many of them time out; a step never starts before `now`. */
  lemma {:induction false} FinishIsBounded(
    steps: seq<Step>, slacks: seq<nat>, n: nat, now: int, parent: Option<int>, timeout: nat)
    requires n <= |steps| == |slacks|
    requires forall i :: 0 <= i < |steps| ==> Prompt(steps[i], slacks[i])
    ensures var deadline := Deadline(now, parent, timeout);
            && now <= StartOf(steps, n, now, deadline)
            && StartOf(steps, n, now, deadline) <= (if now > deadline then now else deadline) + Sum(slacks, n)
            && StartOf(steps, n, now, deadline) <= now + timeout + Sum(slacks, n)
    decreases n
  {
    if n > 0 {
      FinishIsBounded(steps, slacks, n - 1, now, parent, timeout);
      assert Prompt(steps[n - 1], slacks[n - 1]);
      var start := StartOf(steps, n - 1, now, Deadline(now, parent, timeout));
      assert steps[n - 1](start, Deadline(now, parent, timeout)).finish == StartOf(steps, n, now, Deadline(now, parent, timeout));
    }
  }

  lemma JoinMatches(errs: seq<Error>, target: Error)
    requires !target.Join?
    ensures Is(Join(errs), target) <==> exists i :: 0 <= i < |errs| && Is(errs[i], target)
  {
  }

  lemma JoinOneMore(errs: seq<Error>, e: Error, target: Error)
    requires !target.Join?
    ensures Is(Join(errs + [e]), target) <==> Is(Join(errs), target) || Is(e, target)
  {
    JoinMatches(errs, target);
    JoinMatches(errs + [e], target);
    assert (errs + [e])[|errs|] == e;
    assert forall i :: 0 <= i < |errs| ==> (errs + [e])[i] == errs[i];
  }

  /** Some step before `n` fails with an error that matches. */
  ghost predicate SomeFailureMatches(steps: seq<Step>, n: nat, now: int, deadline: int, target: Error)
    requires n <= |steps|
  {
    exists i :: 0 <= i < n && ErrorOf(steps, i, now, deadline).Some? &&
                Is(ErrorOf(steps, i, now, deadline).value, target)
  }

  lemma OneMoreStep(steps: seq<Step>, n: nat, now: int, deadline: int, target: Error)
    requires n < |steps|
    ensures var e := ErrorOf(steps, n, now, deadline);
            SomeFailureMatches(steps, n + 1, now, deadline, target) <==>
            SomeFailureMatches(steps, n, now, deadline, target) || (e.Some? && Is(e.value, target))
  {
  }

  /** The result is nil exactly when every step succeeds. */
  lemma {:induction false} NilWhenAllSucceed(steps: seq<Step>, n: nat, now: int, deadline: int)
    requires n <= |steps|
    ensures ErrorsOf(steps, n, now, deadline) == [] <==>
            forall i :: 0 <= i < n ==> ErrorOf(steps, i, now, deadline) == None
    decreases n
  {
    if n > 0 {
      NilWhenAllSucceed(steps, n - 1, now, deadline);
    }
  }

  /** Otherwise it matches an error exactly when some failing step's error does. */
  lemma {:induction false} ResultMatches(steps: seq<Step>, n: nat, now: int, deadline: int, target: Error)
    requires n <= |steps| && !target.Join?
    ensures Is(Join(ErrorsOf(steps, n, now, deadline)), target) <==>
            SomeFailureMatches(steps, n, now, deadline, target)
    decreases n
  {
    var errs := ErrorsOf(steps, n, now, deadline);
    if n == 0 {
      JoinMatches(errs, target);
    } else {
      ResultMatches(steps, n - 1, now, deadline, target);
      OneMoreStep(steps, n - 1, now, deadline, target);
      var e := ErrorOf(steps, n - 1, now, deadline);
      if e.Some? {
        JoinOneMore(ErrorsOf(steps, n - 1, now, deadline), e.value, target);
      } else {
        assert errs == ErrorsOf(steps, n - 1, now, deadline);
      }
    }
  }

  /** How many of the first `n` steps failed. */
  function Failures(steps: seq<Step>, n: nat, now: int, deadline: int): nat
    requires n <= |steps|
  {
    if n == 0 then 0
    else Failures(steps, n - 1, now, deadline) + if ErrorOf(steps, n - 1, now, deadline).Some? then 1 else 0
  }

  lemma {:induction false} ErrorsAreCounted(steps: seq<Step>, n: nat, now: int, deadline: int)
    requires n <= |steps|
    ensures |ErrorsOf(steps, n, now, deadline)| == Failures(steps, n, now, deadline)
    decreases n
  {
    if n > 0 {
      ErrorsAreCounted(steps, n - 1, now, deadline);
    }
  }

  /** The joined errors are those of the failing steps, each once, in the order of the steps. */
  lemma {:induction false} ErrorsKeepOrder(steps: seq<Step>, i: nat, n: nat, now: int, deadline: int)
    requires i < n <= |steps|
    ensures |ErrorsOf(steps, n, now, deadline)| == Failures(steps, n, now, deadline)
    ensures ErrorOf(steps, i, now, deadline).Some? ==>
              && Failures(steps, i, now, deadline) < Failures(steps, n, now, deadline)
              && ErrorsOf(steps, n, now, deadline)[Failures(steps, i, now, deadline)] ==
                 ErrorOf(steps, i, now, deadline).value
    decreases n
  {
    if i < n - 1 {
      ErrorsKeepOrder(steps, i, n - 1, now, deadline);
    } else {
      ErrorsAreCounted(steps, n - 1, now, deadline);
    }
  }

  /** One after the other: a step starts no earlier than any before it has returned. */
  lemma {:induction false} StepsRunInOrder(
    steps: seq<Step>, slacks: seq<nat>, i: nat, j: nat, now: int, deadline: int)
    requires i < j <= |steps| == |slacks|
    requires forall k :: 0 <= k < |steps| ==> Prompt(steps[k], slacks[k])
    ensures steps[i](StartOf(steps, i, now, deadline), deadline).finish <= StartOf(steps, j, now, deadline)
    decreases j
  {
    if i < j - 1 {
      StepsRunInOrder(steps, slacks, i, j - 1, now, deadline);
      assert Prompt(steps[j - 1], slacks[j - 1]);
    }
  }

  /** All share the one deadline: what steps do under any other one makes no difference. */
  lemma {:induction false} SharedDeadline(steps: seq<Step>, others: seq<Step>, n: nat, now: int, deadline: int)
    requires n <= |steps| == |others|
    requires forall i, start :: 0 <= i < |steps| ==> steps[i](start, deadline) == others[i](start, deadline)
    ensures StartOf(steps, n, now, deadline) == StartOf(others, n, now, deadline)
    ensures ErrorsOf(steps, n, now, deadline) == ErrorsOf(others, n, now, deadline)
    decreases n
  {
    if n > 0 {
      SharedDeadline(steps, others, n - 1, now, deadline);
    }
  }
}
