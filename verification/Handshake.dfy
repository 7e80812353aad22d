/** The shutdown handshake of pkg/stream/consumer: the poll loop, the goroutine a failed loop
    leaves behind (`startingShutdownInternally`), and any number of `Shutdown` callers, over
    three channels of capacity 1 and a wait group.  `Run` is called once. */
module Handshake {
  import opened GoErrors

  /** The poll loop: at the `select`, inside `readMessage`, about to start the goroutine for
      `error`, in `waitGroup.Wait`, about to send on `shutdownFinished`, returned. */
  datatype Loop = Selecting | Reading | Spawning(error: Error) | Waiting | Signalling | Exited

  /** `startingShutdownInternally`: before its send to the listener, before its receive from
      `shutdownStarted`, before its send on `shutdownFinished`, returned. */
  datatype Helper = NotSpawned | Reporting(error: Error) | AwaitingStart | Answering | Done

  /** A `Shutdown` call: before its send, before its receive, before the deferred `Close`. */
  datatype Caller = NotCalled | Announcing | AwaitingFinish | Closing | Closed

  /** `started`, `finished` and `listener` are what the channels hold; `reported` is all that
      was ever sent to the listener, `failure` what `readMessage` returned. */
  datatype State = State(
    started: nat, finished: nat, listener: seq<Error>, waitGroup: int,
    loop: Loop, helper: Helper, callers: seq<Caller>,
    reported: seq<Error>, failure: Option<Error>, closes: nat)

  const CAPACITY := 1

  datatype Step =
    | TakeStart
    | BeginRead
    | ReadReturns(result: Option<Error>)
    | Spawn
    | WaitReturns
    | SignalFinished
    | Report
    | HelperTakesStart
    | HelperSignals
    | Listen
    | Call(i: nat)
    | Announce(i: nat)
    | Release(i: nat)
    | Close(i: nat)

  predicate At(s: State, i: nat, pc: Caller) {
    i < |s.callers| && s.callers[i] == pc
  }

  predicate Enabled(s: State, a: Step) {
    match a
    case TakeStart => s.loop == Selecting && s.started > 0
    case BeginRead => s.loop == Selecting && s.started == 0
    case ReadReturns(_) => s.loop == Reading
    case Spawn => s.loop.Spawning?
    case WaitReturns => s.loop == Waiting && s.waitGroup == 0
    case SignalFinished => s.loop == Signalling && s.finished < CAPACITY
    case Report => s.helper.Reporting? && |s.listener| < CAPACITY
    case HelperTakesStart => s.helper == AwaitingStart && s.started > 0
    case HelperSignals => s.helper == Answering && s.finished < CAPACITY
    case Listen => s.listener != []
    case Call(i) => At(s, i, NotCalled)
    case Announce(i) => At(s, i, Announcing) && s.started < CAPACITY
    case Release(i) => At(s, i, AwaitingFinish) && s.finished > 0
    case Close(i) => At(s, i, Closing)
  }

  function Next(s: State, a: Step): State
    requires Enabled(s, a)
  {
    match a
    case TakeStart => s.(started := s.started - 1, loop := Waiting)
    case BeginRead => s.(waitGroup := s.waitGroup + 1, loop := Reading)
    case ReadReturns(None) => s.(waitGroup := s.waitGroup - 1, loop := Selecting)
    case ReadReturns(Some(e)) => s.(waitGroup := s.waitGroup - 1, loop := Spawning(e), failure := Some(e))
    case Spawn => s.(loop := Exited, helper := Reporting(s.loop.error))
    case WaitReturns => s.(loop := Signalling)
    case SignalFinished => s.(finished := s.finished + 1, loop := Exited)
    case Report =>
      s.(listener := s.listener + [s.helper.error], reported := s.reported + [s.helper.error],
         helper := AwaitingStart)
    case HelperTakesStart => s.(started := s.started - 1, helper := Answering)
    case HelperSignals => s.(finished := s.finished + 1, helper := Done)
    case Listen => s.(listener := s.listener[1..])
    case Call(i) => s.(callers := s.callers[i := Announcing])
    case Announce(i) => s.(started := s.started + 1, callers := s.callers[i := AwaitingFinish])
    case Release(i) => s.(finished := s.finished - 1, callers := s.callers[i := Closing])
    case Close(i) => s.(callers := s.callers[i := Closed], closes := s.closes + 1)
  }

  ghost predicate Initial(s: State) {
    && s.started == 0 && s.finished == 0 && s.listener == [] && s.waitGroup == 0
    && s.loop == Selecting && s.helper == NotSpawned
    && s.reported == [] && s.failure == None && s.closes == 0
    && forall i :: 0 <= i < |s.callers| ==> s.callers[i] == NotCalled
  }

  predicate CanRun(s: State, run: seq<Step>)
    decreases |run|
  {
    run == [] || (Enabled(s, run[0]) && CanRun(Next(s, run[0]), run[1..]))
  }

  function After(s: State, run: seq<Step>): State
    requires CanRun(s, run)
    decreases |run|
  {
    if run == [] then s else After(Next(s, run[0]), run[1..])
  }

  // ----- Counting callers -----

  function Sum(callers: seq<Caller>, weight: Caller -> nat): nat {
    if callers == [] then 0 else weight(callers[0]) + Sum(callers[1..], weight)
  }

  lemma {:induction false} SumUpdate(callers: seq<Caller>, i: nat, pc: Caller, weight: Caller -> nat)
    requires i < |callers|
    ensures Sum(callers[i := pc], weight) + weight(callers[i]) == Sum(callers, weight) + weight(pc)
    decreases |callers|
  {
    if i == 0 {
      assert callers[i := pc][1..] == callers[1..];
    } else {
      assert callers[i := pc][1..] == callers[1..][i - 1 := pc];
      SumUpdate(callers[1..], i - 1, pc, weight);
    }
  }

  lemma {:induction false} SumZero(callers: seq<Caller>, weight: Caller -> nat)
    requires forall i :: 0 <= i < |callers| ==> weight(callers[i]) == 0
    ensures Sum(callers, weight) == 0
    decreases |callers|
  {
    if callers != [] {
      SumZero(callers[1..], weight);
    }
  }

  lemma {:induction false} SumAtLeast(callers: seq<Caller>, i: nat, weight: Caller -> nat)
    requires i < |callers|
    ensures Sum(callers, weight) >= weight(callers[i])
    decreases |callers|
  {
    if i > 0 {
      SumAtLeast(callers[1..], i - 1, weight);
    }
  }

  /** At least two different callers weigh something: the sum counts both. */
  lemma {:induction false} SumAtLeastTwo(callers: seq<Caller>, i: nat, j: nat, weight: Caller -> nat)
    requires i < j < |callers|
    ensures Sum(callers, weight) >= weight(callers[i]) + weight(callers[j])
    decreases |callers|
  {
    if i == 0 {
      SumAtLeast(callers[1..], j - 1, weight);
    } else {
      SumAtLeastTwo(callers[1..], i - 1, j - 1, weight);
    }
  }

  lemma {:induction false} SumPositive(callers: seq<Caller>, weight: Caller -> nat) returns (i: nat)
    requires Sum(callers, weight) > 0
    ensures i < |callers| && weight(callers[i]) > 0
    decreases |callers|
  {
    if weight(callers[0]) > 0 {
      i := 0;
    } else {
      var j := SumPositive(callers[1..], weight);
      i := j + 1;
    }
  }

  /** Has sent its token on `shutdownStarted`. */
  const HAS_ANNOUNCED: Caller -> nat := pc => if pc == NotCalled || pc == Announcing then 0 else 1

  /** Has received from `shutdownFinished`. */
  const IS_RELEASED: Caller -> nat := pc => if pc == Closing || pc == Closed then 1 else 0

  const HAS_CLOSED: Caller -> nat := pc => if pc == Closed then 1 else 0

  const STEPS_LEFT: Caller -> nat := (pc: Caller) =>
    match pc
    case NotCalled => 4
    case Announcing => 3
    case AwaitingFinish => 2
    case Closing => 1
    case Closed => 0

  function Announced(s: State): nat { Sum(s.callers, HAS_ANNOUNCED) }

  function Released(s: State): nat { Sum(s.callers, IS_RELEASED) }

  // ----- The invariant: where the tokens are -----

  /** The tokens received from `shutdownStarted`, by the loop or by the helper. */
  function Taken(s: State): nat {
    if s.loop == Waiting || s.loop == Signalling || (s.loop == Exited && s.helper == NotSpawned) ||
       s.helper == Answering || s.helper == Done
    then 1 else 0
  }

  /** The tokens ever sent on `shutdownFinished`. */
  function Signalled(s: State): nat {
    if (s.loop == Exited && s.helper == NotSpawned) || s.helper == Done then 1 else 0
  }

  ghost predicate Inv(s: State) {
    && Announced(s) == s.started + Taken(s)
    && Signalled(s) == s.finished + Released(s)
    && s.closes == Sum(s.callers, HAS_CLOSED)
    && s.started <= CAPACITY
    && s.waitGroup == (if s.loop == Reading then 1 else 0)
    && (s.helper != NotSpawned ==> s.loop == Exited)
    && s.failure == (match (s.loop, s.helper)
                     case (Spawning(e), _) => Some(e)
                     case (_, Reporting(e)) => Some(e)
                     case (_, NotSpawned) => None
                     case _ => s.failure)
    && (s.helper != NotSpawned ==> s.failure.Some?)
    && s.reported == (if s.helper == NotSpawned || s.helper.Reporting? then [] else [s.failure.value])
    && (s.listener == [] || s.listener == s.reported)
  }

  lemma InitialInv(s: State)
    requires Initial(s)
    ensures Inv(s)
  {
    SumZero(s.callers, HAS_ANNOUNCED);
    SumZero(s.callers, IS_RELEASED);
    SumZero(s.callers, HAS_CLOSED);
  }

  lemma CallerSums(s: State, i: nat, pc: Caller)
    requires i < |s.callers|
    ensures var callers := s.callers[i := pc];
            && Sum(callers, HAS_ANNOUNCED) + HAS_ANNOUNCED(s.callers[i]) == Sum(s.callers, HAS_ANNOUNCED) + HAS_ANNOUNCED(pc)
            && Sum(callers, IS_RELEASED) + IS_RELEASED(s.callers[i]) == Sum(s.callers, IS_RELEASED) + IS_RELEASED(pc)
            && Sum(callers, HAS_CLOSED) + HAS_CLOSED(s.callers[i]) == Sum(s.callers, HAS_CLOSED) + HAS_CLOSED(pc)
            && Sum(callers, STEPS_LEFT) + STEPS_LEFT(s.callers[i]) == Sum(s.callers, STEPS_LEFT) + STEPS_LEFT(pc)
  {
    SumUpdate(s.callers, i, pc, HAS_ANNOUNCED);
    SumUpdate(s.callers, i, pc, IS_RELEASED);
    SumUpdate(s.callers, i, pc, HAS_CLOSED);
    SumUpdate(s.callers, i, pc, STEPS_LEFT);
  }

  lemma StepSums(s: State, a: Step)
    requires Enabled(s, a)
    ensures var callers := Next(s, a).callers;
            && Sum(callers, HAS_ANNOUNCED) == Sum(s.callers, HAS_ANNOUNCED) + (if a.Announce? then 1 else 0)
            && Sum(callers, IS_RELEASED) == Sum(s.callers, IS_RELEASED) + (if a.Release? then 1 else 0)
            && Sum(callers, HAS_CLOSED) == Sum(s.callers, HAS_CLOSED) + (if a.Close? then 1 else 0)
            && Sum(callers, STEPS_LEFT) + (if a.Call? || a.Announce? || a.Release? || a.Close? then 1 else 0)
               == Sum(s.callers, STEPS_LEFT)
  {
    match a
    case Call(i) => CallerSums(s, i, Announcing);
    case Announce(i) => CallerSums(s, i, AwaitingFinish);
    case Release(i) => CallerSums(s, i, Closing);
    case Close(i) => CallerSums(s, i, Closed);
    case _ =>
  }

  lemma NextInv(s: State, a: Step)
    requires Inv(s) && Enabled(s, a)
    ensures Inv(Next(s, a))
  {
    StepSums(s, a);
  }

  lemma {:induction false} RunInv(s: State, run: seq<Step>)
    requires Inv(s) && CanRun(s, run)
    ensures Inv(After(s, run))
    decreases |run|
  {
    if run != [] {
      NextInv(s, run[0]);
      RunInv(Next(s, run[0]), run[1..]);
    }
  }
}
