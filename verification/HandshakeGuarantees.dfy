/** What every run of the shutdown handshake guarantees. */
module HandshakeGuarantees {
  import opened GoErrors
  import opened Handshake

  lemma {:induction false} ClosedWereReleased(callers: seq<Caller>)
    ensures Sum(callers, HAS_CLOSED) <= Sum(callers, IS_RELEASED)
    decreases |callers|
  {
    if callers != [] {
      ClosedWereReleased(callers[1..]);
    }
  }

  /** Safety, for any number of callers: every token sent on `shutdownStarted` is in the
      channel or was taken once; `shutdownFinished` is sent at most once and its token is in
      the channel or released one caller; so the client is closed at most once. */
  lemma TokensAreConserved(s: State, run: seq<Step>)
    requires Initial(s) && CanRun(s, run)
    ensures var r := After(s, run);
            && Announced(r) == r.started + Taken(r)
            && r.finished + Released(r) == Signalled(r) <= Taken(r) <= 1
            && r.closes == Sum(r.callers, HAS_CLOSED) <= Released(r) <= 1
            && r.started <= 1 && r.finished <= 1 && |r.listener| <= 1
  {
    InitialInv(s);
    RunInv(s, run);
    ClosedWereReleased(After(s, run).callers);
  }

  /** When a caller is about to close the client, or has, `readMessage` is neither running
      nor still to come: the loop has returned. */
  lemma CloseOnlyAfterTheLoop(s: State, run: seq<Step>, i: nat)
    requires Initial(s) && CanRun(s, run)
    requires i < |After(s, run).callers| && After(s, run).callers[i] in {Closing, Closed}
    ensures var r := After(s, run);
            && r.loop == Exited && r.waitGroup == 0
            && (r.helper == NotSpawned || r.helper == Done)
            && (r.failure.Some? ==> r.reported == [r.failure.value])
            && forall j :: 0 <= j < |r.callers| && j != i ==> r.callers[j] !in {Closing, Closed}
  {
    InitialInv(s);
    RunInv(s, run);
    var r := After(s, run);
    SumAtLeast(r.callers, i, IS_RELEASED);
    forall j | 0 <= j < |r.callers| && j != i
      ensures r.callers[j] !in {Closing, Closed}
    {
      if i < j { SumAtLeastTwo(r.callers, i, j, IS_RELEASED); } else { SumAtLeastTwo(r.callers, j, i, IS_RELEASED); }
    }
  }

  /** Once the loop has returned it polls no more, however the run goes on. */
  lemma {:induction false} ExitedForGood(s: State, run: seq<Step>)
    requires Inv(s) && CanRun(s, run) && s.loop == Exited
    ensures After(s, run).loop == Exited && BeginRead !in run
    ensures After(s, run).failure == s.failure
    decreases |run|
  {
    if run != [] {
      NextInv(s, run[0]);
      ExitedForGood(Next(s, run[0]), run[1..]);
      assert run == [run[0]] + run[1..];
    }
  }

  /** A loop failure reaches the listener exactly once, as exactly the error `readMessage`
      returned; the sends to the listener and on `shutdownFinished` never find a full
      channel, whether or not anybody listens. */
  lemma FailureIsReportedOnce(s: State, run: seq<Step>)
    requires Initial(s) && CanRun(s, run)
    ensures var r := After(s, run);
            && r.reported <= (if r.failure.Some? then [r.failure.value] else [])
            && (r.failure.Some? && !r.loop.Spawning? && !r.helper.Reporting? ==> r.reported == [r.failure.value])
            && (r.helper.Reporting? ==> Enabled(r, Report))
            && (r.loop == Signalling ==> Enabled(r, SignalFinished))
            && (r.helper == Answering ==> Enabled(r, HelperSignals))
            && (r.loop == Waiting ==> Enabled(r, WaitReturns))
  {
    InitialInv(s);
    RunInv(s, run);
  }

  // ----- Progress -----

  function LoopSteps(loop: Loop): nat {
    match loop
    case Reading => 10
    case Selecting => 9
    case Spawning(_) => 8
    case Waiting => 2
    case Signalling => 1
    case Exited => 0
  }

  function HelperSteps(helper: Helper): nat {
    match helper
    case Reporting(_) => 5
    case AwaitingStart => 3
    case Answering => 2
    case NotSpawned => 0
    case Done => 0
  }

  /** An upper bound on the steps that all goroutines together can still take once some
      caller's token is sent. */
  function Measure(s: State): nat {
    LoopSteps(s.loop) + HelperSteps(s.helper) + |s.listener| + Sum(s.callers, STEPS_LEFT)
  }

  lemma StepDecreases(s: State, a: Step)
    requires Inv(s) && Announced(s) >= 1 && Enabled(s, a)
    ensures a != BeginRead
    ensures Announced(Next(s, a)) >= 1
    ensures Measure(Next(s, a)) < Measure(s)
  {
    StepSums(s, a);
  }

  /** From the moment one caller has sent its token, no new poll starts and every run is
      short: all the goroutines together take at most `Measure` more steps. */
  lemma {:induction false} ShutdownIsBounded(s: State, run: seq<Step>)
    requires Inv(s) && Announced(s) >= 1 && CanRun(s, run)
    ensures BeginRead !in run
    ensures |run| + Measure(After(s, run)) <= Measure(s)
    ensures Announced(After(s, run)) >= 1
    decreases |run|
  {
    if run != [] {
      StepDecreases(s, run[0]);
      NextInv(s, run[0]);
      ShutdownIsBounded(Next(s, run[0]), run[1..]);
      assert run == [run[0]] + run[1..];
    }
  }

  /** No goroutine can take a step. */
  ghost predicate Stuck(s: State) {
    forall a :: !Enabled(s, a)
  }

  lemma SomebodyAnnounced(s: State)
    requires Inv(s) && Stuck(s) && |s.callers| > 0
    ensures Announced(s) >= 1
  {
    if s.started == 0 {
      assert !Enabled(s, Call(0)) && !Enabled(s, Announce(0));
      SumAtLeast(s.callers, 0, HAS_ANNOUNCED);
    }
  }

  lemma {:induction false} AnnouncedButNotReleased(callers: seq<Caller>) returns (i: nat)
    requires Sum(callers, HAS_ANNOUNCED) > Sum(callers, IS_RELEASED)
    ensures i < |callers| && callers[i] == AwaitingFinish
    decreases |callers|
  {
    if callers[0] == AwaitingFinish {
      i := 0;
    } else {
      var j := AnnouncedButNotReleased(callers[1..]);
      i := j + 1;
    }
  }

  /** A system in which nothing can move, and somebody called `Shutdown`, is one whose loop
      has returned and where exactly one call has closed the client; every other call is
      blocked for good. */
  lemma StuckMeansClosed(s: State) returns (winner: nat)
    requires Inv(s) && Stuck(s) && |s.callers| > 0
    ensures s.loop == Exited && s.closes == 1
    ensures winner < |s.callers| && s.callers[winner] == Closed
    ensures forall j :: 0 <= j < |s.callers| && j != winner ==> s.callers[j] in {Announcing, AwaitingFinish}
  {
    assert !Enabled(s, TakeStart) && !Enabled(s, BeginRead) && !Enabled(s, ReadReturns(None));
    assert !Enabled(s, Spawn) && !Enabled(s, WaitReturns) && !Enabled(s, SignalFinished);
    assert s.loop == Exited;
    SomebodyAnnounced(s);
    assert !Enabled(s, Listen);
    assert !Enabled(s, Report) && !Enabled(s, HelperTakesStart) && !Enabled(s, HelperSignals);
    assert Signalled(s) == 1;
    if s.finished == 1 {
      var i := AnnouncedButNotReleased(s.callers);
      assert Enabled(s, Release(i));
    }
    winner := SumPositive(s.callers, IS_RELEASED);
    assert !Enabled(s, Close(winner));
    SumAtLeast(s.callers, winner, HAS_CLOSED);
    ClosedWereReleased(s.callers);
    forall j | 0 <= j < |s.callers| && j != winner
      ensures s.callers[j] in {Announcing, AwaitingFinish}
    {
      assert !Enabled(s, Call(j));
      if winner < j { SumAtLeastTwo(s.callers, winner, j, IS_RELEASED); }
      else { SumAtLeastTwo(s.callers, j, winner, IS_RELEASED); }
    }
  }

  /** Progress, over whole runs and however the loop ends: after the first token any run that
      goes on as long as it can ends, within `Measure` steps, with the client closed once, by
      one caller.  With a single caller, that call returns. */
  lemma ShutdownCompletes(s: State, before: seq<Step>, run: seq<Step>)
    requires Initial(s) && CanRun(s, before) && Announced(After(s, before)) >= 1
    requires CanRun(After(s, before), run) && Stuck(After(After(s, before), run))
    ensures var r := After(After(s, before), run);
            && |run| <= Measure(After(s, before))
            && r.loop == Exited && r.closes == 1
            && (exists i :: At(r, i, Closed))
            && (|r.callers| == 1 ==> r.callers[0] == Closed)
  {
    InitialInv(s);
    RunInv(s, before);
    ShutdownIsBounded(After(s, before), run);
    RunInv(After(s, before), run);
    var r := After(After(s, before), run);
    if |r.callers| == 0 {
      assert false;
    }
    var winner := StuckMeansClosed(r);
    assert At(r, winner, Closed);
  }

  /** The state of an orderly stop with two callers and no failure. */
  function Orderly(started: nat, finished: nat, loop: Loop, first: Caller, second: Caller, closes: nat): State {
    State(started, finished, [], 0, loop, NotSpawned, [first, second], [], None, closes)
  }

  /** Some run leads from `s` to `t`. */
  ghost predicate Reaches(s: State, t: State) {
    exists run :: CanRun(s, run) && After(s, run) == t
  }

  lemma BlockedForGood(t: State)
    requires t == Orderly(1, 0, Exited, Closed, AwaitingFinish, 1)
    ensures Stuck(t)
  {
    forall a: Step
      ensures !Enabled(t, a)
    {
      assert forall i: nat, pc :: At(t, i, pc) ==> pc == Closed || pc == AwaitingFinish;
    }
  }

  lemma StepReaches(s: State, a: Step, s': State, t: State)
    requires Enabled(s, a) && Next(s, a).callers == s'.callers
    requires Next(s, a).(callers := s'.callers) == s'
    requires Reaches(s', t)
    ensures Reaches(s, t)
  {
    var rest :| CanRun(s', rest) && After(s', rest) == t;
    assert ([a] + rest)[1..] == rest;
    assert CanRun(s, [a] + rest) && After(s, [a] + rest) == t;
  }

  /** The other half: a second caller can block for ever.  Two callers, an orderly stop, and
      one of them never returns. */
  lemma SecondCallerCanBlock(s0: State, t: State)
    requires s0 == Orderly(0, 0, Selecting, NotCalled, NotCalled, 0)
    requires t == Orderly(1, 0, Exited, Closed, AwaitingFinish, 1)
    ensures Initial(s0) && Reaches(s0, t) && Stuck(t)
  {
    var s1 := Orderly(0, 0, Selecting, Announcing, NotCalled, 0);
    var s2 := Orderly(1, 0, Selecting, AwaitingFinish, NotCalled, 0);
    var s3 := Orderly(0, 0, Waiting, AwaitingFinish, NotCalled, 0);
    var s4 := Orderly(0, 0, Signalling, AwaitingFinish, NotCalled, 0);
    var s5 := Orderly(0, 1, Exited, AwaitingFinish, NotCalled, 0);
    var s6 := Orderly(0, 1, Exited, AwaitingFinish, Announcing, 0);
    var s7 := Orderly(1, 1, Exited, AwaitingFinish, AwaitingFinish, 0);
    var s8 := Orderly(1, 0, Exited, Closing, AwaitingFinish, 0);
    assert Reaches(t, t) by { assert CanRun(t, []) && After(t, []) == t; }
    StepReaches(s8, Close(0), t, t);
    StepReaches(s7, Release(0), s8, t);
    StepReaches(s6, Announce(1), s7, t);
    StepReaches(s5, Call(1), s6, t);
    StepReaches(s4, SignalFinished, s5, t);
    StepReaches(s3, WaitReturns, s4, t);
    StepReaches(s2, TakeStart, s3, t);
    StepReaches(s1, Announce(0), s2, t);
    StepReaches(s0, Call(0), s1, t);
    BlockedForGood(t);
  }
}
