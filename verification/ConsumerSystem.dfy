/** The whole consumer: the commit protocol runs inside the poll loop of the shutdown
    handshake.  A process may be killed at any point and replaced by a new one. */
module ConsumerSystem {
  import opened GoErrors
  import P = CommitProtocol
  import G = CommitGuarantees
  import H = Handshake

  datatype State = State(h: H.State, k: P.State)

  /** `World` produces messages; `Goroutine` is a step of the handshake outside
      `readMessage`; `Inside` and `Return` are steps of a running `readMessage`, the latter
      its last; `Replace` kills the process and starts another one, in which `n` callers may
      call `Shutdown`. */
  datatype Step =
    | World(a: P.Step)
    | Goroutine(g: H.Step)
    | Inside(a: P.Step)
    | Return(a: P.Step)
    | Replace(n: nat)

  predicate Returns(a: P.Step) {
    a.PollTimesOut? || a.Commit? || a.PollFails? || a.FailProcessing? || a.FailCommit?
  }

  /** What `readMessage` returns when `a` is its last step. */
  function ResultOf(a: P.Step): Option<Error>
    requires Returns(a)
  {
    if a.PollTimesOut? || a.Commit? then None else Some(a.error)
  }

  function Fresh(n: nat): H.State {
    H.State(0, 0, [], 0, H.Selecting, H.NotSpawned, seq(n, _ => H.NotCalled), [], None, 0)
  }

  predicate Enabled(s: State, a: Step) {
    match a
    case World(w) => (w.Produce? || w.AddPartition?) && P.Enabled(s.k, w)
    case Goroutine(g) => !g.ReadReturns? && H.Enabled(s.h, g)
    case Inside(w) => s.h.loop == H.Reading && (w.Poll? || w.Settle?) && P.Enabled(s.k, w)
    case Return(w) => s.h.loop == H.Reading && Returns(w) && P.Enabled(s.k, w)
    case Replace(_) => s.k.phase != P.Down
  }

  function Next(s: State, a: Step): State
    requires Enabled(s, a)
  {
    match a
    case World(w) => s.(k := P.Next(s.k, w))
    case Goroutine(g) => s.(h := H.Next(s.h, g))
    case Inside(w) => s.(k := P.Next(s.k, w))
    case Return(w) => State(H.Next(s.h, H.ReadReturns(ResultOf(w))), P.Next(s.k, w))
    case Replace(n) => State(Fresh(n), P.Next(P.Next(s.k, P.End), P.Start))
  }

  /** The first process has just subscribed. */
  ghost predicate Initial(s: State) {
    && (exists k0 :: P.Initial(k0) && s.k == P.Next(k0, P.Start))
    && H.Initial(s.h)
  }

  predicate CanRun(s: State, run: seq<Step>)
    decreases |run|
  {
    run == [] || (Enabled(s, run[0]) && CanRun(Next(s, run[0]), run[1..]))
  }

  function After(s: State, run: seq<Step>): State
    requires CanRun(s, run)
    decreases |run|
  {
    if run == [] then s else After(Next(s, run[0]), run[1..])
  }

  /** Where the protocol is, seen from the goroutines. */
  ghost predicate Coupled(s: State) {
    if s.h.failure.Some? then s.k.phase == P.Failed(s.h.failure.value)
    else if s.h.loop == H.Reading then G.Running(s.k.phase)
    else s.k.phase == P.Idle
  }

  ghost predicate Inv(s: State) {
    P.Inv(s.k) && H.Inv(s.h) && Coupled(s)
  }

  lemma InitialInv(s: State)
    requires Initial(s)
    ensures Inv(s)
  {
    var k0 :| P.Initial(k0) && s.k == P.Next(k0, P.Start);
    P.NextInv(k0, P.Start);
    H.InitialInv(s.h);
  }

  lemma NextKeepsParts(s: State, a: Step)
    requires P.Inv(s.k) && H.Inv(s.h) && Enabled(s, a)
    ensures P.Inv(Next(s, a).k) && H.Inv(Next(s, a).h)
  {
    match a
    case World(w) => P.NextInv(s.k, w);
    case Goroutine(g) => H.NextInv(s.h, g);
    case Inside(w) => P.NextInv(s.k, w);
    case Return(w) =>
      P.NextInv(s.k, w);
      H.NextInv(s.h, H.ReadReturns(ResultOf(w)));
    case Replace(n) =>
      P.NextInv(s.k, P.End);
      P.NextInv(P.Next(s.k, P.End), P.Start);
      H.InitialInv(Fresh(n));
  }

  /** A failed loop is past its last `readMessage`. */
  ghost predicate FailedLoop(h: H.State) {
    h.failure.Some? ==> h.loop.Spawning? || h.loop.Exited?
  }

  lemma CoupledNext(s: State, a: Step)
    requires FailedLoop(s.h) && Coupled(s) && Enabled(s, a)
    ensures Coupled(Next(s, a))
  {
  }

  lemma {:induction false} RunInv(s: State, run: seq<Step>)
    requires Inv(s) && CanRun(s, run)
    ensures Inv(After(s, run))
    decreases |run|
  {
    if run != [] {
      NextKeepsParts(s, run[0]);
      CoupledNext(s, run[0]);
      RunInv(Next(s, run[0]), run[1..]);
    }
  }

  /** The steps of the commit protocol that a step of the system makes. */
  function Projected(a: Step): seq<P.Step> {
    match a
    case World(w) => [w]
    case Goroutine(_) => []
    case Inside(w) => [w]
    case Return(w) => [w]
    case Replace(_) => [P.End, P.Start]
  }

  lemma ProjectedStep(s: State, a: Step)
    requires Enabled(s, a)
    ensures P.CanRun(s.k, Projected(a)) && P.After(s.k, Projected(a)) == Next(s, a).k
  {
    match a
    case Replace(n) =>
      assert [P.End, P.Start][1..] == [P.Start] && [P.Start][1..] == [];
      assert P.CanRun(P.Next(s.k, P.End), [P.Start]);
    case Goroutine(_) =>
    case World(w) => assert [w][1..] == [];
    case Inside(w) => assert [w][1..] == [];
    case Return(w) => assert [w][1..] == [];
  }

  /** Every run of the system is a run of the commit protocol, so all that holds of the
      latter's runs holds here. */
  lemma {:induction false} SystemRefinesProtocol(s: State, run: seq<Step>) returns (krun: seq<P.Step>)
    requires CanRun(s, run)
    ensures P.CanRun(s.k, krun) && P.After(s.k, krun) == After(s, run).k
    decreases |run|
  {
    if run == [] {
      krun := [];
    } else {
      ProjectedStep(s, run[0]);
      var rest := SystemRefinesProtocol(Next(s, run[0]), run[1..]);
      krun := Projected(run[0]) + rest;
      G.RunThen(s.k, Projected(run[0]), rest);
    }
  }

  /** No message is lost by the whole system: whatever stops, crashes and restarts happened,
      everything below a committed offset was settled, as its message can be, before it was
      committed. */
  lemma SystemLosesNothing(s: State, run: seq<Step>, p: nat, o: nat)
    requires Initial(s) && CanRun(s, run)
    requires p < |After(s, run).k.parts| && o < After(s, run).k.parts[p].committed
    ensures After(s, run).k.may == s.k.may
    ensures exists i :: G.ProperlyStored(After(s, run).k, i, p, o)
  {
    var k0 :| P.Initial(k0) && s.k == P.Next(k0, P.Start);
    var krun := SystemRefinesProtocol(s, run);
    assert P.CanRun(k0, [P.Start]) && P.After(k0, [P.Start]) == s.k by {
      assert [P.Start][1..] == [];
    }
    G.RunThen(k0, [P.Start], krun);
    G.AtLeastOnce(k0, [P.Start] + krun, p, o);
  }

  /** Shutdown drains: when a `Shutdown` call closes the client, no message is in flight and
      no `readMessage` can come.  Without a failure every message ever read is committed;
      after one, exactly that error is what the listener was sent. */
  lemma DrainedBeforeClose(s: State, run: seq<Step>, i: nat)
    requires Initial(s) && CanRun(s, run)
    requires i < |After(s, run).h.callers| && After(s, run).h.callers[i] in {H.Closing, H.Closed}
    ensures var r := After(s, run);
            && r.h.loop == H.Exited
            && (r.h.failure == None ==>
                  && r.k.phase == P.Idle
                  && r.h.reported == []
                  && forall p :: 0 <= p < |r.k.parts| ==> r.k.parts[p].position == r.k.parts[p].committed)
            && (r.h.failure.Some? ==>
                  && r.k.phase == P.Failed(r.h.failure.value)
                  && r.h.reported == [r.h.failure.value])
            && forall a :: Enabled(r, a) ==> !a.Inside? && !a.Return? && a != Goroutine(H.BeginRead)
  {
    InitialInv(s);
    RunInv(s, run);
    var r := After(s, run);
    H.SumAtLeast(r.h.callers, i, H.IS_RELEASED);
  }

  lemma FrozenStep(s: State, a: Step)
    requires Inv(s) && Enabled(s, a) && s.h.failure.Some? && !a.Replace?
    ensures !a.Inside? && !a.Return?
    ensures Next(s, a).h.failure == s.h.failure
    ensures Next(s, a).k.history == s.k.history && Next(s, a).k.phase == s.k.phase
    ensures |s.k.parts| <= |Next(s, a).k.parts|
    ensures forall p :: 0 <= p < |s.k.parts| ==>
              && Next(s, a).k.parts[p].committed == s.k.parts[p].committed
              && Next(s, a).k.parts[p].position == s.k.parts[p].position
  {
  }

  /** The first failure freezes the process: until it is replaced, nothing more is read,
      settled or committed, its history does not grow, and the listener is sent nothing but
      that error. */
  lemma {:induction false} FirstFailureFreezes(s: State, run: seq<Step>)
    requires Inv(s) && CanRun(s, run) && s.h.failure.Some?
    requires forall a :: a in run ==> !a.Replace?
    ensures var r := After(s, run);
            && r.h.failure == s.h.failure
            && r.h.reported <= [s.h.failure.value]
            && r.k.history == s.k.history && r.k.phase == s.k.phase
            && |s.k.parts| <= |r.k.parts|
            && forall p :: 0 <= p < |s.k.parts| ==>
                 r.k.parts[p].committed == s.k.parts[p].committed && r.k.parts[p].position == s.k.parts[p].position
    decreases |run|
  {
    if run != [] {
      FrozenStep(s, run[0]);
      forall a | a in run[1..]
        ensures a in run
      {
      }
      NextKeepsParts(s, run[0]);
      CoupledNext(s, run[0]);
      FirstFailureFreezes(Next(s, run[0]), run[1..]);
    }
  }
}
