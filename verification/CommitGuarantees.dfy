/** What every run of the commit protocol guarantees. */
module CommitGuarantees {
  import opened GoErrors
  import opened CommitProtocol

  /** Event `i` stores the commit of (p, o), and right before it the same incarnation read
      that message and settled it. */
  ghost predicate SettledThenStored(h: seq<Event>, i: int, p: nat, o: nat) {
    && 2 <= i < |h|
    && Stores(h[i], p) && h[i].offset == o
    && h[i - 1].Settled? && h[i - 1].partition == p && h[i - 1].offset == o
    && h[i - 2] == Read(p, o)
  }

  /** Event `i` stores the commit of (p, o), right after the same incarnation read that message
      and settled it in a way that processing this very message can come to. */
  ghost predicate ProperlyStored(s: State, i: int, p: nat, o: nat) {
    SettledThenStored(s.history, i, p, o) && CanSettle(s, p, o, s.history[i - 1].how)
  }

  ghost predicate IsSettled(h: seq<Event>, i: int, p: nat, o: nat) {
    0 <= i < |h| && h[i].Settled? && h[i].partition == p && h[i].offset == o
  }

  /** Every offset counted by the stored commits of a partition was stored, and settled first. */
  lemma {:induction false} StoredOffsetWasSettled(h: seq<Event>, n: nat, p: nat, o: nat) returns (i: nat)
    requires Grammar(h) && Offsets(h) && n <= |h|
    requires o < CountIn(h, n, StoresOf(p))
    ensures i < n && SettledThenStored(h, i, p, o)
    decreases n
  {
    if o < CountIn(h, n - 1, StoresOf(p)) {
      i := StoredOffsetWasSettled(h, n - 1, p, o);
    } else {
      i := n - 1;
      assert Stores(h[i], p);
      assert Follows(h[i - 1], h[i]);
      assert Follows(h[i - 2], h[i - 1]);
    }
  }

  /** At least once, over whole runs with any number of partitions, crashes and restarts:
      every offset below a committed offset was settled, as the message at that offset can be,
      by the incarnation that then committed it. */
  lemma AtLeastOnce(s: State, run: seq<Step>, p: nat, o: nat)
    requires Initial(s) && CanRun(s, run)
    requires p < |After(s, run).parts| && o < After(s, run).parts[p].committed
    ensures After(s, run).may == s.may
    ensures exists i :: ProperlyStored(After(s, run), i, p, o)
  {
    RunInv(s, run);
    var i := StoredOffsetWasSettled(After(s, run).history, |After(s, run).history|, p, o);
    assert ProperlyStored(After(s, run), i, p, o);
  }

  ghost predicate CommittedIsSettled(s: State, p: nat, o: nat) {
    p < |s.parts| && o < s.parts[p].committed ==> exists i :: ProperlyStored(s, i, p, o)
  }

  /** Every committed message of every partition was settled before its commit was stored. */
  ghost predicate AllCommittedSettled(s: State) {
    forall p: nat, o: nat :: CommittedIsSettled(s, p, o)
  }

  lemma CommittedSettled(s: State)
    requires Inv(s)
    ensures AllCommittedSettled(s)
  {
    forall p: nat, o: nat
      ensures CommittedIsSettled(s, p, o)
    {
      if p < |s.parts| && o < s.parts[p].committed {
        var i := StoredOffsetWasSettled(s.history, |s.history|, p, o);
        assert ProperlyStored(s, i, p, o);
      }
    }
  }

  /** Messages of a partition are first settled in offset order: when one is settled, every
      earlier one already has been. */
  lemma SettledInOrder(s: State, run: seq<Step>, i: int, p: nat, o: nat, earlier: nat)
    requires Initial(s) && CanRun(s, run)
    requires IsSettled(After(s, run).history, i, p, o) && earlier < o
    ensures exists j :: j < i && IsSettled(After(s, run).history, j, p, earlier)
  {
    RunInv(s, run);
    var h := After(s, run).history;
    assert Follows(h[i - 1], h[i]);
    var k := StoredOffsetWasSettled(h, i - 1, p, earlier);
    assert IsSettled(h, k - 1, p, earlier);
  }

  /** At most one message over all partitions is read and not committed, at any moment of any
      run; none is while the consumer is between two polls. */
  lemma OneMessageAhead(s: State, run: seq<Step>, p: nat, q: nat)
    requires Initial(s) && CanRun(s, run) && After(s, run).phase != Down
    requires p < |After(s, run).parts| && q < |After(s, run).parts|
    ensures var r := After(s, run);
            && r.parts[p].committed <= r.parts[p].position <= r.parts[p].committed + 1
            && r.parts[p].position <= |r.parts[p].log| + 1
            && (r.parts[p].position > r.parts[p].committed && r.parts[q].position > r.parts[q].committed ==> p == q)
            && (r.phase == Idle ==> r.parts[p].position == r.parts[p].committed)
  {
    RunInv(s, run);
    var r := After(s, run);
    if r.phase.Failed? {
      var a: nat :| AtMostAhead(r, a);
    }
  }

  lemma NextKeepsCommitted(s: State, a: Step, p: nat)
    requires Positions(s) && Enabled(s, a) && p < |s.parts|
    ensures var t := Next(s, a);
            p < |t.parts| && s.parts[p].committed <= t.parts[p].committed && s.parts[p].log <= t.parts[p].log
  {
  }

  /** The committed offset of a partition never goes back, its log only grows. */
  lemma {:induction false} CommittedNeverGoesBack(s: State, run: seq<Step>, p: nat)
    requires Inv(s) && CanRun(s, run) && p < |s.parts|
    ensures p < |After(s, run).parts|
    ensures s.parts[p].committed <= After(s, run).parts[p].committed <= |After(s, run).parts[p].log|
    ensures s.parts[p].log <= After(s, run).parts[p].log
    decreases |run|
  {
    if run != [] {
      NextInv(s, run[0]);
      NextKeepsCommitted(s, run[0], p);
      CommittedNeverGoesBack(Next(s, run[0]), run[1..], p);
    }
  }

  // ----- The first failure freezes the incarnation -----

  lemma {:induction false} DownStaysDown(s: State, run: seq<Step>)
    requires CanRun(s, run) && Start !in run
    requires s.phase == Down
    ensures var r := After(s, run);
            && r.phase == Down && r.history == s.history
            && |s.parts| <= |r.parts|
            && forall p :: 0 <= p < |s.parts| ==>
                 r.parts[p].committed == s.parts[p].committed && r.parts[p].position == s.parts[p].position
    decreases |run|
  {
    if run != [] {
      forall x | x in run[1..]
        ensures x in run
      {
      }
      DownStaysDown(Next(s, run[0]), run[1..]);
    }
  }

  /** After a poll, dead letter or commit failure, and until another incarnation starts,
      nothing is read, settled or committed: all that can still be seen of the incarnation is
      its end, and that it ended with exactly that error. */
  lemma {:induction false} FailureFreezes(s: State, run: seq<Step>, error: Error)
    requires CanRun(s, run) && Start !in run
    requires s.phase == Failed(error)
    ensures var r := After(s, run);
            && ((r.phase == Failed(error) && r.history == s.history) ||
                (r.phase == Down && r.history == s.history + [Ended(Failed(error))]))
            && |s.parts| <= |r.parts|
            && forall p :: 0 <= p < |s.parts| ==>
                 r.parts[p].committed == s.parts[p].committed && r.parts[p].position == s.parts[p].position
    decreases |run|
  {
    if run != [] {
      var s' := Next(s, run[0]);
      forall x | x in run[1..]
        ensures x in run
      {
      }
      if run[0] == End {
        DownStaysDown(s', run[1..]);
      } else {
        FailureFreezes(s', run[1..], error);
      }
    }
  }

  // ----- How often a message is processed -----

  function Bit(b: bool): nat {
    if b then 1 else 0
  }

  /** The offset is below the partition's committed one. */
  predicate IsCommitted(parts: seq<Partition>, p: nat, o: nat) {
    p < |parts| && o < parts[p].committed
  }

  ghost predicate Balanced(s: State, p: nat, o: nat) {
    Count(s.history, CompletionsOf(p, o)) ==
      Count(s.history, WasteOf(p, o)) + Bit(IsCommitted(s.parts, p, o)) + Bit(s.phase == ToCommit(p, o))
  }

  /** What a step completes, it commits, leaves to be committed, or wastes. */
  lemma BalancedStep(s: State, a: Step, p: nat, o: nat)
    requires Positions(s) && Enabled(s, a)
    ensures Adds(Observed(s, a), CompletionsOf(p, o)) + Bit(IsCommitted(s.parts, p, o)) + Bit(s.phase == ToCommit(p, o))
            == Adds(Observed(s, a), WasteOf(p, o)) + Bit(IsCommitted(PartsAfter(s, a), p, o))
               + Bit(PhaseAfter(s, a) == ToCommit(p, o))
  {
  }

  lemma BalancedNext(s: State, a: Step, p: nat, o: nat)
    requires Positions(s) && Enabled(s, a) && Balanced(s, p, o)
    ensures Balanced(Next(s, a), p, o)
  {
    BalancedStep(s, a, p, o);
    CountPush(s.history, Observed(s, a), CompletionsOf(p, o));
    CountPush(s.history, Observed(s, a), WasteOf(p, o));
  }

  lemma {:induction false} BalancedAfter(s: State, run: seq<Step>, p: nat, o: nat)
    requires Inv(s) && CanRun(s, run) && Balanced(s, p, o)
    ensures Balanced(After(s, run), p, o)
    decreases |run|
  {
    if run != [] {
      NextInv(s, run[0]);
      BalancedNext(s, run[0], p, o);
      BalancedAfter(Next(s, run[0]), run[1..], p, o);
    }
  }

  /** Conservation, message by message: the completed `processMessage` calls of a message are
      the one whose commit was stored, the one about to be committed, and those an incarnation
      finished without storing a commit.  In particular a committed message is never
      processed again. */
  lemma ProcessedOncePerCommit(s: State, run: seq<Step>, p: nat, o: nat)
    requires Initial(s) && CanRun(s, run)
    ensures var r := After(s, run);
            Count(r.history, CompletionsOf(p, o)) ==
              Count(r.history, WasteOf(p, o)) + Bit(IsCommitted(r.parts, p, o)) + Bit(r.phase == ToCommit(p, o))
  {
    BalancedAfter(s, run, p, o);
  }

  lemma SumPush(parts: seq<Partition>, part: Partition)
    ensures SumCommitted(parts + [part]) == SumCommitted(parts) + part.committed
  {
    assert (parts + [part])[..|parts|] == parts;
  }

  lemma {:induction false} SumSame(parts: seq<Partition>, parts': seq<Partition>)
    requires |parts| == |parts'|
    requires forall q :: 0 <= q < |parts| ==> parts'[q].committed == parts[q].committed
    ensures SumCommitted(parts') == SumCommitted(parts)
    decreases |parts|
  {
    if parts != [] {
      SumSame(parts[..|parts| - 1], parts'[..|parts| - 1]);
    }
  }

  lemma {:induction false} SumUpdate(parts: seq<Partition>, parts': seq<Partition>, p: nat)
    requires p < |parts| == |parts'|
    requires forall q :: 0 <= q < |parts| && q != p ==> parts'[q].committed == parts[q].committed
    ensures SumCommitted(parts') == SumCommitted(parts) - parts[p].committed + parts'[p].committed
    decreases |parts|
  {
    var n := |parts| - 1;
    if p == n {
      SumSame(parts[..n], parts'[..n]);
    } else {
      SumUpdate(parts[..n], parts'[..n], p);
    }
  }

  /** How much each step adds to the committed offsets. */
  lemma SumNext(s: State, a: Step)
    requires Inv(s) && Enabled(s, a)
    ensures SumCommitted(Next(s, a).parts) == SumCommitted(s.parts) +
                                              if a == Commit || (a.FailCommit? && a.stored) then 1 else 0
  {
    var s' := Next(s, a);
    match a
    case AddPartition => SumPush(s.parts, Partition([], 0, 0));
    case Commit => SumUpdate(s.parts, s'.parts, s.phase.partition);
    case FailCommit(_, stored) =>
      if stored { SumUpdate(s.parts, s'.parts, s.phase.partition); }
    case _ => SumSame(s.parts, s'.parts);
  }

  predicate Running(phase: Phase) {
    phase.Idle? || phase.InFlight? || phase.ToCommit?
  }

  ghost predicate TotalBalanced(s: State) {
    && Count(s.history, AllCompletions) ==
       SumCommitted(s.parts) + Count(s.history, AllWaste) + (if s.phase.ToCommit? then 1 else 0)
    && Count(s.history, AllWaste) + (if Running(s.phase) then 1 else 0) <= Count(s.history, AllStarts)
  }

  /** What a step adds to each of the three counts. */
  lemma CountsNext(s: State, a: Step)
    requires Enabled(s, a)
    ensures var (h, h') := (s.history, Next(s, a).history);
            && Count(h', AllCompletions) == Count(h, AllCompletions) +
                                            (if a.Settle? || a.FailProcessing? then 1 else 0)
            && Count(h', AllWaste) == Count(h, AllWaste) +
                                      (if a.FailProcessing? || (a.FailCommit? && !a.stored) ||
                                          (a.End? && s.phase.ToCommit?) then 1 else 0)
            && Count(h', AllStarts) == Count(h, AllStarts) + (if a.Start? then 1 else 0)
  {
    CountPush(s.history, Observed(s, a), AllCompletions);
    CountPush(s.history, Observed(s, a), AllWaste);
    CountPush(s.history, Observed(s, a), AllStarts);
  }

  lemma TotalBalancedNext(s: State, a: Step)
    requires Inv(s) && Enabled(s, a) && TotalBalanced(s)
    ensures TotalBalanced(Next(s, a))
  {
    SumNext(s, a);
    CountsNext(s, a);
  }

  lemma {:induction false} TotalBalancedAfter(s: State, run: seq<Step>)
    requires Inv(s) && CanRun(s, run) && TotalBalanced(s)
    ensures TotalBalanced(After(s, run))
    decreases |run|
  {
    if run != [] {
      NextInv(s, run[0]);
      TotalBalancedNext(s, run[0]);
      TotalBalancedAfter(Next(s, run[0]), run[1..]);
    }
  }

  lemma {:induction false} NothingCommittedAtFirst(parts: seq<Partition>)
    requires forall p :: 0 <= p < |parts| ==> parts[p].committed == 0
    ensures SumCommitted(parts) == 0
    decreases |parts|
  {
    if parts != [] {
      NothingCommittedAtFirst(parts[..|parts| - 1]);
    }
  }

  /** Duplicates are bounded: over a whole run the completed `processMessage` calls exceed the
      committed messages by at most one per incarnation. */
  lemma DuplicateBound(s: State, run: seq<Step>)
    requires Initial(s) && CanRun(s, run)
    ensures var r := After(s, run);
            SumCommitted(r.parts) <= Count(r.history, AllCompletions)
                                  <= SumCommitted(r.parts) + Count(r.history, AllStarts)
  {
    NothingCommittedAtFirst(s.parts);
    TotalBalancedAfter(s, run);
  }

  // ----- No message is stuck -----

  lemma {:induction false} RunThen(s: State, first: seq<Step>, second: seq<Step>)
    requires CanRun(s, first) && CanRun(After(s, first), second)
    ensures CanRun(s, first + second) && After(s, first + second) == After(After(s, first), second)
    decreases |first|
  {
    if first == [] {
      assert first + second == second;
    } else {
      assert (first + second)[1..] == first[1..] + second;
      RunThen(Next(s, first[0]), first[1..], second);
    }
  }

  ghost predicate CanSettleSomehow(s: State, p: nat, o: nat) {
    exists how :: CanSettle(s, p, o, how)
  }

  ghost predicate AllCanSettle(s: State, p: nat, from: nat, to: nat) {
    forall o: nat :: from <= o <= to ==> CanSettleSomehow(s, p, o)
  }

  lemma AllCanStillSettle(s: State, t: State, p: nat, from: nat, to: nat)
    requires AllCanSettle(s, p, from, to)
    requires p < |s.parts| && p < |t.parts| && s.may == t.may && s.parts[p].log == t.parts[p].log
    ensures AllCanSettle(t, p, from + 1, to)
  {
    forall o: nat | from + 1 <= o <= to
      ensures CanSettleSomehow(t, p, o)
    {
      assert CanSettleSomehow(s, p, o);
      var how :| CanSettle(s, p, o, how);
      assert CanSettle(t, p, o, how);
    }
  }

  /** From wherever the system is, an incarnation can be brought between two polls without
      touching a log or a committed offset. */
  lemma CanBecomeIdle(s: State) returns (run: seq<Step>)
    requires Inv(s)
    ensures CanRun(s, run) && After(s, run).phase == Idle && |After(s, run).parts| == |s.parts|
    ensures forall p :: 0 <= p < |s.parts| ==>
              && After(s, run).parts[p].committed == s.parts[p].committed
              && After(s, run).parts[p].log == s.parts[p].log
  {
    if s.phase == Idle {
      run := [];
    } else if s.phase == Down {
      run := [Start];
      assert After(s, run) == After(Next(s, Start), []);
    } else {
      run := [End, Start];
      var ended := Next(s, End);
      assert run[1..] == [Start] && [Start][1..] == [];
      assert CanRun(ended, [Start]);
      assert After(ended, [Start]) == Next(ended, Start);
    }
  }

  /** Reading, settling and committing the next message of a partition. */
  lemma CanCommitNext(s: State, p: nat, how: Settlement) returns (run: seq<Step>)
    requires Inv(s) && s.phase == Idle
    requires p < |s.parts| && CanSettle(s, p, s.parts[p].committed, how)
    ensures CanRun(s, run) && After(s, run).phase == Idle && |After(s, run).parts| == |s.parts|
    ensures After(s, run).parts[p].committed == s.parts[p].committed + 1
    ensures After(s, run).parts[p].log == s.parts[p].log
  {
    run := [Poll(p), Settle(how), Commit];
    var read := Next(s, Poll(p));
    var settled := Next(read, Settle(how));
    var committed := Next(settled, Commit);
    assert run[1..] == [Settle(how), Commit];
    assert run[1..][1..] == [Commit];
    assert run[1..][1..][1..] == [];
    assert CanRun(settled, [Commit]) && After(settled, [Commit]) == committed;
    assert CanRun(read, run[1..]) && After(read, run[1..]) == committed;
  }

  /** No message is lost for good: from every reachable state, whatever crashed or failed
      before, the run can go on so that any given message of any log gets committed, exactly
      when it and the uncommitted messages before it can be settled at all. */
  lemma {:induction false} EveryMessageCanBeCommitted(s: State, p: nat, o: nat) returns (run: seq<Step>)
    requires Inv(s)
    requires p < |s.parts| && o < |s.parts[p].log| && AllCanSettle(s, p, s.parts[p].committed, o)
    ensures CanRun(s, run) && p < |After(s, run).parts| && o < After(s, run).parts[p].committed
    decreases o + 1 - s.parts[p].committed
  {
    if o < s.parts[p].committed {
      run := [];
    } else {
      var toIdle := CanBecomeIdle(s);
      var idle := After(s, toIdle);
      RunInv(s, toIdle);
      assert CanSettleSomehow(s, p, s.parts[p].committed);
      var how :| CanSettle(s, p, s.parts[p].committed, how);
      var commitOne := CanCommitNext(idle, p, how);
      RunInv(idle, commitOne);
      RunThen(s, toIdle, commitOne);
      var next := After(idle, commitOne);
      AllCanStillSettle(s, next, p, s.parts[p].committed, o);
      var more := EveryMessageCanBeCommitted(next, p, o);
      run := toIdle + commitOne + more;
      RunThen(s, toIdle + commitOne, more);
    }
  }

  /** Conversely, a message that no run can settle is never committed. */
  lemma UnsettleableIsNeverCommitted(s: State, run: seq<Step>, p: nat, o: nat)
    requires Inv(s) && CanRun(s, run)
    requires p < |s.parts| && o < |s.parts[p].log| && !CanSettleSomehow(s, p, o)
    ensures p < |After(s, run).parts| && After(s, run).parts[p].committed <= o
  {
    RunInv(s, run);
    CommittedNeverGoesBack(s, run, p);
    CommittedSettled(After(s, run));
    assert CommittedIsSettled(After(s, run), p, o);
    if o < After(s, run).parts[p].committed {
      var i :| ProperlyStored(After(s, run), i, p, o);
      assert CanSettle(s, p, o, After(s, run).history[i - 1].how);
    }
  }
}
