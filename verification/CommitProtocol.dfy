/** The commit protocol of pkg/stream/consumer as a system of steps: one consumer of a
    group at a time, a broker that keeps a log and a committed offset per partition, crashes
    at any point, and restarts that resume from the committed offsets.

    Assumed of the environment: a single group member (no rebalance), reads of a partition
    that are in order and without gaps from where the incarnation started, a commit of the
    message at offset `o` that stores `o + 1`, a fresh group at offset 0.

    How the process settles a message is a parameter, `may`: the settlements that processing a
    given message can come to.  Everything here holds of any such rule. */
module CommitProtocol {
  import opened GoErrors
  import opened Message
  import opened Dispatcher

  /** How a message came to be finished with. */
  datatype Settlement = Skipped | Handled(calls: nat) | DeadLettered(record: Record)

  /** One partition: what was produced, the offset stored for the group, and the next offset
      the current incarnation will read. */
  datatype Partition = Partition(log: seq<KafkaMessage>, committed: nat, position: nat)

  /** Where the current incarnation is: between two polls, processing the message at
      `offset`, about to commit it, or stopped by `error`. */
  datatype Phase =
    | Down
    | Idle
    | InFlight(partition: nat, offset: nat)
    | ToCommit(partition: nat, offset: nat)
    | Failed(error: Error)

  /** What an observer of the whole system records. */
  datatype Event =
    | Started
    | Read(partition: nat, offset: nat)
    | Settled(partition: nat, offset: nat, how: Settlement)
    | ProcessFailed(partition: nat, offset: nat, error: Error)
    | Committed(partition: nat, offset: nat)
    | CommitFailed(partition: nat, offset: nat, error: Error, stored: bool)
    | PollFailed(error: Error)
    | Ended(during: Phase)

  type Rule = (KafkaMessage, Settlement) -> bool

  datatype State = State(parts: seq<Partition>, phase: Phase, history: seq<Event>, may: Rule)

  /** The message at `o` of partition `p` can be settled this way. */
  predicate CanSettle(s: State, p: nat, o: nat, how: Settlement) {
    p < |s.parts| && o < |s.parts[p].log| && s.may(s.parts[p].log[o], how)
  }

  /** Steps.  `Produce` and `AddPartition` belong to the rest of the world, `Start` and `End`
      to the process; `End` is a crash or an orderly exit, and may come at any time. */
  datatype Step =
    | Produce(p: nat, message: KafkaMessage)
    | AddPartition
    | Start
    | PollTimesOut
    | PollFails(error: Error)
    | Poll(p: nat)
    | Settle(how: Settlement)
    | FailProcessing(error: Error)
    | Commit
    | FailCommit(error: Error, stored: bool)
    | End

  predicate Enabled(s: State, a: Step) {
    match a
    case Produce(p, _) => p < |s.parts|
    case AddPartition => true
    case Start => s.phase == Down
    case PollTimesOut => s.phase == Idle
    case PollFails(_) => s.phase == Idle
    case Poll(p) => s.phase == Idle && p < |s.parts| && s.parts[p].position < |s.parts[p].log|
    case Settle(how) => s.phase.InFlight? && CanSettle(s, s.phase.partition, s.phase.offset, how)
    case FailProcessing(_) => s.phase.InFlight?
    case Commit => s.phase.ToCommit? && s.phase.partition < |s.parts|
    case FailCommit(_, _) => s.phase.ToCommit? && s.phase.partition < |s.parts|
    case End => s.phase != Down
  }

  function StoreCommit(parts: seq<Partition>, p: nat, o: nat): seq<Partition>
    requires p < |parts|
  {
    parts[p := parts[p].(committed := o + 1)]
  }

  function PartsAfter(s: State, a: Step): seq<Partition>
    requires Enabled(s, a)
  {
    match a
    case Produce(p, message) => s.parts[p := s.parts[p].(log := s.parts[p].log + [message])]
    case AddPartition => s.parts + [Partition([], 0, 0)]
    case Start =>
      seq(|s.parts|, i requires 0 <= i < |s.parts| => s.parts[i].(position := s.parts[i].committed))
    case Poll(p) => s.parts[p := s.parts[p].(position := s.parts[p].position + 1)]
    case Commit => StoreCommit(s.parts, s.phase.partition, s.phase.offset)
    case FailCommit(_, stored) =>
      if stored then StoreCommit(s.parts, s.phase.partition, s.phase.offset) else s.parts
    case _ => s.parts
  }

  function PhaseAfter(s: State, a: Step): Phase
    requires Enabled(s, a)
  {
    match a
    case Start => Idle
    case Poll(p) => InFlight(p, s.parts[p].position)
    case Settle(_) => ToCommit(s.phase.partition, s.phase.offset)
    case Commit => Idle
    case PollFails(error) => Failed(error)
    case FailProcessing(error) => Failed(error)
    case FailCommit(error, _) => Failed(error)
    case End => Down
    case _ => s.phase
  }

  /** What a step adds to the history: one event, or none. */
  function Observed(s: State, a: Step): (events: seq<Event>)
    requires Enabled(s, a)
    ensures |events| <= 1
  {
    match a
    case Start => [Started]
    case Poll(p) => [Read(p, s.parts[p].position)]
    case Settle(how) => [Settled(s.phase.partition, s.phase.offset, how)]
    case Commit => [Committed(s.phase.partition, s.phase.offset)]
    case PollFails(error) => [PollFailed(error)]
    case FailProcessing(error) => [ProcessFailed(s.phase.partition, s.phase.offset, error)]
    case FailCommit(error, stored) => [CommitFailed(s.phase.partition, s.phase.offset, error, stored)]
    case End => [Ended(s.phase)]
    case _ => []
  }

  function Next(s: State, a: Step): State
    requires Enabled(s, a)
  {
    State(PartsAfter(s, a), PhaseAfter(s, a), s.history + Observed(s, a), s.may)
  }

  /** A fresh group on a topic whose partitions already hold some messages. */
  predicate Initial(s: State) {
    && s.phase == Down
    && s.history == []
    && forall p :: 0 <= p < |s.parts| ==> s.parts[p].committed == 0
  }

  predicate CanRun(s: State, run: seq<Step>)
    decreases |run|
  {
    run == [] || (Enabled(s, run[0]) && CanRun(Next(s, run[0]), run[1..]))
  }

  function After(s: State, run: seq<Step>): State
    requires CanRun(s, run)
    decreases |run|
  {
    if run == [] then s else After(Next(s, run[0]), run[1..])
  }

  // ----- Counting events -----

  /** The kinds of event that are counted: a commit the broker stored, whether or not the
      consumer was told so; a `processMessage` that ran to its end, well or badly; such a call
      whose message stays uncommitted when the incarnation ends; the start of an incarnation. */
  datatype Kind =
    | StoresOf(p: nat)
    | CompletionsOf(p: nat, o: nat)
    | WasteOf(p: nat, o: nat)
    | AllCompletions
    | AllWaste
    | AllStarts

  predicate Stores(e: Event, p: nat) {
    (e.Committed? || (e.CommitFailed? && e.stored)) && e.partition == p
  }

  predicate Completes(e: Event) {
    e.Settled? || e.ProcessFailed?
  }

  predicate Wastes(e: Event) {
    e.ProcessFailed? || (e.CommitFailed? && !e.stored) || (e.Ended? && e.during.ToCommit?)
  }

  predicate About(e: Event, p: nat, o: nat) {
    match e
    case Started => false
    case PollFailed(_) => false
    case Ended(during) => during == ToCommit(p, o)
    case _ => e.partition == p && e.offset == o
  }

  predicate OfKind(e: Event, kind: Kind) {
    match kind
    case StoresOf(p) => Stores(e, p)
    case CompletionsOf(p, o) => Completes(e) && About(e, p, o)
    case WasteOf(p, o) => Wastes(e) && About(e, p, o)
    case AllCompletions => Completes(e)
    case AllWaste => Wastes(e)
    case AllStarts => e.Started?
  }

  /** The events of a kind among the first `n`. */
  function CountIn(h: seq<Event>, n: nat, kind: Kind): nat
    requires n <= |h|
  {
    if n == 0 then 0 else CountIn(h, n - 1, kind) + if OfKind(h[n - 1], kind) then 1 else 0
  }

  function Count(h: seq<Event>, kind: Kind): nat {
    CountIn(h, |h|, kind)
  }

  /** What `events`, none or one, add to a count. */
  function Adds(events: seq<Event>, kind: Kind): nat {
    if events != [] && OfKind(events[0], kind) then 1 else 0
  }

  lemma {:induction false} CountPrefix(h: seq<Event>, h': seq<Event>, n: nat, kind: Kind)
    requires n <= |h| && n <= |h'|
    requires forall i :: 0 <= i < n ==> h[i] == h'[i]
    ensures CountIn(h, n, kind) == CountIn(h', n, kind)
  {
    if n > 0 {
      CountPrefix(h, h', n - 1, kind);
    }
  }

  lemma CountPush(h: seq<Event>, events: seq<Event>, kind: Kind)
    requires |events| <= 1
    ensures Count(h + events, kind) == Count(h, kind) + Adds(events, kind)
  {
    CountPrefix(h, h + events, |h|, kind);
  }

  function SumCommitted(parts: seq<Partition>): nat {
    if parts == [] then 0 else SumCommitted(parts[..|parts| - 1]) + parts[|parts| - 1].committed
  }

  // ----- The invariant -----

  /** The phase an incarnation is in after its latest event. */
  predicate LeavesIn(e: Event, phase: Phase) {
    match e
    case Started => phase == Idle
    case Read(p, o) => phase == InFlight(p, o)
    case Settled(p, o, _) => phase == ToCommit(p, o)
    case ProcessFailed(_, _, error) => phase == Failed(error)
    case Committed(_, _) => phase == Idle
    case CommitFailed(_, _, error, _) => phase == Failed(error)
    case PollFailed(error) => phase == Failed(error)
    case Ended(_) => phase == Down
  }

  /** Which event may come right after which: the shape of every history. */
  predicate Follows(e: Event, next: Event) {
    match next
    case Started => e.Ended?
    case Read(_, _) => e.Started? || e.Committed?
    case Settled(p, o, _) => e == Read(p, o)
    case ProcessFailed(p, o, _) => e == Read(p, o)
    case Committed(p, o) => e.Settled? && e.partition == p && e.offset == o
    case CommitFailed(p, o, _, _) => e.Settled? && e.partition == p && e.offset == o
    case PollFailed(_) => e.Started? || e.Committed?
    case Ended(during) => !e.Ended? && LeavesIn(e, during)
  }

  ghost predicate Grammar(h: seq<Event>) {
    && (h != [] ==> h[0] == Started)
    && forall i :: 0 < i < |h| ==> Follows(h[i - 1], h[i])
  }

  /** A read or a stored commit of a partition is always of the offset that counts the
      commits stored for it before: nothing skipped, nothing out of order. */
  ghost predicate Offsets(h: seq<Event>) {
    forall i :: 0 <= i < |h| && (h[i].Read? || h[i].Committed? || h[i].CommitFailed?) ==>
                  h[i].offset == CountIn(h, i, StoresOf(h[i].partition))
  }

  /** No partition but `q` was read past its committed offset, and `q` by one message at most. */
  ghost predicate AtMostAhead(s: State, q: nat) {
    forall p :: 0 <= p < |s.parts| ==>
                  s.parts[p].committed <= s.parts[p].position <= s.parts[p].committed + if p == q then 1 else 0
  }

  /** Exactly one message is read and uncommitted: the one at `o` in partition `q`. */
  ghost predicate Holds(s: State, q: nat, o: nat) {
    && q < |s.parts|
    && s.parts[q].committed == o
    && s.parts[q].position == o + 1 <= |s.parts[q].log|
    && forall p :: 0 <= p < |s.parts| && p != q ==> s.parts[p].position == s.parts[p].committed
  }

  ghost predicate Positions(s: State) {
    && (forall p :: 0 <= p < |s.parts| ==> s.parts[p].committed <= |s.parts[p].log|)
    && match s.phase
       case Idle => forall p :: 0 <= p < |s.parts| ==> s.parts[p].position == s.parts[p].committed
       case InFlight(q, o) => Holds(s, q, o)
       case ToCommit(q, o) => Holds(s, q, o)
       case Failed(_) => exists q: nat :: AtMostAhead(s, q)
       case Down => true
  }

  /** The history ends in the present phase. */
  ghost predicate Present(h: seq<Event>, phase: Phase) {
    if h == [] then phase == Down else LeavesIn(h[|h| - 1], phase)
  }

  /** The committed offset of a partition counts the commits stored for it. */
  ghost predicate Counted(parts: seq<Partition>, h: seq<Event>) {
    && (forall p :: 0 <= p < |parts| ==> parts[p].committed == Count(h, StoresOf(p)))
    && (forall p :: |parts| <= p ==> Count(h, StoresOf(p)) == 0)
  }

  /** Every settlement in the history is one that the message at its offset can come to. */
  ghost predicate Justified(s: State) {
    forall i :: 0 <= i < |s.history| && s.history[i].Settled? ==>
                  CanSettle(s, s.history[i].partition, s.history[i].offset, s.history[i].how)
  }

  ghost predicate Inv(s: State) {
    && Positions(s)
    && Grammar(s.history)
    && Offsets(s.history)
    && Present(s.history, s.phase)
    && Counted(s.parts, s.history)
    && Justified(s)
  }

  /** An event that fits after the latest one keeps the history's shape. */
  lemma PushEvent(h: seq<Event>, e: Event)
    requires Grammar(h) && Offsets(h)
    requires if h == [] then e == Started else Follows(h[|h| - 1], e)
    requires e.Read? || e.Committed? || e.CommitFailed? ==> e.offset == Count(h, StoresOf(e.partition))
    ensures Grammar(h + [e]) && Offsets(h + [e])
  {
    var h' := h + [e];
    forall i | 0 <= i < |h'| && (h'[i].Read? || h'[i].Committed? || h'[i].CommitFailed?)
      ensures h'[i].offset == CountIn(h', i, StoresOf(h'[i].partition))
    {
      CountPrefix(h, h', i, StoresOf(h'[i].partition));
    }
  }

  lemma InitialInv(s: State)
    requires Initial(s)
    ensures Inv(s)
  {
  }

  lemma NextPositions(s: State, a: Step)
    requires Positions(s) && Enabled(s, a)
    ensures Positions(Next(s, a))
  {
    var s' := Next(s, a);
    match s.phase
    case Idle => assert s'.phase.Failed? ==> AtMostAhead(s', 0);
    case InFlight(q, _) => assert s'.phase.Failed? ==> AtMostAhead(s', q);
    case ToCommit(q, _) => assert s'.phase.Failed? ==> AtMostAhead(s', q);
    case Failed(_) =>
      var q: nat :| AtMostAhead(s, q);
      assert s'.phase.Failed? ==> AtMostAhead(s', q);
    case Down =>
  }

  /** The event of a step fits after the present phase, and leads to the next one. */
  lemma ObservedFits(s: State, a: Step)
    requires Positions(s) && Enabled(s, a) && Present(s.history, s.phase)
    requires Counted(s.parts, s.history)
    requires Observed(s, a) != []
    ensures var (h, e) := (s.history, Observed(s, a)[0]);
            && (if h == [] then e == Started else Follows(h[|h| - 1], e))
            && (e.Read? || e.Committed? || e.CommitFailed? ==> e.offset == Count(h, StoresOf(e.partition)))
            && LeavesIn(e, PhaseAfter(s, a))
  {
  }

  /** A step adds to the committed offset of a partition what its event adds to the count. */
  lemma CommitsCounted(s: State, a: Step, p: nat)
    requires Positions(s) && Enabled(s, a) && p < |PartsAfter(s, a)|
    ensures PartsAfter(s, a)[p].committed ==
            (if p < |s.parts| then s.parts[p].committed else 0) + Adds(Observed(s, a), StoresOf(p))
  {
  }

  lemma CountedPush(parts: seq<Partition>, parts': seq<Partition>, h: seq<Event>, events: seq<Event>)
    requires |events| <= 1 && |parts| <= |parts'| && Counted(parts, h)
    requires forall p :: 0 <= p < |parts'| ==>
               parts'[p].committed == (if p < |parts| then parts[p].committed else 0) + Adds(events, StoresOf(p))
    requires forall p: nat :: |parts'| <= p ==> Adds(events, StoresOf(p)) == 0
    ensures Counted(parts', h + events)
  {
    forall p: nat
      ensures Count(h + events, StoresOf(p)) == Count(h, StoresOf(p)) + Adds(events, StoresOf(p))
    {
      CountPush(h, events, StoresOf(p));
    }
  }

  lemma CountedNext(s: State, a: Step)
    requires Positions(s) && Enabled(s, a) && Counted(s.parts, s.history)
    ensures Counted(PartsAfter(s, a), s.history + Observed(s, a))
  {
    var (parts', events) := (PartsAfter(s, a), Observed(s, a));
    assert |s.parts| <= |parts'|;
    forall p | 0 <= p < |parts'|
      ensures parts'[p].committed == (if p < |s.parts| then s.parts[p].committed else 0) + Adds(events, StoresOf(p))
    {
      CommitsCounted(s, a, p);
    }
    CountedPush(s.parts, parts', s.history, events);
  }

  /** Logs only grow, so what could be settled at an offset still can. */
  lemma StillSettles(s: State, a: Step, p: nat, o: nat, how: Settlement)
    requires Enabled(s, a) && CanSettle(s, p, o, how)
    ensures CanSettle(Next(s, a), p, o, how)
  {
  }

  lemma NextJustified(s: State, a: Step)
    requires Enabled(s, a) && Justified(s)
    ensures Justified(Next(s, a))
  {
    var h := Next(s, a).history;
    forall i | 0 <= i < |h| && h[i].Settled?
      ensures CanSettle(Next(s, a), h[i].partition, h[i].offset, h[i].how)
    {
      assert i < |s.history| ==> h[i] == s.history[i];
      StillSettles(s, a, h[i].partition, h[i].offset, h[i].how);
    }
  }

  lemma NextInv(s: State, a: Step)
    requires Inv(s) && Enabled(s, a)
    ensures Inv(Next(s, a))
  {
    NextPositions(s, a);
    CountedNext(s, a);
    NextJustified(s, a);
    if Observed(s, a) == [] {
      assert Next(s, a).history == s.history;
    } else {
      ObservedFits(s, a);
      PushEvent(s.history, Observed(s, a)[0]);
      assert Next(s, a).history == s.history + [Observed(s, a)[0]];
    }
  }

  lemma {:induction false} RunInv(s: State, run: seq<Step>)
    requires Inv(s) && CanRun(s, run)
    ensures Inv(After(s, run)) && After(s, run).may == s.may
    decreases |run|
  {
    if run != [] {
      NextInv(s, run[0]);
      RunInv(Next(s, run[0]), run[1..]);
    }
  }
}
