/** One round of the poll loop, many, and many incarnations, as steps of the commit protocol. */
module Rounds {
  import opened GoErrors
  import opened Message
  import opened Processing
  import Dispatcher
  import P = CommitProtocol
  import G = CommitGuarantees

  /** One answer of the driver to `ReadMessage`: an error, or the next message of partition
      `p`; a partition with nothing left to read times out. */
  datatype PollReply = PollError(error: Error) | Polled(p: nat)

  /** The answer to `CommitMessage`; an error may come after the broker stored the commit. */
  datatype CommitReply = CommitOk | CommitError(error: Error, stored: bool)

  datatype Iteration = Iteration(poll: PollReply, reaction: Reaction, commit: CommitReply)

  predicate IsTimeout(e: Error) {
    match As(e, KAFKA_BY_VALUE)
    case Some(k) => k.kafkaCode == TimedOut
    case None => false
  }

  /** The message this poll returns. */
  function Fetched(parts: seq<P.Partition>, poll: PollReply): Option<KafkaMessage> {
    if poll.Polled? && poll.p < |parts| && parts[poll.p].position < |parts[poll.p].log|
    then Some(parts[poll.p].log[parts[poll.p].position])
    else None
  }

  function CommitStep(reply: CommitReply): P.Step {
    if reply.CommitOk? then P.Commit else P.FailCommit(reply.error, reply.stored)
  }

  predicate Looping(phase: P.Phase) {
    phase == P.Idle || phase.Failed?
  }

  predicate CanProcess(read: P.State, o: Outcome) {
    && read.phase.InFlight? && read.phase.partition < |read.parts|
    && (o.Finished? ==> P.CanSettle(read, read.phase.partition, read.phase.offset, o.how))
  }

  function Processed(read: P.State, o: Outcome, commit: CommitReply): P.State
    requires CanProcess(read, o)
  {
    match o
    case Broken(error) => P.Next(read, P.FailProcessing(error))
    case Finished(how) => P.Next(P.Next(read, P.Settle(how)), CommitStep(commit))
  }

  /** The state after one `readMessage`: a time-out changes nothing; a message is read, and
      committed if and only if it was settled. */
  ghost function RoundAfter<T>(c: Codec<T>, topic: string, s: P.State, it: Iteration): (r: P.State)
    requires s.phase == P.Idle && Terminating(it.reaction) && Exact(c, topic, s.may)
    ensures r.may == s.may && Looping(r.phase)
  {
    match Fetched(s.parts, it.poll)
    case Some(m) =>
      OutcomeIsAllowed(c, topic, s.may, m, it.reaction);
      Processed(P.Next(s, P.Poll(it.poll.p)), OutcomeOf(c, topic, m, it.reaction), it.commit)
    case None =>
      if it.poll.PollError? && !IsTimeout(it.poll.error) then P.Next(s, P.PollFails(it.poll.error))
      else P.Next(s, P.PollTimesOut)
  }

  /** What a round does outside the process. */
  ghost function EffectsFor<T>(c: Codec<T>, topic: string, m: Option<KafkaMessage>, r: Reaction): Effects<T>
    requires Terminating(r)
  {
    if m.None? then Nothing() else EffectsOf(c, topic, m.value, r)
  }

  /** The protocol's state, and all that was done outside the process so far. */
  datatype Progress<T> = Progress(now: P.State, done: Effects<T>)

  ghost predicate AllTerminating(its: seq<Iteration>) {
    forall i :: 0 <= i < |its| ==> Terminating(its[i].reaction)
  }

  /** After one more round, unless one has failed. */
  ghost function Advance<T>(c: Codec<T>, topic: string, g: Progress<T>, it: Iteration): (r: Progress<T>)
    requires Looping(g.now.phase) && Terminating(it.reaction) && Exact(c, topic, g.now.may)
    ensures r.now.may == g.now.may && Looping(r.now.phase)
  {
    if g.now.phase.Failed? then g else
    Progress(RoundAfter(c, topic, g.now, it),
             g.done.Then(EffectsFor(c, topic, Fetched(g.now.parts, it.poll), it.reaction)))
  }

  /** After the rounds `i` and on; a failed one is the last that does anything. */
  ghost function AfterRounds<T>(c: Codec<T>, topic: string, g: Progress<T>, its: seq<Iteration>, i: nat): (r: Progress<T>)
    requires i <= |its| && Looping(g.now.phase) && AllTerminating(its) && Exact(c, topic, g.now.may)
    ensures r.now.may == g.now.may && Looping(r.now.phase)
    decreases |its| - i
  {
    if i == |its| then g else AfterRounds(c, topic, Advance(c, topic, g, its[i]), its, i + 1)
  }

  /** After a failed round nothing more happens: no read, no call of the handler, no dispatch,
      no commit. */
  lemma {:induction false} RoundsStop<T>(c: Codec<T>, topic: string, g: Progress<T>, its: seq<Iteration>, i: nat)
    requires i <= |its| && g.now.phase.Failed? && AllTerminating(its) && Exact(c, topic, g.now.may)
    ensures AfterRounds(c, topic, g, its, i) == g
    decreases |its| - i
  {
    if i < |its| {
      RoundsStop(c, topic, g, its, i + 1);
    }
  }

  lemma AllTerminatingBoth(a: seq<Iteration>, b: seq<Iteration>)
    requires AllTerminating(a) && AllTerminating(b)
    ensures AllTerminating(a + b)
  {
  }

  lemma {:induction false} LaterRounds<T>(c: Codec<T>, topic: string, g: Progress<T>, all: seq<Iteration>, n: nat,
                                          b: seq<Iteration>, j: nat)
    requires j <= |b| && |all| == n + |b| && forall k :: 0 <= k < |b| ==> all[n + k] == b[k]
    requires Looping(g.now.phase) && AllTerminating(all) && AllTerminating(b) && Exact(c, topic, g.now.may)
    ensures AfterRounds(c, topic, g, all, n + j) == AfterRounds(c, topic, g, b, j)
    decreases |b| - j
  {
    if j < |b| {
      LaterRounds(c, topic, Advance(c, topic, g, b[j]), all, n, b, j + 1);
    }
  }

  /** Rounds are made one by one and in order: a loop of one round is that round, and a longer
      one is its first part and then, from where that led, the rest. */
  lemma {:induction false} LoopsCompose<T>(c: Codec<T>, topic: string, g: Progress<T>, a: seq<Iteration>, b: seq<Iteration>, i: nat)
    requires i <= |a| && Looping(g.now.phase) && AllTerminating(a) && AllTerminating(b) && Exact(c, topic, g.now.may)
    ensures AllTerminating(a + b)
    ensures AfterRounds(c, topic, g, a + b, i) == AfterRounds(c, topic, AfterRounds(c, topic, g, a, i), b, 0)
    ensures i + 1 == |a| ==> AfterRounds(c, topic, g, a, i) == Advance(c, topic, g, a[i])
    decreases |a| - i
  {
    AllTerminatingBoth(a, b);
    if i < |a| {
      assert (a + b)[i] == a[i];
      LoopsCompose(c, topic, Advance(c, topic, g, a[i]), a, b, i + 1);
    } else {
      LaterRounds(c, topic, g, a + b, |a|, b, 0);
    }
  }

  // ----- What the errors of a round are -----

  /** A round that fetches a message reads it, and does outside what the message and the reaction
      say.  It fails with the error of the dead letter, leaving the offset as it was, or settles
      the message and commits it, moving the offset past it if the broker stored that, and failing
      with the error of the commit, if any. */
  lemma RoundOutcomes<T>(c: Codec<T>, topic: string, g: Progress<T>, it: Iteration, m: KafkaMessage, o: nat)
    requires P.Positions(g.now) && g.now.phase == P.Idle && Terminating(it.reaction) && Exact(c, topic, g.now.may)
    requires Fetched(g.now.parts, it.poll) == Some(m) && o == g.now.parts[it.poll.p].committed
    ensures var (r, out, p) := (Advance(c, topic, g, it), OutcomeOf(c, topic, m, it.reaction), it.poll.p);
            && m == g.now.parts[p].log[o]
            && r.done == g.done.Then(EffectsOf(c, topic, m, it.reaction))
            && |r.now.parts| == |g.now.parts| && r.now.parts[p].position == o + 1
            && (forall q :: 0 <= q < |g.now.parts| && q != p ==> r.now.parts[q] == g.now.parts[q])
            && (out.Broken? ==>
                  && r.now.phase == P.Failed(out.error) && r.now.parts[p].committed == o
                  && r.now.history == g.now.history + [P.Read(p, o), P.ProcessFailed(p, o, out.error)])
            && (out.Finished? && it.commit.CommitOk? ==>
                  && r.now.phase == P.Idle && r.now.parts[p].committed == o + 1
                  && r.now.history == g.now.history + [P.Read(p, o), P.Settled(p, o, out.how), P.Committed(p, o)])
            && (out.Finished? && it.commit.CommitError? ==>
                  && r.now.phase == P.Failed(it.commit.error)
                  && r.now.parts[p].committed == (if it.commit.stored then o + 1 else o)
                  && r.now.history == g.now.history + [P.Read(p, o), P.Settled(p, o, out.how),
                                                       P.CommitFailed(p, o, it.commit.error, it.commit.stored)])
  {
    OutcomeIsAllowed(c, topic, g.now.may, m, it.reaction);
  }

  /** A round that fetches nothing does nothing outside. */
  lemma NothingFetched<T>(c: Codec<T>, topic: string, g: Progress<T>, it: Iteration)
    requires g.now.phase == P.Idle && Terminating(it.reaction) && Exact(c, topic, g.now.may)
    requires Fetched(g.now.parts, it.poll) == None
    ensures Advance(c, topic, g, it).done == g.done
    ensures it.poll.Polled? ==> Advance(c, topic, g, it).now == g.now
  {
  }

  /** A poll error is passed over exactly when the first Kafka error in it is a time-out; any
      other stops the incarnation with that very error. */
  lemma PollErrors<T>(c: Codec<T>, topic: string, s: P.State, it: Iteration)
    requires s.phase == P.Idle && Terminating(it.reaction) && Exact(c, topic, s.may)
    requires it.poll.PollError?
    ensures var (e, r) := (it.poll.error, RoundAfter(c, topic, s, it));
            if As(e, KAFKA_BY_VALUE).Some? && As(e, KAFKA_BY_VALUE).value.kafkaCode == TimedOut
            then r == s
            else r.phase == P.Failed(e) && r.parts == s.parts && r.history == s.history + [P.PollFailed(e)]
  {
  }

  /** So a broker that is down stops the loop, a time-out by pointer too, and a wrapped time-out
      does not. */
  lemma PollErrorsByExample<T>(c: Codec<T>, topic: string, s: P.State, it: Iteration, code: int, text: string)
    requires s.phase == P.Idle && Terminating(it.reaction) && Exact(c, topic, s.may)
    requires it.poll.PollError?
    ensures var (e, r) := (it.poll.error, RoundAfter(c, topic, s, it));
            && (e == Kafka(OtherCode(code), false, text) ==> r.phase == P.Failed(e))
            && (e == Kafka(MsgTimedOut, false, text) ==> r.phase == P.Failed(e))
            && (e == Kafka(TimedOut, true, text) ==> r.phase == P.Failed(e))
            && (e == Wrap(Kafka(TimedOut, false, text), "poll") ==> r == s)
            && (e == Kafka(TimedOut, false, text) ==> r == s)
  {
    PollErrors(c, topic, s, it);
    KafkaErrorsByValue(OtherCode(code), text, "poll");
    KafkaErrorsByValue(MsgTimedOut, text, "poll");
    KafkaErrorsByValue(TimedOut, text, "poll");
  }

  // ----- Rounds are runs of the commit protocol -----

  lemma OneStep(s: P.State, a: P.Step)
    requires P.Enabled(s, a)
    ensures P.CanRun(s, [a]) && P.After(s, [a]) == P.Next(s, a)
  {
    assert [a][1..] == [];
  }

  lemma OneMoreStep(s: P.State, run: seq<P.Step>, a: P.Step)
    requires P.CanRun(s, run) && P.Enabled(P.After(s, run), a)
    ensures P.CanRun(s, run + [a]) && P.After(s, run + [a]) == P.Next(P.After(s, run), a)
  {
    OneStep(P.After(s, run), a);
    G.RunThen(s, run, [a]);
  }

  lemma ProcessedIsARun(read: P.State, o: Outcome, commit: CommitReply) returns (run: seq<P.Step>)
    requires CanProcess(read, o)
    ensures P.CanRun(read, run) && P.After(read, run) == Processed(read, o, commit)
  {
    match o
    case Broken(error) =>
      run := [P.FailProcessing(error)];
      OneStep(read, run[0]);
    case Finished(how) =>
      OneStep(read, P.Settle(how));
      OneMoreStep(read, [P.Settle(how)], CommitStep(commit));
      run := [P.Settle(how)] + [CommitStep(commit)];
  }

  lemma RoundIsARun<T>(c: Codec<T>, topic: string, s: P.State, it: Iteration) returns (run: seq<P.Step>)
    requires s.phase == P.Idle && Terminating(it.reaction) && Exact(c, topic, s.may)
    ensures P.CanRun(s, run) && P.After(s, run) == RoundAfter(c, topic, s, it)
  {
    match Fetched(s.parts, it.poll)
    case Some(m) =>
      OutcomeIsAllowed(c, topic, s.may, m, it.reaction);
      OneStep(s, P.Poll(it.poll.p));
      var rest := ProcessedIsARun(P.Next(s, P.Poll(it.poll.p)), OutcomeOf(c, topic, m, it.reaction), it.commit);
      G.RunThen(s, [P.Poll(it.poll.p)], rest);
      run := [P.Poll(it.poll.p)] + rest;
    case None =>
      run := [if it.poll.PollError? && !IsTimeout(it.poll.error) then P.PollFails(it.poll.error) else P.PollTimesOut];
      OneStep(s, run[0]);
  }

  /** Any number of rounds is a run of the commit protocol, so they keep all it guarantees. */
  lemma {:induction false} RoundsAreARun<T>(c: Codec<T>, topic: string, g: Progress<T>, its: seq<Iteration>, i: nat)
    returns (run: seq<P.Step>)
    requires i <= |its| && Looping(g.now.phase) && AllTerminating(its) && Exact(c, topic, g.now.may)
    ensures P.CanRun(g.now, run) && P.After(g.now, run) == AfterRounds(c, topic, g, its, i).now
    decreases |its| - i
  {
    if i == |its| {
      run := [];
    } else {
      run := RoundsAreARun(c, topic, Advance(c, topic, g, its[i]), its, i + 1);
      if g.now.phase == P.Idle {
        var round := RoundIsARun(c, topic, g.now, its[i]);
        G.RunThen(g.now, round, run);
        run := round + run;
      }
    }
  }

  // ----- The history says what happened -----

  /** What an event claims of the message it is about. */
  function EventClaim<T>(c: Codec<T>, parts: seq<P.Partition>, e: P.Event): Tally<T> {
    if e.Settled? && e.partition < |parts| && e.offset < |parts[e.partition].log|
    then Claim(c, parts[e.partition].log[e.offset], e.how) else NoTally()
  }

  function ClaimsIn<T>(c: Codec<T>, parts: seq<P.Partition>, h: seq<P.Event>, n: nat): Tally<T>
    requires n <= |h|
  {
    if n == 0 then NoTally() else ClaimsIn(c, parts, h, n - 1).Plus(EventClaim(c, parts, h[n - 1]))
  }

  /** All that a history claims was skipped, handled and dead-lettered. */
  function Claims<T>(c: Codec<T>, s: P.State): Tally<T> {
    ClaimsIn(c, s.parts, s.history, |s.history|)
  }

  lemma {:induction false} ClaimsStay<T>(c: Codec<T>, s: P.State, t: P.State, n: nat)
    requires P.Justified(s) && n <= |s.history| <= |t.history|
    requires forall i :: 0 <= i < n ==> s.history[i] == t.history[i]
    requires |s.parts| <= |t.parts| && forall p :: 0 <= p < |s.parts| ==> s.parts[p].log <= t.parts[p].log
    ensures ClaimsIn(c, t.parts, t.history, n) == ClaimsIn(c, s.parts, s.history, n)
    decreases n
  {
    if n > 0 {
      ClaimsStay(c, s, t, n - 1);
    }
  }

  lemma LogsGrow(s: P.State, a: P.Step)
    requires P.Enabled(s, a)
    ensures var t := P.Next(s, a);
            |s.parts| <= |t.parts| && forall p :: 0 <= p < |s.parts| ==> s.parts[p].log <= t.parts[p].log
  {
  }

  /** Only a settlement adds to the claims, and it adds what it claims. */
  lemma ClaimsNext<T>(c: Codec<T>, s: P.State, a: P.Step)
    requires P.Justified(s) && P.Enabled(s, a)
    ensures P.Justified(P.Next(s, a))
    ensures Claims(c, P.Next(s, a)) ==
            if a.Settle? then Claims(c, s).Plus(Claim(c, s.parts[s.phase.partition].log[s.phase.offset], a.how))
            else Claims(c, s)
  {
    var t := P.Next(s, a);
    P.NextJustified(s, a);
    LogsGrow(s, a);
    ClaimsStay(c, s, t, |s.history|);
    PlusAssociates(Claims(c, s), NoTally(), NoTally());
    if P.Observed(s, a) == [] {
      assert t.history == s.history;
    } else {
      assert t.history == s.history + [P.Observed(s, a)[0]];
    }
  }

  lemma ProcessedClaims<T>(c: Codec<T>, read: P.State, o: Outcome, commit: CommitReply)
    requires CanProcess(read, o) && P.Justified(read)
    ensures P.Justified(Processed(read, o, commit))
    ensures Claims(c, Processed(read, o, commit)) ==
            if o.Broken? then Claims(c, read)
            else Claims(c, read).Plus(Claim(c, read.parts[read.phase.partition].log[read.phase.offset], o.how))
  {
    match o
    case Broken(error) => ClaimsNext(c, read, P.FailProcessing(error));
    case Finished(how) =>
      ClaimsNext(c, read, P.Settle(how));
      ClaimsNext(c, P.Next(read, P.Settle(how)), CommitStep(commit));
  }

  lemma RoundClaims<T>(c: Codec<T>, topic: string, s: P.State, it: Iteration)
    requires s.phase == P.Idle && Terminating(it.reaction) && Exact(c, topic, s.may) && P.Justified(s)
    ensures P.Justified(RoundAfter(c, topic, s, it))
    ensures Claims(c, RoundAfter(c, topic, s, it)) ==
            Claims(c, s).Plus(TallyOf(EffectsFor(c, topic, Fetched(s.parts, it.poll), it.reaction)))
  {
    PlusAssociates(Claims(c, s), NoTally(), NoTally());
    match Fetched(s.parts, it.poll)
    case Some(m) =>
      OutcomeIsAllowed(c, topic, s.may, m, it.reaction);
      ClaimsNext(c, s, P.Poll(it.poll.p));
      ProcessedClaims(c, P.Next(s, P.Poll(it.poll.p)), OutcomeOf(c, topic, m, it.reaction), it.commit);
      OutcomeIsExact(c, topic, m, it.reaction);
    case None =>
      ClaimsNext(c, s, if it.poll.PollError? && !IsTimeout(it.poll.error) then P.PollFails(it.poll.error)
                       else P.PollTimesOut);
  }

  /** The invariant of the whole system.  Besides the protocol's: what the history claims is what
      happened.  The messages it calls skipped, handled and dead-lettered are, in order, exactly
      those whose contents were skipped, were given to a `Handle` call that returned nil, or
      whose dead letters arrived. */
  ghost predicate Sound<T>(c: Codec<T>, topic: string, g: Progress<T>) {
    P.Inv(g.now) && Exact(c, topic, g.now.may) && Claims(c, g.now) == TallyOf(g.done)
  }

  lemma AdvanceIsSound<T>(c: Codec<T>, topic: string, g: Progress<T>, it: Iteration)
    requires Sound(c, topic, g) && Looping(g.now.phase) && Terminating(it.reaction)
    ensures Sound(c, topic, Advance(c, topic, g, it))
  {
    if g.now.phase == P.Idle {
      var run := RoundIsARun(c, topic, g.now, it);
      P.RunInv(g.now, run);
      RoundClaims(c, topic, g.now, it);
      TallyThen(g.done, EffectsFor(c, topic, Fetched(g.now.parts, it.poll), it.reaction));
    }
  }

  lemma {:induction false} RoundsAreSound<T>(c: Codec<T>, topic: string, g: Progress<T>, its: seq<Iteration>, i: nat)
    requires i <= |its| && Sound(c, topic, g) && Looping(g.now.phase) && AllTerminating(its)
    ensures Sound(c, topic, AfterRounds(c, topic, g, its, i))
    decreases |its| - i
  {
    if i < |its| {
      AdvanceIsSound(c, topic, g, its[i]);
      RoundsAreSound(c, topic, Advance(c, topic, g, its[i]), its, i + 1);
    }
  }

  // ----- Incarnations -----

  /** One process: it fails to subscribe, or makes some rounds and then ends. */
  datatype Life = Life(subscribeError: Option<Error>, rounds: seq<Iteration>)

  ghost function Started<T>(g: Progress<T>): Progress<T>
    requires g.now.phase == P.Down
  {
    g.(now := P.Next(g.now, P.Start))
  }

  ghost function Ended<T>(g: Progress<T>): Progress<T> {
    if g.now.phase == P.Down then g else g.(now := P.Next(g.now, P.End))
  }

  ghost function AfterLife<T>(c: Codec<T>, topic: string, g: Progress<T>, life: Life): (r: Progress<T>)
    requires g.now.phase == P.Down && AllTerminating(life.rounds) && Exact(c, topic, g.now.may)
    ensures r.now.may == g.now.may
    ensures if life.subscribeError.Some? then r == g else Looping(r.now.phase)
  {
    if life.subscribeError.Some? then g
    else AfterRounds(c, topic, Started(g), life.rounds, 0)
  }

  ghost predicate AllLivesTerminating(lives: seq<Life>) {
    forall i :: 0 <= i < |lives| ==> AllTerminating(lives[i].rounds)
  }

  /** After the first `n` processes, one after the other, each of which has ended. */
  ghost function AfterLives<T>(c: Codec<T>, topic: string, g: Progress<T>, lives: seq<Life>, n: nat): (r: Progress<T>)
    requires n <= |lives| && g.now.phase == P.Down && AllLivesTerminating(lives) && Exact(c, topic, g.now.may)
    ensures r.now.phase == P.Down && r.now.may == g.now.may
  {
    if n == 0 then g else Ended(AfterLife(c, topic, AfterLives(c, topic, g, lives, n - 1), lives[n - 1]))
  }

  /** A process resumes every partition from its committed offset. */
  lemma StartsFromCommitted<T>(g: Progress<T>)
    requires g.now.phase == P.Down
    ensures var r := Started(g);
            && r.done == g.done && r.now.phase == P.Idle && r.now.history == g.now.history + [P.Started]
            && |r.now.parts| == |g.now.parts|
            && forall p :: 0 <= p < |g.now.parts| ==>
                 r.now.parts[p] == g.now.parts[p].(position := g.now.parts[p].committed)
  {
  }

  /** A process makes all its rounds: with none it has just started, and with more it goes on
      from where the first ones led. */
  lemma LivesCompose<T>(c: Codec<T>, topic: string, g: Progress<T>, a: seq<Iteration>, b: seq<Iteration>)
    requires g.now.phase == P.Down && AllTerminating(a) && AllTerminating(b) && Exact(c, topic, g.now.may)
    ensures AllTerminating(a + b)
    ensures AfterLife(c, topic, g, Life(None, [])) == Started(g)
    ensures AfterLife(c, topic, g, Life(None, a + b)) ==
            AfterRounds(c, topic, AfterLife(c, topic, g, Life(None, a)), b, 0)
  {
    LoopsCompose(c, topic, Started(g), a, b, 0);
  }

  lemma StartIsSound<T>(c: Codec<T>, topic: string, g: Progress<T>)
    requires Sound(c, topic, g) && g.now.phase == P.Down
    ensures Sound(c, topic, Started(g))
  {
    P.NextInv(g.now, P.Start);
    ClaimsNext(c, g.now, P.Start);
  }

  lemma EndIsSound<T>(c: Codec<T>, topic: string, g: Progress<T>)
    requires Sound(c, topic, g)
    ensures Sound(c, topic, Ended(g))
    ensures Ended(g).now.parts == g.now.parts && Ended(g).done == g.done
  {
    if g.now.phase != P.Down {
      P.NextInv(g.now, P.End);
      ClaimsNext(c, g.now, P.End);
    }
  }

  lemma LifeIsSound<T>(c: Codec<T>, topic: string, g: Progress<T>, life: Life)
    requires Sound(c, topic, g) && g.now.phase == P.Down && AllTerminating(life.rounds)
    ensures Sound(c, topic, AfterLife(c, topic, g, life))
    ensures G.AllCommittedSettled(AfterLife(c, topic, g, life).now)
  {
    if life.subscribeError.None? {
      StartIsSound(c, topic, g);
      RoundsAreSound(c, topic, Started(g), life.rounds, 0);
    }
    G.CommittedSettled(AfterLife(c, topic, g, life).now);
  }

  /** Before the group's first process, with nothing done, all is sound. */
  lemma FirstIsSound<T>(c: Codec<T>, topic: string, s: P.State)
    requires P.Initial(s) && Exact(c, topic, s.may)
    ensures Sound(c, topic, Progress(s, Nothing()))
  {
    P.InitialInv(s);
  }

  // ----- What committed offsets mean -----

  /** In every reachable state of the consumer each offset below a committed one was read and
      then settled: its content was skipped or handled, or its own dead letter was acknowledged. */
  lemma CommittedForAReason<T>(c: Codec<T>, topic: string, s: P.State, p: nat, o: nat)
    requires P.Inv(s) && Exact(c, topic, s.may)
    requires p < |s.parts| && o < s.parts[p].committed
    ensures exists i :: G.SettledThenStored(s.history, i, p, o) && o < |s.parts[p].log| &&
                        Fitting(c, topic, s.parts[p].log[o], s.history[i - 1].how)
  {
    G.CommittedSettled(s);
    assert G.CommittedIsSettled(s, p, o);
    var i :| G.ProperlyStored(s, i, p, o);
    var (m, how) := (s.parts[p].log[o], s.history[i - 1].how);
    assert s.may(m, how);
    SettlementsAreExact(c, topic, m, how);
    assert Fitting(c, topic, m, how);
  }

  /** No message is stuck: from every reachable state of the consumer, each message of each log
      gets committed in some continuation. */
  lemma NothingIsStuck<T>(c: Codec<T>, topic: string, s: P.State, p: nat, o: nat) returns (run: seq<P.Step>)
    requires P.Inv(s) && Exact(c, topic, s.may)
    requires p < |s.parts| && o < |s.parts[p].log|
    ensures P.CanRun(s, run) && p < |P.After(s, run).parts| && o < P.After(s, run).parts[p].committed
  {
    forall k: nat | s.parts[p].committed <= k <= o
      ensures G.CanSettleSomehow(s, p, k)
    {
      EveryMessageCanBeSettled(c, topic, s.parts[p].log[k]);
      var how :| Genuine(c, topic, s.parts[p].log[k], how);
      assert s.may(s.parts[p].log[k], how);
      assert P.CanSettle(s, p, k, how);
    }
    run := G.EveryMessageCanBeCommitted(s, p, o);
  }
}
