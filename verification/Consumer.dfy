/** The consumer's methods: `Run`, `readMessage`, `processMessage`, `runRetry`, `shouldRetry` and
    the dead letter functions, each proved against the commit protocol or a specification. */
module Consumer {
  import opened GoErrors
  import opened Message
  import Dispatcher
  import opened Retry
  import opened DeadLetters
  import opened Processing
  import opened Rounds
  import P = CommitProtocol
  import G = CommitGuarantees

  class Client {
    /** The broker's partitions, with the read positions of this client. */
    var parts: seq<P.Partition>

    /** A new member of the group resumes every partition from its committed offset. */
    method Resume()
      modifies this
      ensures parts == seq(|old(parts)|, i requires 0 <= i < |old(parts)| =>
                                           old(parts)[i].(position := old(parts)[i].committed))
    {
      parts := seq(|parts|, i requires 0 <= i < |parts| reads this => parts[i].(position := parts[i].committed));
    }

    /** Polls once: the next message of the chosen partition, or an error. */
    method ReadMessage(reply: PollReply) returns (r: Result<KafkaMessage>)
      modifies this
      ensures r.Ok? <==> reply.Polled? && reply.p < |old(parts)| && old(parts[reply.p].position < |parts[reply.p].log|)
      ensures r.Fail? ==> parts == old(parts) &&
                          if reply.PollError? then r.error == reply.error
                          else As(r.error, KAFKA_BY_VALUE).Some? && As(r.error, KAFKA_BY_VALUE).value.kafkaCode == TimedOut
      ensures r.Ok? ==> var part := old(parts[reply.p]);
                        && r.value == part.log[part.position]
                        && parts == old(parts)[reply.p := part.(position := part.position + 1)]
    {
      match reply
      case PollError(error) => return Fail(error);
      case Polled(p) =>
        if p < |parts| && parts[p].position < |parts[p].log| {
          var part := parts[p];
          parts := parts[p := part.(position := part.position + 1)];
          return Ok(part.log[part.position]);
        }
        var timeout := Kafka(TimedOut, false, "");
        assert As(timeout, KAFKA_BY_VALUE) == Some(timeout);
        return Fail(timeout);
    }

    /** Commits the message at offset `o` of partition `p`: the stored offset becomes `o + 1`. */
    method CommitMessage(p: nat, o: nat, reply: CommitReply) returns (err: Option<Error>)
      requires p < |parts|
      modifies this
      ensures err == if reply.CommitOk? then None else Some(reply.error)
      ensures parts == if reply.CommitOk? || reply.stored then P.StoreCommit(old(parts), p, o) else old(parts)
    {
      match reply
      case CommitOk =>
        parts := parts[p := parts[p].(committed := o + 1)];
        return None;
      case CommitError(error, stored) =>
        if stored {
          parts := parts[p := parts[p].(committed := o + 1)];
        }
        return Some(error);
    }
  }

  /** The user's code, and what it was called with. */
  class Handler<T> {
    var calls: seq<Call<T>>
    /** The contents that `ShouldSkip` let pass. */
    var skipped: seq<T>

    constructor ()
      ensures calls == [] && skipped == []
    {
      calls, skipped := [], [];
    }

    method ShouldSkip(content: T, answer: bool) returns (skip: bool)
      modifies this`skipped
      ensures skip == answer
      ensures skipped == old(skipped) + if answer then [content] else []
    {
      if answer {
        skipped := skipped + [content];
      }
      skip := answer;
    }

    method Handle(content: T, result: Option<Error>) returns (err: Option<Error>)
      modifies this`calls
      ensures err == result && calls == old(calls) + [Call(content, result)]
    {
      calls := calls + [Call(content, result)];
      err := result;
    }
  }

  class Consumer<T> {
    const codec: Codec<T>
    const topic: string
    const client: Client
    const dispatcher: Dispatcher.Dispatcher
    const handler: Handler<T>
    /** The observer of the commit protocol: what can happen, where this incarnation is and what
        happened, in this one and those before it. */
    ghost const may: P.Rule
    ghost var phase: P.Phase
    ghost var history: seq<P.Event>

    /** A new process, in the world `before` that earlier ones have left. */
    constructor (codec: Codec<T>, topic: string, client: Client, dispatcher: Dispatcher.Dispatcher, handler: Handler<T>,
                 ghost before: P.State)
      requires before.phase == P.Down && before.parts == client.parts
      ensures this.codec == codec && this.topic == topic && this.client == client
      ensures this.dispatcher == dispatcher && this.handler == handler
      ensures State() == before
    {
      this.codec, this.topic, this.client := codec, topic, client;
      this.dispatcher, this.handler := dispatcher, handler;
      may, phase, history := before.may, before.phase, before.history;
    }

    ghost function State(): P.State
      reads this, client
    {
      P.State(client.parts, phase, history, may)
    }

    ghost function Done(): Effects<T>
      reads dispatcher, handler
    {
      Effects(handler.calls, handler.skipped, dispatcher.calls, dispatcher.confirmed)
    }

    ghost function Now(): Progress<T>
      reads this, client, dispatcher, handler
    {
      Progress(State(), Done())
    }

    method ShouldRetryError(err: Error, list: seq<Error>) returns (r: bool)
      ensures r <==> ShouldRetry(err, list)
    {
      for i := 0 to |list|
        invariant forall j :: 0 <= j < i ==> !Is(err, list[j])
      {
        if Is(err, list[i]) {
          return true;
        }
      }
      return false;
    }

    /** Retries until the handler succeeds or the policy stops; the error of the last attempt
        is returned. */
    method RunRetry(content: T, r: Reaction) returns (err: Option<Error>)
      requires Ends(r.backoff, r.retries)
      modifies handler`calls
      ensures err == r.retries.result(LastAttempt(r.backoff, r.retries))
      ensures handler.calls == old(handler.calls) + Retried(content, r.retries, LastAttempt(r.backoff, r.retries) + 1)
    {
      ghost var last := LastAttempt(r.backoff, r.retries);
      var attempts, elapsed := 0, r.retries.duration(0);
      while true
        invariant attempts <= last
        invariant handler.calls == old(handler.calls) + Retried(content, r.retries, attempts)
        invariant elapsed == Elapsed(r.backoff, r.retries, attempts)
        decreases last - attempts
      {
        err := handler.Handle(content, r.retries.result(attempts));
        attempts := attempts + 1;
        var wait := r.backoff.interval(attempts - 1);
        if err.None? || (r.backoff.maxElapsed != 0 && elapsed + wait > r.backoff.maxElapsed) {
          assert Stops(r.backoff, r.retries, attempts - 1);
          return;
        }
        elapsed := elapsed + wait + r.retries.duration(attempts);
      }
    }

    method DispatchToDeadLetterTopic(content: T, message: KafkaMessage, kind: Message<T>, r: Reaction)
      returns (err: Option<Error>)
      requires MessageType(message.headers, message.value) == Ok(kind)
      requires Deserialize(codec, kind, message.value) == Ok(content)
      modifies dispatcher
      ensures dispatcher.calls == old(dispatcher.calls) + 1
      ensures err == DeadLetterError(codec, message, r.reply)
      ensures dispatcher.confirmed == old(dispatcher.confirmed) +
                                      if err.None? then [DeadLetterRecord(codec, topic, message).value] else []
    {
      err := dispatcher.Dispatch(codec, topic + "-" + DEAD_LETTER_SUFFIX, message.key,
                                 NewWithData(codec, kind, content), r.reply);
    }

    method DispatchToDeadLetterTopicAsText(message: KafkaMessage, r: Reaction) returns (err: Option<Error>)
      requires Decode(codec, message).Fail?
      modifies dispatcher
      ensures dispatcher.calls == old(dispatcher.calls) + 1
      ensures err == DeadLetterError(codec, message, r.reply)
      ensures dispatcher.confirmed == old(dispatcher.confirmed) +
                                      if err.None? then [DeadLetterRecord(codec, topic, message).value] else []
    {
      err := dispatcher.Dispatch(codec, topic + "-" + DEAD_LETTER_SUFFIX, message.key,
                                 TextMessage(message.value), r.reply);
    }

    /** The end of `processMessage`, after the first `Handle` call failed. */
    method RecoverMessage(content: T, first: Error, message: KafkaMessage, kind: Message<T>, r: Reaction)
      returns (err: Option<Error>)
      requires MessageType(message.headers, message.value) == Ok(kind)
      requires Deserialize(codec, kind, message.value) == Ok(content)
      requires !r.skip && r.first == Some(first) && Terminating(r)
      modifies handler`calls, dispatcher
      ensures err == ErrorOf(OutcomeOf(codec, topic, message, r))
      ensures Done() == old(Done()).Then(LaterEffects(codec, topic, message, r))
    {
      var retry := ShouldRetryError(first, r.retryable);
      if !retry {
        err := DispatchToDeadLetterTopic(content, message, kind, r);
        return;
      }
      err := RunRetry(content, r);
      if err.Some? {
        err := DispatchToDeadLetterTopic(content, message, kind, r);
        return;
      }
      return None;
    }

    /** The part of `processMessage` that a decoded message reaches. */
    method HandleContent(content: T, message: KafkaMessage, kind: Message<T>, r: Reaction) returns (err: Option<Error>)
      requires MessageType(message.headers, message.value) == Ok(kind)
      requires Deserialize(codec, kind, message.value) == Ok(content)
      requires Terminating(r)
      modifies handler, dispatcher
      ensures err == ErrorOf(OutcomeOf(codec, topic, message, r))
      ensures Done() == old(Done()).Then(EffectsOf(codec, topic, message, r))
    {
      var skip := handler.ShouldSkip(content, r.skip);
      if skip {
        WhenSkipped(codec, topic, message, r, content);
        return None;
      }
      err := handler.Handle(content, r.first);
      if err.None? {
        WhenHandledAtOnce(codec, topic, message, r, content);
        return None;
      }
      WhenFirstFails(codec, topic, message, r, content);
      Associates(old(Done()), Effects([Call(content, err)], [], 0, []), LaterEffects(codec, topic, message, r));
      err := RecoverMessage(content, err.value, message, kind, r);
    }

    /** Nil exactly for a finished outcome; the handler is called as specified, a dead letter
        is dispatched once or not at all, and confirmed exactly when that is the outcome.  So
        nil comes with exactly one of a skipped content, a successful call and a confirmed dead
        letter, and an error with none (`OutcomeIsExact`). */
    method ProcessMessage(message: KafkaMessage, r: Reaction) returns (err: Option<Error>)
      requires Terminating(r)
      modifies handler, dispatcher
      ensures err == ErrorOf(OutcomeOf(codec, topic, message, r))
      ensures Done() == old(Done()).Then(EffectsOf(codec, topic, message, r))
    {
      var typed := NewMessageType<T>(message);
      if typed.Fail? {
        err := DispatchToDeadLetterTopicAsText(message, r);
        return;
      }
      var decoded := Deserialize(codec, typed.value, message.value);
      if decoded.Fail? {
        err := DispatchToDeadLetterTopicAsText(message, r);
        return;
      }
      err := HandleContent(decoded.value, message, typed.value, r);
    }

    /** The end of `readMessage`: the settled message is committed. */
    method CommitSettled(p: nat, o: nat, ghost how: P.Settlement, reply: CommitReply) returns (err: Option<Error>)
      requires phase == P.InFlight(p, o) && P.CanSettle(State(), p, o, how)
      modifies this`phase, this`history, client
      ensures State() == P.Next(P.Next(old(State()), P.Settle(how)), CommitStep(reply))
      ensures phase == if err.None? then P.Idle else P.Failed(err.value)
    {
      history, phase := history + [P.Settled(p, o, how)], P.ToCommit(p, o);
      err := client.CommitMessage(p, o, reply);
      if err.Some? {
        history, phase := history + [P.CommitFailed(p, o, err.value, reply.stored)], P.Failed(err.value);
      } else {
        history, phase := history + [P.Committed(p, o)], P.Idle;
      }
    }

    /** One round of the loop does what the commit protocol allows: it reads at most one
        message, commits only what is settled, and stops the incarnation with the error it
        returns. */
    method ReadMessage(it: Iteration) returns (err: Option<Error>)
      requires Terminating(it.reaction) && phase == P.Idle && Exact(codec, topic, may)
      modifies this, client, dispatcher, handler
      ensures Now() == Advance(codec, topic, old(Now()), it)
      ensures phase == if err.None? then P.Idle else P.Failed(err.value)
      ensures it.poll.PollError? ==>
                var k := As(it.poll.error, KAFKA_BY_VALUE);
                err == if k.Some? && k.value.kafkaCode == TimedOut then None else Some(it.poll.error)
    {
      ghost var start := State();
      var msg := client.ReadMessage(it.poll);
      if msg.Fail? {
        if IsTimeout(msg.error) {
          return None;
        }
        history, phase := history + [P.PollFailed(msg.error)], P.Failed(msg.error);
        return Some(msg.error);
      }
      var p, o := it.poll.p, client.parts[it.poll.p].position - 1;
      history, phase := history + [P.Read(p, o)], P.InFlight(p, o);
      assert State() == P.Next(start, P.Poll(p));
      err := ProcessMessage(msg.value, it.reaction);
      if err.Some? {
        history, phase := history + [P.ProcessFailed(p, o, err.value)], P.Failed(err.value);
        return;
      }
      OutcomeIsAllowed(codec, topic, may, msg.value, it.reaction);
      err := CommitSettled(p, o, OutcomeOf(codec, topic, msg.value, it.reaction).how, it.commit);
    }

    /** Round `i` of a loop: the rounds after it lead to where they led with it. */
    method NextRound(rounds: seq<Iteration>, i: nat) returns (err: Option<Error>)
      requires i < |rounds| && AllTerminating(rounds) && Exact(codec, topic, may) && phase == P.Idle
      modifies this, client, dispatcher, handler
      ensures phase == if err.None? then P.Idle else P.Failed(err.value)
      ensures AfterRounds(codec, topic, Now(), rounds, i + 1) == old(AfterRounds(codec, topic, Now(), rounds, i))
    {
      err := ReadMessage(rounds[i]);
    }

    /** The poll loop: one round after the other until one fails or, after `rounds`, the stop
        signal comes.  The error of the failed round is what is reported, and after it nothing
        is read, handled, dispatched or committed. */
    method Loop(rounds: seq<Iteration>) returns (err: Option<Error>)
      requires phase == P.Idle && AllTerminating(rounds) && Exact(codec, topic, may)
      modifies this, client, dispatcher, handler
      ensures Now() == AfterRounds(codec, topic, old(Now()), rounds, 0)
      ensures phase == if err.None? then P.Idle else P.Failed(err.value)
    {
      var i := 0;
      err := None;
      while i < |rounds| && err.None?
        invariant i <= |rounds|
        invariant phase == if err.None? then P.Idle else P.Failed(err.value)
        invariant AfterRounds(codec, topic, Now(), rounds, i) == AfterRounds(codec, topic, old(Now()), rounds, 0)
      {
        err := NextRound(rounds, i);
        i := i + 1;
      }
      if err.Some? {
        RoundsStop(codec, topic, Now(), rounds, i);
      }
    }

    /** Subscribes, resumes from the committed offsets, and polls.  From any sound state, such as
        the one earlier processes left, this leads to a sound one: whatever is committed then was
        settled first, and the history's claims are what the handler and the dead letter topic
        saw. */
    method Run(life: Life) returns (err: Option<Error>)
      requires Sound(codec, topic, Now()) && phase == P.Down && AllTerminating(life.rounds)
      modifies this, client, dispatcher, handler
      ensures Now() == AfterLife(codec, topic, old(Now()), life)
      ensures if life.subscribeError.Some? then err == life.subscribeError && phase == P.Down
              else phase == if err.None? then P.Idle else P.Failed(err.value)
      ensures Sound(codec, topic, Now()) && G.AllCommittedSettled(State())
    {
      LifeIsSound(codec, topic, Now(), life);
      if life.subscribeError.Some? {
        return life.subscribeError;
      }
      ghost var start := Started(Now());
      client.Resume();
      history, phase := history + [P.Started], P.Idle;
      assert Now() == start;
      err := Loop(life.rounds);
    }
  }

  /** What the world outside the processes holds. */
  ghost predicate Shows<T>(client: Client, dispatcher: Dispatcher.Dispatcher, handler: Handler<T>, g: Progress<T>)
    reads client, dispatcher, handler
  {
    && g.now.parts == client.parts
    && g.done == Effects(handler.calls, handler.skipped, dispatcher.calls, dispatcher.confirmed)
  }

  /** One process from its start to its end, by a crash or otherwise. */
  method RunLife<T>(codec: Codec<T>, topic: string, client: Client, dispatcher: Dispatcher.Dispatcher, handler: Handler<T>,
                    life: Life, ghost before: Progress<T>)
    returns (ghost after: Progress<T>)
    requires Sound(codec, topic, before) && before.now.phase == P.Down && AllTerminating(life.rounds)
    requires Shows(client, dispatcher, handler, before)
    modifies client, dispatcher, handler
    ensures after == Ended(AfterLife(codec, topic, before, life))
    ensures Shows(client, dispatcher, handler, after) && Sound(codec, topic, after)
  {
    var consumer := new Consumer(codec, topic, client, dispatcher, handler, before.now);
    assert consumer.Now() == before;
    var _ := consumer.Run(life);
    ghost var end := consumer.Now();
    assert Shows(client, dispatcher, handler, end);
    EndIsSound(codec, topic, end);
    after := Ended(end);
  }

  /** Processes one after the other, each starting from what the ones before it committed.  Over
      all of them nothing committed was unsettled, and what the history claims is what the
      handler and the dead letter topic saw. */
  method RunLives<T>(codec: Codec<T>, topic: string, client: Client, dispatcher: Dispatcher.Dispatcher, handler: Handler<T>,
                     lives: seq<Life>, ghost before: Progress<T>)
    returns (ghost after: Progress<T>)
    requires Sound(codec, topic, before) && before.now.phase == P.Down && AllLivesTerminating(lives)
    requires Shows(client, dispatcher, handler, before)
    modifies client, dispatcher, handler
    ensures after == AfterLives(codec, topic, before, lives, |lives|)
    ensures Shows(client, dispatcher, handler, after)
    ensures Sound(codec, topic, after) && G.AllCommittedSettled(after.now)
  {
    after := before;
    for i := 0 to |lives|
      invariant after == AfterLives(codec, topic, before, lives, i)
      invariant Shows(client, dispatcher, handler, after) && Sound(codec, topic, after)
    {
      after := RunLife(codec, topic, client, dispatcher, handler, lives[i], after);
    }
    G.CommittedSettled(after.now);
  }
}
