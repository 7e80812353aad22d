/** What processing one message comes to: the handler's calls, retries and dead letters that
    `processMessage` and what it calls lead to. */
module Processing {
  import opened GoErrors
  import opened Message
  import Dispatcher
  import opened Retry
  import opened DeadLetters
  import P = CommitProtocol

  /** What user code and the producer do about one message: `ShouldSkip`, the first `Handle`,
      the retryable errors and policy of `ConfigRetry`, the retried calls, the delivery. */
  datatype Reaction = Reaction(
    skip: bool,
    first: Option<Error>,
    retryable: seq<Error>,
    retries: Attempts,
    backoff: Backoff,
    reply: Dispatcher.ProducerReply)

  datatype Call<T> = Call(content: T, result: Option<Error>)

  predicate ShouldRetry(err: Error, list: seq<Error>) {
    exists i :: 0 <= i < |list| && Is(err, list[i])
  }

  /** The handler's own retry policy ends every sequence it starts. */
  ghost predicate Terminating(r: Reaction) {
    r.first.Some? && ShouldRetry(r.first.value, r.retryable) ==> Ends(r.backoff, r.retries)
  }

  function Retried<T>(content: T, retries: Attempts, n: nat): seq<Call<T>> {
    seq(n, i requires 0 <= i < n => Call(content, retries.result(i)))
  }

  /** The `Handle` calls a message causes, in order. */
  ghost function HandlerCalls<T>(c: Codec<T>, m: KafkaMessage, r: Reaction): seq<Call<T>>
    requires Terminating(r)
  {
    match Decode(c, m)
    case Fail(_) => []
    case Ok(content) =>
      if r.skip then []
      else if r.first.None? || !ShouldRetry(r.first.value, r.retryable) then [Call(content, r.first)]
      else [Call(content, r.first)] + Retried(content, r.retries, LastAttempt(r.backoff, r.retries) + 1)
  }

  /** How `processMessage` ends: with the message settled, or with the dispatch error. */
  datatype Outcome = Finished(how: P.Settlement) | Broken(error: Error)

  function ErrorOf(o: Outcome): Option<Error> {
    if o.Broken? then Some(o.error) else None
  }

  /** The records an outcome leaves on the dead letter topic. */
  function RecordsOf(o: Outcome): seq<Dispatcher.Record> {
    if o.Finished? && o.how.DeadLettered? then [o.how.record] else []
  }

  /** A message goes to the dead letter topic when it cannot be decoded, or when it is not
      skipped and its last `Handle` call failed. */
  ghost predicate NeedsDeadLetter<T>(c: Codec<T>, m: KafkaMessage, r: Reaction)
    requires Terminating(r)
  {
    Decode(c, m).Fail? ||
    (!r.skip && HandlerCalls(c, m, r)[|HandlerCalls(c, m, r)| - 1].result.Some?)
  }

  ghost function OutcomeOf<T>(c: Codec<T>, topic: string, m: KafkaMessage, r: Reaction): Outcome
    requires Terminating(r)
  {
    if NeedsDeadLetter(c, m, r) then
      match DeadLetterError(c, m, r.reply)
      case None => Finished(P.DeadLettered(DeadLetterRecord(c, topic, m).value))
      case Some(error) => Broken(error)
    else if r.skip then Finished(P.Skipped)
    else Finished(P.Handled(|HandlerCalls(c, m, r)|))
  }

  // ----- What an observer outside the process sees -----

  /** The `Handle` calls, the contents `ShouldSkip` let pass, the number of `Dispatch` calls, and
      the records that reached the dead letter topic. */
  datatype Effects<T> = Effects(calls: seq<Call<T>>, skipped: seq<T>, dispatches: nat, sent: seq<Dispatcher.Record>)
  {
    function Then(later: Effects<T>): Effects<T> {
      Effects(calls + later.calls, skipped + later.skipped, dispatches + later.dispatches, sent + later.sent)
    }
  }

  function Nothing<T>(): Effects<T> {
    Effects([], [], 0, [])
  }

  function ContentOf<T>(c: Codec<T>, m: KafkaMessage): seq<T> {
    if Decode(c, m).Ok? then [Decode(c, m).value] else []
  }

  ghost function EffectsOf<T>(c: Codec<T>, topic: string, m: KafkaMessage, r: Reaction): Effects<T>
    requires Terminating(r)
  {
    Effects(HandlerCalls(c, m, r), if r.skip then ContentOf(c, m) else [],
            if NeedsDeadLetter(c, m, r) then 1 else 0, RecordsOf(OutcomeOf(c, topic, m, r)))
  }

  lemma WhenSkipped<T>(c: Codec<T>, topic: string, m: KafkaMessage, r: Reaction, content: T)
    requires Terminating(r) && Decode(c, m) == Ok(content) && r.skip
    ensures EffectsOf(c, topic, m, r) == Effects([], [content], 0, [])
    ensures OutcomeOf(c, topic, m, r) == Finished(P.Skipped)
  {
  }

  lemma WhenHandledAtOnce<T>(c: Codec<T>, topic: string, m: KafkaMessage, r: Reaction, content: T)
    requires Terminating(r) && Decode(c, m) == Ok(content) && !r.skip && r.first.None?
    ensures EffectsOf(c, topic, m, r) == Effects([Call(content, None)], [], 0, [])
    ensures OutcomeOf(c, topic, m, r) == Finished(P.Handled(1))
  {
  }

  /** What is done after the first `Handle` call. */
  ghost function LaterEffects<T>(c: Codec<T>, topic: string, m: KafkaMessage, r: Reaction): Effects<T>
    requires Terminating(r)
  {
    var calls := HandlerCalls(c, m, r);
    Effects(if calls == [] then [] else calls[1..], [], if NeedsDeadLetter(c, m, r) then 1 else 0,
            RecordsOf(OutcomeOf(c, topic, m, r)))
  }

  lemma WhenFirstFails<T>(c: Codec<T>, topic: string, m: KafkaMessage, r: Reaction, content: T)
    requires Terminating(r) && Decode(c, m) == Ok(content) && !r.skip && r.first.Some?
    ensures HandlerCalls(c, m, r) != []
    ensures EffectsOf(c, topic, m, r) == Effects([Call(content, r.first)], [], 0, []).Then(LaterEffects(c, topic, m, r))
  {
  }

  lemma Associates<T>(a: Effects<T>, b: Effects<T>, c: Effects<T>)
    ensures a.Then(b).Then(c) == a.Then(b.Then(c))
  {
  }

  // ----- What that says of the messages -----

  /** The contents skipped, those handled without error, and the dead letters, each in order. */
  datatype Tally<T> = Tally(skipped: seq<T>, handled: seq<T>, letters: seq<Dispatcher.Record>)
  {
    function Plus(later: Tally<T>): Tally<T> {
      Tally(skipped + later.skipped, handled + later.handled, letters + later.letters)
    }

    function Size(): nat {
      |skipped| + |handled| + |letters|
    }
  }

  function NoTally<T>(): Tally<T> {
    Tally([], [], [])
  }

  lemma PlusAssociates<T>(a: Tally<T>, b: Tally<T>, c: Tally<T>)
    ensures a.Plus(b).Plus(c) == a.Plus(b.Plus(c))
    ensures a.Plus(NoTally()) == a
  {
  }

  /** The contents of the successful calls among the first `n`. */
  function Successes<T>(calls: seq<Call<T>>, n: nat): seq<T>
    requires n <= |calls|
  {
    if n == 0 then [] else
    Successes(calls, n - 1) + if calls[n - 1].result.None? then [calls[n - 1].content] else []
  }

  function TallyOf<T>(e: Effects<T>): Tally<T> {
    Tally(e.skipped, Successes(e.calls, |e.calls|), e.sent)
  }

  /** What a settlement of `m` claims. */
  function Claim<T>(c: Codec<T>, m: KafkaMessage, how: P.Settlement): Tally<T> {
    match how
    case Skipped => Tally(ContentOf(c, m), [], [])
    case Handled(_) => Tally([], ContentOf(c, m), [])
    case DeadLettered(record) => Tally([], [], [record])
  }

  lemma {:induction false} SuccessesPrefix<T>(a: seq<Call<T>>, b: seq<Call<T>>, n: nat)
    requires n <= |a| && n <= |b| && forall i :: 0 <= i < n ==> a[i] == b[i]
    ensures Successes(a, n) == Successes(b, n)
    decreases n
  {
    if n > 0 {
      SuccessesPrefix(a, b, n - 1);
    }
  }

  lemma {:induction false} SuccessesThen<T>(a: seq<Call<T>>, b: seq<Call<T>>, n: nat)
    requires n <= |b|
    ensures Successes(a + b, |a| + n) == Successes(a, |a|) + Successes(b, n)
    decreases n
  {
    if n > 0 {
      SuccessesThen(a, b, n - 1);
    } else {
      SuccessesPrefix(a, a + b, |a|);
    }
  }

  lemma {:induction false} NoSuccesses<T>(calls: seq<Call<T>>, n: nat)
    requires n <= |calls| && forall i :: 0 <= i < n ==> calls[i].result.Some?
    ensures Successes(calls, n) == []
    decreases n
  {
    if n > 0 {
      NoSuccesses(calls, n - 1);
    }
  }

  lemma TallyThen<T>(a: Effects<T>, b: Effects<T>)
    ensures TallyOf(a.Then(b)) == TallyOf(a).Plus(TallyOf(b))
  {
    SuccessesThen(a.calls, b.calls, |b.calls|);
  }

  /** The retry sequence is entered exactly when the first error matches the retryable list,
      through any wrapping; every call but the last one failed, later errors are not filtered
      again, and all calls see the decoded content. */
  lemma HandlerCallsAreExact<T>(c: Codec<T>, m: KafkaMessage, r: Reaction)
    requires Terminating(r)
    ensures var calls := HandlerCalls(c, m, r);
            && (calls == [] <==> Decode(c, m).Fail? || r.skip)
            && (|calls| >= 2 <==> Decode(c, m).Ok? && !r.skip && r.first.Some? &&
                                  exists e :: e in r.retryable && Is(r.first.value, e))
            && (forall i :: 0 <= i < |calls| ==> calls[i].content == Decode(c, m).value)
            && (forall i :: 0 <= i < |calls| - 1 ==> calls[i].result.Some?)
            && (calls != [] ==> calls[0].result == r.first)
            && (|calls| >= 2 ==> Ends(r.backoff, r.retries) && |calls| == LastAttempt(r.backoff, r.retries) + 2)
            && (forall i :: 1 <= i < |calls| ==> calls[i].result == r.retries.result(i - 1))
            && (calls != [] && calls[|calls| - 1].result.Some? && |calls| >= 2 ==>
                  GivesUp(r.backoff, r.retries, |calls| - 2))
  {
    var calls := HandlerCalls(c, m, r);
    if Decode(c, m).Ok? && !r.skip && r.first.Some? {
      if e :| e in r.retryable && Is(r.first.value, e) {
        var i :| 0 <= i < |r.retryable| && r.retryable[i] == e;
        assert ShouldRetry(r.first.value, r.retryable);
      }
      if ShouldRetry(r.first.value, r.retryable) {
        var last := LastAttempt(r.backoff, r.retries);
        assert |calls| == last + 2;
        forall i | 0 < i < |calls| - 1
          ensures calls[i].result.Some?
        {
          assert !Stops(r.backoff, r.retries, i - 1);
        }
      }
    }
  }

  /** `processMessage` succeeds for exactly one of three reasons, each of which shows: the content
      was skipped, or the last `Handle` call succeeded with it, or its one dead letter arrived.
      It fails only with the error of a dead letter that was due, and then none of them shows. */
  lemma OutcomeIsExact<T>(c: Codec<T>, topic: string, m: KafkaMessage, r: Reaction)
    requires Terminating(r)
    ensures var (e, o) := (EffectsOf(c, topic, m, r), OutcomeOf(c, topic, m, r));
            && TallyOf(e) == (if o.Finished? then Claim(c, m, o.how) else NoTally())
            && TallyOf(e).Size() == (if o.Finished? then 1 else 0)
            && (e.dispatches == 1 <==> o.Broken? || o.how.DeadLettered?)
            && (o.Broken? ==> DeadLetterError(c, m, r.reply) == Some(o.error))
  {
    HandlerCallsAreExact(c, m, r);
    var calls := HandlerCalls(c, m, r);
    if calls != [] {
      NoSuccesses(calls, |calls| - 1);
    }
  }

  // ----- How a message can be settled -----

  /** Processing `m` can come to `how`. */
  ghost predicate Genuine<T>(c: Codec<T>, topic: string, m: KafkaMessage, how: P.Settlement) {
    exists r :: Terminating(r) && OutcomeOf(c, topic, m, r) == Finished(how)
  }

  const DELIVERED := Dispatcher.ProducerReply(None, Dispatcher.Report(None))

  /** A policy that never stops, for a handler that succeeds on attempt `n`. */
  function Patient(): Backoff {
    Backoff(0, _ => 1)
  }

  function FailsUntil(n: nat, e: Error): Attempts {
    Attempts(i => if i < n then Some(e) else None, _ => 0)
  }

  lemma CanBeSkipped<T>(c: Codec<T>, topic: string, m: KafkaMessage)
    requires Decode(c, m).Ok?
    ensures Genuine(c, topic, m, P.Skipped)
  {
    var r := Reaction(true, None, [], FailsUntil(0, Leaf(0, "")), Patient(), DELIVERED);
    assert OutcomeOf(c, topic, m, r) == Finished(P.Skipped);
  }

  lemma CanBeHandled<T>(c: Codec<T>, topic: string, m: KafkaMessage, calls: nat)
    requires Decode(c, m).Ok? && calls > 0
    ensures Genuine(c, topic, m, P.Handled(calls))
  {
    var e := Leaf(0, "");
    var n := if calls == 1 then 0 else calls - 2;
    var r := Reaction(false, if calls == 1 then None else Some(e), [e], FailsUntil(n, e), Patient(), DELIVERED);
    assert Stops(r.backoff, r.retries, n);
    assert calls > 1 ==> Is(e, r.retryable[0]);
    assert LastAttempt(r.backoff, r.retries) == n;
    assert OutcomeOf(c, topic, m, r) == Finished(P.Handled(calls));
  }

  lemma CanBeDeadLettered<T>(c: Codec<T>, topic: string, m: KafkaMessage)
    requires DeadLetterRecord(c, topic, m).Ok?
    ensures Genuine(c, topic, m, P.DeadLettered(DeadLetterRecord(c, topic, m).value))
  {
    var e := Leaf(0, "");
    var r := Reaction(false, Some(e), [], FailsUntil(0, e), Patient(), DELIVERED);
    assert HandlerCalls(c, m, r) == if Decode(c, m).Ok? then [Call(Decode(c, m).value, Some(e))] else [];
    assert OutcomeOf(c, topic, m, r) == Finished(P.DeadLettered(DeadLetterRecord(c, topic, m).value));
  }

  /** What a settlement says about the message itself. */
  predicate Fitting<T>(c: Codec<T>, topic: string, m: KafkaMessage, how: P.Settlement) {
    match how
    case Skipped => Decode(c, m).Ok?
    case Handled(calls) => Decode(c, m).Ok? && calls > 0
    case DeadLettered(record) => DeadLetterRecord(c, topic, m) == Ok(record)
  }

  /** Only a decodable message is skipped or handled, by any positive number of calls, and a
      dead letter is always that message's own. */
  lemma SettlementsAreExact<T>(c: Codec<T>, topic: string, m: KafkaMessage, how: P.Settlement)
    ensures Genuine(c, topic, m, how) <==> Fitting(c, topic, m, how)
  {
    if r :| Terminating(r) && OutcomeOf(c, topic, m, r) == Finished(how) {
      HandlerCallsAreExact(c, m, r);
    }
    match how
    case Skipped =>
      if Decode(c, m).Ok? { CanBeSkipped(c, topic, m); }
    case Handled(calls) =>
      if Decode(c, m).Ok? && calls > 0 { CanBeHandled(c, topic, m, calls); }
    case DeadLettered(record) =>
      if DeadLetterRecord(c, topic, m) == Ok(record) { CanBeDeadLettered(c, topic, m); }
  }

  /** Every message can be settled one way or another. */
  lemma EveryMessageCanBeSettled<T>(c: Codec<T>, topic: string, m: KafkaMessage)
    ensures exists how :: Genuine(c, topic, m, how)
  {
    if Decode(c, m).Ok? {
      CanBeSkipped(c, topic, m);
    } else {
      CanBeDeadLettered(c, topic, m);
    }
  }

  /** `may` allows exactly the settlements that processing can come to. */
  ghost predicate Exact<T>(c: Codec<T>, topic: string, may: P.Rule) {
    forall m, how {:trigger Genuine(c, topic, m, how)} :: may(m, how) <==> Genuine(c, topic, m, how)
  }

  ghost function RuleOf<T>(c: Codec<T>, topic: string): (may: P.Rule)
    ensures Exact(c, topic, may)
  {
    (m, how) => Genuine(c, topic, m, how)
  }

  /** Such a rule allows what a message does come to. */
  lemma OutcomeIsAllowed<T>(c: Codec<T>, topic: string, may: P.Rule, m: KafkaMessage, r: Reaction)
    requires Exact(c, topic, may) && Terminating(r)
    ensures OutcomeOf(c, topic, m, r).Finished? ==> may(m, OutcomeOf(c, topic, m, r).how)
  {
    if OutcomeOf(c, topic, m, r).Finished? {
      assert Genuine(c, topic, m, OutcomeOf(c, topic, m, r).how);
    }
  }
}
