/** pkg/stream/dispatcher: publish one record and wait for its delivery report. */
module Dispatcher {
  import opened GoErrors
  import opened Message

  const ERR_PROCESS_MESSAGE_TIMED_OUT := Leaf(12, "processing message timed out")

  datatype Record = Record(topic: string, key: string, value: string, headers: seq<Header>)

  /** What arrives on the delivery channel. */
  datatype DeliveryEvent =
    | Report(partitionError: Option<Error>)
    | ErrorEvent(error: Error)
    | OtherEvent(text: string)

  /** The environment's answer to one `Dispatch`: the producer's own error, or the event
      that comes back for the record. */
  datatype ProducerReply = ProducerReply(produceError: Option<Error>, event: DeliveryEvent)

  lemma WrapMatches(e: Error, message: string)
    ensures Is(Wrap(e, message), e)
  {
    assert Is(e, e);
    assert Is(WithMessage(message, e), e);
  }

  predicate Delivered(reply: ProducerReply) {
    reply.produceError.None? && reply.event == Report(None)
  }

  function HandleTopicPartitionError(err: Error): Error {
    match As(err, KAFKA_BY_VALUE)
    case Some(k) =>
      if k.kafkaCode == MsgTimedOut then Wrap(ERR_PROCESS_MESSAGE_TIMED_OUT, "dispatcher delivery error")
      else Wrap(err, "dispatcher delivery error")
    case None => Wrap(err, "dispatcher delivery error")
  }

  /** A delivery failure is told apart as a time-out exactly when the first Kafka error in
      it is one (or it already was the sentinel); any other failure stays matchable. */
  lemma TimedOutDelivery(err: Error)
    ensures var timedOut := As(err, KAFKA_BY_VALUE).Some? &&
                            As(err, KAFKA_BY_VALUE).value.kafkaCode == MsgTimedOut;
            && (Is(HandleTopicPartitionError(err), ERR_PROCESS_MESSAGE_TIMED_OUT) <==>
                timedOut || Is(err, ERR_PROCESS_MESSAGE_TIMED_OUT))
            && (!timedOut ==> Is(HandleTopicPartitionError(err), err))
  {
    assert Is(err, err);
    var r := HandleTopicPartitionError(err);
    assert r.WithStack? && r.cause.WithMessage?;
    var t := ERR_PROCESS_MESSAGE_TIMED_OUT;
    assert Is(r, t) <==> Is(r.cause, t);
    assert Is(r.cause, t) <==> Is(r.cause.cause, t);
    assert Is(r, err) <==> r == err || Is(r.cause, err);
  }

  /** The error of publishing `content`; none exactly when a clean report came back. */
  function DispatchError<T>(c: Codec<T>, content: Message<T>, reply: ProducerReply): (r: Option<Error>)
    ensures r.None? <==> Serialize(c, content).Ok? && Delivered(reply)
  {
    if Serialize(c, content).Fail? then Some(Wrap(Serialize(c, content).error, "dispatcher"))
    else if reply.produceError.Some? then Some(Wrap(reply.produceError.value, "dispatcher"))
    else
      match reply.event
      case Report(None) => None
      case Report(Some(e)) => Some(HandleTopicPartitionError(e))
      case ErrorEvent(e) => Some(Wrap(e, "dispatcher kafka error"))
      case OtherEvent(text) => Some(WithStack(Leaf(13, "dispatcher unexpected error: " + text)))
  }

  /** Every failure keeps its cause matchable, and success needs a clean delivery report. */
  lemma DispatchErrorMatches<T>(c: Codec<T>, content: Message<T>, reply: ProducerReply)
    ensures var r := DispatchError(c, content, reply);
            && (r.None? <==> Serialize(c, content).Ok? && reply.produceError == None && reply.event == Report(None))
            && (Serialize(c, content).Fail? ==> Is(r.value, Serialize(c, content).error))
            && (Serialize(c, content).Ok? && reply.produceError.Some? ==> Is(r.value, reply.produceError.value))
            && (Serialize(c, content).Ok? && reply.produceError.None? ==>
                  && (reply.event.ErrorEvent? ==> Is(r.value, reply.event.error))
                  && (reply.event.Report? && reply.event.partitionError.Some? ==>
                        var e := reply.event.partitionError.value;
                        if As(e, KAFKA_BY_VALUE).Some? && As(e, KAFKA_BY_VALUE).value.kafkaCode == MsgTimedOut
                        then Is(r.value, ERR_PROCESS_MESSAGE_TIMED_OUT) else Is(r.value, e)))
  {
    var r := DispatchError(c, content, reply);
    if Serialize(c, content).Fail? {
      WrapMatches(Serialize(c, content).error, "dispatcher");
    } else if reply.produceError.Some? {
      WrapMatches(reply.produceError.value, "dispatcher");
    } else {
      match reply.event
      case Report(None) =>
      case Report(Some(e)) =>
        TimedOutDelivery(e);
      case ErrorEvent(e) => WrapMatches(e, "dispatcher kafka error");
      case OtherEvent(_) =>
    }
  }

  /** The record published for a message, when it serializes. */
  function RecordFor<T>(c: Codec<T>, topic: string, key: string, content: Message<T>): Result<Record> {
    match Serialize(c, content)
    case Fail(e) => Fail(e)
    case Ok(payload) =>
      Ok(Record(topic, key, payload, [Header(CONTENT_TYPE_HEADER_KEY, TypeOf(content))]))
  }

  class Dispatcher {
    /** Calls of `Dispatch`, records handed to the producer, and those the broker confirmed. */
    var calls: nat
    var produced: seq<Record>
    var confirmed: seq<Record>

    constructor ()
      ensures calls == 0 && produced == [] && confirmed == []
    {
      calls, produced, confirmed := 0, [], [];
    }

    /** Success means a clean delivery report for exactly the record that encodes `content`:
        nothing else is ever confirmed, and at most one record is handed over. */
    method Dispatch<T>(c: Codec<T>, topic: string, key: string, content: Message<T>, reply: ProducerReply)
      returns (err: Option<Error>)
      modifies this
      ensures calls == old(calls) + 1
      ensures err == DispatchError(c, content, reply)
      ensures confirmed == old(confirmed) +
                           if err.None? then [RecordFor(c, topic, key, content).value] else []
      ensures produced == old(produced) +
                          if Serialize(c, content).Ok? && reply.produceError.None?
                          then [RecordFor(c, topic, key, content).value] else []
    {
      calls := calls + 1;
      var serialized := Serialize(c, content);
      if serialized.Fail? {
        return Some(Wrap(serialized.error, "dispatcher"));
      }
      var message := Record(topic, key, serialized.value, [Header(CONTENT_TYPE_HEADER_KEY, TypeOf(content))]);
      if reply.produceError.Some? {
        return Some(Wrap(reply.produceError.value, "dispatcher"));
      }
      produced := produced + [message];
      match reply.event
      case Report(partitionError) =>
        if partitionError.None? {
          confirmed := confirmed + [message];
          return None;
        }
        return Some(HandleTopicPartitionError(partitionError.value));
      case ErrorEvent(e) =>
        return Some(Wrap(e, "dispatcher kafka error"));
      case OtherEvent(text) =>
        return Some(WithStack(Leaf(13, "dispatcher unexpected error: " + text)));
    }
  }
}
