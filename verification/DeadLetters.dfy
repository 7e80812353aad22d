/** What the consumer sends to the dead letter topic, and what can be read back from it. */
module DeadLetters {
  import opened GoErrors
  import opened Message
  import opened Dispatcher

  const DEAD_LETTER_SUFFIX := "dlt"

  function DeadLetterTopic(topic: string): string {
    topic + "-" + DEAD_LETTER_SUFFIX
  }

  /** An undecodable message goes as text, unchanged; a decoded one is encoded again, in the
      kind it came in. */
  function DeadLetterMessage<T>(c: Codec<T>, m: KafkaMessage): Message<T> {
    match Decode(c, m)
    case Fail(_) => TextMessage(m.value)
    case Ok(content) => NewWithData(c, MessageType<T>(m.headers, m.value).value, content)
  }

  function DeadLetterRecord<T>(c: Codec<T>, topic: string, m: KafkaMessage): Result<Record> {
    RecordFor(c, DeadLetterTopic(topic), m.key, DeadLetterMessage(c, m))
  }

  /** The error of sending the dead letter. */
  function DeadLetterError<T>(c: Codec<T>, m: KafkaMessage, reply: ProducerReply): Option<Error> {
    DispatchError(c, DeadLetterMessage(c, m), reply)
  }

  /** A record as a consumer of its topic receives it. */
  function AsReceived(r: Record): KafkaMessage {
    KafkaMessage(r.key, r.value, r.headers)
  }

  /** The message was decoded as JSON, so its payload is not kept but encoded again. */
  predicate Reencoded<T>(c: Codec<T>, m: KafkaMessage) {
    Decode(c, m).Ok? && MessageType<T>(m.headers, m.value).value.JsonMessage?
  }

  /** A decoded text message prints back as its own payload. */
  lemma TextContentIsThePayload<T(!new)>(c: Codec<T>, m: KafkaMessage)
    requires Lawful(c)
    requires Decode(c, m).Ok? && !Reencoded(c, m)
    ensures c.format(Decode(c, m).value) == m.value
  {
    MessageTypeIsFirstRecognised<T>(m.headers, m.value);
    assert c.fromString.Some? && Decode(c, m).value == c.fromString.value(m.value);
  }

  /** A dead letter keeps the key, goes to the suffixed topic, and carries one header, which
      names JSON (also for `postgresql`) or text.  Unless it was decoded as JSON, its payload
      arrives byte for byte; and only an unencodable content can stop it. */
  lemma DeadLetterIsFaithful<T(!new)>(c: Codec<T>, topic: string, m: KafkaMessage)
    requires Lawful(c)
    ensures var r := DeadLetterRecord(c, topic, m);
            && (r.Fail? ==> Reencoded(c, m) && c.marshal(Data(Decode(c, m).value)).Fail?)
            && (r.Ok? ==>
                  && r.value.key == m.key && r.value.topic == topic + "-dlt"
                  && r.value.headers == [Header(CONTENT_TYPE_HEADER_KEY, if Reencoded(c, m) then "json" else "text")]
                  && (!Reencoded(c, m) ==> r.value.value == m.value))
  {
    if Decode(c, m).Ok? && !Reencoded(c, m) {
      TextContentIsThePayload(c, m);
    }
  }

  /** Reading a dead letter back gives the handler exactly the content it saw; an undecodable
      message reads as its raw payload, which is a content exactly when `T` is a string. */
  lemma DeadLetterReadsBack<T(!new)>(c: Codec<T>, topic: string, m: KafkaMessage)
    requires Lawful(c)
    requires DeadLetterRecord(c, topic, m).Ok?
    ensures Decode(c, AsReceived(DeadLetterRecord(c, topic, m).value)) ==
            if Decode(c, m).Ok? then Decode(c, m)
            else match c.fromString
                 case Some(f) => Ok(f(m.value))
                 case None => Fail(ERR_STRING_DESERIALIZATION)
  {
    var r := DeadLetterRecord(c, topic, m).value;
    var sent := DeadLetterMessage(c, m);
    DispatchedMessageDecodes(c, sent, r.value, [], []);
    assert r.headers == [] + [Header(CONTENT_TYPE_HEADER_KEY, TypeOf(sent))] + [];
    if Decode(c, m).Ok? && !Reencoded(c, m) {
      TextContentIsThePayload(c, m);
    }
  }

  /** Dead-lettering is idempotent: a dead letter that is consumed and fails again is sent on
      with the same key, payload and header. */
  lemma DeadLetterTwice<T(!new)>(c: Codec<T>, topic: string, again: string, m: KafkaMessage)
    requires Lawful(c)
    requires DeadLetterRecord(c, topic, m).Ok?
    ensures var r := DeadLetterRecord(c, topic, m).value;
            DeadLetterRecord(c, again, AsReceived(r)) == Ok(r.(topic := again + "-dlt"))
  {
    var r := DeadLetterRecord(c, topic, m).value;
    var sent := DeadLetterMessage(c, m);
    DeadLetterIsFaithful(c, topic, m);
    DeadLetterReadsBack(c, topic, m);
    DispatchedMessageDecodes(c, sent, r.value, [], []);
    assert r.headers == [] + [Header(CONTENT_TYPE_HEADER_KEY, TypeOf(sent))] + [];
    if Reencoded(c, m) {
      assert Reencoded(c, AsReceived(r));
    } else {
      if Decode(c, m).Ok? {
        TextContentIsThePayload(c, m);
      }
      assert sent == TextMessage(m.value);
      if Decode(c, AsReceived(r)).Ok? {
        TextContentIsThePayload(c, AsReceived(r));
      }
    }
    assert DeadLetterMessage(c, AsReceived(r)) == sent;
    assert DeadLetterTopic(again) == again + "-dlt";
  }
}
