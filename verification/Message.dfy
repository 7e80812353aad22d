/** The payloads of pkg/stream: how a message names its encoding, and how the header
    written on dispatch selects the decoder on the way back.
    A Go `string` and a Go `[]byte` are both sequences of bytes, and the conversions
    between them change nothing: here both are `string`, one character per byte. */
module Message {
  import opened GoErrors

  const JSON_TYPE := "json"
  const TEXT_TYPE := "text"
  const POSTGRES_TYPE := "postgresql"
  const CONTENT_TYPE_HEADER_KEY := "DEVKIT_CONTENT_TYPE"

  const ERR_UNKNOWN_MESSAGE_TYPE := Leaf(10, "stream: unknown message type")
  const ERR_STRING_DESERIALIZATION := Leaf(11, "stream: string serialization error")

  datatype Header = Header(key: string, value: string)

  datatype KafkaMessage = KafkaMessage(key: string, value: string, headers: seq<Header>)

  /** The body of a JSON message: `NewMessageType` stores the undecoded payload, everybody
      else a value. */
  datatype Body<+T> = Raw(bytes: string) | Data(value: T)

  datatype Message<+T> = JsonMessage(body: Body<T>) | TextMessage(text: string)

  /** What the program knows about the content type `T`: `encoding/json`, the `%v` verb, and,
      when `T` is `string`, how a Go string is a value of it. */
  datatype Codec<!T> = Codec(
    marshal: Body<T> -> Result<string>,
    unmarshal: string -> Result<T>,
    format: T -> string,
    fromString: Option<string -> T>)

  /** The assumed laws: JSON decodes what it encoded, and `%v` prints a string as itself. */
  ghost predicate Lawful<T(!new)>(c: Codec<T>) {
    && (forall x: T :: c.marshal(Data(x)).Ok? ==> c.unmarshal(c.marshal(Data(x)).value) == Ok(x))
    && (c.fromString.Some? ==> forall s :: c.format(c.fromString.value(s)) == s)
  }

  function TypeOf<T>(m: Message<T>): string {
    if m.JsonMessage? then JSON_TYPE else TEXT_TYPE
  }

  function Serialize<T>(c: Codec<T>, m: Message<T>): Result<string> {
    match m
    case JsonMessage(body) => c.marshal(body)
    case TextMessage(text) => Ok(text)
  }

  /** The content that decoding leaves in the destination, which is a `*T`. */
  function Deserialize<T>(c: Codec<T>, m: Message<T>, payload: string): Result<T> {
    match m
    case JsonMessage(_) => c.unmarshal(payload)
    case TextMessage(_) =>
      match c.fromString
      case Some(f) => Ok(f(payload))
      case None => Fail(ERR_STRING_DESERIALIZATION)
  }

  function NewWithData<T>(c: Codec<T>, m: Message<T>, data: T): Message<T> {
    match m
    case JsonMessage(_) => JsonMessage(Data(data))
    case TextMessage(_) => TextMessage(c.format(data))
  }

  /** A header that decides the encoding: the right key and a value this package implements. */
  predicate Recognised(h: Header) {
    h.key == CONTENT_TYPE_HEADER_KEY && h.value in {JSON_TYPE, POSTGRES_TYPE, TEXT_TYPE}
  }

  function MessageFor<T>(h: Header, payload: string): Message<T>
    requires Recognised(h)
  {
    if h.value == TEXT_TYPE then TextMessage(payload) else JsonMessage(Raw(payload))
  }

  /** The decision taken on a list of headers. */
  function MessageType<T>(headers: seq<Header>, payload: string): Result<Message<T>> {
    if headers == [] then Fail(ERR_UNKNOWN_MESSAGE_TYPE)
    else if Recognised(headers[0]) then Ok(MessageFor(headers[0], payload))
    else MessageType(headers[1..], payload)
  }

  ghost predicate FirstRecognised(headers: seq<Header>, i: int) {
    0 <= i < |headers| && Recognised(headers[i]) && forall j :: 0 <= j < i ==> !Recognised(headers[j])
  }

  /** The first recognised header decides, whatever comes before it, and the type is
      unknown exactly when no header is recognised. */
  lemma {:induction false} MessageTypeIsFirstRecognised<T>(headers: seq<Header>, payload: string)
    ensures MessageType<T>(headers, payload).Ok? <==> exists i :: FirstRecognised(headers, i)
    ensures MessageType<T>(headers, payload).Fail? ==>
              && MessageType<T>(headers, payload) == Fail(ERR_UNKNOWN_MESSAGE_TYPE)
              && forall j :: 0 <= j < |headers| ==> !Recognised(headers[j])
    ensures forall i :: FirstRecognised(headers, i) ==>
              MessageType<T>(headers, payload) == Ok(MessageFor(headers[i], payload))
  {
    if headers == [] {
    } else if Recognised(headers[0]) {
      assert FirstRecognised(headers, 0);
    } else {
      var rest := headers[1..];
      MessageTypeIsFirstRecognised<T>(rest, payload);
      forall i | FirstRecognised(headers, i)
        ensures i > 0 && FirstRecognised(rest, i - 1) && headers[i] == rest[i - 1]
      {
        forall j | 0 <= j < i - 1
          ensures !Recognised(rest[j])
        {
          assert rest[j] == headers[j + 1];
        }
      }
      if i :| FirstRecognised(rest, i) {
        forall j | 0 <= j < i + 1
          ensures !Recognised(headers[j])
        {
          assert j > 0 ==> headers[j] == rest[j - 1];
        }
        assert headers[i + 1] == rest[i];
        assert FirstRecognised(headers, i + 1);
      }
      forall j | 0 <= j < |headers| && MessageType<T>(headers, payload).Fail?
        ensures !Recognised(headers[j])
      {
        assert j > 0 ==> headers[j] == rest[j - 1];
      }
    }
  }

  /** The three known encodings, by name: JSON also stands for `postgresql`, and both keep the
      payload undecoded; any other name decides nothing. */
  lemma KnownEncodings<T>(h: Header, payload: string)
    ensures Recognised(h) <==> h.key == "DEVKIT_CONTENT_TYPE" &&
                               (h.value == "json" || h.value == "postgresql" || h.value == "text")
    ensures Recognised(h) && h.value == "text" ==> MessageFor<T>(h, payload) == TextMessage(payload)
    ensures Recognised(h) && h.value != "text" ==> MessageFor<T>(h, payload) == JsonMessage(Raw(payload))
    ensures MessageType<T>([h], payload) ==
            if h == Header("DEVKIT_CONTENT_TYPE", "text") then Ok(TextMessage(payload))
            else if h == Header("DEVKIT_CONTENT_TYPE", "json") || h == Header("DEVKIT_CONTENT_TYPE", "postgresql")
            then Ok(JsonMessage(Raw(payload)))
            else Fail(ERR_UNKNOWN_MESSAGE_TYPE)
  {
    assert [h][1..] == [];
  }

  method NewMessageType<T>(message: KafkaMessage) returns (r: Result<Message<T>>)
    ensures r == MessageType(message.headers, message.value)
  {
    for i := 0 to |message.headers|
      invariant MessageType<T>(message.headers, message.value) ==
                MessageType(message.headers[i..], message.value)
    {
      var header := message.headers[i];
      assert message.headers[i..][1..] == message.headers[i + 1..];
      if header.key == CONTENT_TYPE_HEADER_KEY {
        if header.value == JSON_TYPE || header.value == POSTGRES_TYPE {
          return Ok(JsonMessage(Raw(message.value)));
        } else if header.value == TEXT_TYPE {
          return Ok(TextMessage(message.value));
        }
      }
    }
    return Fail(ERR_UNKNOWN_MESSAGE_TYPE);
  }

  /** What a consumer decodes a message to; a failure sends the raw payload to the dead
      letter topic. */
  function Decode<T>(c: Codec<T>, m: KafkaMessage): Result<T> {
    match MessageType<T>(m.headers, m.value)
    case Fail(e) => Fail(e)
    case Ok(kind) => Deserialize(c, kind, m.value)
  }

  /** The header `Dispatch` writes, seen through any headers that decide nothing, selects
      the kind that was dispatched, and decoding gives back what was sent. */
  lemma DispatchedMessageDecodes<T(!new)>(
    c: Codec<T>, m: Message<T>, payload: string, before: seq<Header>, after: seq<Header>)
    requires Lawful(c)
    requires Serialize(c, m) == Ok(payload)
    requires forall h :: h in before ==> !Recognised(h)
    ensures var headers := before + [Header(CONTENT_TYPE_HEADER_KEY, TypeOf(m))] + after;
            && MessageType<T>(headers, payload).Ok?
            && TypeOf(MessageType<T>(headers, payload).value) == TypeOf(m)
            && (m.TextMessage? ==> MessageType<T>(headers, payload).value == m)
            && (forall x :: m == JsonMessage(Data(x)) ==>
                  Decode(c, KafkaMessage("", payload, headers)) == Ok(x))
            && (m.TextMessage? ==>
                  Decode(c, KafkaMessage("", payload, headers)) ==
                  match c.fromString
                  case Some(f) => Ok(f(m.text))
                  case None => Fail(ERR_STRING_DESERIALIZATION))
  {
    var headers := before + [Header(CONTENT_TYPE_HEADER_KEY, TypeOf(m))] + after;
    assert headers[|before|] == Header(CONTENT_TYPE_HEADER_KEY, TypeOf(m));
    assert FirstRecognised(headers, |before|);
    MessageTypeIsFirstRecognised<T>(headers, payload);
  }
}
