/** Go error values: what `errors.Is`, `errors.As`, `errors.Wrap`, `errors.WithStack`
    and `errors.Join` do to them.  A nil error is `None`. */
module GoErrors {

  datatype Option<+T> = None | Some(value: T)

  datatype Result<+T> = Ok(value: T) | Fail(error: Error)

  datatype KafkaCode = TimedOut | MsgTimedOut | OtherCode(code: int)

  /** An error value.  `Leaf` is what `errors.New` makes: its identity is `id`.
      A `kafka.Error` travels by value or by pointer, and `errors.As` into a
      `kafka.Error` variable only finds the former. */
  datatype Error =
    | Leaf(id: nat, text: string)
    | Kafka(kafkaCode: KafkaCode, byPointer: bool, text: string)
    | Pg(code: string, message: string, text: string)
    | WithMessage(prefix: string, cause: Error)
    | WithStack(cause: Error)
    | Join(errs: seq<Error>)

  /** `errors.Wrap`, which makes two layers; the nil case is handled by the callers. */
  function Wrap(e: Error, message: string): Error {
    WithStack(WithMessage(message, e))
  }

  /** `errors.Is`: the error itself or anything it unwraps to, through joins. */
  predicate Is(e: Error, target: Error)
    decreases e
  {
    e == target ||
    match e
    case WithMessage(_, cause) => Is(cause, target)
    case WithStack(cause) => Is(cause, target)
    case Join(errs) => exists i | 0 <= i < |errs| :: Is(errs[i], target)
    case _ => false
  }

  /** `errors.As`: the first error, depth first and left to right, that `wanted` accepts. */
  function As(e: Error, wanted: Error -> bool): (r: Option<Error>)
    ensures r.Some? ==> wanted(r.value)
    decreases e, 1
  {
    if wanted(e) then Some(e) else
    match e
    case WithMessage(_, cause) => As(cause, wanted)
    case WithStack(cause) => As(cause, wanted)
    case Join(errs) => AsAny(errs, wanted)
    case _ => None
  }

  function AsAny(errs: seq<Error>, wanted: Error -> bool): (r: Option<Error>)
    ensures r.Some? ==> wanted(r.value)
    decreases errs, 0
  {
    if errs == [] then None else
    var first := As(errs[0], wanted);
    if first.Some? then first else AsAny(errs[1..], wanted)
  }

  const KAFKA_BY_VALUE: Error -> bool := (e: Error) => e.Kafka? && !e.byPointer

  const DRIVER_ERROR: Error -> bool := (e: Error) => e.Pg?

  /** `errors.As` into a `kafka.Error` finds one that travels by value, also inside wraps, and
      none that travels by pointer. */
  lemma KafkaErrorsByValue(code: KafkaCode, text: string, message: string)
    ensures var (byValue, byPointer) := (Kafka(code, false, text), Kafka(code, true, text));
            && As(byValue, KAFKA_BY_VALUE) == Some(byValue)
            && As(Wrap(byValue, message), KAFKA_BY_VALUE) == Some(byValue)
            && As(byPointer, KAFKA_BY_VALUE) == As(Wrap(byPointer, message), KAFKA_BY_VALUE) == None
  {
    forall e: Error, wanted | e.Kafka?
      ensures As(Wrap(e, message), wanted) ==
              if wanted(Wrap(e, message)) then Some(Wrap(e, message))
              else if wanted(WithMessage(message, e)) then Some(WithMessage(message, e)) else As(e, wanted)
    {
    }
  }

  /** `Error()`: the text of an error. */
  function Text(e: Error): string
    decreases e, 1
  {
    match e
    case Leaf(_, text) => text
    case Kafka(_, _, text) => text
    case Pg(_, _, text) => text
    case WithMessage(prefix, cause) => prefix + ": " + Text(cause)
    case WithStack(cause) => Text(cause)
    case Join(errs) => TextAll(errs)
  }

  function TextAll(errs: seq<Error>): string
    decreases errs, 0
  {
    if errs == [] then "" else
    if |errs| == 1 then Text(errs[0]) else Text(errs[0]) + "\n" + TextAll(errs[1..])
  }

  /** Joined errors print one per line; a wrapped one prints after its message. */
  lemma TextsByExample(a: Error, b: Error, message: string)
    ensures Text(Join([a, b])) == Text(a) + "\n" + Text(b)
    ensures Text(Join([a])) == Text(a)
    ensures Text(Wrap(a, message)) == message + ": " + Text(a)
  {
    assert [a, b][1..] == [b];
    assert TextAll([b]) == Text(b);
  }

  /** `errors.As` finds nothing exactly when nothing matching `errors.Is` is acceptable. */
  lemma {:induction false} AsFindsWhatIsThere(e: Error, wanted: Error -> bool)
    ensures As(e, wanted).Some? <==> exists t :: Is(e, t) && wanted(t)
    ensures As(e, wanted).Some? ==> Is(e, As(e, wanted).value)
    decreases e, 1
  {
    assert Is(e, e);
    match e
    case WithMessage(_, cause) => AsFindsWhatIsThere(cause, wanted);
    case WithStack(cause) => AsFindsWhatIsThere(cause, wanted);
    case Join(errs) => AsAnyFindsWhatIsThere(errs, wanted);
    case _ =>
  }

  lemma {:induction false} AsAnyFindsWhatIsThere(errs: seq<Error>, wanted: Error -> bool)
    ensures AsAny(errs, wanted).Some? <==>
            exists i, t :: 0 <= i < |errs| && Is(errs[i], t) && wanted(t)
    ensures AsAny(errs, wanted).Some? ==>
              exists i :: 0 <= i < |errs| && Is(errs[i], AsAny(errs, wanted).value)
    decreases errs, 0
  {
    if errs != [] {
      AsFindsWhatIsThere(errs[0], wanted);
      AsAnyFindsWhatIsThere(errs[1..], wanted);
      forall i, t | 0 <= i < |errs| && Is(errs[i], t) && wanted(t)
        ensures AsAny(errs, wanted).Some?
      {
        if i > 0 {
          assert errs[1..][i - 1] == errs[i];
        }
      }
      if As(errs[0], wanted).Some? {
        assert Is(errs[0], AsAny(errs, wanted).value);
      } else if AsAny(errs[1..], wanted).Some? {
        var i :| 0 <= i < |errs[1..]| && Is(errs[1..][i], AsAny(errs, wanted).value);
        assert errs[i + 1] == errs[1..][i];
      }
    }
  }

  // ----- The chain of an error -----

  /** An error and all it unwraps to, depth first and left to right. */
  function Chain(e: Error): seq<Error>
    decreases e, 1
  {
    match e
    case WithMessage(_, cause) => [e] + Chain(cause)
    case WithStack(cause) => [e] + Chain(cause)
    case Join(errs) => [e] + Chains(errs)
    case _ => [e]
  }

  function Chains(errs: seq<Error>): seq<Error>
    decreases errs, 0
  {
    if errs == [] then [] else Chain(errs[0]) + Chains(errs[1..])
  }

  function FirstOf(chain: seq<Error>, wanted: Error -> bool): Option<Error> {
    if chain == [] then None else if wanted(chain[0]) then Some(chain[0]) else FirstOf(chain[1..], wanted)
  }

  lemma {:induction false} FirstOfBoth(a: seq<Error>, b: seq<Error>, wanted: Error -> bool)
    ensures FirstOf(a + b, wanted) == if FirstOf(a, wanted).Some? then FirstOf(a, wanted) else FirstOf(b, wanted)
    decreases |a|
  {
    if a == [] {
      assert a + b == b;
    } else {
      assert (a + b)[1..] == a[1..] + b;
      FirstOfBoth(a[1..], b, wanted);
    }
  }

  /** `errors.Is` matches exactly the members of the chain, and `errors.As` finds the first of
      them that is acceptable. */
  lemma {:induction false} ChainIsSearched(e: Error, target: Error, wanted: Error -> bool)
    ensures Is(e, target) <==> target in Chain(e)
    ensures As(e, wanted) == FirstOf(Chain(e), wanted)
    decreases e, 1
  {
    match e
    case WithMessage(_, cause) =>
      ChainIsSearched(cause, target, wanted);
      FirstOfBoth([e], Chain(cause), wanted);
    case WithStack(cause) =>
      ChainIsSearched(cause, target, wanted);
      FirstOfBoth([e], Chain(cause), wanted);
    case Join(errs) =>
      ChainsAreSearched(errs, target, wanted);
      FirstOfBoth([e], Chains(errs), wanted);
    case _ =>
  }

  lemma {:induction false} ChainsAreSearched(errs: seq<Error>, target: Error, wanted: Error -> bool)
    ensures (exists i :: 0 <= i < |errs| && Is(errs[i], target)) <==> target in Chains(errs)
    ensures AsAny(errs, wanted) == FirstOf(Chains(errs), wanted)
    decreases errs, 0
  {
    if errs != [] {
      ChainIsSearched(errs[0], target, wanted);
      ChainsAreSearched(errs[1..], target, wanted);
      FirstOfBoth(Chain(errs[0]), Chains(errs[1..]), wanted);
      forall i | 0 <= i < |errs| && Is(errs[i], target)
        ensures target in Chains(errs)
      {
        assert i > 0 ==> errs[1..][i - 1] == errs[i];
      }
      if target in Chains(errs[1..]) {
        var i :| 0 <= i < |errs[1..]| && Is(errs[1..][i], target);
        assert errs[i + 1] == errs[1..][i];
      }
    }
  }
}
