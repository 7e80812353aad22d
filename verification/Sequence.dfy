/** `SequenceGenerator` of pkg/gen: an atomic 64-bit counter printed in decimal, called by any
    number of goroutines at once. */
module Sequence {
  import opened Decimal

  const TWO_63 := 0x8000_0000_0000_0000
  const TWO_64 := 0x1_0000_0000_0000_0000

  /** The `int64` that holds `x`: addition wraps around. */
  function Wrap(x: int): int {
    (x + TWO_63) % TWO_64 - TWO_63
  }

  lemma MultipleIsFar(m: int, d: int)
    requires m > 0
    ensures d >= 1 ==> m * d >= m
    ensures d <= -1 ==> m * d <= -m
  {
  }

  lemma RemainderOf(x: int, m: int, q: int, r: int)
    requires 0 <= r < m && x == m * q + r
    ensures x % m == r
  {
    var d := x / m - q;
    assert m * d == r - x % m;
    MultipleIsFar(m, d);
  }

  lemma SameRemainder(x: int, y: int, m: int)
    requires m > 0
    ensures x % m == y % m <==> (x - y) % m == 0
  {
    if x % m == y % m {
      RemainderOf(x - y, m, x / m - y / m, 0);
    }
    if (x - y) % m == 0 {
      RemainderOf(x, m, (x - y) / m + y / m, y % m);
    }
  }

  /** `Add(1)` on an `int64`. */
  function Increment(x: int): int {
    if x == TWO_63 - 1 then -TWO_63 else x + 1
  }

  /** The value of the counter after `k` additions. */
  function Nth(k: nat): int {
    if k == 0 then 0 else Increment(Nth(k - 1))
  }

  lemma IncrementWraps(x: int)
    ensures Increment(Wrap(x)) == Wrap(x + 1)
    ensures -TWO_63 <= x < TWO_63 ==> Wrap(x) == x
  {
  }

  lemma {:induction false} NthIsWrap(k: nat)
    ensures Nth(k) == Wrap(k)
  {
    if k > 0 {
      NthIsWrap(k - 1);
      IncrementWraps(k - 1);
    }
  }

  class SequenceGenerator {
    var sequence: int
    ghost var calls: nat

    ghost predicate Valid()
      reads this
    {
      sequence == Nth(calls)
    }

    constructor ()
      ensures Valid() && calls == 0
    {
      sequence, calls := 0, 0;
    }

    method Generate() returns (s: string)
      requires Valid()
      modifies this
      ensures Valid() && calls == old(calls) + 1
      ensures s == FormatInt(Wrap(calls))
      ensures calls < TWO_63 ==> s == Natural(calls)
    {
      sequence := Increment(sequence);
      calls := calls + 1;
      NthIsWrap(calls);
      IncrementWraps(calls);
      s := FormatInt(sequence);
    }
  }

  /** The i-th and the j-th string are the same exactly when a multiple of 2^64 calls lies in
      between: all strings are distinct until the counter has gone all the way round. */
  lemma RepeatsAfterWrapAround(i: nat, j: nat)
    ensures FormatInt(Wrap(i)) == FormatInt(Wrap(j)) <==> (i - j) % TWO_64 == 0
  {
    FormatIntIsInjective(Wrap(i), Wrap(j));
    SameRemainder(i + TWO_63, j + TWO_63, TWO_64);
  }

  // ----- Any interleaving of any number of callers -----

  /** A goroutine calling the generator: outside, or holding the value that its atomic add
      returned and not yet back with the string. */
  datatype Caller = Outside | Holding(value: int)

  /** `returned` are the values whose decimals the callers got back, in the order of return. */
  datatype State = State(sequence: int, adds: nat, callers: seq<Caller>, returned: seq<int>)

  datatype Step = Add(i: nat) | Return(i: nat)

  predicate Enabled(s: State, a: Step) {
    a.i < |s.callers| && (a.Add? <==> s.callers[a.i] == Outside)
  }

  function Next(s: State, a: Step): State
    requires Enabled(s, a)
  {
    match a
    case Add(i) =>
      var value := Increment(s.sequence);
      State(value, s.adds + 1, s.callers[i := Holding(value)], s.returned)
    case Return(i) =>
      s.(callers := s.callers[i := Outside], returned := s.returned + [s.callers[i].value])
  }

  predicate CanRun(s: State, run: seq<Step>)
    decreases |run|
  {
    run == [] || (Enabled(s, run[0]) && CanRun(Next(s, run[0]), run[1..]))
  }

  function After(s: State, run: seq<Step>): State
    requires CanRun(s, run)
    decreases |run|
  {
    if run == [] then s else After(Next(s, run[0]), run[1..])
  }

  function Fresh(n: nat): State {
    State(0, 0, seq(n, _ => Outside), [])
  }

  function HeldBy(c: Caller, v: int): nat {
    if c == Holding(v) then 1 else 0
  }

  /** How many callers still hold `v`. */
  function Pending(callers: seq<Caller>, v: int): nat {
    if callers == [] then 0 else HeldBy(callers[0], v) + Pending(callers[1..], v)
  }

  function BusyWith(c: Caller): nat {
    if c.Holding? then 1 else 0
  }

  function Busy(callers: seq<Caller>): nat {
    if callers == [] then 0 else BusyWith(callers[0]) + Busy(callers[1..])
  }

  /** How many of the calls 1 to `k` were given `v`. */
  function Issued(k: nat, v: int): nat {
    if k == 0 then 0 else Issued(k - 1, v) + if v == Nth(k) then 1 else 0
  }

  /** Conservation: each value given out is held by a caller or was returned by one. */
  ghost predicate Inv(s: State) {
    && s.sequence == Nth(s.adds)
    && |s.returned| + Busy(s.callers) == s.adds
    && forall v :: multiset(s.returned)[v] + Pending(s.callers, v) == Issued(s.adds, v)
  }

  lemma {:induction false} PendingUpdate(callers: seq<Caller>, i: nat, c: Caller, v: int)
    requires i < |callers|
    ensures Pending(callers[i := c], v) + HeldBy(callers[i], v) == Pending(callers, v) + HeldBy(c, v)
    ensures Busy(callers[i := c]) + BusyWith(callers[i]) == Busy(callers) + BusyWith(c)
    decreases |callers|
  {
    if i == 0 {
      assert callers[i := c][1..] == callers[1..];
    } else {
      assert callers[i := c][1..] == callers[1..][i - 1 := c];
      PendingUpdate(callers[1..], i - 1, c, v);
    }
  }

  lemma {:induction false} PendingNothing(callers: seq<Caller>, v: int)
    requires forall i :: 0 <= i < |callers| ==> callers[i] == Outside
    ensures Pending(callers, v) == 0 && Busy(callers) == 0
    decreases |callers|
  {
    if callers != [] {
      PendingNothing(callers[1..], v);
    }
  }

  lemma NextInv(s: State, a: Step)
    requires Inv(s) && Enabled(s, a)
    ensures Inv(Next(s, a))
  {
    var s' := Next(s, a);
    PendingUpdate(s.callers, a.i, s'.callers[a.i], 0);
    forall v
      ensures multiset(s'.returned)[v] + Pending(s'.callers, v) == Issued(s'.adds, v)
    {
      assert multiset(s.returned)[v] + Pending(s.callers, v) == Issued(s.adds, v);
      PendingUpdate(s.callers, a.i, s'.callers[a.i], v);
    }
  }

  lemma InitialInv(n: nat)
    ensures Inv(Fresh(n))
  {
    PendingNothing(Fresh(n).callers, 0);
    forall v
      ensures Pending(Fresh(n).callers, v) == 0
    {
      PendingNothing(Fresh(n).callers, v);
    }
  }

  lemma {:induction false} RunInv(s: State, run: seq<Step>)
    requires Inv(s) && CanRun(s, run)
    ensures Inv(After(s, run))
    decreases |run|
  {
    if run != [] {
      NextInv(s, run[0]);
      RunInv(Next(s, run[0]), run[1..]);
    }
  }

  lemma RemaindersDiffer(x: int, y: int, m: int)
    requires 0 < x - y < m
    ensures x % m != y % m
  {
    SameRemainder(x, y, m);
    RemainderOf(x - y, m, 0, x - y);
  }

  lemma NthDiffers(i: nat, k: nat)
    requires i < k < i + TWO_64
    ensures Nth(i) != Nth(k)
  {
    RemaindersDiffer(k + TWO_63, i + TWO_63, TWO_64);
    NthIsWrap(i);
    NthIsWrap(k);
  }

  lemma {:induction false} IssuedOnce(k: nat, v: int)
    requires k <= TWO_64
    ensures Issued(k, v) <= 1
    ensures Issued(k, v) > 0 ==> exists i :: 1 <= i <= k && v == Nth(i)
    decreases k
  {
    if k > 0 {
      IssuedOnce(k - 1, v);
      if v == Nth(k) && Issued(k - 1, v) > 0 {
        var i :| 1 <= i <= k - 1 && v == Nth(i);
        NthDiffers(i, k);
      }
    }
  }

  lemma TwiceIn(values: seq<int>, i: nat, j: nat)
    requires i < j < |values| && values[i] == values[j]
    ensures multiset(values)[values[i]] >= 2
  {
    assert values == values[..j] + [values[j]] + values[j + 1..];
    assert values[..j][i] in multiset(values[..j]);
  }

  /** Concurrent callers never get the same string within 2^64 calls, however they interleave. */
  lemma StringsAreDistinct(n: nat, run: seq<Step>, i: nat, j: nat)
    requires CanRun(Fresh(n), run) && After(Fresh(n), run).adds <= TWO_64
    requires i < j < |After(Fresh(n), run).returned|
    ensures FormatInt(After(Fresh(n), run).returned[i]) != FormatInt(After(Fresh(n), run).returned[j])
  {
    InitialInv(n);
    RunInv(Fresh(n), run);
    var r := After(Fresh(n), run);
    IssuedOnce(r.adds, r.returned[i]);
    assert multiset(r.returned)[r.returned[i]] <= Issued(r.adds, r.returned[i]);
    if r.returned[i] == r.returned[j] {
      TwiceIn(r.returned, i, j);
    }
    FormatIntIsInjective(r.returned[i], r.returned[j]);
  }

  lemma {:induction false} IssuedAre(k: nat, v: int)
    requires k < TWO_63
    ensures Issued(k, v) == if 1 <= v <= k then 1 else 0
  {
    if k > 0 {
      IssuedAre(k - 1, v);
      NthIsWrap(k);
      IncrementWraps(k);
    }
  }

  /** When no call is under way after `k` of them, within the range of `int64`, the values
      returned are exactly 1 to `k`, each once. */
  lemma ReturnsOneToK(n: nat, run: seq<Step>)
    requires CanRun(Fresh(n), run)
    requires forall i :: 0 <= i < |After(Fresh(n), run).callers| ==> After(Fresh(n), run).callers[i] == Outside
    requires After(Fresh(n), run).adds < TWO_63
    ensures var r := After(Fresh(n), run);
            && |r.returned| == r.adds
            && forall v :: v in r.returned <==> 1 <= v <= r.adds
    ensures forall i, j :: 0 <= i < j < |After(Fresh(n), run).returned| ==>
              After(Fresh(n), run).returned[i] != After(Fresh(n), run).returned[j]
  {
    InitialInv(n);
    RunInv(Fresh(n), run);
    var r := After(Fresh(n), run);
    PendingNothing(r.callers, 0);
    forall v
      ensures v in r.returned <==> 1 <= v <= r.adds
    {
      PendingNothing(r.callers, v);
      IssuedAre(r.adds, v);
      assert multiset(r.returned)[v] == Issued(r.adds, v);
      assert v in r.returned <==> v in multiset(r.returned);
    }
    forall i, j | 0 <= i < j < |r.returned|
      ensures r.returned[i] != r.returned[j]
    {
      StringsAreDistinct(n, run, i, j);
    }
  }
}
