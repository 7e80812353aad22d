/** What a program of statements and nested `TransactionContext` calls means
    (pkg/database/sql): a denotation over the committed data and the writes of the open
    transactions.  As on a PostgreSQL server, a statement that the server refuses aborts its
    transaction: later ones in it are refused, and its commit ends in a rollback. */
module Transactions {
  import opened GoErrors
  import opened SqlErrors

  type Data = map<string, string>

  /** The effect of a statement: rows written, or deleted (`None`). */
  type Delta = map<string, Option<string>>

  function Apply(data: Data, delta: Delta): Data {
    map k | k in data.Keys + delta.Keys && (k in delta ==> delta[k].Some?) ::
      if k in delta then delta[k].value else data[k]
  }

  /** What is stored under a key. */
  function Lookup(data: Data, k: string): Option<string> {
    if k in data then Some(data[k]) else None
  }

  /** `view` is `base` with the writes laid over it: a key written has the value written, a key
      deleted is absent, any other key is as in `base`. */
  ghost predicate LaidOver(view: Data, base: Data, writes: Delta) {
    forall k :: Lookup(view, k) == if k in writes then writes[k] else Lookup(base, k)
  }

  /** Applying writes lays them over the data, and nothing else does. */
  lemma ApplyLaysOver(data: Data, delta: Delta, view: Data)
    ensures LaidOver(view, data, delta) <==> view == Apply(data, delta)
  {
    if LaidOver(view, data, delta) {
      forall k
        ensures k in view <==> k in Apply(data, delta)
        ensures k in view ==> view[k] == Apply(data, delta)[k]
      {
        assert Lookup(view, k) == if k in delta then delta[k] else Lookup(data, k);
      }
    }
  }

  lemma ApplyTwice(data: Data, first: Delta, second: Delta)
    ensures Apply(Apply(data, first), second) == Apply(data, first + second)
  {
  }

  lemma ApplyNothing(data: Data)
    ensures Apply(data, map[]) == data
  {
  }

  /** What a statement does to the rows it sees: its writes, or an error. */
  type Statement = Data -> Result<Delta>

  /** What a query finds in them, or an error: the driver's, or one of reading the rows. */
  type Test = Data -> Result<bool>

  /** What the server and the connection do to one transaction: an error of `BEGIN`, of
      `COMMIT` (which the server may have `applied` all the same) or of `ROLLBACK`. */
  datatype Faults = Faults(begin: Option<Error>, commit: Option<Error>, applied: bool, rollback: Option<Error>)

  /** What a body returns: nil, an error of its own, or the latest error it was given. */
  datatype Answer = ReturnNil | ReturnError(error: Error) | ReturnLast

  /** A body.  `ctx` picks one of the contexts in scope, 0 being the innermost; after a call
      the program goes on with `ok` or `failed`, after a query with `yes`, `no` or `failed`.
      `Shadow` puts a `Transaction` that `Begin` did not make into the context. */
  datatype Program =
    | Return(answer: Answer)
    | Exec(ctx: nat, statement: Statement, ok: Program, failed: Program)
    | Query(ctx: nat, test: Test, yes: Program, no: Program, failed: Program)
    | Shadow(ctx: nat, rest: Program)
    | Nest(ctx: nat, faults: Faults, body: Program, ok: Program, failed: Program)

  /** An open transaction: what it wrote, and whether the server aborted it. */
  datatype Own = Own(writes: Delta, aborted: bool)

  const FRESH := Own(map[], false)

  /** The committed data, and the open transactions, outermost first. */
  datatype Store = Store(pool: Data, open: seq<Own>)

  datatype Target = Pool | Tx(level: nat)

  datatype Run = Run(store: Store, err: Option<Error>)

  /** The server's answer to a statement in an aborted transaction. */
  const ERR_ABORTED :=
    Pg("25P02", "current transaction is aborted, commands ignored until end of transaction block",
       "ERROR: current transaction is aborted, commands ignored until end of transaction block (SQLSTATE 25P02)")

  /** The driver's answer to the commit of an aborted transaction. */
  const ERR_COMMIT_ROLLBACK := Leaf(21, "commit unexpectedly resulted in rollback")

  function TargetOf(targets: seq<Target>, ctx: nat): Target {
    if ctx < |targets| then targets[ctx] else Pool
  }

  predicate InScope(targets: seq<Target>, levels: nat) {
    forall t :: t in targets ==> t.Tx? ==> t.level < levels
  }

  predicate IsOpen(store: Store, t: Target) {
    t.Tx? ==> t.level < |store.open|
  }

  /** A transaction sees the committed data under its own writes; aborted, it refuses
      everything. */
  function Ask<A>(pool: Data, own: Own, request: Data -> Result<A>): Result<A> {
    if own.aborted then Fail(ERR_ABORTED) else request(Apply(pool, own.writes))
  }

  function Wrote(own: Own, delta: Delta): Own {
    own.(writes := own.writes + delta)
  }

  /** The server refused a statement, as opposed to the client failing to read its rows. */
  predicate ServerError(e: Error) {
    As(e, DRIVER_ERROR).Some?
  }

  /** A transaction after a failed statement or query. */
  function Erred(own: Own, e: Error): Own {
    if ServerError(e) then own.(aborted := true) else own
  }

  /** The outcome of a statement or query. */
  function Attempt<A>(store: Store, t: Target, request: Data -> Result<A>): Result<A>
    requires IsOpen(store, t)
  {
    if t.Pool? then request(store.pool) else Ask(store.pool, store.open[t.level], request)
  }

  function Write(store: Store, t: Target, delta: Delta): Store
    requires IsOpen(store, t)
  {
    if t.Pool? then store.(pool := Apply(store.pool, delta))
    else store.(open := store.open[t.level := Wrote(store.open[t.level], delta)])
  }

  function Refused(store: Store, t: Target, e: Error): Store
    requires IsOpen(store, t)
  {
    if t.Pool? then store else store.(open := store.open[t.level := Erred(store.open[t.level], e)])
  }

  /** The error of `Get` and `Select`, which in a transaction is translated twice. */
  function QueryError(t: Target, e: Error): Option<Error> {
    if t.Pool? then Translate(Some(e)) else Translate(Translate(Some(e)))
  }

  function AnswerError(answer: Answer, last: Option<Error>): Option<Error> {
    match answer
    case ReturnNil => None
    case ReturnError(e) => Some(e)
    case ReturnLast => last
  }

  function CommitError(faults: Faults, aborted: bool): Option<Error> {
    if faults.commit.None? && aborted then Some(ERR_COMMIT_ROLLBACK) else faults.commit
  }

  /** The error of a `TransactionContext` whose body returned `body` and left the transaction
      `aborted` or not. */
  function TransactionError(faults: Faults, body: Option<Error>, aborted: bool): Option<Error> {
    if faults.begin.Some? then faults.begin
    else if body.None? then Translate(CommitError(faults, aborted))
    else if faults.rollback.None? then body
    else Some(Join([body.value, Translate(faults.rollback).value]))
  }

  /** The writes of a transaction are applied. */
  predicate Applies(faults: Faults, body: Option<Error>, aborted: bool) {
    body.None? && !aborted && (faults.commit.None? || faults.applied)
  }

  /** The store after the innermost transaction ended. */
  function Close(store: Store, faults: Faults, body: Option<Error>): Store
    requires store.open != []
  {
    var n := |store.open| - 1;
    Store(if Applies(faults, body, store.open[n].aborted)
          then Apply(store.pool, store.open[n].writes) else store.pool,
          store.open[..n])
  }

  function Meaning(p: Program, targets: seq<Target>, store: Store, last: Option<Error>): (r: Run)
    requires InScope(targets, |store.open|)
    ensures |r.store.open| == |store.open|
    decreases p
  {
    match p
    case Return(answer) => Run(store, AnswerError(answer, last))
    case Exec(ctx, statement, ok, failed) =>
      var t := TargetOf(targets, ctx);
      (match Attempt(store, t, statement)
       case Ok(delta) => Meaning(ok, targets, Write(store, t, delta), None)
       case Fail(e) => Meaning(failed, targets, Refused(store, t, e), Translate(Some(e))))
    case Query(ctx, test, yes, no, failed) =>
      var t := TargetOf(targets, ctx);
      (match Attempt(store, t, test)
       case Ok(found) => Meaning(if found then yes else no, targets, store, None)
       case Fail(e) => Meaning(failed, targets, Refused(store, t, e), QueryError(t, e)))
    case Shadow(_, rest) => Meaning(rest, [Pool] + targets, store, last)
    case Nest(_, faults, body, ok, failed) =>
      if faults.begin.Some? then Meaning(failed, targets, store, faults.begin)
      else
        var inner := Meaning(body, [Tx(|store.open|)] + targets, store.(open := store.open + [FRESH]), None);
        var err := TransactionError(faults, inner.err, inner.store.open[|store.open|].aborted);
        Meaning(if err.None? then ok else failed, targets, Close(inner.store, faults, inner.err), err)
  }

  /** A body inside a transaction of its own. */
  function BodyRun(body: Program, targets: seq<Target>, store: Store): Run
    requires InScope(targets, |store.open|)
  {
    Meaning(body, [Tx(|store.open|)] + targets, store.(open := store.open + [FRESH]), None)
  }

  /** One `TransactionContext` call. */
  function CallRun(faults: Faults, body: Program, targets: seq<Target>, store: Store): Run
    requires InScope(targets, |store.open|)
  {
    if faults.begin.Some? then Run(store, faults.begin)
    else
      var inner := BodyRun(body, targets, store);
      Run(Close(inner.store, faults, inner.err),
          TransactionError(faults, inner.err, inner.store.open[|store.open|].aborted))
  }

  /** An aborted transaction stays as it is, whatever the rest of the program does. */
  lemma {:induction false} AbortedForGood(p: Program, targets: seq<Target>, store: Store, last: Option<Error>, level: nat)
    requires InScope(targets, |store.open|)
    requires level < |store.open| && store.open[level].aborted
    ensures Meaning(p, targets, store, last).store.open[level] == store.open[level]
    decreases p
  {
    match p
    case Return(_) =>
    case Exec(ctx, statement, ok, failed) =>
      var t := TargetOf(targets, ctx);
      match Attempt(store, t, statement) {
        case Ok(delta) => AbortedForGood(ok, targets, Write(store, t, delta), None, level);
        case Fail(e) => AbortedForGood(failed, targets, Refused(store, t, e), Translate(Some(e)), level);
      }
    case Query(ctx, test, yes, no, failed) =>
      var t := TargetOf(targets, ctx);
      match Attempt(store, t, test) {
        case Ok(found) => AbortedForGood(if found then yes else no, targets, store, None, level);
        case Fail(e) => AbortedForGood(failed, targets, Refused(store, t, e), QueryError(t, e), level);
      }
    case Shadow(_, rest) => AbortedForGood(rest, [Pool] + targets, store, last, level);
    case Nest(_, faults, body, ok, failed) =>
      if faults.begin.Some? {
        AbortedForGood(failed, targets, store, faults.begin, level);
      } else {
        AbortedAcrossCall(p, targets, store, level);
      }
  }

  lemma {:induction false} AbortedAcrossCall(p: Program, targets: seq<Target>, store: Store, level: nat)
    requires p.Nest? && p.faults.begin.None? && InScope(targets, |store.open|)
    requires level < |store.open| && store.open[level].aborted
    ensures Meaning(p, targets, store, None).store.open[level] == store.open[level]
    decreases p, 0
  {
    var call := CallRun(p.faults, p.body, targets, store);
    AbortedForGood(p.body, [Tx(|store.open|)] + targets, store.(open := store.open + [FRESH]), None, level);
    AbortedForGood(if call.err.None? then p.ok else p.failed, targets, call.store, call.err, level);
  }

  // ----- Writes take effect -----

  /** A statement or query in a transaction sees the committed data with the transaction's own
      writes laid over it. */
  lemma AskSees<A>(pool: Data, own: Own, request: Data -> Result<A>, view: Data)
    requires LaidOver(view, pool, own.writes)
    ensures Ask(pool, own, request) == if own.aborted then Fail(ERR_ABORTED) else request(view)
  {
    ApplyLaysOver(pool, own.writes, view);
  }

  /** What was written is seen by whatever comes next on the same target: the view before with
      the new writes laid over it. */
  lemma WriteIsSeen<A>(store: Store, t: Target, delta: Delta, request: Data -> Result<A>, before: Data, after: Data)
    requires IsOpen(store, t) && (t.Tx? ==> !store.open[t.level].aborted)
    requires if t.Pool? then before == store.pool else LaidOver(before, store.pool, store.open[t.level].writes)
    requires LaidOver(after, before, delta)
    ensures Attempt(Write(store, t, delta), t, request) == request(after)
  {
    ApplyLaysOver(before, delta, after);
    if t.Tx? {
      ApplyLaysOver(store.pool, store.open[t.level].writes, before);
      ApplyTwice(store.pool, store.open[t.level].writes, delta);
    }
  }

  /** A call whose writes are applied lays them over the data its body left; any other call
      leaves that data. */
  lemma CallStores(faults: Faults, body: Program, targets: seq<Target>, store: Store)
    requires InScope(targets, |store.open|) && faults.begin.None?
    ensures var (inner, call) := (BodyRun(body, targets, store), CallRun(faults, body, targets, store));
            var own := inner.store.open[|store.open|];
            if inner.err.None? && !own.aborted && (faults.commit.None? || faults.applied)
            then LaidOver(call.store.pool, inner.store.pool, own.writes)
            else call.store.pool == inner.store.pool
  {
    var inner := BodyRun(body, targets, store);
    ApplyLaysOver(inner.store.pool, inner.store.open[|store.open|].writes, CallRun(faults, body, targets, store).store.pool);
  }

  /** The smallest case: one statement, a nil answer and no faults store its writes. */
  lemma OneStatementIsStored(body: Program, targets: seq<Target>, store: Store, delta: Delta)
    requires InScope(targets, |store.open|)
    requires body.Exec? && body.ctx == 0 && (forall data :: body.statement(data) == Ok(delta))
    requires body.ok == Return(ReturnNil)
    ensures var call := CallRun(Faults(None, None, false, None), body, targets, store);
            call.err == None && LaidOver(call.store.pool, store.pool, delta)
  {
    var begun := store.(open := store.open + [FRESH]);
    var t := Tx(|store.open|);
    assert Attempt(begun, t, body.statement) == Ok(delta);
    assert BodyRun(body, targets, store) == Meaning(body.ok, [t] + targets, Write(begun, t, delta), None);
    assert Write(begun, t, delta).open[|store.open|].writes == delta;
    CallStores(Faults(None, None, false, None), body, targets, store);
  }

  // ----- Errors -----

  /** A body answers what it says it does, and changes nothing by that. */
  lemma AnswersAreReturned(targets: seq<Target>, store: Store, last: Option<Error>, e: Error)
    requires InScope(targets, |store.open|)
    ensures Meaning(Return(ReturnNil), targets, store, last) == Run(store, None)
    ensures Meaning(Return(ReturnError(e)), targets, store, last) == Run(store, Some(e))
    ensures Meaning(Return(ReturnLast), targets, store, last) == Run(store, last)
  {
  }

  /** The program goes on where the outcome says: after a query with what was found, after a call
      with its error or without, on the data the call left. */
  lemma ProgramsGoOn(p: Program, targets: seq<Target>, store: Store, last: Option<Error>)
    requires InScope(targets, |store.open|)
    ensures p.Query? && Attempt(store, TargetOf(targets, p.ctx), p.test) == Ok(true) ==>
              Meaning(p, targets, store, last) == Meaning(p.yes, targets, store, None)
    ensures p.Query? && Attempt(store, TargetOf(targets, p.ctx), p.test) == Ok(false) ==>
              Meaning(p, targets, store, last) == Meaning(p.no, targets, store, None)
    ensures p.Nest? ==>
              var call := CallRun(p.faults, p.body, targets, store);
              && (call.err == None ==> Meaning(p, targets, store, last) == Meaning(p.ok, targets, call.store, None))
              && (call.err.Some? ==>
                    Meaning(p, targets, store, last) == Meaning(p.failed, targets, call.store, call.err))
  {
  }

  /** A `Transaction` that `Begin` did not make sends statements to the pool, whatever is open. */
  lemma ShadowedStatement(p: Program, targets: seq<Target>, store: Store, last: Option<Error>)
    requires InScope(targets, |store.open|)
    requires p.Shadow? && p.rest.Exec? && p.rest.ctx == 0
    requires p.rest.statement(store.pool).Ok? && p.rest.ok == Return(ReturnNil)
    ensures var r := Meaning(p, targets, store, last);
            r.err == None && r.store.open == store.open &&
            LaidOver(r.store.pool, store.pool, p.rest.statement(store.pool).value)
  {
    var delta := p.rest.statement(store.pool).value;
    assert Meaning(p.rest, [Pool] + targets, store, last) ==
           Meaning(p.rest.ok, [Pool] + targets, Write(store, Pool, delta), None);
    ApplyLaysOver(store.pool, delta, Apply(store.pool, delta));
  }

  /** Exactly the server's errors abort a transaction, wrapped or not; one of the client, such as
      of reading rows, does not; and nothing undoes it or touches the writes. */
  lemma RefusalAborts(own: Own, e: Error, code: string, text: string)
    ensures Erred(own, e).writes == own.writes
    ensures Erred(own, e).aborted <==> own.aborted || exists pg: Error :: pg.Pg? && Is(e, pg)
    ensures Erred(own, Pg(code, text, text)).aborted && Erred(own, WithStack(Pg(code, text, text))).aborted
    ensures Erred(own, Leaf(0, text)) == own
  {
    AsFindsWhatIsThere(e, DRIVER_ERROR);
    if pg: Error :| pg.Pg? && Is(e, pg) {
      assert DRIVER_ERROR(pg);
    }
    assert As(Pg(code, text, text), DRIVER_ERROR).Some?;
  }

  /** A failing query gives, on the pool and in a transaction, the error that a single
      translation gives: the sentinel of the driver error, or the error as it was. */
  lemma QueryErrorMatches(t: Target, e: Error, target: Error)
    requires Plain(target)
    ensures QueryError(t, e).Some?
    ensures Is(QueryError(t, e).value, target) <==> Is(Translate(Some(e)).value, target)
    ensures Text(QueryError(t, e).value) == Text(Translate(Some(e)).value)
  {
    TranslateTwice(Some(e), target);
  }

  /** Two errors that no caller can tell apart by matching. */
  ghost predicate SameError(a: Option<Error>, b: Option<Error>) {
    && (a.None? <==> b.None?)
    && (a.Some? ==> forall target :: Plain(target) ==> (Is(a.value, target) <==> Is(b.value, target)))
  }

  /** Which errors a failed `TransactionContext` matches: after a failed rollback both the
      body's error and the translated rollback error. */
  lemma TransactionErrorMatches(faults: Faults, body: Option<Error>, aborted: bool, target: Error)
    requires Plain(target)
    ensures var r := TransactionError(faults, body, aborted);
            && (r.None? <==> faults.begin.None? && body.None? && faults.commit.None? && !aborted)
            && (r.Some? && faults.begin.None? && body.Some? ==>
                  (Is(r.value, target) <==>
                   Is(body.value, target) ||
                   (faults.rollback.Some? && Is(Translate(faults.rollback).value, target))))
            && (faults.begin.Some? ==> r == faults.begin)
            && (r.Some? && faults.begin.None? && body.None? ==>
                  (Is(r.value, target) <==>
                   if faults.commit.Some? then Is(Translate(faults.commit).value, target)
                   else target == ERR_COMMIT_ROLLBACK))
  {
    TranslateHidesDriverErrors(CommitError(faults, aborted));
    if faults.begin.None? && body.Some? && faults.rollback.Some? {
      var errs := [body.value, Translate(faults.rollback).value];
      assert Is(Join(errs), target) <==> exists i :: 0 <= i < |errs| && Is(errs[i], target);
      assert errs[0] == body.value && errs[1] == Translate(faults.rollback).value;
    }
  }

  lemma SameTransactionError(faults: Faults, a: Option<Error>, b: Option<Error>)
    requires SameError(a, b)
    ensures SameError(TransactionError(faults, a, false), TransactionError(faults, b, false))
  {
    var (ra, rb) := (TransactionError(faults, a, false), TransactionError(faults, b, false));
    forall target | Plain(target)
      ensures (ra.None? <==> rb.None?) && (ra.Some? ==> (Is(ra.value, target) <==> Is(rb.value, target)))
    {
      TransactionErrorMatches(faults, a, false, target);
      TransactionErrorMatches(faults, b, false, target);
    }
    TransactionErrorMatches(faults, a, false, ERR_COMMIT_ROLLBACK);
    TransactionErrorMatches(faults, b, false, ERR_COMMIT_ROLLBACK);
  }

  /** Inside a transaction and on the pool a failing query gives errors that match the same. */
  lemma SameQueryError(a: Target, b: Target, e: Error)
    ensures SameError(QueryError(a, e), QueryError(b, e))
  {
    forall target | Plain(target)
      ensures Is(QueryError(a, e).value, target) <==> Is(QueryError(b, e).value, target)
    {
      TranslateTwice(Some(e), target);
    }
  }

  lemma AsAnyOfTwo(first: Error, second: Error, wanted: Error -> bool)
    ensures AsAny([first, second], wanted) ==
            if As(first, wanted).Some? then As(first, wanted) else As(second, wanted)
  {
    assert [first, second][1..] == [second];
    assert AsAny([second], wanted) == As(second, wanted);
  }

  /** Driver errors are hidden from callers except on one path: the error of `Begin` is
      returned as it came.  So a driver error can be seen exactly when `Begin` failed with
      one, or the body itself returned one. */
  lemma DriverErrorIsVisible(faults: Faults, body: Option<Error>, aborted: bool)
    ensures var r := TransactionError(faults, body, aborted);
            (r.Some? && As(r.value, DRIVER_ERROR).Some?) <==>
            if faults.begin.Some? then As(faults.begin.value, DRIVER_ERROR).Some?
            else body.Some? && As(body.value, DRIVER_ERROR).Some?
  {
    TranslateHidesDriverErrors(CommitError(faults, aborted));
    TranslateHidesDriverErrors(faults.rollback);
    if faults.begin.None? && body.Some? && faults.rollback.Some? {
      var errs := [body.value, Translate(faults.rollback).value];
      assert As(Join(errs), DRIVER_ERROR) == AsAny(errs, DRIVER_ERROR);
      AsAnyOfTwo(body.value, Translate(faults.rollback).value, DRIVER_ERROR);
    }
  }

  /** Such a `Begin`: the returned error still is the driver's, and no sentinel matches it. */
  lemma BeginErrorIsNotTranslated(code: string)
    ensures var e := Pg(code, "", "");
            var r := TransactionError(Faults(Some(e), None, false, None), None, false);
            r == Some(e) && !Is(e, SentinelFor(code)) && Is(Translate(r).value, SentinelFor(code))
  {
    TranslateMatches(Pg(code, "", ""), SentinelFor(code));
  }

  // ----- Direct and transactional runs -----

  /** A body without inner transactions that uses its own context only. */
  predicate Flat(p: Program) {
    match p
    case Return(_) => true
    case Exec(ctx, _, ok, failed) => ctx == 0 && Flat(ok) && Flat(failed)
    case Query(ctx, _, yes, no, failed) => ctx == 0 && Flat(yes) && Flat(no) && Flat(failed)
    case _ => false
  }

  /** The server refuses some statement when a flat body runs directly on `data`. */
  predicate ServerRefuses(p: Program, data: Data)
    decreases p
  {
    match p
    case Exec(_, statement, ok, failed) =>
      (match statement(data)
       case Ok(delta) => ServerRefuses(ok, Apply(data, delta))
       case Fail(e) => ServerError(e) || ServerRefuses(failed, data))
    case Query(_, test, yes, no, failed) =>
      (match test(data)
       case Ok(found) => ServerRefuses(if found then yes else no, data)
       case Fail(e) => ServerError(e) || ServerRefuses(failed, data))
    case _ => false
  }

  /** As long as the server refuses nothing, a flat body inside a transaction sees and answers
      what it would directly on the pool, and its writes stay in that transaction: laid over
      the committed data they give what the direct run commits. */
  lemma {:induction false} FlatBodyInTransaction(
    p: Program, targets: seq<Target>, store: Store, own: Delta, last: Option<Error>, lastInTx: Option<Error>)
    requires Flat(p) && InScope(targets, |store.open|)
    requires !ServerRefuses(p, Apply(store.pool, own)) && SameError(lastInTx, last)
    ensures var n := |store.open|;
            var inTx := Meaning(p, [Tx(n)] + targets, store.(open := store.open + [Own(own, false)]), lastInTx);
            var direct := Meaning(p, [], Store(Apply(store.pool, own), []), last);
            && SameError(inTx.err, direct.err)
            && inTx.store.pool == store.pool
            && inTx.store.open[..n] == store.open
            && !inTx.store.open[n].aborted
            && Apply(store.pool, inTx.store.open[n].writes) == direct.store.pool
    decreases p
  {
    var n := |store.open|;
    var s := store.(open := store.open + [Own(own, false)]);
    match p
    case Return(_) =>
    case Exec(_, statement, ok, failed) =>
      match statement(Apply(store.pool, own)) {
        case Ok(delta) =>
          ApplyTwice(store.pool, own, delta);
          assert Write(s, Tx(n), delta).open == store.open + [Own(own + delta, false)];
          FlatBodyInTransaction(ok, targets, store, own + delta, None, None);
        case Fail(e) =>
          assert Refused(s, Tx(n), e).open == store.open + [Own(own, false)];
          FlatBodyInTransaction(failed, targets, store, own, Translate(Some(e)), Translate(Some(e)));
      }
    case Query(_, test, yes, no, failed) =>
      match test(Apply(store.pool, own)) {
        case Ok(found) => FlatBodyInTransaction(if found then yes else no, targets, store, own, None, None);
        case Fail(e) =>
          assert Refused(s, Tx(n), e).open == store.open + [Own(own, false)];
          SameQueryError(Tx(n), Pool, e);
          FlatBodyInTransaction(failed, targets, store, own, QueryError(Pool, e), QueryError(Tx(n), e));
      }
  }

  /** Once the server refuses a statement the transaction is aborted, and its body can change
      nothing but itself. */
  lemma {:induction false} RefusedBodyIsAborted(
    p: Program, targets: seq<Target>, store: Store, own: Own, last: Option<Error>)
    requires Flat(p) && InScope(targets, |store.open|)
    requires own.aborted || ServerRefuses(p, Apply(store.pool, own.writes))
    ensures var n := |store.open|;
            var inTx := Meaning(p, [Tx(n)] + targets, store.(open := store.open + [own]), last);
            && inTx.store.pool == store.pool
            && inTx.store.open[..n] == store.open
            && inTx.store.open[n].aborted
    decreases p
  {
    var n := |store.open|;
    var s := store.(open := store.open + [own]);
    match p
    case Return(_) =>
    case Exec(_, statement, ok, failed) =>
      match Attempt(s, Tx(n), statement) {
        case Ok(delta) =>
          ApplyTwice(store.pool, own.writes, delta);
          assert Write(s, Tx(n), delta).open == store.open + [Wrote(own, delta)];
          RefusedBodyIsAborted(ok, targets, store, Wrote(own, delta), None);
        case Fail(e) =>
          assert Refused(s, Tx(n), e).open == store.open + [Erred(own, e)];
          RefusedBodyIsAborted(failed, targets, store, Erred(own, e), Translate(Some(e)));
      }
    case Query(_, test, yes, no, failed) =>
      match Attempt(s, Tx(n), test) {
        case Ok(found) => RefusedBodyIsAborted(if found then yes else no, targets, store, own, None);
        case Fail(e) =>
          assert Refused(s, Tx(n), e).open == store.open + [Erred(own, e)];
          RefusedBodyIsAborted(failed, targets, store, Erred(own, e), QueryError(Tx(n), e));
      }
  }

  /** Routing refinement, for every flat body: run by `TransactionContext` it succeeds exactly
      when the direct run on the pool returns nil without the server refusing a statement and
      the commit succeeds; then it commits exactly the data of the direct run.  In every other
      case nothing of it remains (unless a failed commit was applied all the same).  As long as
      nothing is refused its error matches what the direct run's error makes it match. */
  lemma FlatTransaction(body: Program, targets: seq<Target>, store: Store, faults: Faults)
    requires Flat(body) && InScope(targets, |store.open|)
    requires faults.begin.None?
    ensures var tx := CallRun(faults, body, targets, store);
            var direct := Meaning(body, [], Store(store.pool, []), None);
            var clean := direct.err.None? && !ServerRefuses(body, store.pool);
            && tx.store.open == store.open
            && (tx.err.None? <==> clean && faults.commit.None?)
            && tx.store.pool == (if clean && (faults.commit.None? || faults.applied)
                                 then direct.store.pool else store.pool)
            && (!ServerRefuses(body, store.pool) ==>
                  SameError(tx.err, TransactionError(faults, direct.err, false)))
  {
    ApplyNothing(store.pool);
    var inner := BodyRun(body, targets, store);
    var aborted := inner.store.open[|store.open|].aborted;
    TransactionErrorMatches(faults, inner.err, aborted, ERR_COMMIT_ROLLBACK);
    if ServerRefuses(body, store.pool) {
      RefusedBodyIsAborted(body, targets, store, FRESH, None);
    } else {
      FlatBodyInTransaction(body, targets, store, map[], None, None);
      SameTransactionError(faults, inner.err, Meaning(body, [], Store(store.pool, []), None).err);
    }
  }

  /** A body that goes on after the server refused its first statement: run directly it returns
      nil and keeps the second statement's writes, in a transaction it fails and keeps none. */
  lemma GoingOnAfterAnError(body: Program, store: Store, e: Error, delta: Delta)
    requires body.Exec? && body.ctx == 0 && (forall data :: body.statement(data) == Fail(e)) && ServerError(e)
    requires body.ok == Return(ReturnNil)
    requires body.failed.Exec? && body.failed.ctx == 0 && (forall data :: body.failed.statement(data) == Ok(delta))
    requires body.failed.ok == body.failed.failed == Return(ReturnNil)
    ensures var direct := Meaning(body, [], Store(store.pool, []), None);
            direct.err == None && direct.store.pool == Apply(store.pool, delta)
    ensures var tx := CallRun(Faults(None, None, false, None), body, [], store);
            tx.err.Some? && tx.store == store
  {
    var s := Store(store.pool, []);
    assert Attempt(s, Pool, body.statement) == Fail(e);
    assert Attempt(s, Pool, body.failed.statement) == Ok(delta);
    assert Meaning(body, [], s, None) == Meaning(body.failed, [], s, Translate(Some(e)));
    assert Meaning(body.failed, [], s, Translate(Some(e))) == Meaning(body.failed.ok, [], Write(s, Pool, delta), None);
    assert ServerRefuses(body, store.pool);
    FlatTransaction(body, [], store, Faults(None, None, false, None));
  }

  // ----- Transactions do not see each other's open writes -----

  /** The program never uses a context whose transaction is `level`. */
  predicate Avoids(p: Program, targets: seq<Target>, levels: nat, level: nat)
    decreases p
  {
    match p
    case Return(_) => true
    case Exec(ctx, _, ok, failed) =>
      TargetOf(targets, ctx) != Tx(level) && Avoids(ok, targets, levels, level) && Avoids(failed, targets, levels, level)
    case Query(ctx, _, yes, no, failed) =>
      && TargetOf(targets, ctx) != Tx(level)
      && Avoids(yes, targets, levels, level) && Avoids(no, targets, levels, level)
      && Avoids(failed, targets, levels, level)
    case Shadow(_, rest) => Avoids(rest, [Pool] + targets, levels, level)
    case Nest(_, _, body, ok, failed) =>
      && Avoids(body, [Tx(levels)] + targets, levels + 1, level)
      && Avoids(ok, targets, levels, level) && Avoids(failed, targets, levels, level)
  }

  /** `a` and `b` differ at most in the open transaction `level`. */
  predicate AgreeBut(a: Store, b: Store, level: nat) {
    && a.pool == b.pool && |a.open| == |b.open|
    && forall i :: 0 <= i < |a.open| && i != level ==> a.open[i] == b.open[i]
  }

  /** A request to another target has the same outcome, and the same effect. */
  lemma SameRequest<A>(a: Store, b: Store, level: nat, t: Target, request: Data -> Result<A>)
    requires AgreeBut(a, b, level) && IsOpen(a, t) && t != Tx(level) && level < |a.open|
    ensures Attempt(a, t, request) == Attempt(b, t, request)
    ensures forall e :: AgreeBut(Refused(a, t, e), Refused(b, t, e), level) &&
                        Refused(a, t, e).open[level] == a.open[level] && Refused(b, t, e).open[level] == b.open[level]
  {
  }

  lemma SameWrite(a: Store, b: Store, level: nat, t: Target, delta: Delta)
    requires AgreeBut(a, b, level) && IsOpen(a, t) && t != Tx(level) && level < |a.open|
    ensures AgreeBut(Write(a, t, delta), Write(b, t, delta), level)
    ensures Write(a, t, delta).open[level] == a.open[level] && Write(b, t, delta).open[level] == b.open[level]
  {
  }

  lemma SameClose(a: Store, b: Store, level: nat, faults: Faults, body: Option<Error>)
    requires AgreeBut(a, b, level) && level < |a.open| - 1
    ensures a.open[|a.open| - 1] == b.open[|a.open| - 1]
    ensures var (ca, cb) := (Close(a, faults, body), Close(b, faults, body));
            AgreeBut(ca, cb, level) && ca.open[level] == a.open[level] && cb.open[level] == b.open[level]
  {
  }

  /** A nested transaction is independent of its parent: whatever the parent wrote and did
      not commit, a program that does not use the parent's context does the same, commits the
      same, and leaves the parent's writes alone. */
  lemma {:induction false} Independent(
    p: Program, targets: seq<Target>, a: Store, b: Store, level: nat, last: Option<Error>)
    requires AgreeBut(a, b, level) && level < |a.open|
    requires InScope(targets, |a.open|)
    requires Avoids(p, targets, |a.open|, level)
    ensures var (ra, rb) := (Meaning(p, targets, a, last), Meaning(p, targets, b, last));
            && ra.err == rb.err
            && AgreeBut(ra.store, rb.store, level)
            && ra.store.open[level] == a.open[level] && rb.store.open[level] == b.open[level]
    decreases p
  {
    match p
    case Return(_) =>
    case Exec(ctx, statement, ok, failed) =>
      var t := TargetOf(targets, ctx);
      SameRequest(a, b, level, t, statement);
      match Attempt(a, t, statement) {
        case Ok(delta) =>
          SameWrite(a, b, level, t, delta);
          Independent(ok, targets, Write(a, t, delta), Write(b, t, delta), level, None);
        case Fail(e) =>
          Independent(failed, targets, Refused(a, t, e), Refused(b, t, e), level, Translate(Some(e)));
      }
    case Query(ctx, test, yes, no, failed) =>
      var t := TargetOf(targets, ctx);
      SameRequest(a, b, level, t, test);
      match Attempt(a, t, test) {
        case Ok(found) => Independent(if found then yes else no, targets, a, b, level, None);
        case Fail(e) => Independent(failed, targets, Refused(a, t, e), Refused(b, t, e), level, QueryError(t, e));
      }
    case Shadow(_, rest) => Independent(rest, [Pool] + targets, a, b, level, last);
    case Nest(_, faults, body, ok, failed) =>
      if faults.begin.Some? {
        Independent(failed, targets, a, b, level, faults.begin);
      } else {
        IndependentNest(p, targets, a, b, level);
      }
  }

  lemma {:induction false} IndependentNest(p: Program, targets: seq<Target>, a: Store, b: Store, level: nat)
    requires p.Nest? && p.faults.begin.None?
    requires AgreeBut(a, b, level) && level < |a.open|
    requires InScope(targets, |a.open|)
    requires Avoids(p, targets, |a.open|, level)
    ensures var (ra, rb) := (Meaning(p, targets, a, None), Meaning(p, targets, b, None));
            && ra.err == rb.err
            && AgreeBut(ra.store, rb.store, level)
            && ra.store.open[level] == a.open[level] && rb.store.open[level] == b.open[level]
    decreases p, 0
  {
    var inner := [Tx(|a.open|)] + targets;
    var (a1, b1) := (a.(open := a.open + [FRESH]), b.(open := b.open + [FRESH]));
    Independent(p.body, inner, a1, b1, level, None);
    var (ra, rb) := (Meaning(p.body, inner, a1, None), Meaning(p.body, inner, b1, None));
    SameClose(ra.store, rb.store, level, p.faults, ra.err);
    var err := TransactionError(p.faults, ra.err, ra.store.open[|a.open|].aborted);
    Independent(if err.None? then p.ok else p.failed, targets,
                Close(ra.store, p.faults, ra.err), Close(rb.store, p.faults, rb.err), level, err);
  }

  /** Whatever an outer transaction did and however it goes on, its rollback leaves the
      committed data that its body left: all that inner transactions committed. */
  lemma RollbackKeepsCommitted(body: Program, targets: seq<Target>, store: Store, faults: Faults)
    requires faults.begin.None? && InScope(targets, |store.open|)
    ensures var (inner, call) := (BodyRun(body, targets, store), CallRun(faults, body, targets, store));
            inner.err.Some? ==> call.err.Some? && call.store == Store(inner.store.pool, inner.store.open[..|store.open|])
  {
  }

  /** What inner transactions commit does not depend on the outer one they run in: for any
      program that leaves the outer context alone, of any nesting, rolling the outer transaction
      back leaves what it would had the outer one written nothing. */
  lemma InnerCommitsSurvive(rest: Program, targets: seq<Target>, store: Store, own: Own, last: Option<Error>,
                            faults: Faults, e: Error)
    requires InScope(targets, |store.open|)
    requires Avoids(rest, [Tx(|store.open|)] + targets, |store.open| + 1, |store.open|)
    ensures var inside := [Tx(|store.open|)] + targets;
            var a := Meaning(rest, inside, store.(open := store.open + [own]), last);
            var b := Meaning(rest, inside, store.(open := store.open + [FRESH]), last);
            && a.err == b.err
            && Close(a.store, faults, Some(e)) == Close(b.store, faults, Some(e))
            && Close(a.store, faults, Some(e)).pool == b.store.pool
  {
    var inside := [Tx(|store.open|)] + targets;
    var (a, b) := (store.(open := store.open + [own]), store.(open := store.open + [FRESH]));
    Independent(rest, inside, a, b, |store.open|, last);
    var (ra, rb) := (Meaning(rest, inside, a, last).store, Meaning(rest, inside, b, last).store);
    assert ra.open[..|store.open|] == rb.open[..|store.open|];
  }
}
