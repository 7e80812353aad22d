/** `dbConn` and `tx` (pkg/database/sql/connection.go, transaction.go): statements routed by
    the context, transactions begun, committed and rolled back on a mutable database; proved
    to do what the program means. */
module Connection {
  import opened GoErrors
  import opened SqlErrors
  import opened Transactions

  const ERR_TX_DONE := Leaf(20, "sql: transaction has already been committed or rolled back")

  // ----- What an observer of the database records -----

  datatype Event =
    | PoolWrite(delta: Delta)
    | Began(id: nat)
    | TxWrite(id: nat, delta: Delta)
    | Applied(id: nat)
    | Discarded(id: nat)

  predicate WritesTo(e: Event, id: nat) {
    e.TxWrite? && e.id == id
  }

  /** `data` after the writes of transaction `id` among the first `n` events, one after the
      other. */
  function InOrder(data: Data, h: seq<Event>, n: nat, id: nat): Data
    requires n <= |h|
  {
    if n == 0 then data
    else if WritesTo(h[n - 1], id) then Apply(InOrder(data, h, n - 1, id), h[n - 1].delta)
    else InOrder(data, h, n - 1, id)
  }

  function Effect(data: Data, h: seq<Event>, i: nat): Data
    requires i < |h|
  {
    match h[i]
    case PoolWrite(delta) => Apply(data, delta)
    case Applied(id) => InOrder(data, h, i, id)
    case _ => data
  }

  /** The committed data the first `n` events lead to: statements on the pool take effect at
      once, those of a transaction all together, in order, when it is committed. */
  function Replay(data: Data, h: seq<Event>, n: nat): Data
    requires n <= |h|
  {
    if n == 0 then data else Effect(Replay(data, h, n - 1), h, n - 1)
  }

  /** The history in which the statements of transaction `id` write nothing. */
  function Muted(h: seq<Event>, id: nat): seq<Event> {
    seq(|h|, i requires 0 <= i < |h| => if WritesTo(h[i], id) then TxWrite(id, map[]) else h[i])
  }

  lemma {:induction false} OthersUnmuted(data: Data, h: seq<Event>, n: nat, id: nat, other: nat)
    requires n <= |h| && other != id
    ensures InOrder(data, Muted(h, id), n, other) == InOrder(data, h, n, other)
    decreases n
  {
    if n > 0 {
      OthersUnmuted(data, h, n - 1, id, other);
    }
  }

  /** A transaction that was not committed leaves nothing behind: the committed data is what it
      would be had its statements written nothing.  This holds with any other transactions
      around it, before, nested in it or outside; what those committed is still there. */
  lemma {:induction false} UncommittedLeavesNothing(data: Data, h: seq<Event>, n: nat, id: nat)
    requires n <= |h| && forall i :: 0 <= i < n ==> h[i] != Applied(id)
    ensures Replay(data, Muted(h, id), n) == Replay(data, h, n)
    decreases n
  {
    if n > 0 {
      UncommittedLeavesNothing(data, h, n - 1, id);
      var e := h[n - 1];
      assert Muted(h, id)[n - 1] == if WritesTo(e, id) then TxWrite(id, map[]) else e;
      if e.Applied? {
        OthersUnmuted(Replay(data, h, n - 1), h, n - 1, id, e.id);
      }
    }
  }

  /** What the event at `i` commits takes effect, all its transaction's writes in order, also
      in the history without the writes of `id`. */
  ghost predicate TakesEffect(data: Data, h: seq<Event>, i: nat, id: nat)
    requires i < |h| && h[i].Applied?
  {
    Replay(data, Muted(h, id), i + 1) == InOrder(Replay(data, h, i), h, i, h[i].id)
  }

  /** Every commit survives without the writes of `id`. */
  ghost predicate CommitsSurvive(data: Data, h: seq<Event>, id: nat) {
    forall i :: 0 <= i < |h| && h[i].Applied? ==> TakesEffect(data, h, i, id)
  }

  /** Other commits, nested in the transaction or not, survive when it is not committed. */
  lemma OtherCommitsSurvive(data: Data, h: seq<Event>, id: nat)
    requires Applied(id) !in h
    ensures CommitsSurvive(data, h, id)
  {
    forall i | 0 <= i < |h| && h[i].Applied?
      ensures TakesEffect(data, h, i, id)
    {
      UncommittedLeavesNothing(data, h, i, id);
      OthersUnmuted(Replay(data, h, i), h, i, id, h[i].id);
      assert Muted(h, id)[i] == h[i];
    }
  }

  /** The writes of transaction `id` among the first `n` events, laid over each other. */
  function Overlay(h: seq<Event>, n: nat, id: nat): Delta
    requires n <= |h|
  {
    if n == 0 then map[]
    else if WritesTo(h[n - 1], id) then Overlay(h, n - 1, id) + h[n - 1].delta
    else Overlay(h, n - 1, id)
  }

  /** Committing the overlay is the same as the transaction's writes one by one. */
  lemma {:induction false} OverlayInOrder(data: Data, h: seq<Event>, n: nat, id: nat)
    requires n <= |h|
    ensures Apply(data, Overlay(h, n, id)) == InOrder(data, h, n, id)
    decreases n
  {
    if n == 0 {
      ApplyNothing(data);
    } else {
      OverlayInOrder(data, h, n - 1, id);
      if WritesTo(h[n - 1], id) {
        ApplyTwice(data, Overlay(h, n - 1, id), h[n - 1].delta);
      }
    }
  }

  // ----- Key by key -----

  /** What transaction `id` last wrote to a key among the first `n` events, if it did. */
  function LastWrite(h: seq<Event>, n: nat, id: nat, k: string): Option<Option<string>>
    requires n <= |h|
  {
    if n == 0 then None
    else if WritesTo(h[n - 1], id) && k in h[n - 1].delta then Some(h[n - 1].delta[k])
    else LastWrite(h, n - 1, id, k)
  }

  /** What the first `n` events leave stored under a key: the last thing written to it by a
      statement on the pool or by a transaction that was then committed. */
  function Stored(data: Data, h: seq<Event>, n: nat, k: string): Option<string>
    requires n <= |h|
  {
    if n == 0 then Lookup(data, k) else
    match h[n - 1]
    case PoolWrite(delta) => if k in delta then delta[k] else Stored(data, h, n - 1, k)
    case Applied(id) =>
      (match LastWrite(h, n - 1, id, k)
       case Some(value) => value
       case None => Stored(data, h, n - 1, k))
    case _ => Stored(data, h, n - 1, k)
  }

  lemma {:induction false} InOrderIsLast(data: Data, h: seq<Event>, n: nat, id: nat, k: string)
    requires n <= |h|
    ensures Lookup(InOrder(data, h, n, id), k) ==
            if LastWrite(h, n, id, k).Some? then LastWrite(h, n, id, k).value else Lookup(data, k)
    decreases n
  {
    if n > 0 {
      InOrderIsLast(data, h, n - 1, id, k);
      if WritesTo(h[n - 1], id) {
        var before := InOrder(data, h, n - 1, id);
        ApplyLaysOver(before, h[n - 1].delta, Apply(before, h[n - 1].delta));
      }
    }
  }

  /** The data that a history replays to holds under each key what was last stored there. */
  lemma {:induction false} ReplayIsStored(data: Data, h: seq<Event>, n: nat, k: string)
    requires n <= |h|
    ensures Lookup(Replay(data, h, n), k) == Stored(data, h, n, k)
    decreases n
  {
    if n > 0 {
      ReplayIsStored(data, h, n - 1, k);
      var before := Replay(data, h, n - 1);
      match h[n - 1] {
        case PoolWrite(delta) => ApplyLaysOver(before, delta, Apply(before, delta));
        case Applied(id) => InOrderIsLast(before, h, n - 1, id, k);
        case _ =>
      }
    }
  }

  // ----- Histories that share a beginning -----

  lemma {:induction false} SameOverlay(h: seq<Event>, h': seq<Event>, n: nat, id: nat)
    requires n <= |h| && n <= |h'| && forall i :: 0 <= i < n ==> h[i] == h'[i]
    ensures Overlay(h, n, id) == Overlay(h', n, id)
    decreases n
  {
    if n > 0 {
      SameOverlay(h, h', n - 1, id);
    }
  }

  lemma {:induction false} SameInOrder(data: Data, h: seq<Event>, h': seq<Event>, n: nat, id: nat)
    requires n <= |h| && n <= |h'| && forall i :: 0 <= i < n ==> h[i] == h'[i]
    ensures InOrder(data, h, n, id) == InOrder(data, h', n, id)
    decreases n
  {
    if n > 0 {
      SameInOrder(data, h, h', n - 1, id);
    }
  }

  lemma {:induction false} SameReplay(data: Data, h: seq<Event>, h': seq<Event>, n: nat)
    requires n <= |h| && n <= |h'| && forall i :: 0 <= i < n ==> h[i] == h'[i]
    ensures Replay(data, h, n) == Replay(data, h', n)
    decreases n
  {
    if n > 0 {
      SameReplay(data, h, h', n - 1);
      if h[n - 1].Applied? {
        SameInOrder(Replay(data, h, n - 1), h, h', n - 1, h[n - 1].id);
      }
    }
  }

  // ----- Contexts -----

  /** A transaction handle in a context: one `Begin` made, or another implementation. */
  datatype Handle = Begun(id: nat) | Foreign

  /** A context: every call adds its tracing span, `WithTransaction` adds a handle. */
  datatype Context = Background | WithSpan(parent: Context) | WithTransaction(parent: Context, handle: Handle)

  /** `txFromContext`: the nearest transaction value, if `Begin` made it. */
  function TxFromContext(ctx: Context): Option<nat> {
    match ctx
    case Background => None
    case WithSpan(parent) => TxFromContext(parent)
    case WithTransaction(_, Begun(id)) => Some(id)
    case WithTransaction(_, Foreign) => None
  }

  function ContextAt(ctxs: seq<Context>, ctx: nat): Context {
    if ctx < |ctxs| then ctxs[ctx] else Background
  }

  function Spans(ctx: Context, n: nat): Context {
    if n == 0 then ctx else WithSpan(Spans(ctx, n - 1))
  }

  /** `TransactionContext` shadows: inside its body calls go to its own transaction, whatever
      the outer context held; a handle `Begin` did not make sends them to the pool, even when
      an outer transaction is open. */
  lemma {:induction false} NearestTransactionWins(ctx: Context, spans: nat, handle: Handle)
    ensures TxFromContext(Spans(WithTransaction(ctx, handle), spans)) ==
            if handle.Begun? then Some(handle.id) else None
    decreases spans
  {
    if spans > 0 {
      NearestTransactionWins(ctx, spans - 1, handle);
    }
  }

  // ----- The database -----

  datatype TxState = Open(own: Own) | Done

  class Database {
    ghost const initial: Data
    var pool: Data
    var txs: seq<TxState>
    ghost var history: seq<Event>

    static ghost predicate OpenSince(h: seq<Event>, id: nat, own: Delta) {
      own == Overlay(h, |h|, id) && Applied(id) !in h
    }

    /** The committed data is what the history replays to, and an open transaction holds
        exactly its own writes. */
    ghost predicate Valid()
      reads this
    {
      && pool == Replay(initial, history, |history|)
      && (forall id :: 0 <= id < |txs| && txs[id].Open? ==> OpenSince(history, id, txs[id].own.writes))
      && (forall id: nat :: |txs| <= id ==> OpenSince(history, id, map[]))
    }

    constructor (initial: Data)
      ensures Valid() && this.initial == initial && pool == initial && txs == [] && history == []
    {
      this.initial := initial;
      pool, txs, history := initial, [], [];
    }

    /** What recording an event changes of what the history says. */
    static lemma Record(data: Data, h: seq<Event>, e: Event)
      ensures Replay(data, h + [e], |h + [e]|) ==
              if e.PoolWrite? then Apply(Replay(data, h, |h|), e.delta)
              else if e.Applied? then Apply(Replay(data, h, |h|), Overlay(h, |h|, e.id))
              else Replay(data, h, |h|)
      ensures forall id, own :: OpenSince(h, id, own) && e != Applied(id) && !WritesTo(e, id) ==>
                OpenSince(h + [e], id, own)
      ensures forall own :: e.TxWrite? && OpenSince(h, e.id, own) ==> OpenSince(h + [e], e.id, own + e.delta)
    {
      var h' := h + [e];
      SameReplay(data, h, h', |h|);
      if e.Applied? {
        OverlayInOrder(Replay(data, h, |h|), h', |h|, e.id);
        SameOverlay(h, h', |h|, e.id);
      }
      forall id, own | OpenSince(h, id, own) && e != Applied(id)
        ensures OpenSince(h', id, if WritesTo(e, id) then own + e.delta else own)
      {
        SameOverlay(h, h', |h|, id);
      }
    }

    method Begin(fault: Option<Error>) returns (r: Result<nat>)
      requires Valid()
      modifies this
      ensures Valid()
      ensures fault.Some? ==> r == Fail(fault.value) && txs == old(txs) && pool == old(pool) && history == old(history)
      ensures fault.None? ==> r == Ok(|old(txs)|) && txs == old(txs) + [Open(FRESH)] && pool == old(pool) &&
                              history == old(history) + [Began(|old(txs)|)]
    {
      if fault.Some? {
        return Fail(fault.value);
      }
      r := Ok(|txs|);
      Record(initial, history, Began(|txs|));
      history := history + [Began(|txs|)];
      txs := txs + [Open(FRESH)];
    }

    /** Runs a statement on the pool, where it commits by itself. */
    method ExecPool(statement: Statement) returns (err: Option<Error>)
      requires Valid()
      modifies this`pool, this`history
      ensures Valid()
      ensures match statement(old(pool))
              case Ok(delta) => err == None && pool == Apply(old(pool), delta) && LaidOver(pool, old(pool), delta) &&
                                history == old(history) + [PoolWrite(delta)]
              case Fail(e) => err == Translate(Some(e)) && pool == old(pool) && history == old(history)
    {
      match statement(pool)
      case Ok(delta) =>
        Record(initial, history, PoolWrite(delta));
        history := history + [PoolWrite(delta)];
        ApplyLaysOver(pool, delta, Apply(pool, delta));
        pool := Apply(pool, delta);
        err := None;
      case Fail(e) =>
        err := Translate(Some(e));
    }

    /** Runs a statement in transaction `id`.  One that the server refuses aborts it. */
    method ExecTx(id: nat, statement: Statement) returns (err: Option<Error>)
      requires Valid() && id < |txs|
      modifies this`txs, this`history
      ensures Valid()
      ensures old(txs[id]) == Done ==> err == Translate(Some(ERR_TX_DONE)) && txs == old(txs) && history == old(history)
      ensures old(txs[id]).Open? ==>
                match Ask(pool, old(txs[id]).own, statement)
                case Ok(delta) => err == None && txs == old(txs)[id := Open(Wrote(old(txs[id]).own, delta))] &&
                                  history == old(history) + [TxWrite(id, delta)]
                case Fail(e) => err == Translate(Some(e)) && txs == old(txs)[id := Open(Erred(old(txs[id]).own, e))] &&
                                history == old(history)
    {
      match txs[id]
      case Done =>
        err := Translate(Some(ERR_TX_DONE));
      case Open(own) =>
        var reply := if own.aborted then Fail(ERR_ABORTED) else statement(Apply(pool, own.writes));
        match reply {
          case Ok(delta) =>
            Record(initial, history, TxWrite(id, delta));
            history := history + [TxWrite(id, delta)];
            txs := txs[id := Open(own.(writes := own.writes + delta))];
            err := None;
          case Fail(e) =>
            txs := txs[id := Open(if ServerError(e) then own.(aborted := true) else own)];
            err := Translate(Some(e));
        }
    }

    /** Runs a query in transaction `id`; its error is translated, as `Get` and `Select` of a
        transaction do. */
    method QueryTx(id: nat, test: Test) returns (found: bool, err: Option<Error>)
      requires Valid() && id < |txs|
      modifies this`txs
      ensures Valid()
      ensures old(txs[id]) == Done ==> err == Translate(Some(ERR_TX_DONE)) && txs == old(txs)
      ensures old(txs[id]).Open? ==>
                match Ask(pool, old(txs[id]).own, test)
                case Ok(b) => err == None && found == b && txs == old(txs)
                case Fail(e) => err == Translate(Some(e)) && txs == old(txs)[id := Open(Erred(old(txs[id]).own, e))]
      ensures old(txs[id]).Open? && !old(txs[id]).own.aborted ==>
                forall view :: LaidOver(view, pool, old(txs[id]).own.writes) ==>
                  match test(view)
                  case Ok(b) => err == None && found == b
                  case Fail(e) => err == Translate(Some(e))
    {
      found := false;
      match txs[id]
      case Done =>
        err := Translate(Some(ERR_TX_DONE));
      case Open(own) =>
        forall view | LaidOver(view, pool, own.writes)
          ensures view == Apply(pool, own.writes)
        {
          ApplyLaysOver(pool, own.writes, view);
        }
        var reply := if own.aborted then Fail(ERR_ABORTED) else test(Apply(pool, own.writes));
        match reply {
          case Ok(b) =>
            found, err := b, None;
          case Fail(e) =>
            txs := txs[id := Open(if ServerError(e) then own.(aborted := true) else own)];
            err := Translate(Some(e));
        }
    }

    /** Ends transaction `id` by a commit: its writes are applied unless it was aborted, which
        the driver reports, or the commit fails before the server stored it. */
    method Commit(id: nat, fault: Option<Error>, applied: bool) returns (err: Option<Error>)
      requires Valid() && id < |txs|
      modifies this
      ensures Valid()
      ensures old(txs[id]) == Done ==> err == Translate(Some(ERR_TX_DONE)) && pool == old(pool) &&
                                       txs == old(txs) && history == old(history)
      ensures old(txs[id]).Open? ==>
                var own := old(txs[id]).own;
                && (err.None? <==> fault.None? && !own.aborted)
                && err == Translate(if fault.None? && own.aborted then Some(ERR_COMMIT_ROLLBACK) else fault)
                && txs == old(txs)[id := Done]
                && if !own.aborted && (fault.None? || applied)
                   then pool == Apply(old(pool), own.writes) && LaidOver(pool, old(pool), own.writes) &&
                        history == old(history) + [Applied(id)]
                   else pool == old(pool) && history == old(history) + [Discarded(id)]
    {
      match txs[id]
      case Done =>
        err := Translate(Some(ERR_TX_DONE));
      case Open(own) =>
        if !own.aborted && (fault.None? || applied) {
          Record(initial, history, Applied(id));
          history := history + [Applied(id)];
          ApplyLaysOver(pool, own.writes, Apply(pool, own.writes));
          pool := Apply(pool, own.writes);
        } else {
          Record(initial, history, Discarded(id));
          history := history + [Discarded(id)];
        }
        txs := txs[id := Done];
        err := Translate(if fault.None? && own.aborted then Some(ERR_COMMIT_ROLLBACK) else fault);
    }

    /** Ends transaction `id` without its writes, also when the rollback reports an error. */
    method Rollback(id: nat, fault: Option<Error>) returns (err: Option<Error>)
      requires Valid() && id < |txs|
      modifies this`txs, this`history
      ensures Valid()
      ensures old(txs[id]) == Done ==> err == Translate(Some(ERR_TX_DONE)) && txs == old(txs) && history == old(history)
      ensures old(txs[id]).Open? ==> err == Translate(fault) && txs == old(txs)[id := Done] &&
                                     history == old(history) + [Discarded(id)]
    {
      match txs[id]
      case Done =>
        err := Translate(Some(ERR_TX_DONE));
      case Open(_) =>
        Record(initial, history, Discarded(id));
        history := history + [Discarded(id)];
        txs := txs[id := Done];
        err := Translate(fault);
    }
  }

  /** `ids` are the transactions open on `db`, outermost first, and `store` is what they and
      the pool hold. */
  ghost predicate Represents(db: Database, ids: seq<nat>, store: Store)
    reads db
  {
    && db.pool == store.pool
    && |ids| == |store.open|
    && (forall i :: 0 <= i < |ids| ==> ids[i] < |db.txs| && db.txs[ids[i]] == Open(store.open[i]))
    && (forall i, j :: 0 <= i < j < |ids| ==> ids[i] < ids[j])
  }

  predicate RoutesTo(ctx: Context, t: Target, ids: seq<nat>) {
    match TxFromContext(ctx)
    case None => t == Pool
    case Some(id) => t.Tx? && t.level < |ids| && ids[t.level] == id
  }

  /** Each context leads to the transaction, or the pool, that its target names. */
  ghost predicate Routes(ctxs: seq<Context>, targets: seq<Target>, ids: seq<nat>) {
    && |ctxs| == |targets|
    && forall c :: 0 <= c < |ctxs| ==> RoutesTo(ctxs[c], targets[c], ids)
  }

  /** Every transaction begun in between is ended, and of the earlier ones only `ids` may have
      changed. */
  twostate predicate NothingLeftOpen(db: Database, ids: seq<nat>)
    reads db
  {
    && |old(db.txs)| <= |db.txs| && old(db.history) <= db.history
    && (forall id :: |old(db.txs)| <= id < |db.txs| ==> db.txs[id] == Done)
    && (forall id :: 0 <= id < |old(db.txs)| && id !in ids ==> db.txs[id] == old(db.txs[id]))
  }

  /** The last event commits transaction `id`: under each key is what it wrote there last, and
      where it wrote nothing, what was there. */
  ghost predicate CommittedLast(data: Data, h: seq<Event>, pool: Data, id: nat) {
    && h != [] && h[|h| - 1] == Applied(id)
    && forall k :: Lookup(pool, k) == match LastWrite(h, |h| - 1, id, k)
                                      case Some(value) => value
                                      case None => Stored(data, h, |h| - 1, k)
  }

  /** Transaction `id` is over, and what it wrote is stored when it was `applied`.  Unless it was `applied`, the committed data is what it would be
      had the transaction written nothing, and every commit in the history takes effect: those
      before it, and those of transactions nested in it or beside it. */
  ghost predicate EndedAs(db: Database, id: nat, applied: bool)
    reads db
  {
    && (Applied(id) in db.history <==> applied)
    && (applied ==> CommittedLast(db.initial, db.history, db.pool, id))
    && (!applied ==>
          && db.pool == Replay(db.initial, Muted(db.history, id), |db.history|)
          && CommitsSurvive(db.initial, db.history, id))
  }

  class Conn {
    const db: Database

    constructor (db: Database)
      ensures this.db == db
    {
      this.db := db;
    }

    /** A statement runs in the transaction of its context, or on the pool. */
    method Exec(ctx: Context, statement: Statement, ghost ids: seq<nat>, ghost t: Target, ghost store: Store)
      returns (err: Option<Error>)
      requires db.Valid() && Represents(db, ids, store)
      requires RoutesTo(ctx, t, ids) && IsOpen(store, t)
      modifies db
      ensures db.Valid() && |db.txs| == |old(db.txs)| && old(db.history) <= db.history
      ensures forall id :: 0 <= id < |db.txs| && id !in ids ==> db.txs[id] == old(db.txs[id])
      ensures match Attempt(store, t, statement)
              case Ok(delta) => err == None && Represents(db, ids, Write(store, t, delta))
              case Fail(e) => err == Translate(Some(e)) && Represents(db, ids, Refused(store, t, e))
    {
      match TxFromContext(WithSpan(ctx))
      case Some(id) => err := db.ExecTx(id, statement);
      case None => err := db.ExecPool(statement);
    }

    /** A query reads what its context's transaction, or the pool, shows.  Its error is
        translated, in a transaction for the second time. */
    method Get(ctx: Context, test: Test, ghost ids: seq<nat>, ghost t: Target, ghost store: Store)
      returns (found: bool, err: Option<Error>)
      requires db.Valid() && Represents(db, ids, store)
      requires RoutesTo(ctx, t, ids) && IsOpen(store, t)
      modifies db
      ensures db.Valid() && |db.txs| == |old(db.txs)| && db.history == old(db.history)
      ensures forall id :: 0 <= id < |db.txs| && id !in ids ==> db.txs[id] == old(db.txs[id])
      ensures match Attempt(store, t, test)
              case Ok(b) => err == None && found == b && Represents(db, ids, store)
              case Fail(e) => err == QueryError(t, e) && Represents(db, ids, Refused(store, t, e))
    {
      match TxFromContext(WithSpan(ctx))
      case Some(id) =>
        var txErr;
        found, txErr := db.QueryTx(id, test);
        err := Translate(txErr);
      case None =>
        var reply := test(db.pool);
        found := reply.Ok? && reply.value;
        err := Translate(if reply.Ok? then None else Some(reply.error));
    }

    static lemma RoutesInside(ctxs: seq<Context>, targets: seq<Target>, ids: seq<nat>, inner: Context, id: nat)
      requires Routes(ctxs, targets, ids) && InScope(targets, |ids|)
      requires TxFromContext(inner) == Some(id)
      ensures Routes([inner] + ctxs, [Tx(|ids|)] + targets, ids + [id])
      ensures InScope([Tx(|ids|)] + targets, |ids| + 1)
    {
    }

    /** The end of `TransactionContext`: rollback for a failed body, commit otherwise. */
    method EndTransaction(id: nat, faults: Faults, body: Option<Error>, ghost ids: seq<nat>, ghost store: Store)
      returns (err: Option<Error>)
      requires db.Valid() && Represents(db, ids + [id], store) && id < |db.txs|
      requires faults.begin.None?
      modifies db
      ensures db.Valid() && Represents(db, ids, Close(store, faults, body))
      ensures err == TransactionError(faults, body, store.open[|ids|].aborted)
      ensures db.txs == old(db.txs)[id := Done] && old(db.history) <= db.history
      ensures EndedAs(db, id, Applies(faults, body, store.open[|ids|].aborted))
    {
      assert (ids + [id])[|ids|] == id;
      assert forall i :: 0 <= i < |ids| ==> (ids + [id])[i] == ids[i];
      if body.Some? {
        var rollbackErr := db.Rollback(id, faults.rollback);
        err := if rollbackErr.Some? then Some(Join([body.value, rollbackErr.value])) else body;
      } else {
        err := db.Commit(id, faults.commit, faults.applied);
      }
      if Applied(id) in db.history {
        forall k
          ensures Lookup(db.pool, k) == Stored(db.initial, db.history, |db.history|, k)
        {
          ReplayIsStored(db.initial, db.history, |db.history|, k);
        }
      } else {
        UncommittedLeavesNothing(db.initial, db.history, |db.history|, id);
        OtherCommitsSurvive(db.initial, db.history, id);
      }
    }

    /** Begins a transaction, runs the body in a context that carries it, and commits when the
        body returns nil, rolls back when it does not.  Its writes are applied exactly for a
        nil body whose commit the server stored; otherwise the committed data is what it would
        be had the transaction, the first one begun here, written nothing, and all that others
        committed meanwhile takes effect. */
    method TransactionContext(ctx: Context, faults: Faults, body: Program, ctxs: seq<Context>,
                              ghost targets: seq<Target>, ghost ids: seq<nat>, ghost store: Store)
      returns (err: Option<Error>)
      requires db.Valid() && Represents(db, ids, store)
      requires Routes(ctxs, targets, ids) && InScope(targets, |ids|)
      modifies db
      ensures db.Valid()
      ensures err == CallRun(faults, body, targets, store).err
      ensures Represents(db, ids, CallRun(faults, body, targets, store).store)
      ensures faults.begin.None? ==>
                var inner := BodyRun(body, targets, store);
                EndedAs(db, |old(db.txs)|, Applies(faults, inner.err, inner.store.open[|store.open|].aborted))
      ensures NothingLeftOpen(db, ids)
      decreases body, 3
    {
      var begun := db.Begin(faults.begin);
      if begun.Fail? {
        return Some(begun.error);
      }
      err := RunBegun(begun.value, ctx, faults, body, ctxs, targets, ids, store);
    }

    /** The part of `TransactionContext` after a successful `Begin`. */
    method RunBegun(id: nat, ctx: Context, faults: Faults, body: Program, ctxs: seq<Context>,
                    ghost targets: seq<Target>, ghost ids: seq<nat>, ghost store: Store)
      returns (err: Option<Error>)
      requires db.Valid() && Represents(db, ids + [id], store.(open := store.open + [FRESH]))
      requires Routes(ctxs, targets, ids) && InScope(targets, |ids|)
      requires faults.begin.None? && |db.txs| == id + 1
      modifies db
      ensures db.Valid()
      ensures err == CallRun(faults, body, targets, store).err
      ensures Represents(db, ids, CallRun(faults, body, targets, store).store)
      ensures var inner := BodyRun(body, targets, store);
              EndedAs(db, id, Applies(faults, inner.err, inner.store.open[|store.open|].aborted))
      ensures id < |db.txs| && old(db.history) <= db.history
      ensures forall j :: id <= j < |db.txs| ==> db.txs[j] == Done
      ensures forall j :: 0 <= j < id && j !in ids ==> db.txs[j] == old(db.txs[j])
      decreases body, 2
    {
      var inner := WithTransaction(WithSpan(ctx), Begun(id));
      RoutesInside(ctxs, targets, ids, inner, id);
      err := RunBody(body, [inner] + ctxs, None, [Tx(|ids|)] + targets, ids + [id],
                     store.(open := store.open + [FRESH]));
      err := EndTransaction(id, faults, err, ids, BodyRun(body, targets, store).store);
    }

    /** Running a body does what the program means, on the pool and on every open
        transaction; all transactions it began are ended when it returns. */
    method RunBody(p: Program, ctxs: seq<Context>, last: Option<Error>,
                   ghost targets: seq<Target>, ghost ids: seq<nat>, ghost store: Store)
      returns (err: Option<Error>)
      requires db.Valid() && Represents(db, ids, store)
      requires Routes(ctxs, targets, ids) && InScope(targets, |ids|)
      modifies db
      ensures db.Valid()
      ensures err == Meaning(p, targets, store, last).err
      ensures Represents(db, ids, Meaning(p, targets, store, last).store)
      ensures NothingLeftOpen(db, ids)
      decreases p, 1
    {
      match p
      case Return(answer) =>
        err := AnswerError(answer, last);
      case Exec(_, _, _, _) =>
        err := RunExec(p, ctxs, targets, ids, store);
      case Query(_, _, _, _, _) =>
        err := RunQuery(p, ctxs, targets, ids, store);
      case Shadow(ctx, rest) =>
        err := RunBody(rest, [WithTransaction(ContextAt(ctxs, ctx), Foreign)] + ctxs, last,
                       [Pool] + targets, ids, store);
      case Nest(_, _, _, _, _) =>
        err := RunNest(p, ctxs, targets, ids, store);
    }

    method RunExec(p: Program, ctxs: seq<Context>, ghost targets: seq<Target>, ghost ids: seq<nat>, ghost store: Store)
      returns (err: Option<Error>)
      requires p.Exec?
      requires db.Valid() && Represents(db, ids, store)
      requires Routes(ctxs, targets, ids) && InScope(targets, |ids|)
      modifies db
      ensures db.Valid()
      ensures err == Meaning(p, targets, store, None).err
      ensures Represents(db, ids, Meaning(p, targets, store, None).store)
      ensures NothingLeftOpen(db, ids)
      decreases p, 0
    {
      ghost var t := TargetOf(targets, p.ctx);
      err := Exec(ContextAt(ctxs, p.ctx), p.statement, ids, t, store);
      if err.None? {
        err := RunBody(p.ok, ctxs, None, targets, ids, Write(store, t, Attempt(store, t, p.statement).value));
      } else {
        err := RunBody(p.failed, ctxs, err, targets, ids, Refused(store, t, Attempt(store, t, p.statement).error));
      }
    }

    method RunQuery(p: Program, ctxs: seq<Context>, ghost targets: seq<Target>, ghost ids: seq<nat>, ghost store: Store)
      returns (err: Option<Error>)
      requires p.Query?
      requires db.Valid() && Represents(db, ids, store)
      requires Routes(ctxs, targets, ids) && InScope(targets, |ids|)
      modifies db
      ensures db.Valid()
      ensures err == Meaning(p, targets, store, None).err
      ensures Represents(db, ids, Meaning(p, targets, store, None).store)
      ensures NothingLeftOpen(db, ids)
      decreases p, 0
    {
      ghost var t := TargetOf(targets, p.ctx);
      var found, queryErr := Get(ContextAt(ctxs, p.ctx), p.test, ids, t, store);
      if queryErr.Some? {
        err := RunBody(p.failed, ctxs, queryErr, targets, ids, Refused(store, t, Attempt(store, t, p.test).error));
      } else if found {
        err := RunBody(p.yes, ctxs, None, targets, ids, store);
      } else {
        err := RunBody(p.no, ctxs, None, targets, ids, store);
      }
    }

    method RunNest(p: Program, ctxs: seq<Context>, ghost targets: seq<Target>, ghost ids: seq<nat>, ghost store: Store)
      returns (err: Option<Error>)
      requires p.Nest?
      requires db.Valid() && Represents(db, ids, store)
      requires Routes(ctxs, targets, ids) && InScope(targets, |ids|)
      modifies db
      ensures db.Valid()
      ensures err == Meaning(p, targets, store, None).err
      ensures Represents(db, ids, Meaning(p, targets, store, None).store)
      ensures NothingLeftOpen(db, ids)
      decreases p, 0
    {
      err := TransactionContext(ContextAt(ctxs, p.ctx), p.faults, p.body, ctxs, targets, ids, store);
      ghost var after := CallRun(p.faults, p.body, targets, store);
      err := RunBody(if err.None? then p.ok else p.failed, ctxs, err, targets, ids, after.store);
    }
  }
}
