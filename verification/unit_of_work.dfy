/**
 * Units of work: buffered operations and deferred events, committed once. The in-memory
 * one runs its operations on the live data; the transactional one commits all or none.
 */
module UnitsOfWork {
  import opened Types

  /** A buffered write: the data it leaves, or `None` if it throws. */
  type Operation<!D> = D -> Option<D>

  datatype CommitResult<E> = Committed(events: seq<E>) | OperationFailed | AlreadyCompleted

  /** The data after the longest prefix of operations that succeed, and its length. */
  function RunPrefix<D>(ops: seq<Operation<D>>, data: D): (D, nat) {
    if ops == [] then (data, 0)
    else
      match ops[0](data)
      case None => (data, 0)
      case Some(next) => var rest := RunPrefix(ops[1..], next); (rest.0, rest.1 + 1)
  }

  lemma {:induction false} RunPrefixStep<D>(ops: seq<Operation<D>>, data: D, n: nat)
    requires n < |ops| && RunPrefix(ops[..n], data).1 == n
    ensures ops[n](RunPrefix(ops[..n], data).0).Some? ==>
      RunPrefix(ops[..n + 1], data) == (ops[n](RunPrefix(ops[..n], data).0).value, n + 1)
    ensures ops[n](RunPrefix(ops[..n], data).0).None? ==> RunPrefix(ops, data) == (RunPrefix(ops[..n], data).0, n)
    decreases n
  {
    if n > 0 {
      assert ops[..n][1..] == ops[1..][..n - 1] && ops[..n + 1][1..] == ops[1..][..n];
      RunPrefixStep(ops[1..], ops[0](data).value, n - 1);
    } else {
      assert ops[..1][1..] == [];
    }
  }

  /** The first `n` operations succeed one after the other, from `start` to `end`. */
  ghost predicate PrefixRun<D(!new)>(ops: seq<Operation<D>>, start: D, n: nat, end: D) {
    n <= |ops| &&
    exists states: seq<D> ::
      && |states| == n + 1 && states[0] == start && states[n] == end
      && forall i :: 0 <= i < n ==> ops[i](states[i]) == Some(states[i + 1])
  }

  /** A run goes as far as operations succeed: to the end, or to one that throws. */
  lemma {:induction false} RunPrefixIsLongest<D(!new)>(ops: seq<Operation<D>>, start: D)
    ensures var run := RunPrefix(ops, start);
      PrefixRun(ops, start, run.1, run.0) && (run.1 < |ops| ==> ops[run.1](run.0).None?)
  {
    if ops == [] || ops[0](start).None? {
      assert [start][0] == start && |[start]| == 1;
    } else {
      var next := ops[0](start).value;
      RunPrefixIsLongest(ops[1..], next);
      var rest := RunPrefix(ops[1..], next);
      var tail: seq<D> :| |tail| == rest.1 + 1 && tail[0] == next && tail[rest.1] == rest.0
        && forall i :: 0 <= i < rest.1 ==> ops[1..][i](tail[i]) == Some(tail[i + 1]);
      var states := [start] + tail;
      forall i | 0 <= i < rest.1 + 1 ensures ops[i](states[i]) == Some(states[i + 1]) {
        if i > 0 {
          assert ops[1..][i - 1] == ops[i];
        }
      }
    }
  }

  class Store<D> {
    var data: D

    constructor (data: D)
      ensures this.data == data
    {
      this.data := data;
    }
  }

  class InMemoryUnitOfWork<D(!new), E> {
    var operations: seq<Operation<D>>
    var pending: seq<E>
    var completed: bool

    constructor ()
      ensures operations == [] && pending == [] && !completed
    {
      operations, pending, completed := [], [], false;
    }

    /** False if the unit was already committed or rolled back. */
    method Enlist(op: Operation<D>) returns (accepted: bool)
      modifies this`operations
      ensures accepted == !completed
      ensures operations == if accepted then old(operations) + [op] else old(operations)
    {
      if completed {
        return false;
      }
      operations := operations + [op];
      return true;
    }

    method DeferPublish(events: seq<E>) returns (accepted: bool)
      modifies this`pending
      ensures accepted == !completed
      ensures pending == if accepted then old(pending) + events else old(pending)
    {
      if completed {
        return false;
      }
      pending := pending + events;
      return true;
    }

    /** Runs the operations in order on the live data: a failure leaves what came before it. */
    method Commit(store: Store<D>) returns (r: CommitResult<E>)
      modifies this`completed, store
      ensures completed
      ensures old(completed) ==> r == AlreadyCompleted && store.data == old(store.data)
      ensures !old(completed) ==>
        var run := RunPrefix(operations, old(store.data));
        && store.data == run.0 && (r == if run.1 == |operations| then Committed(pending) else OperationFailed)
        && PrefixRun(operations, old(store.data), run.1, store.data)
        && (run.1 < |operations| ==> operations[run.1](store.data).None?)
    {
      RunPrefixIsLongest(operations, store.data);
      if completed {
        return AlreadyCompleted;
      }
      completed := true;
      var start := store.data;
      for i := 0 to |operations|
        invariant completed && RunPrefix(operations[..i], start) == (store.data, i)
      {
        RunPrefixStep(operations, start, i);
        var next := operations[i](store.data);
        if next.None? {
          return OperationFailed;
        }
        store.data := next.value;
      }
      assert operations[..|operations|] == operations;
      return Committed(pending);
    }

    method Rollback() returns (accepted: bool)
      modifies this
      ensures completed && accepted == !old(completed)
      ensures accepted ==> operations == [] && pending == []
      ensures !accepted ==> operations == old(operations) && pending == old(pending)
    {
      if completed {
        return false;
      }
      completed, operations, pending := true, [], [];
      return true;
    }
  }

  /** The same buffer over a database transaction. */
  class TransactionalUnitOfWork<D(!new), E> {
    var operations: seq<Operation<D>>
    var pending: seq<E>
    var completed: bool

    constructor (operations: seq<Operation<D>>, pending: seq<E>)
      ensures this.operations == operations && this.pending == pending && !completed
    {
      this.operations, this.pending, completed := operations, pending, false;
    }

    /** Runs the operations on the transaction's own copy, kept only if all succeed. */
    method Commit(store: Store<D>) returns (r: CommitResult<E>)
      modifies this`completed, store
      ensures completed
      ensures old(completed) ==> r == AlreadyCompleted && store.data == old(store.data)
      ensures !old(completed) ==>
        var run := RunPrefix(operations, old(store.data));
        && PrefixRun(operations, old(store.data), run.1, run.0)
        && (run.1 < |operations| ==> operations[run.1](run.0).None?)
        && if run.1 == |operations| then r == Committed(pending) && store.data == run.0
           else r == OperationFailed && store.data == old(store.data)
    {
      RunPrefixIsLongest(operations, store.data);
      if completed {
        return AlreadyCompleted;
      }
      completed := true;
      var tx := store.data;
      for i := 0 to |operations|
        invariant completed && store.data == old(store.data)
        invariant RunPrefix(operations[..i], store.data) == (tx, i)
      {
        RunPrefixStep(operations, store.data, i);
        var next := operations[i](tx);
        if next.None? {
          return OperationFailed;
        }
        tx := next.value;
      }
      assert operations[..|operations|] == operations;
      store.data := tx;
      return Committed(pending);
    }
  }
}

/** The engine's operations run by either kind of unit of work. */
module EngineUnits {
  import opened Types
  import opened EventStore
  import opened Engine
  import opened EngineCommit
  import opened UnitsOfWork

  function AsOperation(cfg: Config, op: Op): Operation<Database> {
    (db: Database) => match Exec(cfg, db, op) case Ok(d) => Some(d) case _ => None
  }

  function AsOperations(cfg: Config, ops: seq<Op>): (r: seq<Operation<Database>>)
    ensures |r| == |ops|
    ensures forall i :: 0 <= i < |r| ==> r[i] == AsOperation(cfg, ops[i])
  {
    seq(|ops|, i requires 0 <= i < |ops| => AsOperation(cfg, ops[i]))
  }

  /** `Engine.Run` is what a transactional unit does: it commits exactly when every operation succeeds. */
  lemma {:induction false} RunIsTransaction(cfg: Config, db: Database, ops: seq<Op>)
    ensures var run := RunPrefix(AsOperations(cfg, ops), db);
      && (Run(cfg, db, ops).Ok? <==> run.1 == |ops|)
      && (Run(cfg, db, ops).Ok? ==> Run(cfg, db, ops).db == run.0)
    decreases ops
  {
    if ops != [] {
      var rest := ops[1..];
      assert AsOperations(cfg, ops)[1..] == AsOperations(cfg, rest);
      assert [ops[0]] + rest == ops;
      RunAppend(cfg, db, [ops[0]], rest);
      RunOne(cfg, db, ops[0]);
      if Exec(cfg, db, ops[0]).Ok? {
        RunIsTransaction(cfg, Exec(cfg, db, ops[0]).db, rest);
      }
    }
  }

  /** What one command's operations leave when run without a transaction. */
  function Leftover(cfg: Config, db: Database, w: Work): Database {
    RunPrefix(AsOperations(cfg, WorkOps(cfg, w)), db).0
  }

  /**
   * Without a transaction a command that fails still leaves its events in exactly one case:
   * its version is current, its batch non-empty and its command id already claimed.
   */
  lemma InMemoryFailureKeepsEventsIff(cfg: Config, db: Database, w: Work)
    requires |db.views| == |cfg.strong| && |w.tickets| == |w.batch.events|
    requires !Run(cfg, db, WorkOps(cfg, w)).Ok?
    ensures var b := w.batch;
      Leftover(cfg, db, w).streams != db.streams
      <==> (b.events != [] && b.version == |Stream(db.streams, b.cmd.target)|
            && cfg.idempotent && b.cmd.id.Some? && b.cmd.id.value in db.claims)
  {
    RunWork(cfg, db, w);
    hide Run, WorkOps, Applied;
    FailureLeaves(cfg, db, w);
    if w.batch.events != [] {
      var d := db.streams[w.batch.cmd.target := Stream(db.streams, w.batch.cmd.target) + w.batch.events];
      assert |Stream(d, w.batch.cmd.target)| > |Stream(db.streams, w.batch.cmd.target)|;
    }
  }

  /** Whatever the first operation saved stays, and the second is the claim that fails. */
  lemma FailureLeaves(cfg: Config, db: Database, w: Work)
    requires var b := w.batch;
      || (b.events != [] && b.version != |Stream(db.streams, b.cmd.target)|)
      || (cfg.idempotent && b.cmd.id.Some? && b.cmd.id.value in db.claims)
    ensures var b := w.batch;
      Leftover(cfg, db, w).streams ==
      if b.events == [] || b.version != |Stream(db.streams, b.cmd.target)| then db.streams
      else db.streams[b.cmd.target := Stream(db.streams, b.cmd.target) + b.events]
  {
    var ops, b := AsOperations(cfg, WorkOps(cfg, w)), w.batch;
    assert WorkOps(cfg, w)[0] == SaveEvents(b);
    assert ops[0](db) == match Exec(cfg, db, SaveEvents(b)) case Ok(d) => Some(d) case _ => None;
    if Exec(cfg, db, SaveEvents(b)).Ok? {
      var d := Exec(cfg, db, SaveEvents(b)).db;
      assert WorkOps(cfg, w)[1] == ClaimCommand(b.cmd.id.value);
      assert ops[1..][0](d) == None;
      assert RunPrefix(ops, db).0 == d;
    }
  }

  /**
   * So at-most-once needs the transaction: run without one, a duplicate that passed the
   * fast path and was retried at the current version saves its events a second time.
   */
  lemma InMemoryDuplicateSavesTwice(cfg: Config, db: Database, first: Work, again: Work)
    requires |db.views| == |cfg.strong| && cfg.idempotent
    requires |first.tickets| == |first.batch.events| && |again.tickets| == |again.batch.events|
    requires Accepted(cfg, db, first.batch) && first.batch.cmd.id.Some?
    requires again.batch.cmd == first.batch.cmd && again.batch.events != []
    requires again.batch.version == |Stream(db.streams, first.batch.cmd.target)| + |first.batch.events|
    ensures var k := first.batch.cmd.target;
      var once := Applied(cfg, db, first);
      && Run(cfg, once, WorkOps(cfg, again)) == IdempotencyConflict
      && Stream(Leftover(cfg, once, again).streams, k)
         == Stream(db.streams, k) + first.batch.events + again.batch.events
  {
    var once := Applied(cfg, db, first);
    var b := again.batch;
    AppliedStream(cfg, db, first, b.cmd.target);
    RunWork(cfg, once, again);
    var ops := AsOperations(cfg, WorkOps(cfg, again));
    var d := Exec(cfg, once, SaveEvents(b)).db;
    assert ops[0](once) == Some(d);
    assert WorkOps(cfg, again)[1] == ClaimCommand(b.cmd.id.value);
    assert ops[1..][0](d) == None;
    assert RunPrefix(ops, once).0 == d;
  }
}
