/** What a transaction does: the effect of one command's operations, and of a whole unit. */
module EngineCommit {
  import opened Types
  import opened Projections
  import opened EventStore
  import opened Engine
  import opened EngineInvariant

  lemma {:induction false} RunAppend(cfg: Config, db: Database, a: seq<Op>, b: seq<Op>)
    ensures Run(cfg, db, a + b) == match Run(cfg, db, a) case Ok(d) => Run(cfg, d, b) case failed => failed
  {
    if b == [] {
      assert a + b == a;
    } else {
      assert (a + b)[..|a + b| - 1] == a + b[..|b| - 1];
      RunAppend(cfg, db, a, b[..|b| - 1]);
    }
  }

  lemma RunOne(cfg: Config, db: Database, op: Op)
    ensures Run(cfg, db, [op]) == Exec(cfg, db, op)
  {
    assert [op][..0] == [];
  }

  lemma {:induction false} RunUpdates(cfg: Config, db: Database, index: nat, events: seq<Event>)
    requires index < |db.views| == |cfg.strong|
    ensures Run(cfg, db, HandledUpdates(cfg.strong[index], index, events))
         == Ok(db.(views := db.views[index := Project(cfg.strong[index], db.views[index], events)]))
  {
    if events == [] {
      assert db.views[index := db.views[index]] == db.views;
    } else {
      var front, last := events[..|events| - 1], events[|events| - 1];
      RunUpdates(cfg, db, index, front);
      var ops := HandledUpdates(cfg.strong[index], index, front);
      if last.name in cfg.strong[index].on {
        RunAppend(cfg, db, ops, [UpdateView(index, last)]);
        RunOne(cfg, db.(views := db.views[index := Project(cfg.strong[index], db.views[index], front)]), UpdateView(index, last));
      } else {
        assert ops + [] == ops;
      }
    }
  }

  /** The first `n` view stores after delivering `events` to each. */
  function ViewsAfter(cfg: Config, views: seq<ViewMap>, events: seq<Event>, n: nat): seq<ViewMap>
    requires n <= |views| == |cfg.strong|
  {
    seq(|views|, q requires 0 <= q < |views| => if q < n then Project(cfg.strong[q], views[q], Delivered(cfg, events, q)) else views[q])
  }

  lemma ViewsAfterLength(cfg: Config, views: seq<ViewMap>, events: seq<Event>, n: nat)
    requires n <= |views| == |cfg.strong|
    ensures |ViewsAfter(cfg, views, events, n)| == |views|
  {
  }

  lemma ViewsAfterStep(cfg: Config, views: seq<ViewMap>, events: seq<Event>, n: nat)
    requires n < |views| == |cfg.strong|
    ensures var mid := ViewsAfter(cfg, views, events, n);
      |mid| == |views| && mid[n := Project(cfg.strong[n], mid[n], Delivered(cfg, events, n))] == ViewsAfter(cfg, views, events, n + 1)
  {
    hide Project, Delivered;
  }

  lemma {:induction false} RunViewOps(cfg: Config, db: Database, events: seq<Event>, n: nat)
    requires n <= |db.views| == |cfg.strong|
    ensures Run(cfg, db, ViewOps(cfg, events, n)) == Ok(db.(views := ViewsAfter(cfg, db.views, events, n)))
  {
    hide *;
    ViewOpsStep(cfg, db, events, n);
    if n > 0 {
      var delivered := Delivered(cfg, events, n - 1);
      var before, updates := ViewOps(cfg, events, n - 1), HandledUpdates(cfg.strong[n - 1], n - 1, delivered);
      RunViewOps(cfg, db, events, n - 1);
      ViewsAfterLength(cfg, db.views, events, n - 1);
      RunAppend(cfg, db, before, updates);
      RunUpdates(cfg, db.(views := ViewsAfter(cfg, db.views, events, n - 1)), n - 1, delivered);
      ViewsAfterStep(cfg, db.views, events, n - 1);
    }
  }

  lemma ViewOpsStep(cfg: Config, db: Database, events: seq<Event>, n: nat)
    requires n <= |db.views| == |cfg.strong|
    ensures n == 0 ==> Run(cfg, db, ViewOps(cfg, events, n)) == Ok(db.(views := ViewsAfter(cfg, db.views, events, n)))
    ensures n > 0 ==>
      ViewOps(cfg, events, n)
      == ViewOps(cfg, events, n - 1) + HandledUpdates(cfg.strong[n - 1], n - 1, Delivered(cfg, events, n - 1))
  {
    if n == 0 {
      assert ViewsAfter(cfg, db.views, events, 0) == db.views;
    }
    hide Delivered, HandledUpdates;
  }

  /** The database after one command's operations, all at once. */
  function Applied(cfg: Config, db: Database, w: Work): Database
    requires |db.views| == |cfg.strong| && |w.tickets| == |w.batch.events|
  {
    var b := w.batch;
    Database(
      if b.events == [] then db.streams else db.streams[b.cmd.target := Stream(db.streams, b.cmd.target) + b.events],
      if cfg.idempotent && b.cmd.id.Some? then db.claims + {b.cmd.id.value} else db.claims,
      ViewsAfter(cfg, db.views, b.events, |db.views|),
      if cfg.outboxed && b.events != [] && Boxed(cfg, b) then AddEntries(db.outbox, w.tickets, b.events) else db.outbox,
      db.snapshots,
      db.log + [b])
  }

  /**
   * The operations a command enlists, run in order, succeed exactly when its version is
   * current (or its batch empty) and its id unclaimed; then their joint effect is `Applied`.
   */
  lemma RunWork(cfg: Config, db: Database, w: Work)
    requires |db.views| == |cfg.strong| && |w.tickets| == |w.batch.events|
    ensures var b := w.batch;
      Run(cfg, db, WorkOps(cfg, w)) ==
      if b.events != [] && b.version != |Stream(db.streams, b.cmd.target)| then ConcurrencyError
      else if cfg.idempotent && b.cmd.id.Some? && b.cmd.id.value in db.claims then IdempotencyConflict
      else Ok(Applied(cfg, db, w))
  {
    hide *;
    var b := w.batch;
    var save, claim, views, outbox :=
      [SaveEvents(b)], ClaimOps(cfg, b.cmd), ViewOps(cfg, b.events, |cfg.strong|), OutboxOps(cfg, w);
    WorkOpsAre(cfg, w);
    RunAppend(cfg, db, save + claim + views, outbox);
    RunAppend(cfg, db, save + claim, views);
    RunAppend(cfg, db, save, claim);
    RunSave(cfg, db, b);
    if Run(cfg, db, save).Ok? {
      var d1 := Run(cfg, db, save).db;
      RunClaim(cfg, d1, b.cmd);
      if Run(cfg, d1, claim).Ok? {
        var d2 := Run(cfg, d1, claim).db;
        RunViewOps(cfg, d2, b.events, |cfg.strong|);
        RunOutbox(cfg, d2.(views := ViewsAfter(cfg, d2.views, b.events, |cfg.strong|)), w);
        AppliedIs(cfg, db, w);
      }
    }
  }

  lemma WorkOpsAre(cfg: Config, w: Work)
    ensures WorkOps(cfg, w) ==
      [SaveEvents(w.batch)] + ClaimOps(cfg, w.batch.cmd) + ViewOps(cfg, w.batch.events, |cfg.strong|) + OutboxOps(cfg, w)
  {
    hide ViewOps;
  }

  lemma RunSave(cfg: Config, db: Database, b: Batch)
    ensures Run(cfg, db, [SaveEvents(b)]) ==
      if b.events != [] && b.version != |Stream(db.streams, b.cmd.target)| then ConcurrencyError
      else Ok(db.(streams := if b.events == [] then db.streams else db.streams[b.cmd.target := Stream(db.streams, b.cmd.target) + b.events],
                  log := db.log + [b]))
  {
    RunOne(cfg, db, SaveEvents(b));
    hide Run;
  }

  lemma RunClaim(cfg: Config, db: Database, cmd: Command)
    ensures Run(cfg, db, ClaimOps(cfg, cmd)) ==
      if cfg.idempotent && cmd.id.Some? && cmd.id.value in db.claims then IdempotencyConflict
      else Ok(db.(claims := if cfg.idempotent && cmd.id.Some? then db.claims + {cmd.id.value} else db.claims))
  {
    if ClaimOps(cfg, cmd) != [] {
      RunOne(cfg, db, ClaimOps(cfg, cmd)[0]);
    }
  }

  lemma RunOutbox(cfg: Config, db: Database, w: Work)
    requires |w.tickets| == |w.batch.events|
    ensures Run(cfg, db, OutboxOps(cfg, w)) ==
      Ok(db.(outbox := if cfg.outboxed && w.batch.events != [] && Boxed(cfg, w.batch)
                       then AddEntries(db.outbox, w.tickets, w.batch.events) else db.outbox))
  {
    hide Boxed, AddEntries;
    if OutboxOps(cfg, w) != [] {
      RunOne(cfg, db, OutboxOps(cfg, w)[0]);
    }
  }

  /** `Applied`, field by field. */
  lemma AppliedIs(cfg: Config, db: Database, w: Work)
    requires |db.views| == |cfg.strong| && |w.tickets| == |w.batch.events|
    ensures var b := w.batch;
      Applied(cfg, db, w) ==
      Database(
        if b.events == [] then db.streams else db.streams[b.cmd.target := Stream(db.streams, b.cmd.target) + b.events],
        if cfg.idempotent && b.cmd.id.Some? then db.claims + {b.cmd.id.value} else db.claims,
        ViewsAfter(cfg, db.views, b.events, |db.views|),
        if cfg.outboxed && b.events != [] && Boxed(cfg, b) then AddEntries(db.outbox, w.tickets, b.events) else db.outbox,
        db.snapshots,
        db.log + [b])
  {
    hide AddEntries, ViewsAfter, Boxed;
  }

  // --- One command keeps the database invariant ---

  lemma LogGrows(log: seq<Batch>, b: Batch)
    ensures forall k: Key :: LogStream(log + [b], k) == LogStream(log, k) + if b.cmd.target == k then b.events else []
    ensures LogEvents(log + [b]) == LogEvents(log) + b.events
    ensures AllOwners(log + [b]) == AllOwners(log) + {b.owner}
    ensures forall k: Key :: Owners(log, k) <= Owners(log + [b], k)
    ensures b.events != [] ==> b.owner in Owners(log + [b], b.cmd.target)
  {
    assert (log + [b])[..|log|] == log;
    assert forall x :: x in log + [b] <==> x in log || x == b;
  }

  /** The conditions under which a command's operations succeed. */
  predicate Accepted(cfg: Config, db: Database, b: Batch) {
    && (b.events != [] ==> b.version == |Stream(db.streams, b.cmd.target)|)
    && (cfg.idempotent && b.cmd.id.Some? ==> b.cmd.id.value !in db.claims)
  }

  lemma AppliedStream(cfg: Config, db: Database, w: Work, k: Key)
    requires |db.views| == |cfg.strong| && |w.tickets| == |w.batch.events|
    ensures Stream(Applied(cfg, db, w).streams, k)
         == Stream(db.streams, k) + if w.batch.cmd.target == k then w.batch.events else []
  {
  }

  lemma AppliedGrows(cfg: Config, db: Database, w: Work)
    requires |db.views| == |cfg.strong| && |w.tickets| == |w.batch.events|
    ensures Grows(db, Applied(cfg, db, w), w.batch.owner)
  {
    LogGrows(db.log, w.batch);
    forall k: Key
      ensures Stream(db.streams, k) <= Stream(Applied(cfg, db, w).streams, k)
      ensures Stream(db.streams, k) != Stream(Applied(cfg, db, w).streams, k) ==>
        w.batch.owner in Owners(Applied(cfg, db, w).log, k)
    {
      AppliedStream(cfg, db, w, k);
    }
  }

  lemma AppliedCommitted(cfg: Config, db: Database, w: Work, n: nat)
    requires |db.views| == |cfg.strong| && |w.tickets| == |w.batch.events| && n < |w.batch.events|
    requires w.batch.version == |Stream(db.streams, w.batch.cmd.target)|
    requires Enriched(AggregateOf(cfg, w.batch.cmd.target), w.batch.cmd.target, w.batch.version, w.batch.events)
    ensures IsCommitted(Applied(cfg, db, w).streams, w.batch.events[n])
  {
    AppliedStream(cfg, db, w, w.batch.cmd.target);
  }

  lemma AppliedSerial(cfg: Config, log: seq<Batch>, b: Batch)
    requires Serial(cfg, log) && BatchOk(cfg, log, b)
    ensures Serial(cfg, log + [b])
  {
    forall i | 0 <= i < |log + [b]| ensures BatchOk(cfg, (log + [b])[..i], (log + [b])[i]) {
      if i < |log| {
        assert (log + [b])[..i] == log[..i];
      } else {
        assert (log + [b])[..i] == log;
      }
    }
  }

  lemma EnrichedAppend(agg: Aggregate, k: Key, start: nat, a: seq<Event>, b: seq<Event>)
    requires Enriched(agg, k, start, a) && Enriched(agg, k, start + |a|, b)
    ensures Enriched(agg, k, start, a + b)
  {
  }

  lemma AppliedKey(cfg: Config, db: Database, w: Work, k: Key)
    requires |db.views| == |cfg.strong| && |w.tickets| == |w.batch.events|
    requires Stream(db.streams, k) == LogStream(db.log, k) && Enriched(AggregateOf(cfg, k), k, 0, Stream(db.streams, k))
    requires w.batch.events != [] ==> w.batch.version == |Stream(db.streams, w.batch.cmd.target)|
    requires Enriched(AggregateOf(cfg, w.batch.cmd.target), w.batch.cmd.target, w.batch.version, w.batch.events)
    ensures Stream(Applied(cfg, db, w).streams, k) == LogStream(db.log + [w.batch], k)
    ensures Enriched(AggregateOf(cfg, k), k, 0, Stream(Applied(cfg, db, w).streams, k))
  {
    AppliedStream(cfg, db, w, k);
    hide Enriched, Applied, Stream;
    assert (db.log + [w.batch])[..|db.log|] == db.log;
    if w.batch.cmd.target == k && w.batch.events != [] {
      EnrichedAppend(AggregateOf(cfg, k), k, 0, Stream(db.streams, k), w.batch.events);
    } else {
      assert LogStream(db.log, k) + [] == LogStream(db.log, k);
    }
  }

  lemma AppliedStreams(cfg: Config, db: Database, w: Work)
    requires StreamsOk(cfg, db) && |db.views| == |cfg.strong| && |w.tickets| == |w.batch.events|
    requires SawPrefix(cfg, db.streams, w.batch) && Accepted(cfg, db, w.batch)
    requires Enriched(AggregateOf(cfg, w.batch.cmd.target), w.batch.cmd.target, w.batch.version, w.batch.events)
    ensures StreamsOk(cfg, Applied(cfg, db, w))
  {
    assert BatchOk(cfg, db.log, w.batch) by {
      hide Justified;
    }
    AppliedSerial(cfg, db.log, w.batch);
    hide Serial, Justified, Enriched, SawPrefix, BatchOk;
    forall k: Key
      ensures Stream(Applied(cfg, db, w).streams, k) == LogStream(db.log + [w.batch], k)
      ensures Enriched(AggregateOf(cfg, k), k, 0, Stream(Applied(cfg, db, w).streams, k))
    {
      AppliedKey(cfg, db, w, k);
    }
  }

  lemma ViewLogGrows(cfg: Config, log: seq<Batch>, b: Batch, p: nat)
    requires p < |cfg.strong|
    ensures ViewLog(cfg, log + [b], p) == ViewLog(cfg, log, p) + Delivered(cfg, b.events, p)
  {
    hide Delivered;
    assert (log + [b])[..|log|] == log;
  }

  lemma AppliedViews(cfg: Config, db: Database, w: Work)
    requires ViewsOk(cfg, db) && |w.tickets| == |w.batch.events|
    ensures ViewsOk(cfg, Applied(cfg, db, w))
  {
    var db' := Applied(cfg, db, w);
    ViewsAfterLength(cfg, db.views, w.batch.events, |db.views|);
    forall p | 0 <= p < |db'.views| ensures db'.views[p] == Project(cfg.strong[p], map[], ViewLog(cfg, db'.log, p)) {
      assert db'.views[p] == Project(cfg.strong[p], db.views[p], Delivered(cfg, w.batch.events, p));
      ViewLogGrows(cfg, db.log, w.batch, p);
      hide Delivered, ViewLog, Project, Applied;
      ProjectAppend(cfg.strong[p], map[], ViewLog(cfg, db.log, p), Delivered(cfg, w.batch.events, p));
    }
  }

  lemma AppliedClaims(cfg: Config, db: Database, w: Work)
    requires ClaimsOk(cfg, db) && |db.views| == |cfg.strong| && |w.tickets| == |w.batch.events|
    requires Accepted(cfg, db, w.batch)
    ensures ClaimsOk(cfg, Applied(cfg, db, w))
  {
    var db' := Applied(cfg, db, w);
    if cfg.idempotent {
      forall id | id in db'.claims ensures Executed(db'.log, id) {
        if id in db.claims {
          var i :| 0 <= i < |db.log| && db.log[i].cmd.id == Some(id);
          assert db'.log[i].cmd.id == Some(id);
        } else {
          assert db'.log[|db.log|].cmd.id == Some(id);
        }
      }
    }
  }

  lemma AppliedNamed(cfg: Config, issued: map<nat, Event>, db: Database, w: Work)
    requires StoredNamed(issued, db.streams) && |db.views| == |cfg.strong| && WorkNamed(issued, w)
    ensures StoredNamed(issued, Applied(cfg, db, w).streams)
  {
    forall k: Key, i | 0 <= i < |Stream(Applied(cfg, db, w).streams, k)|
      ensures Named(issued, Stream(Applied(cfg, db, w).streams, k)[i])
    {
      AppliedStream(cfg, db, w, k);
    }
  }

  /** Every entry of the new outbox is an old one or an unpublished one of this command. */
  lemma AppliedEntry(cfg: Config, issued: map<nat, Event>, db: Database, w: Work, x: nat)
    requires |db.views| == |cfg.strong| && WorkNamed(issued, w) && x in Applied(cfg, db, w).outbox
    ensures var outbox' := Applied(cfg, db, w).outbox;
      || (x in db.outbox && outbox'[x] == db.outbox[x])
      || (x in issued && !outbox'[x].published && w.batch.events != []
          && Boxed(cfg, w.batch)
          && exists i :: 0 <= i < |w.batch.events| && outbox'[x].event == issued[x] == w.batch.events[i])
  {
    var outbox' := Applied(cfg, db, w).outbox;
    if cfg.outboxed && w.batch.events != [] && Boxed(cfg, w.batch) && x in w.tickets {
      var i :| 0 <= i < |w.tickets| && w.tickets[i] == x && outbox'[x] == Entry(w.batch.events[i], false);
    }
  }

  lemma AppliedOutbox(cfg: Config, issued: map<nat, Event>, dispatched: set<Event>, db: Database, w: Work)
    requires OutboxOk(cfg, issued, dispatched, db) && StreamsOk(cfg, db) && |db.views| == |cfg.strong|
    requires WorkNamed(issued, w) && Accepted(cfg, db, w.batch)
    requires Enriched(AggregateOf(cfg, w.batch.cmd.target), w.batch.cmd.target, w.batch.version, w.batch.events)
    ensures OutboxOk(cfg, issued, dispatched, Applied(cfg, db, w))
  {
    var db' := Applied(cfg, db, w);
    forall x | x in db'.outbox
      ensures x in issued && issued[x] == db'.outbox[x].event && IsCommitted(db'.streams, db'.outbox[x].event)
      ensures db'.outbox[x].published ==> db'.outbox[x].event in dispatched
      ensures db'.outbox[x].event !in Unboxed(cfg, db'.log)
    {
      AppliedEntry(cfg, issued, db, w, x);
      if x in db.outbox && db'.outbox[x] == db.outbox[x] {
        AppliedGrows(cfg, db, w);
        CommittedStable(db.streams, db'.streams, db.outbox[x].event);
        OldStaysBoxed(cfg, db, w, db.outbox[x].event);
      } else {
        var i :| 0 <= i < |w.batch.events| && db'.outbox[x].event == issued[x] == w.batch.events[i];
        AppliedCommitted(cfg, db, w, i);
        NewIsBoxed(cfg, db, w, i);
      }
    }
  }

  /** An event already committed is none of the new ones. */
  lemma OldStaysBoxed(cfg: Config, db: Database, w: Work, e: Event)
    requires |db.views| == |cfg.strong| && |w.tickets| == |w.batch.events|
    requires IsCommitted(db.streams, e) && e !in Unboxed(cfg, db.log) && Accepted(cfg, db, w.batch)
    requires Enriched(AggregateOf(cfg, w.batch.cmd.target), w.batch.cmd.target, w.batch.version, w.batch.events)
    ensures e !in Unboxed(cfg, Applied(cfg, db, w).log)
  {
    assert e !in w.batch.events;
  }

  lemma NewIsBoxed(cfg: Config, db: Database, w: Work, i: nat)
    requires |db.views| == |cfg.strong| && |w.tickets| == |w.batch.events| && i < |w.batch.events|
    requires StreamsOk(cfg, db) && Accepted(cfg, db, w.batch) && Boxed(cfg, w.batch)
    requires Enriched(AggregateOf(cfg, w.batch.cmd.target), w.batch.cmd.target, w.batch.version, w.batch.events)
    ensures w.batch.events[i] !in Unboxed(cfg, Applied(cfg, db, w).log)
  {
    var e := w.batch.events[i];
    AppliedLog(cfg, db, w);
    hide StreamsOk, Boxed, Applied;
    assert !IsCommitted(db.streams, e);
    forall b | b in db.log ensures e !in b.events {
      NotInBatch(cfg, db, b, e);
    }
  }

  lemma NotInBatch(cfg: Config, db: Database, b: Batch, e: Event)
    requires StreamsOk(cfg, db) && b in db.log && !IsCommitted(db.streams, e)
    ensures e !in b.events
  {
    hide StreamsOk, IsCommitted;
    var j :| 0 <= j < |db.log| && db.log[j] == b;
    forall x | x in b.events ensures IsCommitted(db.streams, x) {
      LoggedIsCommitted(cfg, db, j, x);
    }
  }

  lemma AppliedDelivery(cfg: Config, issued: map<nat, Event>, dispatched: set<Event>, db: Database, w: Work)
    requires OutboxOk(cfg, issued, dispatched, db) && DeliveryOk(cfg, dispatched, db) && |db.views| == |cfg.strong|
    requires WorkNamed(issued, w)
    ensures DeliveryOk(cfg, dispatched, Applied(cfg, db, w))
  {
    assert |w.tickets| == |w.batch.events|;
    hide OutboxOk, WorkNamed, Applied, Pending;
    var db' := Applied(cfg, db, w);
    AppliedGrows(cfg, db, w);
    forall e | e in dispatched ensures IsCommitted(db'.streams, e) {
      CommittedStable(db.streams, db'.streams, e);
    }
    if cfg.outboxed {
      AppliedLog(cfg, db, w);
      forall i, e | 0 <= i < |db'.log| && Boxed(cfg, db'.log[i]) && e in db'.log[i].events
        ensures Accounted(dispatched, db'.outbox, e)
      {
        AppliedAccounted(cfg, issued, dispatched, db, w, i, e);
      }
    }
  }

  lemma AppliedAccounted(cfg: Config, issued: map<nat, Event>, dispatched: set<Event>, db: Database, w: Work, i: nat, e: Event)
    requires OutboxOk(cfg, issued, dispatched, db) && DeliveryOk(cfg, dispatched, db) && |db.views| == |cfg.strong|
    requires WorkNamed(issued, w) && cfg.outboxed
    requires i <= |db.log| && var b := (db.log + [w.batch])[i]; Boxed(cfg, b) && e in b.events
    ensures Accounted(dispatched, Applied(cfg, db, w).outbox, e)
  {
    assert i < |db.log| ==> Accounted(dispatched, db.outbox, e);
    assert |w.tickets| == |w.batch.events|;
    hide Applied, OutboxOk, DeliveryOk, WorkNamed, Pending, Boxed;
    if i < |db.log| {
      if e !in dispatched {
        StillPending(cfg, issued, dispatched, db, w, e);
      }
    } else {
      var n :| 0 <= n < |w.batch.events| && w.batch.events[n] == e;
      NewlyPending(cfg, issued, db, w, n);
    }
  }

  /** Saving entries never loses a pending one: an id names one event. */
  lemma StillPending(cfg: Config, issued: map<nat, Event>, dispatched: set<Event>, db: Database, w: Work, e: Event)
    requires OutboxOk(cfg, issued, dispatched, db) && |db.views| == |cfg.strong|
    requires WorkNamed(issued, w) && Pending(db.outbox, e)
    ensures Pending(Applied(cfg, db, w).outbox, e)
  {
    var x :| x in db.outbox && db.outbox[x] == Entry(e, false);
    assert x in Applied(cfg, db, w).outbox;
    AppliedEntry(cfg, issued, db, w, x);
    assert Applied(cfg, db, w).outbox[x] == Entry(e, false);
  }

  lemma NewlyPending(cfg: Config, issued: map<nat, Event>, db: Database, w: Work, n: nat)
    requires |db.views| == |cfg.strong| && cfg.outboxed
    requires WorkNamed(issued, w) && n < |w.batch.events| && Boxed(cfg, w.batch)
    ensures Pending(Applied(cfg, db, w).outbox, w.batch.events[n])
  {
    var x := w.tickets[n];
    assert x in w.tickets;
    var i :| 0 <= i < |w.tickets| && w.tickets[i] == x && Applied(cfg, db, w).outbox[x] == Entry(w.batch.events[i], false);
  }

  lemma AppliedGood(cfg: Config, issued: map<nat, Event>, dispatched: set<Event>, db: Database, t: nat, w: Work)
    requires GoodDb(cfg, issued, dispatched, db)
    requires WorkOk(cfg, db.streams, issued, t, w) && Accepted(cfg, db, w.batch)
    ensures GoodDb(cfg, issued, dispatched, Applied(cfg, db, w))
  {
    AppliedStreams(cfg, db, w);
    AppliedViews(cfg, db, w);
    AppliedClaims(cfg, db, w);
    AppliedNamed(cfg, issued, db, w);
    AppliedOutbox(cfg, issued, dispatched, db, w);
    AppliedDelivery(cfg, issued, dispatched, db, w);
    var db' := Applied(cfg, db, w);
    forall k | k in db'.snapshots ensures SnapshotValid(cfg, db'.streams, k, db'.snapshots[k]) {
      AppliedGrows(cfg, db, w);
      SnapshotStable(cfg, db.streams, db'.streams, k, db.snapshots[k]);
    }
  }

  // --- A whole unit ---

  lemma GrowsTrans(a: Database, b: Database, c: Database, t: nat)
    requires Grows(a, b, t) && Grows(b, c, t)
    ensures Grows(a, c, t)
  {
    forall k: Key ensures Stream(a.streams, k) <= Stream(c.streams, k) {
      assert Stream(a.streams, k) <= Stream(b.streams, k) <= Stream(c.streams, k);
    }
  }

  /** A pending snapshot is a valid prefix fold once its command is applied. */
  lemma AppliedSnapshot(cfg: Config, db: Database, w: Work)
    requires |db.views| == |cfg.strong|
    requires |w.tickets| == |w.batch.events| && Accepted(cfg, db, w.batch) && w.snapshot.Some?
    requires w.batch.version <= |Stream(db.streams, w.batch.cmd.target)|
    requires SnapshotDue(cfg, db.streams, w.batch, w.snapshot.value)
    ensures SnapshotValid(cfg, Applied(cfg, db, w).streams, w.batch.cmd.target, w.snapshot.value)
  {
    var k, b := w.batch.cmd.target, w.batch;
    var now := Stream(Applied(cfg, db, w).streams, k);
    assert now[..b.version + |b.events|] == Stream(db.streams, k)[..b.version] + b.events;
  }

  function UnitBatches(works: seq<Work>): seq<Batch> {
    seq(|works|, i requires 0 <= i < |works| => works[i].batch)
  }

  ghost predicate EventsSaved(streams: Streams, events: seq<Event>) {
    forall i :: 0 <= i < |events| ==> IsCommitted(streams, events[i])
  }

  ghost predicate SnapshotsValid(cfg: Config, streams: Streams, snapshots: seq<(Key, Snapshot)>) {
    forall i :: 0 <= i < |snapshots| ==> SnapshotValid(cfg, streams, snapshots[i].0, snapshots[i].1)
  }

  lemma EventsSavedStep(cfg: Config, d: Database, front: seq<Work>, w: Work)
    requires EventsSaved(d.streams, UnitEvents(front)) && |d.views| == |cfg.strong| && |w.tickets| == |w.batch.events|
    requires Enriched(AggregateOf(cfg, w.batch.cmd.target), w.batch.cmd.target, w.batch.version, w.batch.events)
    requires Accepted(cfg, d, w.batch)
    ensures EventsSaved(Applied(cfg, d, w).streams, UnitEvents(front + [w]))
  {
    UnitEventsStep(front, w);
    AppliedExtends(cfg, d, w);
    var saved := UnitEvents(front);
    forall i | 0 <= i < |saved + w.batch.events| ensures IsCommitted(Applied(cfg, d, w).streams, (saved + w.batch.events)[i]) {
      EventSaved(cfg, d, saved, w, i);
    }
    hide Applied, Enriched, Accepted, UnitEvents, IsCommitted;
  }

  lemma UnitEventsStep(front: seq<Work>, w: Work)
    ensures UnitEvents(front + [w]) == UnitEvents(front) + w.batch.events
  {
    assert (front + [w])[..|front|] == front;
  }

  lemma AppliedExtends(cfg: Config, d: Database, w: Work)
    requires |d.views| == |cfg.strong| && |w.tickets| == |w.batch.events|
    ensures Extends(d.streams, Applied(cfg, d, w).streams)
  {
    AppliedGrows(cfg, d, w);
    hide Applied;
  }

  lemma SavedBefore(streams: Streams, saved: seq<Event>, i: nat)
    requires EventsSaved(streams, saved) && i < |saved|
    ensures IsCommitted(streams, saved[i])
  {
  }

  lemma AcceptedVersion(cfg: Config, d: Database, b: Batch)
    requires Accepted(cfg, d, b) && b.events != []
    ensures b.version == |Stream(d.streams, b.cmd.target)|
  {
  }

  lemma EventSaved(cfg: Config, d: Database, saved: seq<Event>, w: Work, i: nat)
    requires EventsSaved(d.streams, saved) && |d.views| == |cfg.strong| && |w.tickets| == |w.batch.events|
    requires Enriched(AggregateOf(cfg, w.batch.cmd.target), w.batch.cmd.target, w.batch.version, w.batch.events)
    requires Accepted(cfg, d, w.batch) && i < |saved + w.batch.events|
    ensures IsCommitted(Applied(cfg, d, w).streams, (saved + w.batch.events)[i])
  {
    hide *;
    if i < |saved| {
      assert (saved + w.batch.events)[i] == saved[i];
      SavedBefore(d.streams, saved, i);
      AppliedExtends(cfg, d, w);
      CommittedStable(d.streams, Applied(cfg, d, w).streams, saved[i]);
    } else {
      assert (saved + w.batch.events)[i] == w.batch.events[i - |saved|];
      AcceptedVersion(cfg, d, w.batch);
      AppliedCommitted(cfg, d, w, i - |saved|);
    }
  }

  lemma SnapshotsValidStep(cfg: Config, d: Database, front: seq<Work>, w: Work)
    requires SnapshotsValid(cfg, d.streams, UnitSnapshots(front)) && |d.views| == |cfg.strong|
    requires |w.tickets| == |w.batch.events| && Accepted(cfg, d, w.batch)
    requires w.batch.version <= |Stream(d.streams, w.batch.cmd.target)|
    requires w.snapshot.Some? ==> SnapshotDue(cfg, d.streams, w.batch, w.snapshot.value)
    ensures SnapshotsValid(cfg, Applied(cfg, d, w).streams, UnitSnapshots(front + [w]))
  {
    var d' := Applied(cfg, d, w);
    assert (front + [w])[..|front|] == front;
    var all := UnitSnapshots(front + [w]);
    forall i | 0 <= i < |all| ensures SnapshotValid(cfg, d'.streams, all[i].0, all[i].1) {
      if i < |UnitSnapshots(front)| {
        AppliedGrows(cfg, d, w);
        SnapshotStable(cfg, d.streams, d'.streams, all[i].0, all[i].1);
      } else {
        AppliedSnapshot(cfg, d, w);
      }
    }
  }

  /** What a transaction over `db` leaves: a good database, its events saved, its snapshots valid. */
  ghost predicate UnitDone(cfg: Config, issued: map<nat, Event>, dispatched: set<Event>, db: Database, d: Database,
                           t: nat, works: seq<Work>) {
    && GoodDb(cfg, issued, dispatched, d)
    && Grows(db, d, t)
    && EventsSaved(d.streams, UnitEvents(works))
    && SnapshotsValid(cfg, d.streams, UnitSnapshots(works))
    && d.log == db.log + UnitBatches(works)
  }

  /** The next command of a unit is applied to a database its unit only grew. */
  lemma NextApplied(cfg: Config, issued: map<nat, Event>, db: Database, d: Database, t: nat, w: Work)
    requires Grows(db, d, t) && |d.views| == |cfg.strong|
    requires WorkOk(cfg, db.streams, issued, t, w) && Run(cfg, d, WorkOps(cfg, w)).Ok?
    ensures WorkOk(cfg, d.streams, issued, t, w) && Accepted(cfg, d, w.batch)
    ensures Run(cfg, d, WorkOps(cfg, w)).db == Applied(cfg, d, w)
    ensures Grows(db, Applied(cfg, d, w), t)
  {
    WorkStable(cfg, db.streams, d.streams, issued, issued, t, w);
    RunWork(cfg, d, w);
    AppliedGrows(cfg, d, w);
    GrowsTrans(db, d, Applied(cfg, d, w), t);
  }

  lemma AppliedLog(cfg: Config, d: Database, w: Work)
    requires |d.views| == |cfg.strong| && |w.tickets| == |w.batch.events|
    ensures Applied(cfg, d, w).log == d.log + [w.batch]
  {
  }

  lemma UnitStep(cfg: Config, issued: map<nat, Event>, dispatched: set<Event>, db: Database, d: Database, t: nat,
                 works: seq<Work>)
    requires works != [] && WorkOk(cfg, db.streams, issued, t, works[|works| - 1])
    requires UnitDone(cfg, issued, dispatched, db, d, t, works[..|works| - 1])
    requires Run(cfg, d, WorkOps(cfg, works[|works| - 1])).Ok?
    ensures UnitDone(cfg, issued, dispatched, db, Run(cfg, d, WorkOps(cfg, works[|works| - 1])).db, t, works)
  {
    hide StreamsOk, ClaimsOk, SnapshotsOk, StoredNamed, OutboxOk, DeliveryOk, Grows, EventsSaved, SnapshotsValid, Enriched,
      Justified, SnapshotDue, Run, WorkOps, UnitEvents, UnitSnapshots;
    var front, w := works[..|works| - 1], works[|works| - 1];
    assert works == front + [w];
    assert |d.views| == |cfg.strong|;
    NextApplied(cfg, issued, db, d, t, w);
    AppliedGood(cfg, issued, dispatched, d, t, w);
    assert UnitBatches(works) == UnitBatches(front) + [w.batch];
    AppliedLog(cfg, d, w);
    hide Accepted, ViewsOk, Applied;
    EventsSavedStep(cfg, d, front, w);
    SnapshotsValidStep(cfg, d, front, w);
  }

  lemma {:induction false} CommitGood(cfg: Config, issued: map<nat, Event>, dispatched: set<Event>, db: Database, t: nat,
                                      works: seq<Work>)
    requires GoodDb(cfg, issued, dispatched, db) && WorksOk(cfg, db.streams, issued, t, works)
    requires Commit(cfg, db, works).Ok?
    ensures UnitDone(cfg, issued, dispatched, db, Commit(cfg, db, works).db, t, works)
  {
    hide StreamsOk, ViewsOk, ClaimsOk, SnapshotsOk, StoredNamed, OutboxOk, DeliveryOk, Grows, EventsSaved, SnapshotsValid;
    if works == [] {
      UnitNone(cfg, issued, dispatched, db, t);
    } else {
      CommitSplit(cfg, db, works);
      CommitGood(cfg, issued, dispatched, db, t, works[..|works| - 1]);
      UnitStep(cfg, issued, dispatched, db, Commit(cfg, db, works[..|works| - 1]).db, t, works);
    }
  }

  lemma UnitNone(cfg: Config, issued: map<nat, Event>, dispatched: set<Event>, db: Database, t: nat)
    requires GoodDb(cfg, issued, dispatched, db)
    ensures UnitDone(cfg, issued, dispatched, db, db, t, [])
  {
  }

  lemma CommitSplit(cfg: Config, db: Database, works: seq<Work>)
    requires works != [] && Commit(cfg, db, works).Ok?
    ensures Commit(cfg, db, works[..|works| - 1]).Ok?
    ensures Commit(cfg, db, works) == Run(cfg, Commit(cfg, db, works[..|works| - 1]).db, WorkOps(cfg, works[|works| - 1]))
  {
    RunAppend(cfg, db, UnitOps(cfg, works[..|works| - 1]), WorkOps(cfg, works[|works| - 1]));
  }

  /** A lone command fails its version check only if its stream has moved past what it loaded. */
  lemma ConflictMeansMoved(cfg: Config, issued: map<nat, Event>, db: Database, t: nat, works: seq<Work>)
    requires |db.views| == |cfg.strong| && WorksOk(cfg, db.streams, issued, t, works) && |works| == 1
    requires Commit(cfg, db, works).ConcurrencyError?
    ensures |Stream(db.streams, works[0].batch.cmd.target)| > works[0].batch.version
  {
    assert works[..0] == [];
    assert UnitOps(cfg, works) == [] + WorkOps(cfg, works[0]) == WorkOps(cfg, works[0]);
    assert WorkOk(cfg, db.streams, issued, t, works[0]);
    RunWork(cfg, db, works[0]);
  }
}
