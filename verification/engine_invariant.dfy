/** What every reachable state of the write path satisfies, and why each step keeps it. */
module EngineInvariant {
  import opened Types
  import opened Projections
  import opened EventStore
  import opened Engine

  // --- Reading the history of executed saves ---

  /** The concatenation of the batches saved for one aggregate. */
  function LogStream(log: seq<Batch>, k: Key): seq<Event> {
    if log == [] then []
    else
      LogStream(log[..|log| - 1], k) +
      if log[|log| - 1].cmd.target == k then log[|log| - 1].events else []
  }

  /** Every saved event, in commit order. */
  function LogEvents(log: seq<Batch>): seq<Event> {
    if log == [] then [] else LogEvents(log[..|log| - 1]) + log[|log| - 1].events
  }

  /** What the saved batches enlisted for strong projection `p`, in commit order. */
  function ViewLog(cfg: Config, log: seq<Batch>, p: nat): seq<Event>
    requires p < |cfg.strong|
  {
    if log == [] then [] else ViewLog(cfg, log[..|log| - 1], p) + Delivered(cfg, log[|log| - 1].events, p)
  }

  /** The events of batches whose enlisting was cut short before the outbox. */
  function Unboxed(cfg: Config, log: seq<Batch>): set<Event> {
    set b, e | b in log && !Boxed(cfg, b) && e in b.events :: e
  }

  function AllOwners(log: seq<Batch>): set<nat> {
    set b | b in log :: b.owner
  }

  /** Who has saved a non-empty batch on an aggregate. */
  function Owners(log: seq<Batch>, k: Key): set<nat> {
    set b | b in log && b.cmd.target == k && b.events != [] :: b.owner
  }

  function AggregateOf(cfg: Config, k: Key): Aggregate {
    cfg.aggregates(k.name)
  }

  /** `events` may be the handler's answer to `cmd` on the state folded from `prefix`. */
  ghost predicate Justified(cfg: Config, cmd: Command, prefix: seq<Event>, events: seq<Event>) {
    var agg := AggregateOf(cfg, cmd.target);
    agg.decides(cmd, StateOf(agg, prefix), Raws(events))
  }

  /** A batch saved after `before` saw a prefix of its stream, the whole of it unless it is empty. */
  ghost predicate BatchOk(cfg: Config, before: seq<Batch>, b: Batch) {
    var stream := LogStream(before, b.cmd.target);
    && b.version <= |stream|
    && (b.events != [] ==> b.version == |stream|)
    && Justified(cfg, b.cmd, stream[..b.version], b.events)
  }

  /** The history is one that executing the commands one after another could have left. */
  ghost predicate Serial(cfg: Config, log: seq<Batch>) {
    forall i :: 0 <= i < |log| ==> BatchOk(cfg, log[..i], log[i])
  }

  /** `events` are numbered on from `start` and carry the current schema versions. */
  ghost predicate Enriched(agg: Aggregate, k: Key, start: nat, events: seq<Event>) {
    forall i :: 0 <= i < |events| ==>
      && events[i].metadata.aggregate == k
      && events[i].metadata.sequenceNumber == start + i + 1
      && events[i].metadata.version == SchemaVersion(agg, events[i].name)
  }

  /** `e` is in its stream, at the position its sequence number says. */
  predicate IsCommitted(streams: Streams, e: Event) {
    var stream, n := Stream(streams, e.metadata.aggregate), e.metadata.sequenceNumber;
    1 <= n <= |stream| && stream[n - 1] == e
  }

  ghost predicate SnapshotValid(cfg: Config, streams: Streams, k: Key, snap: Snapshot) {
    && snap.version <= |Stream(streams, k)|
    && snap.state == StateOf(AggregateOf(cfg, k), Stream(streams, k)[..snap.version])
  }

  ghost predicate Pending(outbox: map<nat, Entry>, e: Event) {
    exists x :: x in outbox && outbox[x] == Entry(e, false)
  }

  // --- The database invariant ---

  ghost predicate StreamsOk(cfg: Config, db: Database) {
    && Serial(cfg, db.log)
    && (forall k: Key :: Stream(db.streams, k) == LogStream(db.log, k))
    && (forall k: Key :: Enriched(AggregateOf(cfg, k), k, 0, Stream(db.streams, k)))
  }

  ghost predicate ViewsOk(cfg: Config, db: Database) {
    && |db.views| == |cfg.strong|
    && forall p :: 0 <= p < |db.views| ==> db.views[p] == Project(cfg.strong[p], map[], ViewLog(cfg, db.log, p))
  }

  ghost predicate ClaimsOk(cfg: Config, db: Database) {
    cfg.idempotent ==>
      && (forall i :: 0 <= i < |db.log| && db.log[i].cmd.id.Some? ==> db.log[i].cmd.id.value in db.claims)
      && (forall i, j :: 0 <= i < j < |db.log| && db.log[i].cmd.id.Some? ==> db.log[i].cmd.id != db.log[j].cmd.id)
      && (forall id :: id in db.claims ==> Executed(db.log, id))
  }

  ghost predicate Executed(log: seq<Batch>, id: CommandId) {
    exists i :: 0 <= i < |log| && log[i].cmd.id == Some(id)
  }

  lemma {:induction false} InLogStream(log: seq<Batch>, i: nat, e: Event)
    requires i < |log| && e in log[i].events
    ensures e in LogStream(log, log[i].cmd.target)
  {
    if i < |log| - 1 {
      assert log[..|log| - 1][i] == log[i];
      InLogStream(log[..|log| - 1], i, e);
    }
  }

  /** Every saved event is committed. */
  lemma LoggedIsCommitted(cfg: Config, db: Database, i: nat, e: Event)
    requires StreamsOk(cfg, db) && i < |db.log| && e in db.log[i].events
    ensures IsCommitted(db.streams, e) && e in Stream(db.streams, db.log[i].cmd.target)
  {
    var k := db.log[i].cmd.target;
    InLogStream(db.log, i, e);
    assert e in Stream(db.streams, k);
    assert Enriched(AggregateOf(cfg, k), k, 0, Stream(db.streams, k));
  }

  ghost predicate SnapshotsOk(cfg: Config, db: Database) {
    forall k :: k in db.snapshots ==> SnapshotValid(cfg, db.streams, k, db.snapshots[k])
  }

  /** Identifiers name events: the one `e` carries was drawn for `e`. */
  predicate Named(issued: map<nat, Event>, e: Event) {
    e.metadata.eventId in issued && issued[e.metadata.eventId] == e
  }

  ghost predicate StoredNamed(issued: map<nat, Event>, streams: Streams) {
    forall k: Key, i :: 0 <= i < |Stream(streams, k)| ==> Named(issued, Stream(streams, k)[i])
  }

  ghost predicate OutboxOk(cfg: Config, issued: map<nat, Event>, dispatched: set<Event>, db: Database) {
    forall x :: x in db.outbox ==>
      && x in issued && issued[x] == db.outbox[x].event
      && IsCommitted(db.streams, db.outbox[x].event)
      && db.outbox[x].event !in Unboxed(cfg, db.log)
      && (db.outbox[x].published ==> db.outbox[x].event in dispatched)
  }

  ghost predicate Accounted(dispatched: set<Event>, outbox: map<nat, Entry>, e: Event) {
    e in dispatched || Pending(outbox, e)
  }

  ghost predicate DeliveryOk(cfg: Config, dispatched: set<Event>, db: Database) {
    && (forall e :: e in dispatched ==> IsCommitted(db.streams, e))
    && (cfg.outboxed ==>
          forall i, e :: 0 <= i < |db.log| && Boxed(cfg, db.log[i]) && e in db.log[i].events ==>
            Accounted(dispatched, db.outbox, e))
  }

  ghost predicate GoodDb(cfg: Config, issued: map<nat, Event>, dispatched: set<Event>, db: Database) {
    && StreamsOk(cfg, db)
    && ViewsOk(cfg, db)
    && ClaimsOk(cfg, db)
    && SnapshotsOk(cfg, db)
    && StoredNamed(issued, db.streams)
    && OutboxOk(cfg, issued, dispatched, db)
    && DeliveryOk(cfg, dispatched, db)
  }

  // --- The thread invariant ---

  /** The handler decided on the state folded from a prefix of the stream. */
  ghost predicate SawPrefix(cfg: Config, streams: Streams, b: Batch) {
    && b.version <= |Stream(streams, b.cmd.target)|
    && Justified(cfg, b.cmd, Stream(streams, b.cmd.target)[..b.version], b.events)
  }

  ghost predicate WorkNamed(issued: map<nat, Event>, w: Work) {
    && |w.tickets| == |w.batch.events|
    && (forall i :: 0 <= i < |w.tickets| ==> Named(issued, w.batch.events[i]))
    && (forall i :: 0 <= i < |w.tickets| ==> w.tickets[i] in issued && issued[w.tickets[i]] == w.batch.events[i])
  }

  /** A pending snapshot is the fold of the prefix the command saw and of its own events. */
  ghost predicate SnapshotDue(cfg: Config, streams: Streams, b: Batch, snap: Snapshot)
    requires b.version <= |Stream(streams, b.cmd.target)|
  {
    && snap.version == b.version + |b.events|
    && snap.state == StateOf(AggregateOf(cfg, b.cmd.target), Stream(streams, b.cmd.target)[..b.version] + b.events)
  }

  ghost predicate WorkOk(cfg: Config, streams: Streams, issued: map<nat, Event>, t: nat, w: Work) {
    && w.batch.owner == t
    && SawPrefix(cfg, streams, w.batch)
    && Enriched(AggregateOf(cfg, w.batch.cmd.target), w.batch.cmd.target, w.batch.version, w.batch.events)
    && WorkNamed(issued, w)
    && (w.snapshot.Some? ==> SnapshotDue(cfg, streams, w.batch, w.snapshot.value))
  }

  ghost predicate WorksOk(cfg: Config, streams: Streams, issued: map<nat, Event>, t: nat, works: seq<Work>) {
    forall i :: 0 <= i < |works| ==> WorkOk(cfg, streams, issued, t, works[i])
  }

  /**
   * The retries of an implicit command are paid for by other commits on its aggregate: one
   * each, and one more already if the stream has moved past the loaded version.
   */
  ghost predicate Charged(db: Database, job: Job, seen: Option<nat>) {
    job.Implicit? ==>
      var k := job.cmd.target;
      job.attempt + (if seen.Some? && |Stream(db.streams, k)| > seen.value then 1 else 0) <= |Owners(db.log, k)|
  }

  /** Before its commit a thread owns nothing in the history. */
  ghost predicate OpenOk(cfg: Config, s: Sys, t: nat, job: Job, works: seq<Work>) {
    && t !in AllOwners(s.db.log)
    && WorksOk(cfg, s.db.streams, s.issued, t, works)
  }

  ghost predicate RunningOk(cfg: Config, s: Sys, t: nat, job: Job, works: seq<Work>, cmd: Command, seen: Option<nat>) {
    && OpenOk(cfg, s, t, job, works)
    && (job.Implicit? ==> works == [] && cmd == job.cmd)
    && Charged(s.db, job, seen)
  }

  ghost predicate ThreadOk(cfg: Config, s: Sys, t: nat, th: Thread) {
    match th
    case Checking(job, works, cmd) => RunningOk(cfg, s, t, job, works, cmd, None)
    case Loading(job, works, cmd) => RunningOk(cfg, s, t, job, works, cmd, None)
    case Based(job, works, cmd, base) =>
      && RunningOk(cfg, s, t, job, works, cmd, None)
      && (base.Some? ==> SnapshotValid(cfg, s.db.streams, cmd.target, base.value))
    case Deciding(job, works, cmd, version, state) =>
      && RunningOk(cfg, s, t, job, works, cmd, Some(version))
      && SnapshotValid(cfg, s.db.streams, cmd.target, Snapshot(state, version))
    case Ready(job, works) =>
      && OpenOk(cfg, s, t, job, works)
      && (job.Implicit? ==>
            && |works| == 1
            && works[0].batch.cmd == job.cmd
            && Charged(s.db, job, Some(works[0].batch.version)))
    case Committed(_, snapshots, events, next) =>
      && (forall i :: 0 <= i < |snapshots| ==> SnapshotValid(cfg, s.db.streams, snapshots[i].0, snapshots[i].1))
      && (forall i :: 0 <= i < |events| ==> IsCommitted(s.db.streams, events[i]))
      && next <= |events|
      && (forall i :: 0 <= i < next ==> events[i] in s.dispatched)
    case Relaying(batch, sent) =>
      && (forall i :: 0 <= i < |batch| ==>
            && batch[i].0 in s.issued && s.issued[batch[i].0] == batch[i].1
            && IsCommitted(s.db.streams, batch[i].1))
      && (sent ==> batch != [] && batch[0].1 in s.dispatched)
    case Ended(job, result) =>
      result.ConcurrencyFailure? && job.Implicit? ==>
        && t !in AllOwners(s.db.log)
        && job.attempt >= cfg.maxRetries
        && job.attempt < |Owners(s.db.log, job.cmd.target)|
  }

  predicate IsImplicit(th: Thread) {
    !th.Relaying? && th.job.Implicit?
  }

  /** Only explicit units of work save more than one batch. */
  ghost predicate SavesOnce(log: seq<Batch>, threads: map<nat, Thread>) {
    forall i, j :: 0 <= i < j < |log| && log[i].owner == log[j].owner ==>
      log[i].owner in threads && !IsImplicit(threads[log[i].owner])
  }

  ghost predicate Inv(cfg: Config, s: Sys) {
    && GoodDb(cfg, s.issued, s.dispatched, s.db)
    && AllOwners(s.db.log) <= s.threads.Keys
    && SavesOnce(s.db.log, s.threads)
    && forall t :: t in s.threads ==> ThreadOk(cfg, s, t, s.threads[t])
  }

  // --- Growth: what the rest of the system may do behind a thread's back ---

  ghost predicate Extends(a: Streams, b: Streams) {
    forall k: Key :: Stream(a, k) <= Stream(b, k)
  }

  ghost predicate Submap(a: map<nat, Event>, b: map<nat, Event>) {
    forall n :: n in a ==> n in b && b[n] == a[n]
  }

  /** Between two states only `mover` saved anything, and streams only grew. */
  ghost predicate Grows(db: Database, db': Database, mover: nat) {
    && Extends(db.streams, db'.streams)
    && AllOwners(db'.log) <= AllOwners(db.log) + {mover}
    && forall k: Key ::
         && Owners(db.log, k) <= Owners(db'.log, k)
         && (Stream(db.streams, k) != Stream(db'.streams, k) ==> mover in Owners(db'.log, k))
  }

  lemma CommittedStable(a: Streams, b: Streams, e: Event)
    requires Extends(a, b) && IsCommitted(a, e)
    ensures IsCommitted(b, e)
  {
    assert Stream(a, e.metadata.aggregate) <= Stream(b, e.metadata.aggregate);
  }

  lemma SnapshotStable(cfg: Config, a: Streams, b: Streams, k: Key, snap: Snapshot)
    requires Extends(a, b) && SnapshotValid(cfg, a, k, snap)
    ensures SnapshotValid(cfg, b, k, snap)
  {
    assert Stream(a, k) <= Stream(b, k);
    assert Stream(a, k)[..snap.version] == Stream(b, k)[..snap.version];
  }

  lemma WorkStable(cfg: Config, a: Streams, b: Streams, i: map<nat, Event>, j: map<nat, Event>, t: nat, w: Work)
    requires Extends(a, b) && Submap(i, j) && WorkOk(cfg, a, i, t, w)
    ensures WorkOk(cfg, b, j, t, w)
  {
    var k, v := w.batch.cmd.target, w.batch.version;
    assert Stream(a, k) <= Stream(b, k);
    assert Stream(a, k)[..v] == Stream(b, k)[..v];
  }

  lemma WorksStable(cfg: Config, a: Streams, b: Streams, i: map<nat, Event>, j: map<nat, Event>, t: nat, works: seq<Work>)
    requires Extends(a, b) && Submap(i, j) && WorksOk(cfg, a, i, t, works)
    ensures WorksOk(cfg, b, j, t, works)
  {
    forall n | 0 <= n < |works| ensures WorkOk(cfg, b, j, t, works[n]) {
      WorkStable(cfg, a, b, i, j, t, works[n]);
    }
  }

  lemma SubsetSize<T>(a: set<T>, b: set<T>)
    requires a <= b
    ensures |a| <= |b|
  {
    assert b == a + (b - a);
  }

  /** A commit by someone who owned nothing before pays for one more retry. */
  lemma ChargedStable(db: Database, db': Database, mover: nat, job: Job, seen: Option<nat>)
    requires Grows(db, db', mover) && mover !in AllOwners(db.log)
    requires Charged(db, job, seen)
    requires seen.Some? && job.Implicit? ==> seen.value <= |Stream(db.streams, job.cmd.target)|
    ensures Charged(db', job, seen)
  {
    if job.Implicit? {
      var k := job.cmd.target;
      var before, after := Owners(db.log, k), Owners(db'.log, k);
      SubsetSize(before, after);
      if Stream(db.streams, k) != Stream(db'.streams, k) {
        assert mover !in before;
        SubsetSize(before + {mover}, after);
        assert |before + {mover}| == |before| + 1;
      }
    }
  }

  /** A thread that does not move keeps its invariant while another does. */
  lemma ThreadStable(cfg: Config, s: Sys, s': Sys, mover: nat, t: nat, th: Thread)
    requires ThreadOk(cfg, s, t, th) && t != mover
    requires Grows(s.db, s'.db, mover) && mover !in AllOwners(s.db.log)
    requires Submap(s.issued, s'.issued) && s.dispatched <= s'.dispatched
    ensures ThreadOk(cfg, s', t, th)
  {
    match th
    case Checking(job, works, cmd) =>
      WorksStable(cfg, s.db.streams, s'.db.streams, s.issued, s'.issued, t, works);
      ChargedStable(s.db, s'.db, mover, job, None);
    case Loading(job, works, cmd) =>
      WorksStable(cfg, s.db.streams, s'.db.streams, s.issued, s'.issued, t, works);
      ChargedStable(s.db, s'.db, mover, job, None);
    case Based(job, works, cmd, base) =>
      WorksStable(cfg, s.db.streams, s'.db.streams, s.issued, s'.issued, t, works);
      ChargedStable(s.db, s'.db, mover, job, None);
      if base.Some? {
        SnapshotStable(cfg, s.db.streams, s'.db.streams, cmd.target, base.value);
      }
    case Deciding(job, works, cmd, version, state) =>
      WorksStable(cfg, s.db.streams, s'.db.streams, s.issued, s'.issued, t, works);
      ChargedStable(s.db, s'.db, mover, job, Some(version));
      SnapshotStable(cfg, s.db.streams, s'.db.streams, cmd.target, Snapshot(state, version));
    case Ready(job, works) =>
      WorksStable(cfg, s.db.streams, s'.db.streams, s.issued, s'.issued, t, works);
      if job.Implicit? {
        assert WorkOk(cfg, s.db.streams, s.issued, t, works[0]);
        ChargedStable(s.db, s'.db, mover, job, Some(works[0].batch.version));
      }
    case Committed(_, snapshots, events, next) =>
      forall i | 0 <= i < |snapshots| ensures SnapshotValid(cfg, s'.db.streams, snapshots[i].0, snapshots[i].1) {
        SnapshotStable(cfg, s.db.streams, s'.db.streams, snapshots[i].0, snapshots[i].1);
      }
      forall i | 0 <= i < |events| ensures IsCommitted(s'.db.streams, events[i]) {
        CommittedStable(s.db.streams, s'.db.streams, events[i]);
      }
    case Relaying(batch, sent) =>
      forall i | 0 <= i < |batch| ensures IsCommitted(s'.db.streams, batch[i].1) {
        CommittedStable(s.db.streams, s'.db.streams, batch[i].1);
      }
    case Ended(job, result) =>
      if result.ConcurrencyFailure? && job.Implicit? {
        SubsetSize(Owners(s.db.log, job.cmd.target), Owners(s'.db.log, job.cmd.target));
      }
  }

  /** One thread moved, the rest stood still, and the database stayed good. */
  lemma MoveKeepsInv(cfg: Config, s: Sys, s': Sys, mover: nat)
    requires Inv(cfg, s)
    requires mover !in AllOwners(s.db.log) && Grows(s.db, s'.db, mover)
    requires Submap(s.issued, s'.issued) && s.dispatched <= s'.dispatched
    requires mover in s'.threads && s'.threads == s.threads[mover := s'.threads[mover]]
    requires GoodDb(cfg, s'.issued, s'.dispatched, s'.db)
    requires ThreadOk(cfg, s', mover, s'.threads[mover])
    requires SavesOnce(s'.db.log, s'.threads)
    ensures Inv(cfg, s')
  {
    forall t | t in s'.threads ensures ThreadOk(cfg, s', t, s'.threads[t]) {
      if t != mover {
        ThreadStable(cfg, s, s', mover, t, s.threads[t]);
      }
    }
  }

  /** The same when the mover saved nothing: it may own saves from before. */
  lemma QuietMoveKeepsInv(cfg: Config, s: Sys, s': Sys, mover: nat)
    requires Inv(cfg, s)
    requires s'.db.streams == s.db.streams && s'.db.log == s.db.log
    requires Submap(s.issued, s'.issued) && s.dispatched <= s'.dispatched
    requires mover in s'.threads && s'.threads == s.threads[mover := s'.threads[mover]]
    requires GoodDb(cfg, s'.issued, s'.dispatched, s'.db)
    requires ThreadOk(cfg, s', mover, s'.threads[mover])
    requires mover in s.threads && IsImplicit(s'.threads[mover]) ==> IsImplicit(s.threads[mover])
    ensures Inv(cfg, s')
  {
    forall i, j | 0 <= i < j < |s.db.log| && s.db.log[i].owner == s.db.log[j].owner
      ensures !IsImplicit(s'.threads[s.db.log[i].owner])
    {
      assert s.db.log[i].owner in AllOwners(s.db.log);
    }
    forall t | t in s'.threads ensures ThreadOk(cfg, s', t, s'.threads[t]) {
      if t != mover {
        QuietStable(cfg, s, s', t, s.threads[t]);
      }
    }
  }

  lemma QuietStable(cfg: Config, s: Sys, s': Sys, t: nat, th: Thread)
    requires ThreadOk(cfg, s, t, th)
    requires s'.db.streams == s.db.streams && s'.db.log == s.db.log
    requires Submap(s.issued, s'.issued) && s.dispatched <= s'.dispatched
    ensures ThreadOk(cfg, s', t, th)
  {
    var streams := s.db.streams;
    match th
    case Checking(_, works, _) => WorksStable(cfg, streams, streams, s.issued, s'.issued, t, works);
    case Loading(_, works, _) => WorksStable(cfg, streams, streams, s.issued, s'.issued, t, works);
    case Based(_, works, _, _) => WorksStable(cfg, streams, streams, s.issued, s'.issued, t, works);
    case Deciding(_, works, _, _, _) => WorksStable(cfg, streams, streams, s.issued, s'.issued, t, works);
    case Ready(_, works) => WorksStable(cfg, streams, streams, s.issued, s'.issued, t, works);
    case Committed(_, _, _, _) =>
    case Relaying(_, _) =>
    case Ended(_, _) =>
  }
}
