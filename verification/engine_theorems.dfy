/** What the invariant says to a user of the engine: the guarantees over every schedule. */
module EngineTheorems {
  import opened Types
  import opened Seqs
  import opened Upcaster
  import opened Projections
  import Rebuilding = ProjectionRebuild
  import opened EventStore
  import opened Engine
  import opened EngineInvariant
  import opened EngineSteps
  import EngineCommit
  import EngineHistory

  // --- Serial equivalence ---

  /**
   * Whatever the interleaving, each stream is the concatenation of the batches saved for
   * it, and every non-empty batch is the handler's answer on the state folded from exactly
   * the events saved before it: the outcome of running the commands one after another, in
   * commit order, with no update lost. Told without the fold: whatever record says what
   * state each history of handled events leaves, the answer is one to the recorded state of
   * the events before.
   */
  lemma {:induction false} SerialEquivalence(cfg: Config, schedule: seq<Action>)
    ensures var db := After(cfg, schedule).db;
      && (forall k: Key :: Stream(db.streams, k) == LogStream(db.log, k))
      && (forall i :: 0 <= i < |db.log| && db.log[i].events != [] ==>
            Justified(cfg, db.log[i].cmd, LogStream(db.log[..i], db.log[i].cmd.target), db.log[i].events))
      && (forall i, record :: 0 <= i < |db.log| && db.log[i].events != [] && Tracks(AggregateOf(cfg, db.log[i].cmd.target), record) ==>
            AnswersRecorded(cfg, db.log[i].cmd, record, LogStream(db.log[..i], db.log[i].cmd.target), db.log[i].events))
  {
    Invariant(cfg, schedule);
    var db := After(cfg, schedule).db;
    assert StreamsOk(cfg, db);
    hide *;
    StreamsSerial(cfg, db);
    forall i, record | 0 <= i < |db.log| && db.log[i].events != [] && Tracks(AggregateOf(cfg, db.log[i].cmd.target), record)
      ensures AnswersRecorded(cfg, db.log[i].cmd, record, LogStream(db.log[..i], db.log[i].cmd.target), db.log[i].events)
    {
      PrefixEnriched(cfg, db, db.log[i].cmd.target, i);
      JustifiedIsRecorded(cfg, db.log[i].cmd, record, LogStream(db.log[..i], db.log[i].cmd.target), db.log[i].events);
    }
  }

  /** The handler may answer `events` on the state the record gives for the stored events `prefix`. */
  ghost predicate AnswersRecorded(cfg: Config, cmd: Command, record: seq<RawEvent> -> State, prefix: seq<Event>, events: seq<Event>) {
    var agg := AggregateOf(cfg, cmd.target);
    agg.decides(cmd, Recorded(agg, record, Raws(prefix)), Raws(events))
  }

  lemma JustifiedIsRecorded(cfg: Config, cmd: Command, record: seq<RawEvent> -> State, prefix: seq<Event>, events: seq<Event>)
    requires Tracks(AggregateOf(cfg, cmd.target), record) && Justified(cfg, cmd, prefix, events)
    requires Enriched(AggregateOf(cfg, cmd.target), cmd.target, 0, prefix)
    ensures AnswersRecorded(cfg, cmd, record, prefix, events)
  {
    var agg := AggregateOf(cfg, cmd.target);
    EnrichedAreCurrent(agg, cmd.target, 0, prefix);
    UpcastedIsLoaded(agg, prefix);
    hide Tracks, Enriched, Upcasted, LoadedRaws, StateOf, Filter;
    StateFollowsRecord(agg, record, prefix);
  }

  /** What was logged for an aggregate at any time is enriched like its stream. */
  lemma PrefixEnriched(cfg: Config, db: Database, k: Key, i: nat)
    requires StreamsOk(cfg, db) && i <= |db.log|
    ensures Enriched(AggregateOf(cfg, k), k, 0, LogStream(db.log[..i], k))
  {
    assert Enriched(AggregateOf(cfg, k), k, 0, Stream(db.streams, k)) && Stream(db.streams, k) == LogStream(db.log, k);
    hide StreamsOk, Stream;
    LogStreamPrefix(db.log, i, k);
  }

  lemma {:induction false} LogStreamPrefix(log: seq<Batch>, i: nat, k: Key)
    requires i <= |log|
    ensures LogStream(log[..i], k) <= LogStream(log, k)
  {
    if i < |log| {
      assert log[..|log| - 1][..i] == log[..i];
      LogStreamPrefix(log[..|log| - 1], i, k);
    } else {
      assert log[..i] == log;
    }
  }

  lemma StreamsSerial(cfg: Config, db: Database)
    requires StreamsOk(cfg, db)
    ensures forall k: Key :: Stream(db.streams, k) == LogStream(db.log, k)
    ensures forall i :: 0 <= i < |db.log| && db.log[i].events != [] ==>
      Justified(cfg, db.log[i].cmd, LogStream(db.log[..i], db.log[i].cmd.target), db.log[i].events)
  {
    hide Justified, Stream, LogStream, Enriched;
    forall i | 0 <= i < |db.log| && db.log[i].events != []
      ensures Justified(cfg, db.log[i].cmd, LogStream(db.log[..i], db.log[i].cmd.target), db.log[i].events)
    {
      assert BatchOk(cfg, db.log[..i], db.log[i]);
      var stream := LogStream(db.log[..i], db.log[i].cmd.target);
      assert stream[..|stream|] == stream;
    }
  }

  /** Event `i` of a stream belongs to it and carries sequence number `i + 1`. */
  lemma SequenceNumbers(cfg: Config, schedule: seq<Action>, k: Key, i: nat)
    requires i < |Stream(After(cfg, schedule).db.streams, k)|
    ensures var e := Stream(After(cfg, schedule).db.streams, k)[i];
      e.metadata.sequenceNumber == i + 1 && e.metadata.aggregate == k
  {
    Invariant(cfg, schedule);
    assert Enriched(AggregateOf(cfg, k), k, 0, Stream(After(cfg, schedule).db.streams, k));
  }

  /** An execution that owns its unit of work saves at most one batch, retries included. */
  lemma ExecuteSavesAtMostOnce(cfg: Config, schedule: seq<Action>, i: nat, j: nat)
    requires i < j < |After(cfg, schedule).db.log|
    requires var s := After(cfg, schedule);
      s.db.log[i].owner in s.threads && IsImplicit(s.threads[s.db.log[i].owner])
    ensures After(cfg, schedule).db.log[i].owner != After(cfg, schedule).db.log[j].owner
  {
    Invariant(cfg, schedule);
  }

  // --- At-most-once commands ---

  /**
   * With an idempotency store in the same transaction, at most one save is ever executed
   * per command id, even when duplicates pass the fast path together and are retried; and
   * an id is claimed only if its command was executed.
   */
  lemma AtMostOncePerCommandId(cfg: Config, schedule: seq<Action>, i: nat, j: nat)
    requires cfg.idempotent && i < |After(cfg, schedule).db.log| && j < |After(cfg, schedule).db.log|
    ensures var db := After(cfg, schedule).db;
      && (db.log[i].cmd.id.Some? && db.log[i].cmd.id == db.log[j].cmd.id ==> i == j)
      && (forall id :: id in db.claims <==> Executed(db.log, id))
  {
    Invariant(cfg, schedule);
    var db := After(cfg, schedule).db;
    assert ClaimsOk(cfg, db);
    if i < j {
    } else if j < i {
    }
  }

  // --- Snapshot transparency ---

  /**
   * Every stored snapshot is the fold of a prefix of its stream, whatever stale snapshot
   * overwrote it, so loading through it gives the state and version of a full replay.
   */
  lemma SnapshotsAreTransparent(cfg: Config, schedule: seq<Action>, k: Key)
    requires k in After(cfg, schedule).db.snapshots
    ensures var db := After(cfg, schedule).db;
      var snap := db.snapshots[k];
      && snap.version <= |Stream(db.streams, k)|
      && snap.state == StateOf(AggregateOf(cfg, k), Stream(db.streams, k)[..snap.version])
      && LoadState(cfg, db, k, Some(snap)) == LoadState(cfg, db, k, None)
  {
    Invariant(cfg, schedule);
    var db := After(cfg, schedule).db;
    SnapshotTransparent(cfg, db, k, db.snapshots[k]);
  }

  // --- Strong-consistency views ---

  /** No id extractor threw up to any event that projection `p` handles. */
  ghost predicate FullyDelivered(cfg: Config, events: seq<Event>, p: nat)
    requires p < |cfg.strong|
  {
    forall i :: 0 <= i < |events| && Handled(cfg.strong[p], events[i]) ==> NoThrowUpTo(cfg, events, p, i)
  }

  lemma FullyDeliveredIff(cfg: Config, events: seq<Event>, p: nat)
    requires p < |cfg.strong|
    ensures FullyDelivered(cfg, events, p) <==>
      forall i :: |Delivered(cfg, events, p)| <= i < |events| ==> !Handled(cfg.strong[p], events[i])
  {
    forall i | 0 <= i < |events| ensures i < |Delivered(cfg, events, p)| <==> NoThrowUpTo(cfg, events, p, i) {
      DeliveredIff(cfg, events, p, i);
    }
    hide Delivered, NoThrowUpTo;
  }

  /** The number of events projection `p` handles. */
  function HandledCount(cfg: Config, p: nat, events: seq<Event>): nat
    requires p < |cfg.strong|
  {
    |Filter(HandledBy(cfg.strong[p]), events)|
  }

  lemma DeliveredHandled(cfg: Config, events: seq<Event>, p: nat)
    requires p < |cfg.strong|
    ensures HandledCount(cfg, p, Delivered(cfg, events, p)) <= HandledCount(cfg, p, events)
    ensures HandledCount(cfg, p, Delivered(cfg, events, p)) == HandledCount(cfg, p, events) <==> FullyDelivered(cfg, events, p)
    ensures FullyDelivered(cfg, events, p) ==>
      Filter(HandledBy(cfg.strong[p]), Delivered(cfg, events, p)) == Filter(HandledBy(cfg.strong[p]), events)
    ensures Quiet(cfg, events, |cfg.strong|) ==> FullyDelivered(cfg, events, p)
  {
    hide Filter, HandledCount;
    DeliveredPrefix(cfg, events, p);
    var done := Delivered(cfg, events, p);
    var rest := events[|done|..];
    PrefixCounts(HandledBy(cfg.strong[p]), done, rest);
    CountsAre(cfg, p, events);
    CountsAre(cfg, p, done);
    hide Delivered, Quiet, FullyDelivered;
    assert events == done + rest;
  }

  lemma CountsAre(cfg: Config, p: nat, events: seq<Event>)
    requires p < |cfg.strong|
    ensures HandledCount(cfg, p, events) == |Filter(HandledBy(cfg.strong[p]), events)|
  {
  }

  lemma DeliveredPrefix(cfg: Config, events: seq<Event>, p: nat)
    requires p < |cfg.strong|
    ensures Delivered(cfg, events, p) <= events
    ensures Quiet(cfg, events, |cfg.strong|) ==> FullyDelivered(cfg, events, p)
    ensures FullyDelivered(cfg, events, p) <==>
      forall e :: e in events[|Delivered(cfg, events, p)|..] ==> !HandledBy(cfg.strong[p])(e)
  {
    FullyDeliveredIff(cfg, events, p);
    hide FullyDelivered, NoThrowUpTo;
    var done := Delivered(cfg, events, p);
    assert done <= events;
    var rest := events[|done|..];
    forall i | |done| <= i < |events| ensures events[i] in rest {
      assert rest[i - |done|] == events[i];
    }
    forall e | e in rest ensures exists i :: |done| <= i < |events| && events[i] == e {
      var j :| 0 <= j < |rest| && rest[j] == e;
      assert events[|done| + j] == e;
    }
  }

  /** A prefix keeps all that matters exactly when nothing after it does. */
  lemma PrefixCounts(matters: Event -> bool, done: seq<Event>, rest: seq<Event>)
    ensures |Filter(matters, done)| <= |Filter(matters, done + rest)|
    ensures |Filter(matters, done)| == |Filter(matters, done + rest)| <==> forall e :: e in rest ==> !matters(e)
    ensures (forall e :: e in rest ==> !matters(e)) ==> Filter(matters, done) == Filter(matters, done + rest)
  {
    FilterAppend(matters, done, rest);
    if forall e :: e in rest ==> !matters(e) {
      FilterNone(matters, rest);
    } else {
      var e :| e in rest && matters(e);
      assert e in Filter(matters, rest);
    }
  }

  /** Every batch was fully delivered to projection `p`. */
  ghost predicate AllDelivered(cfg: Config, log: seq<Batch>, p: nat)
    requires p < |cfg.strong|
  {
    forall i :: 0 <= i < |log| ==> FullyDelivered(cfg, log[i].events, p)
  }

  lemma AllDeliveredStep(cfg: Config, log: seq<Batch>, p: nat)
    requires p < |cfg.strong| && log != []
    ensures AllDelivered(cfg, log, p)
       <==> AllDelivered(cfg, log[..|log| - 1], p) && FullyDelivered(cfg, log[|log| - 1].events, p)
  {
    hide FullyDelivered;
    var front := log[..|log| - 1];
    assert forall i :: 0 <= i < |front| ==> log[i] == front[i];
  }

  /** What was enlisted for a projection is all that it handles exactly when each batch was fully delivered. */
  lemma {:induction false} ViewLogHandled(cfg: Config, log: seq<Batch>, p: nat)
    requires p < |cfg.strong|
    ensures HandledCount(cfg, p, ViewLog(cfg, log, p)) <= HandledCount(cfg, p, LogEvents(log))
    ensures HandledCount(cfg, p, ViewLog(cfg, log, p)) == HandledCount(cfg, p, LogEvents(log)) <==> AllDelivered(cfg, log, p)
    ensures AllDelivered(cfg, log, p) ==>
      Filter(HandledBy(cfg.strong[p]), ViewLog(cfg, log, p)) == Filter(HandledBy(cfg.strong[p]), LogEvents(log))
  {
    if log != [] {
      var front, last := log[..|log| - 1], log[|log| - 1];
      hide AllDelivered, FullyDelivered, Delivered, Filter, HandledBy;
      ViewLogHandled(cfg, front, p);
      DeliveredHandled(cfg, last.events, p);
      AllDeliveredStep(cfg, log, p);
      FilterAppend(HandledBy(cfg.strong[p]), ViewLog(cfg, front, p), Delivered(cfg, last.events, p));
      FilterAppend(HandledBy(cfg.strong[p]), LogEvents(front), last.events);
    }
  }

  /**
   * In every reachable state each strong projection's store is the pure projection of what
   * its batches enlisted for it. That is every event it handles exactly when no id extractor
   * threw before one of them; then the store is the projection of the whole committed log,
   * and each view the fold of its own events.
   */
  lemma {:induction false} StrongViewsTrackTheLog(cfg: Config, schedule: seq<Action>, p: nat, id: ViewId)
    requires p < |cfg.strong|
    ensures var db := After(cfg, schedule).db;
      var tracked := AllDelivered(cfg, db.log, p);
      && |db.views| == |cfg.strong|
      && db.views[p] == Project(cfg.strong[p], map[], ViewLog(cfg, db.log, p))
      && (Filter(HandledBy(cfg.strong[p]), ViewLog(cfg, db.log, p)) == Filter(HandledBy(cfg.strong[p]), LogEvents(db.log)) <==> tracked)
      && (tracked ==> db.views[p] == Project(cfg.strong[p], map[], LogEvents(db.log)))
      && (tracked ==> Lookup(db.views[p], id) == ViewFold(cfg.strong[p], Filter(RoutedTo(cfg.strong[p], id), LogEvents(db.log))))
      && ((forall i :: 0 <= i < |db.log| ==> Boxed(cfg, db.log[i])) ==> tracked)
  {
    Invariant(cfg, schedule);
    var db := After(cfg, schedule).db;
    assert ViewsOk(cfg, db);
    hide After, Inv, FullyDelivered, Filter;
    ViewLogHandled(cfg, db.log, p);
    ProjectHandled(cfg.strong[p], map[], ViewLog(cfg, db.log, p));
    ProjectHandled(cfg.strong[p], map[], LogEvents(db.log));
    ViewIsFoldOfItsEvents(cfg.strong[p], LogEvents(db.log), id);
    forall i | 0 <= i < |db.log| && Boxed(cfg, db.log[i]) ensures FullyDelivered(cfg, db.log[i].events, p) {
      DeliveredHandled(cfg, db.log[i].events, p);
    }
  }

  // --- The outbox ---

  lemma {:induction false} LoggedSomewhere(log: seq<Batch>, k: Key, e: Event) returns (i: nat)
    requires e in LogStream(log, k)
    ensures i < |log| && e in log[i].events
  {
    if e in LogStream(log[..|log| - 1], k) {
      i := LoggedSomewhere(log[..|log| - 1], k, e);
    } else {
      i := |log| - 1;
    }
  }

  /**
   * No committed event is lost: it has been dispatched or waits in the outbox unpublished,
   * unless an id extractor threw while its batch was enlisted, and such a batch is
   * accounted for exactly as far as its events were dispatched. None is invented: whatever
   * was dispatched, by an executor or a relay, is committed. Threads may have died at any
   * step of the schedule.
   */
  lemma {:induction false} NoEventLostOrInvented(cfg: Config, schedule: seq<Action>, e: Event)
    ensures var s := After(cfg, schedule);
      && (cfg.outboxed && IsCommitted(s.db.streams, e) ==>
            Accounted(s.dispatched, s.db.outbox, e) || e in Unboxed(cfg, s.db.log))
      && (cfg.outboxed ==> forall i :: 0 <= i < |s.db.log| && e in s.db.log[i].events ==>
            (Accounted(s.dispatched, s.db.outbox, e) <==> Boxed(cfg, s.db.log[i]) || e in s.dispatched))
      && (e in s.dispatched ==> IsCommitted(s.db.streams, e))
      && (Pending(s.db.outbox, e) ==> IsCommitted(s.db.streams, e))
  {
    Invariant(cfg, schedule);
    var s := After(cfg, schedule);
    assert StreamsOk(cfg, s.db) && OutboxOk(cfg, s.issued, s.dispatched, s.db) && DeliveryOk(cfg, s.dispatched, s.db);
    hide After, Inv, Boxed;
    if cfg.outboxed && IsCommitted(s.db.streams, e) && e !in Unboxed(cfg, s.db.log) {
      var i := LoggedSomewhere(s.db.log, e.metadata.aggregate, e);
      assert s.db.log[i] in s.db.log;
      assert Boxed(cfg, s.db.log[i]);
    }
    forall i | 0 <= i < |s.db.log| && e in s.db.log[i].events && !Boxed(cfg, s.db.log[i]) ensures e in Unboxed(cfg, s.db.log) {
      assert s.db.log[i] in s.db.log;
    }
  }

  // --- The retry bound ---

  /** What one action submits. */
  function Submits(a: Action): set<(nat, Command)> {
    match a
    case StartCommand(t, cmd) => {(t, cmd)}
    case Dispatch(t, cmd) => {(t, cmd)}
    case _ => {}
  }

  /** The commands submitted by a schedule, with the execution each was given to. */
  function Submitted(schedule: seq<Action>): set<(nat, Command)> {
    if schedule == [] then {}
    else
      Submitted(schedule[..|schedule| - 1]) + Submits(schedule[|schedule| - 1])
  }

  /** The executions that were ever given a command for one aggregate. */
  function Contenders(schedule: seq<Action>, k: Key): set<nat> {
    set s | s in Submitted(schedule) && s.1.target == k :: s.0
  }

  ghost predicate WorksFrom(sub: set<(nat, Command)>, t: nat, works: seq<Work>) {
    forall i :: 0 <= i < |works| ==> (t, works[i].batch.cmd) in sub && works[i].batch.owner == t
  }

  ghost predicate JobFrom(sub: set<(nat, Command)>, t: nat, job: Job) {
    job.Implicit? ==> (t, job.cmd) in sub
  }

  ghost predicate ThreadFrom(sub: set<(nat, Command)>, t: nat, th: Thread) {
    match th
    case Checking(job, works, cmd) => (t, cmd) in sub && JobFrom(sub, t, job) && WorksFrom(sub, t, works)
    case Loading(job, works, cmd) => (t, cmd) in sub && JobFrom(sub, t, job) && WorksFrom(sub, t, works)
    case Based(job, works, cmd, _) => (t, cmd) in sub && JobFrom(sub, t, job) && WorksFrom(sub, t, works)
    case Deciding(job, works, cmd, _, _) => (t, cmd) in sub && JobFrom(sub, t, job) && WorksFrom(sub, t, works)
    case Ready(job, works) => JobFrom(sub, t, job) && WorksFrom(sub, t, works)
    case Committed(job, _, _, _) => JobFrom(sub, t, job)
    case Relaying(_, _) => true
    case Ended(job, _) => JobFrom(sub, t, job)
  }

  ghost predicate AllFrom(sub: set<(nat, Command)>, s: Sys) {
    && (forall t :: t in s.threads ==> ThreadFrom(sub, t, s.threads[t]))
    && (forall i :: 0 <= i < |s.db.log| ==> (s.db.log[i].owner, s.db.log[i].cmd) in sub)
  }

  /** A step that changes no log needs only its own thread checked. */
  lemma ThreadsFromStep(sub: set<(nat, Command)>, sub': set<(nat, Command)>, s: Sys, s': Sys, t: nat)
    requires AllFrom(sub, s) && sub <= sub' && s'.db.log == s.db.log
    requires t in s'.threads && s'.threads == s.threads[t := s'.threads[t]] && ThreadFrom(sub', t, s'.threads[t])
    ensures AllFrom(sub', s')
  {
  }

  lemma CommitFrom(cfg: Config, sub: set<(nat, Command)>, s: Sys, t: nat)
    requires Inv(cfg, s) && AllFrom(sub, s)
    ensures AllFrom(sub, CommitStep(cfg, s, t))
  {
    hide *;
    if t in s.threads && s.threads[t].Ready? {
      ReadyFrom(sub, s, t);
      CommitThread(cfg, s, t);
      var outcome := Commit(cfg, s.db, s.threads[t].works);
      if outcome.Ok? {
        EngineHistory.CommitLog(cfg, s, t);
        BatchesFrom(sub, s, CommitStep(cfg, s, t), t, s.threads[t].works);
      } else {
        ThreadsFromStep(sub, sub, s, CommitStep(cfg, s, t), t);
      }
    } else {
      EngineHistory.IdleCommit(cfg, s, t);
    }
  }

  lemma ReadyFrom(sub: set<(nat, Command)>, s: Sys, t: nat)
    requires AllFrom(sub, s) && t in s.threads && s.threads[t].Ready?
    ensures JobFrom(sub, t, s.threads[t].job) && WorksFrom(sub, t, s.threads[t].works)
  {
    assert ThreadFrom(sub, t, s.threads[t]);
  }

  lemma CommitThread(cfg: Config, s: Sys, t: nat)
    requires t in s.threads && s.threads[t].Ready?
    ensures var s' := CommitStep(cfg, s, t);
      var outcome := Commit(cfg, s.db, s.threads[t].works);
      && t in s'.threads && s'.threads == s.threads[t := s'.threads[t]]
      && s'.db.log == (if outcome.Ok? then outcome.db.log else s.db.log)
      && forall sub :: JobFrom(sub, t, s.threads[t].job) ==> ThreadFrom(sub, t, s'.threads[t])
  {
    hide Commit;
  }

  lemma BatchesFrom(sub: set<(nat, Command)>, s: Sys, s': Sys, t: nat, works: seq<Work>)
    requires AllFrom(sub, s) && WorksFrom(sub, t, works)
    requires t in s'.threads && s'.threads == s.threads[t := s'.threads[t]] && ThreadFrom(sub, t, s'.threads[t])
    requires s'.db.log == s.db.log + EngineCommit.UnitBatches(works)
    ensures AllFrom(sub, s')
  {
    hide ThreadFrom;
    var n := |s.db.log|;
    assert forall i :: n <= i < |s'.db.log| ==> s'.db.log[i] == works[i - n].batch;
  }

  lemma SubmittingFrom(cfg: Config, sub: set<(nat, Command)>, s: Sys, a: Action)
    requires AllFrom(sub, s) && (a.StartCommand? || a.Dispatch? || a.StartUnit? || a.StartRelay?)
    ensures AllFrom(sub + Submits(a), Step(cfg, s, a))
  {
    var s' := Step(cfg, s, a);
    if s' != s {
      ThreadsFromStep(sub, sub + Submits(a), s, s', a.t);
    }
  }

  lemma RunningFrom(cfg: Config, sub: set<(nat, Command)>, s: Sys, a: Action)
    requires AllFrom(sub, s) && (a.CheckDuplicate? || a.LoadSnapshot? || a.LoadEvents? || a.Decide? || a.FailCommand?)
    ensures AllFrom(sub, Step(cfg, s, a))
  {
    hide Issue, Fresh, Boxed, Replay, LoadState, Enrich;
    var s' := Step(cfg, s, a);
    if s' != s {
      ThreadsFromStep(sub, sub, s, s', a.t);
    }
  }

  lemma FinishingFrom(cfg: Config, sub: set<(nat, Command)>, s: Sys, a: Action)
    requires AllFrom(sub, s) && (a.SaveSnapshot? || a.Publish? || a.MarkPublished? || a.Abort?)
    ensures AllFrom(sub, Step(cfg, s, a))
  {
    var s' := Step(cfg, s, a);
    if s' != s {
      ThreadsFromStep(sub, sub, s, s', a.t);
    }
  }

  lemma RelayingFrom(cfg: Config, sub: set<(nat, Command)>, s: Sys, a: Action)
    requires AllFrom(sub, s) && (a.RelayLoad? || a.RelayDispatch? || a.RelayMark? || a.RelaySkip? || a.Purge?)
    ensures AllFrom(sub, Step(cfg, s, a))
  {
    var s' := Step(cfg, s, a);
    if s' != s && !a.Purge? {
      ThreadsFromStep(sub, sub, s, s', a.t);
    }
  }

  lemma StepFrom(cfg: Config, sub: set<(nat, Command)>, s: Sys, a: Action)
    requires Inv(cfg, s) && AllFrom(sub, s)
    ensures AllFrom(sub + Submits(a), Step(cfg, s, a))
  {
    hide Inv, AllFrom, Step;
    assert !(a.StartCommand? || a.Dispatch?) ==> sub + Submits(a) == sub;
    match a
    case StartCommand(_, _) => SubmittingFrom(cfg, sub, s, a);
    case Dispatch(_, _) => SubmittingFrom(cfg, sub, s, a);
    case StartUnit(_) => SubmittingFrom(cfg, sub, s, a);
    case StartRelay(_) => SubmittingFrom(cfg, sub, s, a);
    case CommitUnit(t) => CommitActionFrom(cfg, sub, s, t);
    case SaveSnapshot(_, _) => FinishingFrom(cfg, sub, s, a);
    case Publish(_) => FinishingFrom(cfg, sub, s, a);
    case MarkPublished(_, _) => FinishingFrom(cfg, sub, s, a);
    case Abort(_) => FinishingFrom(cfg, sub, s, a);
    case CheckDuplicate(_) => RunningFrom(cfg, sub, s, a);
    case LoadSnapshot(_) => RunningFrom(cfg, sub, s, a);
    case LoadEvents(_) => RunningFrom(cfg, sub, s, a);
    case Decide(_, _, _, _, _) => RunningFrom(cfg, sub, s, a);
    case FailCommand(_) => RunningFrom(cfg, sub, s, a);
    case _ => RelayingFrom(cfg, sub, s, a);
  }

  lemma CommitActionFrom(cfg: Config, sub: set<(nat, Command)>, s: Sys, t: nat)
    requires Inv(cfg, s) && AllFrom(sub, s)
    ensures AllFrom(sub, Step(cfg, s, CommitUnit(t)))
  {
    hide Inv, AllFrom, CommitStep;
    CommitFrom(cfg, sub, s, t);
  }

  /** Every saved batch and every running command was submitted. */
  lemma {:induction false} EverythingSubmitted(cfg: Config, schedule: seq<Action>)
    ensures AllFrom(Submitted(schedule), After(cfg, schedule))
  {
    if schedule != [] {
      var front := schedule[..|schedule| - 1];
      EverythingSubmitted(cfg, front);
      Invariant(cfg, front);
      hide Inv;
      StepFrom(cfg, Submitted(front), After(cfg, front), schedule[|schedule| - 1]);
    }
  }

  /**
   * An implicit command ends in a ConcurrencyError only after more than `maxRetries` other
   * executions saved events on its aggregate: each failed attempt is paid for by a
   * distinct one.
   */
  lemma FailedAttemptsArePaidFor(cfg: Config, schedule: seq<Action>, t: nat)
    requires var s := After(cfg, schedule);
      t in s.threads && s.threads[t].Ended? && s.threads[t].job.Implicit? && s.threads[t].result == ConcurrencyFailure
    ensures var s := After(cfg, schedule);
      var others := Owners(s.db.log, s.threads[t].job.cmd.target);
      t !in others && |others| > cfg.maxRetries
  {
    hide *;
    Invariant(cfg, schedule);
    EndedPaid(cfg, After(cfg, schedule), t);
  }

  lemma EndedPaid(cfg: Config, s: Sys, t: nat)
    requires Inv(cfg, s) && t in s.threads && s.threads[t].Ended? && s.threads[t].job.Implicit?
    requires s.threads[t].result == ConcurrencyFailure
    ensures var others := Owners(s.db.log, s.threads[t].job.cmd.target);
      t !in others && |others| > cfg.maxRetries
  {
    hide GoodDb, RunningOk, OpenOk, SavesOnce, WorksOk, SnapshotValid;
    assert ThreadOk(cfg, s, t, s.threads[t]);
    hide Inv;
  }

  /**
   * The retry bound: if no more than `maxRetries + 1` executions are ever given a command
   * for an aggregate, none of them ends in a ConcurrencyError, in any schedule.
   */
  lemma EnoughRetriesNeverConflict(cfg: Config, schedule: seq<Action>, k: Key, t: nat)
    requires |Contenders(schedule, k)| <= cfg.maxRetries + 1
    requires var s := After(cfg, schedule);
      t in s.threads && s.threads[t].Ended? && s.threads[t].job.Implicit? && s.threads[t].job.cmd.target == k
    ensures After(cfg, schedule).threads[t].result != ConcurrencyFailure
  {
    var s := After(cfg, schedule);
    if s.threads[t].result == ConcurrencyFailure {
      FailedAttemptsArePaidFor(cfg, schedule, t);
      EverythingSubmitted(cfg, schedule);
      assert ThreadFrom(Submitted(schedule), t, s.threads[t]);
      var others := Owners(s.db.log, k);
      forall o | o in others ensures o in Contenders(schedule, k) {
        var b :| b in s.db.log && b.cmd.target == k && b.owner == o;
        var i :| 0 <= i < |s.db.log| && s.db.log[i] == b;
        assert (o, b.cmd) in Submitted(schedule);
      }
      assert (t, s.threads[t].job.cmd) in Submitted(schedule);
      SubsetSize(others + {t}, Contenders(schedule, k));
    }
  }

  // --- Schema evolution ---

  /** In every reachable state every stored event carries the tag of the deployment that wrote it. */
  lemma StoredUnderItsDeployment(cfg: Config, schedule: seq<Action>, k: Key, i: nat)
    requires i < |Stream(After(cfg, schedule).db.streams, k)|
    ensures WrittenUnder(Stream(After(cfg, schedule).db.streams, k)[i], AggregateOf(cfg, k).upcasters)
  {
    Invariant(cfg, schedule);
    assert Enriched(AggregateOf(cfg, k), k, 0, Stream(After(cfg, schedule).db.streams, k));
  }

  /** A stored event as a later deployment should see it: exactly the steps added since, once each, in order. */
  function Brought(earlier: Deployment, later: Deployment, e: Event): Event {
    e.(payload := ApplySteps(AddedSteps(earlier, later, e.name), e.payload))
  }

  function BroughtRaws(earlier: Deployment, later: Deployment, events: seq<Event>): (r: seq<RawEvent>)
    ensures |r| == |events|
    ensures forall i :: 0 <= i < |r| ==> r[i] == Raw(Brought(earlier, later, events[i]))
  {
    seq(|events|, i requires 0 <= i < |events| => Raw(Brought(earlier, later, events[i])))
  }

  /**
   * What any schedule stored under one definition of an aggregate, a later definition that
   * only adds to the upcaster chains loads with exactly the added steps applied; and its
   * state is the record of just those events.
   */
  lemma LoadedByALaterDefinition(cfg: Config, schedule: seq<Action>, k: Key, later: Aggregate, record: seq<RawEvent> -> State)
    requires OnlyAdds(AggregateOf(cfg, k).upcasters, later.upcasters) && Tracks(later, record)
    ensures var stream := Stream(After(cfg, schedule).db.streams, k);
      var d := AggregateOf(cfg, k).upcasters;
      && LoadedRaws(stream, later.upcasters) == BroughtRaws(d, later.upcasters, stream)
      && StateOf(later, stream) == Recorded(later, record, BroughtRaws(d, later.upcasters, stream))
  {
    var stream := Stream(After(cfg, schedule).db.streams, k);
    var d := AggregateOf(cfg, k).upcasters;
    forall i | 0 <= i < |stream| ensures Loaded(stream[i], later.upcasters) == Brought(d, later.upcasters, stream[i]) {
      StoredUnderItsDeployment(cfg, schedule, k, i);
      LoadAddsSteps(d, later.upcasters, stream[i]);
    }
    hide Loaded, Brought, StateOf, After, Stream, Tracks, Recorded, OnlyAdds;
    StateFollowsRecord(later, record, stream);
  }

  /**
   * The same for a rebuild: run under later definitions, with their upcaster maps, it
   * replays every stored event with exactly the steps its aggregate has added since.
   */
  lemma RebuiltByLaterDefinitions(cfg: Config, schedule: seq<Action>, order: seq<Key>, later: Config,
                                  upcasters: Rebuilding.AggregateUpcasters, n: nat)
    requires UpcastersOf(later, upcasters)
    requires forall name: string :: OnlyAdds(cfg.aggregates(name).upcasters, later.aggregates(name).upcasters)
    requires n < |ReadAll(After(cfg, schedule).db.streams, order)|
    ensures var e := ReadAll(After(cfg, schedule).db.streams, order)[n];
      var name := e.metadata.aggregate.name;
      Rebuilding.UpcastLog(ReadAll(After(cfg, schedule).db.streams, order), upcasters)[n]
      == Brought(cfg.aggregates(name).upcasters, later.aggregates(name).upcasters, e)
  {
    var streams := After(cfg, schedule).db.streams;
    var e := ReadAll(streams, order)[n];
    var k := ReadAllFromStreams(streams, order, e);
    var i :| 0 <= i < |Stream(streams, k)| && Stream(streams, k)[i] == e;
    StoredUnderItsDeployment(cfg, schedule, k, i);
    SequenceNumbers(cfg, schedule, k, i);
    var d, d' := cfg.aggregates(k.name).upcasters, later.aggregates(k.name).upcasters;
    hide After, ReadAll, Stream;
    LoadAddsSteps(d, d', e);
    UpcastOneIsLoad(later, upcasters, e);
  }

  lemma UpcastOneIsLoad(cfg: Config, upcasters: Rebuilding.AggregateUpcasters, e: Event)
    requires UpcastersOf(cfg, upcasters)
    ensures Rebuilding.UpcastOne(e, upcasters) == Loaded(e, cfg.aggregates(e.metadata.aggregate.name).upcasters)
  {
  }

  // --- Rebuild equals live ---

  lemma {:induction false} LogEventsOfStream(cfg: Config, log: seq<Batch>, k: Key)
    requires forall i, e :: 0 <= i < |log| && e in log[i].events ==> e.metadata.aggregate == log[i].cmd.target
    ensures Filter(OfStream(k), LogEvents(log)) == LogStream(log, k)
  {
    if log != [] {
      var front, last := log[..|log| - 1], log[|log| - 1];
      LogEventsOfStream(cfg, front, k);
      FilterAppend(OfStream(k), LogEvents(front), last.events);
      assert log[|log| - 1] == last;
      if last.cmd.target == k {
        FilterAll(OfStream(k), last.events);
      } else {
        FilterNone(OfStream(k), last.events);
        assert LogStream(front, k) + [] == LogStream(front, k);
      }
    }
  }

  lemma {:induction false} ReadAllOfStream(streams: Streams, order: seq<Key>, k: Key)
    requires forall i, j :: 0 <= i < j < |order| ==> order[i] != order[j]
    requires forall j: Key, e :: e in Stream(streams, j) ==> e.metadata.aggregate == j
    ensures Filter(OfStream(k), ReadAll(streams, order)) == if k in order then Stream(streams, k) else []
  {
    hide *;
    if order == [] {
      NothingRead(streams, k);
    } else {
      var front, last := order[..|order| - 1], order[|order| - 1];
      assert order == front + [last];
      ReadAllOfStream(streams, front, k);
      OneMoreRead(streams, front, last, k);
    }
  }

  lemma OneMoreRead(streams: Streams, front: seq<Key>, last: Key, k: Key)
    requires last !in front
    requires forall e :: e in Stream(streams, last) ==> e.metadata.aggregate == last
    requires Filter(OfStream(k), ReadAll(streams, front)) == if k in front then Stream(streams, k) else []
    ensures Filter(OfStream(k), ReadAll(streams, front + [last])) == if k in front + [last] then Stream(streams, k) else []
  {
    hide *;
    ReadAllStep(streams, front, last);
    FilterAppend(OfStream(k), ReadAll(streams, front), Stream(streams, last));
    OneStream(streams, last, k);
    assert Stream(streams, k) + [] == Stream(streams, k);
  }

  lemma NothingRead(streams: Streams, k: Key)
    ensures Filter(OfStream(k), ReadAll(streams, [])) == []
  {
  }

  lemma OneStream(streams: Streams, j: Key, k: Key)
    requires forall e :: e in Stream(streams, j) ==> e.metadata.aggregate == j
    ensures Filter(OfStream(k), Stream(streams, j)) == if j == k then Stream(streams, j) else []
  {
    if j == k {
      FilterAll(OfStream(k), Stream(streams, j));
    } else {
      FilterNone(OfStream(k), Stream(streams, j));
    }
  }

  /** The upcaster map of each aggregate, as a rebuild resolves them. */
  ghost predicate UpcastersOf(cfg: Config, upcasters: Rebuilding.AggregateUpcasters) {
    forall name: string ::
      match cfg.aggregates(name).upcasters
      case None => name !in upcasters
      case Some(u) => name in upcasters && upcasters[name] == u
  }

  lemma {:induction false} ReadAllFromStreams(streams: Streams, order: seq<Key>, e: Event) returns (k: Key)
    requires e in ReadAll(streams, order)
    ensures e in Stream(streams, k)
  {
    if e in ReadAll(streams, order[..|order| - 1]) {
      k := ReadAllFromStreams(streams, order[..|order| - 1], e);
    } else {
      k := order[|order| - 1];
    }
  }

  /** Under the definitions that wrote the events, a rebuild upcasts nothing. */
  lemma RebuildUpcastsNothing(cfg: Config, streams: Streams, upcasters: Rebuilding.AggregateUpcasters, order: seq<Key>)
    requires forall k: Key :: Enriched(AggregateOf(cfg, k), k, 0, Stream(streams, k))
    requires UpcastersOf(cfg, upcasters)
    ensures Rebuilding.UpcastLog(ReadAll(streams, order), upcasters) == ReadAll(streams, order)
  {
    var log := ReadAll(streams, order);
    forall n | 0 <= n < |log| ensures Rebuilding.UpcastOne(log[n], upcasters) == log[n] {
      var e := log[n];
      var k := ReadAllFromStreams(streams, order, e);
      var i :| 0 <= i < |Stream(streams, k)| && Stream(streams, k)[i] == e;
      assert e.metadata.aggregate == k && e.metadata.version == SchemaVersion(AggregateOf(cfg, k), e.name);
    }
  }

  /**
   * Rebuild equals live: in every reachable state, for a projection each of whose views is
   * fed by one aggregate, replaying the stored streams one after another in any order
   * gives the view store that live delivery in commit order gives.
   */
  lemma {:induction false} RebuildEqualsLive(cfg: Config, schedule: seq<Action>, p: Projection, feed: ViewId -> Key,
                          order: seq<Key>, upcasters: Rebuilding.AggregateUpcasters)
    requires var db := After(cfg, schedule).db;
      && SingleFeed(p, feed, LogEvents(db.log))
      && (forall k :: k in order <==> k in db.streams)
      && (forall i, j :: 0 <= i < j < |order| ==> order[i] != order[j])
    requires UpcastersOf(cfg, upcasters)
    ensures var db := After(cfg, schedule).db;
      Project(p, map[], Rebuilding.UpcastLog(ReadAll(db.streams, order), upcasters)) == Project(p, map[], LogEvents(db.log))
  {
    Invariant(cfg, schedule);
    var db := After(cfg, schedule).db;
    var replayed, live := ReadAll(db.streams, order), LogEvents(db.log);
    assert StreamsOk(cfg, db);
    hide GoodDb, ThreadOk;
    RebuildUpcastsNothing(cfg, db.streams, upcasters, order);
    StreamEventsOwn(cfg, db);
    forall k: Key ensures Filter(OfStream(k), replayed) == Filter(OfStream(k), live) {
      ReadAllOfStream(db.streams, order, k);
      LogEventsOfStream(cfg, db.log, k);
    }
    forall e | e in replayed && e.name in p.on ensures feed(p.on[e.name].id(e)) == e.metadata.aggregate {
      assert e in Filter(OfStream(e.metadata.aggregate), replayed);
      assert e in live;
    }
    DeliveryOrderIrrelevant(p, feed, replayed, live);
  }

  lemma StreamEventsOwn(cfg: Config, db: Database)
    requires StreamsOk(cfg, db)
    ensures forall k: Key, e :: e in Stream(db.streams, k) ==> e.metadata.aggregate == k
    ensures forall i, e :: 0 <= i < |db.log| && e in db.log[i].events ==> e.metadata.aggregate == db.log[i].cmd.target
  {
    forall k: Key, e | e in Stream(db.streams, k) ensures e.metadata.aggregate == k {
      assert Enriched(AggregateOf(cfg, k), k, 0, Stream(db.streams, k));
    }
    forall i, e | 0 <= i < |db.log| && e in db.log[i].events ensures e.metadata.aggregate == db.log[i].cmd.target {
      InLogStream(db.log, i, e);
      assert e in Stream(db.streams, db.log[i].cmd.target);
    }
  }
}
