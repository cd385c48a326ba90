/** Every step keeps the invariant. */
module EngineSteps {
  import opened Types
  import opened Upcaster
  import opened EventStore
  import opened Engine
  import opened EngineInvariant
  import opened EngineCommit

  // --- Folding state ---

  lemma {:induction false} ReplayAppend(agg: Aggregate, s: State, a: seq<RawEvent>, b: seq<RawEvent>)
    ensures Replay(agg, s, a + b) == Replay(agg, Replay(agg, s, a), b)
  {
    if b == [] {
      assert a + b == a;
    } else {
      assert (a + b)[..|a + b| - 1] == a + b[..|b| - 1];
      ReplayAppend(agg, s, a, b[..|b| - 1]);
    }
  }

  lemma StateFromAppend(agg: Aggregate, s: State, a: seq<Event>, b: seq<Event>)
    ensures StateFrom(agg, s, a + b) == StateFrom(agg, StateFrom(agg, s, a), b)
  {
    UpcastedAppend(agg, a, b);
    RawsAppend(Upcasted(agg, a), Upcasted(agg, b));
    ReplayAppend(agg, s, Raws(Upcasted(agg, a)), Raws(Upcasted(agg, b)));
    hide Raws, Upcasted, Replay;
  }

  lemma RawsAppend(a: seq<Event>, b: seq<Event>)
    ensures Raws(a + b) == Raws(a) + Raws(b)
  {
  }

  lemma UpcastedAppend(agg: Aggregate, a: seq<Event>, b: seq<Event>)
    ensures Upcasted(agg, a + b) == Upcasted(agg, a) + Upcasted(agg, b)
  {
    hide Upcast;
  }

  /** Events written under the current definition are not upcast. */
  lemma EnrichedAreCurrent(agg: Aggregate, k: Key, start: nat, events: seq<Event>)
    requires Enriched(agg, k, start, events)
    ensures Upcasted(agg, events) == events
  {
    if agg.upcasters.Some? {
      forall e | e in events ensures UpToDate(e, agg.upcasters.value) {
        var i :| 0 <= i < |events| && events[i] == e;
      }
      CurrentEventsAreFixedPoints(events, agg.upcasters.value);
    }
  }

  /** A valid snapshot plus the events after it is the whole stream: same state, same version. */
  lemma SnapshotTransparent(cfg: Config, db: Database, k: Key, snap: Snapshot)
    requires SnapshotValid(cfg, db.streams, k, snap)
    ensures LoadState(cfg, db, k, Some(snap)) == LoadState(cfg, db, k, None)
  {
    hide StateFrom;
    var stream := Stream(db.streams, k);
    assert stream == stream[..snap.version] + stream[snap.version..];
    StateFromAppend(AggregateOf(cfg, k), AggregateOf(cfg, k).initial, stream[..snap.version], stream[snap.version..]);
  }

  // --- Steps of one command ---

  lemma StartKeepsInv(cfg: Config, s: Sys, t: nat, th: Thread)
    requires Inv(cfg, s) && t !in s.threads
    requires ThreadOk(cfg, WithThread(s, t, th), t, th)
    ensures Inv(cfg, WithThread(s, t, th))
  {
    hide GoodDb;
    QuietMoveKeepsInv(cfg, s, WithThread(s, t, th), t);
  }

  lemma StartCommandKeepsInv(cfg: Config, s: Sys, t: nat, cmd: Command)
    requires Inv(cfg, s)
    ensures Inv(cfg, StartCommandStep(s, t, cmd))
  {
    hide GoodDb, WorkOk;
    if t !in s.threads {
      StartKeepsInv(cfg, s, t, Checking(Implicit(cmd, 0), [], cmd));
    }
  }

  lemma StartUnitKeepsInv(cfg: Config, s: Sys, t: nat)
    requires Inv(cfg, s)
    ensures Inv(cfg, StartUnitStep(s, t)) && Inv(cfg, StartRelayStep(s, t))
  {
    hide GoodDb, WorkOk;
    if t !in s.threads {
      StartKeepsInv(cfg, s, t, Ready(Explicit, []));
      StartKeepsInv(cfg, s, t, Relaying([], false));
    }
  }

  lemma CheckDuplicateKeepsInv(cfg: Config, s: Sys, t: nat)
    requires Inv(cfg, s)
    ensures Inv(cfg, CheckDuplicateStep(cfg, s, t))
  {
    hide GoodDb, WorksOk;
    var s' := CheckDuplicateStep(cfg, s, t);
    if s' != s {
      QuietMoveKeepsInv(cfg, s, s', t);
    }
  }

  lemma DispatchKeepsInv(cfg: Config, s: Sys, t: nat, cmd: Command)
    requires Inv(cfg, s)
    ensures Inv(cfg, DispatchStep(s, t, cmd))
  {
    hide GoodDb, WorksOk;
    var s' := DispatchStep(s, t, cmd);
    if s' != s {
      QuietMoveKeepsInv(cfg, s, s', t);
    }
  }

  lemma FailCommandKeepsInv(cfg: Config, s: Sys, t: nat)
    requires Inv(cfg, s)
    ensures Inv(cfg, FailCommandStep(s, t))
  {
    hide GoodDb, WorksOk;
    var s' := FailCommandStep(s, t);
    if s' != s {
      QuietMoveKeepsInv(cfg, s, s', t);
    }
  }

  lemma LoadSnapshotKeepsInv(cfg: Config, s: Sys, t: nat)
    requires Inv(cfg, s)
    ensures Inv(cfg, LoadSnapshotStep(cfg, s, t))
  {
    hide StreamsOk, ViewsOk, ClaimsOk, StoredNamed, OutboxOk, DeliveryOk, WorksOk;
    var s' := LoadSnapshotStep(cfg, s, t);
    if s' != s {
      QuietMoveKeepsInv(cfg, s, s', t);
    }
  }

  lemma LoadEventsKeepsInv(cfg: Config, s: Sys, t: nat)
    requires Inv(cfg, s)
    ensures Inv(cfg, LoadEventsStep(cfg, s, t))
  {
    hide GoodDb, WorksOk;
    var s' := LoadEventsStep(cfg, s, t);
    if t in s.threads && s.threads[t].Based? {
      var k := s.threads[t].cmd.target;
      if s.threads[t].base.Some? {
        SnapshotTransparent(cfg, s.db, k, s.threads[t].base.value);
      }
      assert Stream(s.db.streams, k)[..|Stream(s.db.streams, k)|] == Stream(s.db.streams, k);
      QuietMoveKeepsInv(cfg, s, s', t);
    }
  }

  /** Freshly drawn identifiers name the events they were drawn for. */
  lemma FreshlyNamed(issued: map<nat, Event>, w: Work, ids: seq<nat>)
    requires |ids| == |w.tickets| == |w.batch.events| && Fresh(issued, ids + w.tickets)
    requires forall i :: 0 <= i < |ids| ==> w.batch.events[i].metadata.eventId == ids[i]
    ensures WorkNamed(Issue(issued, ids + w.tickets, w.batch.events + w.batch.events), w)
  {
    var names, events := ids + w.tickets, w.batch.events + w.batch.events;
    var issued' := Issue(issued, names, events);
    forall i | 0 <= i < |ids|
      ensures Named(issued', w.batch.events[i])
      ensures w.tickets[i] in issued' && issued'[w.tickets[i]] == w.batch.events[i]
    {
      assert issued'[names[i]] == events[i];
      assert names[|ids| + i] == w.tickets[i] && issued'[names[|ids| + i]] == events[|ids| + i];
    }
  }

  /** What a command enlists is justified by the prefix it loaded, and so is its snapshot. */
  lemma EnlistOk(cfg: Config, streams: Streams, t: nat, th: Thread, raws: seq<RawEvent>, ids: seq<nat>, tickets: seq<nat>,
                 takeSnapshot: bool)
    requires th.Deciding? && |ids| == |raws|
    requires SnapshotValid(cfg, streams, th.cmd.target, Snapshot(th.state, th.version))
    requires AggregateOf(cfg, th.cmd.target).decides(th.cmd, th.state, raws)
    ensures var w := Enlist(cfg, t, th, raws, ids, tickets, takeSnapshot);
      && SawPrefix(cfg, streams, w.batch)
      && Enriched(AggregateOf(cfg, th.cmd.target), th.cmd.target, th.version, w.batch.events)
      && (w.snapshot.Some? ==> SnapshotDue(cfg, streams, w.batch, w.snapshot.value))
  {
    var agg := AggregateOf(cfg, th.cmd.target);
    var events := Enlist(cfg, t, th, raws, ids, tickets, takeSnapshot).batch.events;
    assert Raws(events) == raws;
    EnrichedAreCurrent(agg, th.cmd.target, th.version, events);
    StateFromAppend(agg, agg.initial, Stream(streams, th.cmd.target)[..th.version], events);
  }

  /** Drawing new identifiers leaves what the old ones name. */
  lemma IssuedMore(cfg: Config, issued: map<nat, Event>, issued': map<nat, Event>, dispatched: set<Event>, db: Database)
    requires GoodDb(cfg, issued, dispatched, db) && Submap(issued, issued')
    ensures GoodDb(cfg, issued', dispatched, db)
  {
    hide StreamsOk, ViewsOk, ClaimsOk, SnapshotsOk, DeliveryOk;
  }

  lemma DecideKeepsInv(cfg: Config, s: Sys, t: nat, raws: seq<RawEvent>, ids: seq<nat>, tickets: seq<nat>, take: bool)
    requires Inv(cfg, s)
    ensures Inv(cfg, DecideStep(cfg, s, t, raws, ids, tickets, take))
  {
    hide *;
    var s' := DecideStep(cfg, s, t, raws, ids, tickets, take);
    if Answered(cfg, s, t, raws, ids, tickets, take) {
      DecideFacts(cfg, s, t, raws, ids, tickets, take);
      DecidedThread(cfg, s, t, raws, ids, tickets, take);
      IssuedMore(cfg, s.issued, s'.issued, s.dispatched, s.db);
      QuietMoveKeepsInv(cfg, s, s', t);
    } else {
      Unanswered(cfg, s, t, raws, ids, tickets, take);
    }
  }

  /** The handler's answer is accepted. */
  ghost predicate Answered(cfg: Config, s: Sys, t: nat, raws: seq<RawEvent>, ids: seq<nat>, tickets: seq<nat>, take: bool) {
    && t in s.threads && s.threads[t].Deciding?
    && AggregateOf(cfg, s.threads[t].cmd.target).decides(s.threads[t].cmd, s.threads[t].state, raws)
    && |ids| == |raws| && |tickets| == |raws| && Fresh(s.issued, ids + tickets)
    && (take ==> cfg.snapshotting(s.threads[t].cmd.target.name)
                 && Boxed(cfg, Enlist(cfg, t, s.threads[t], raws, ids, tickets, take).batch))
  }

  lemma Unanswered(cfg: Config, s: Sys, t: nat, raws: seq<RawEvent>, ids: seq<nat>, tickets: seq<nat>, take: bool)
    requires !Answered(cfg, s, t, raws, ids, tickets, take)
    ensures DecideStep(cfg, s, t, raws, ids, tickets, take) == s
  {
    hide Fresh, Boxed, Enlist, Issue;
  }

  lemma DecideFacts(cfg: Config, s: Sys, t: nat, raws: seq<RawEvent>, ids: seq<nat>, tickets: seq<nat>, take: bool)
    requires Inv(cfg, s) && Answered(cfg, s, t, raws, ids, tickets, take)
    ensures GoodDb(cfg, s.issued, s.dispatched, s.db) && t in s.threads
    ensures var s' := DecideStep(cfg, s, t, raws, ids, tickets, take);
      && s'.db == s.db && s'.dispatched == s.dispatched && Submap(s.issued, s'.issued)
      && t in s'.threads && s'.threads == s.threads[t := s'.threads[t]]
      && (IsImplicit(s'.threads[t]) ==> IsImplicit(s.threads[t]))
  {
    hide GoodDb, ThreadOk, Fresh, Boxed, SavesOnce;
  }

  lemma DecidedThread(cfg: Config, s: Sys, t: nat, raws: seq<RawEvent>, ids: seq<nat>, tickets: seq<nat>, take: bool)
    requires Inv(cfg, s) && Answered(cfg, s, t, raws, ids, tickets, take)
    ensures var s' := DecideStep(cfg, s, t, raws, ids, tickets, take);
      t in s'.threads && ThreadOk(cfg, s', t, s'.threads[t])
  {
    var s', th := DecideStep(cfg, s, t, raws, ids, tickets, take), s.threads[t];
    assert ThreadOk(cfg, s, t, th);
    hide Inv, GoodDb, Fresh, Boxed, WorksOk, Enlist, SnapshotValid, Issue, Charged, AllOwners;
    DecidedIssues(cfg, s, t, raws, ids, tickets, take);
    EnlistedWorkOk(cfg, s, t, raws, ids, tickets, take);
    var w := Enlist(cfg, t, th, raws, ids, tickets, take);
    WorksStable(cfg, s.db.streams, s.db.streams, s.issued, s'.issued, t, th.works);
    OneMoreWork(cfg, s.db.streams, s'.issued, t, th.works, w);
    DecidedRest(cfg, s, t, raws, ids, tickets, take);
  }

  lemma OneMoreWork(cfg: Config, streams: Streams, issued: map<nat, Event>, t: nat, works: seq<Work>, w: Work)
    requires WorksOk(cfg, streams, issued, t, works) && WorkOk(cfg, streams, issued, t, w)
    ensures WorksOk(cfg, streams, issued, t, works + [w])
  {
    hide WorkOk;
  }

  lemma DecidedIssues(cfg: Config, s: Sys, t: nat, raws: seq<RawEvent>, ids: seq<nat>, tickets: seq<nat>, take: bool)
    requires Answered(cfg, s, t, raws, ids, tickets, take)
    ensures var w := Enlist(cfg, t, s.threads[t], raws, ids, tickets, take);
      var s' := DecideStep(cfg, s, t, raws, ids, tickets, take);
      && |w.tickets| == |w.batch.events| == |ids|
      && s'.issued == Issue(s.issued, ids + tickets, w.batch.events + w.batch.events)
      && Submap(s.issued, s'.issued) && s'.db == s.db
  {
    hide Fresh, Boxed;
  }

  lemma EnlistedWorkOk(cfg: Config, s: Sys, t: nat, raws: seq<RawEvent>, ids: seq<nat>, tickets: seq<nat>, take: bool)
    requires Answered(cfg, s, t, raws, ids, tickets, take)
    requires SnapshotValid(cfg, s.db.streams, s.threads[t].cmd.target, Snapshot(s.threads[t].state, s.threads[t].version))
    ensures WorkOk(cfg, s.db.streams, DecideStep(cfg, s, t, raws, ids, tickets, take).issued, t,
                   Enlist(cfg, t, s.threads[t], raws, ids, tickets, take))
  {
    DecidedIssues(cfg, s, t, raws, ids, tickets, take);
    EnlistOk(cfg, s.db.streams, t, s.threads[t], raws, ids, tickets, take);
    hide SnapshotValid, SawPrefix, Enriched, WorkNamed, SnapshotDue, Fresh, Boxed, Issue, DecideStep;
    FreshlyNamed(s.issued, Enlist(cfg, t, s.threads[t], raws, ids, tickets, take), ids);
  }

  /** What else the thread invariant asks once the enlisted work is in order. */
  lemma DecidedRest(cfg: Config, s: Sys, t: nat, raws: seq<RawEvent>, ids: seq<nat>, tickets: seq<nat>, take: bool)
    requires Answered(cfg, s, t, raws, ids, tickets, take) && ThreadOk(cfg, s, t, s.threads[t])
    requires var w := Enlist(cfg, t, s.threads[t], raws, ids, tickets, take);
      WorksOk(cfg, s.db.streams, DecideStep(cfg, s, t, raws, ids, tickets, take).issued, t, s.threads[t].works + [w])
    ensures var s' := DecideStep(cfg, s, t, raws, ids, tickets, take);
      t in s'.threads && ThreadOk(cfg, s', t, s'.threads[t])
  {
    hide WorksOk, Fresh, Boxed, Issue, SnapshotValid, Charged, AllOwners, Replay, Enrich;
  }

  lemma CommitSavesOnce(s: Sys, s': Sys, t: nat, th: Thread)
    requires SavesOnce(s.db.log, s.threads) && AllOwners(s.db.log) <= s.threads.Keys && t !in AllOwners(s.db.log)
    requires t in s.threads && s.threads[t] == th && th.Ready? && (th.job.Implicit? ==> |th.works| == 1)
    requires forall i :: 0 <= i < |th.works| ==> th.works[i].batch.owner == t
    requires s'.db.log == s.db.log + UnitBatches(th.works)
    requires t in s'.threads && s'.threads == s.threads[t := s'.threads[t]]
    requires IsImplicit(s'.threads[t]) ==> IsImplicit(th)
    ensures SavesOnce(s'.db.log, s'.threads)
  {
    var n, log := |s.db.log|, s'.db.log;
    assert forall i :: 0 <= i < n ==> log[i] == s.db.log[i] && log[i].owner in AllOwners(s.db.log);
    assert forall i :: n <= i < |log| ==> log[i] == th.works[i - n].batch;
  }

  lemma CommitKeepsInv(cfg: Config, s: Sys, t: nat)
    requires Inv(cfg, s)
    ensures Inv(cfg, CommitStep(cfg, s, t))
  {
    if t in s.threads && s.threads[t].Ready? {
      if Commit(cfg, s.db, s.threads[t].works).Ok? {
        CommittedKeepsInv(cfg, s, t);
      } else {
        RefusedKeepsInv(cfg, s, t);
      }
    }
    hide Inv, Commit;
  }

  lemma CommittedKeepsInv(cfg: Config, s: Sys, t: nat)
    requires Inv(cfg, s) && t in s.threads && s.threads[t].Ready? && Commit(cfg, s.db, s.threads[t].works).Ok?
    ensures Inv(cfg, CommitStep(cfg, s, t))
  {
    hide GoodDb, Commit, SawPrefix, Enriched, WorkNamed, SnapshotDue;
    var s', th := CommitStep(cfg, s, t), s.threads[t];
    assert ThreadOk(cfg, s, t, th);
    CommitGood(cfg, s.issued, s.dispatched, s.db, t, th.works);
    CommitSavesOnce(s, s', t, th);
    MoveKeepsInv(cfg, s, s', t);
  }

  lemma RefusedKeepsInv(cfg: Config, s: Sys, t: nat)
    requires Inv(cfg, s) && t in s.threads && s.threads[t].Ready? && !Commit(cfg, s.db, s.threads[t].works).Ok?
    ensures Inv(cfg, CommitStep(cfg, s, t))
  {
    hide StreamsOk, ClaimsOk, SnapshotsOk, StoredNamed, OutboxOk, DeliveryOk, Commit, SawPrefix, Enriched, WorkNamed, SnapshotDue;
    var s', th := CommitStep(cfg, s, t), s.threads[t];
    assert ThreadOk(cfg, s, t, th);
    if Commit(cfg, s.db, th.works).ConcurrencyError? && th.job.Implicit? {
      ConflictMeansMoved(cfg, s.issued, s.db, t, th.works);
    }
    QuietMoveKeepsInv(cfg, s, s', t);
  }

  // --- After the commit ---

  lemma SnapshotKeepsInv(cfg: Config, s: Sys, t: nat, saved: bool)
    requires Inv(cfg, s)
    ensures Inv(cfg, SnapshotStep(s, t, saved))
  {
    hide StreamsOk, ViewsOk, ClaimsOk, StoredNamed, OutboxOk, DeliveryOk;
    var s' := SnapshotStep(s, t, saved);
    if t in s.threads && s.threads[t].Committed? && s.threads[t].snapshots != [] {
      assert ThreadOk(cfg, s, t, s.threads[t]);
      SameButSnapshots(cfg, s.issued, s.dispatched, s.db, s'.db);
      QuietMoveKeepsInv(cfg, s, s', t);
    }
  }

  lemma SameButSnapshots(cfg: Config, issued: map<nat, Event>, dispatched: set<Event>, db: Database, db': Database)
    requires GoodDb(cfg, issued, dispatched, db)
    requires db' == db.(snapshots := db'.snapshots) && SnapshotsOk(cfg, db')
    ensures GoodDb(cfg, issued, dispatched, db')
  {
  }

  /** Delivering a committed event keeps every account of events straight. */
  lemma DispatchedMore(cfg: Config, issued: map<nat, Event>, dispatched: set<Event>, db: Database, e: Event)
    requires GoodDb(cfg, issued, dispatched, db) && IsCommitted(db.streams, e)
    ensures GoodDb(cfg, issued, dispatched + {e}, db)
  {
    hide StreamsOk, ViewsOk, ClaimsOk, SnapshotsOk, StoredNamed, Boxed, Unboxed;
    if cfg.outboxed {
      forall i, x | 0 <= i < |db.log| && Boxed(cfg, db.log[i]) && x in db.log[i].events
        ensures Accounted(dispatched + {e}, db.outbox, x)
      {
        assert Accounted(dispatched, db.outbox, x);
      }
    }
  }

  lemma PublishKeepsInv(cfg: Config, s: Sys, t: nat)
    requires Inv(cfg, s)
    ensures Inv(cfg, PublishStep(s, t))
  {
    hide GoodDb;
    var s' := PublishStep(s, t);
    if t in s.threads && s.threads[t].Committed? && s'.threads[t] != s.threads[t] {
      var th := s.threads[t];
      assert ThreadOk(cfg, s, t, th);
      DispatchedMore(cfg, s.issued, s.dispatched, s.db, th.events[th.next]);
      QuietMoveKeepsInv(cfg, s, s', t);
    }
  }

  /** An outbox in which some dispatched events were marked, or published entries dropped. */
  ghost predicate Settles(dispatched: set<Event>, outbox: map<nat, Entry>, outbox': map<nat, Entry>) {
    && (forall x :: x in outbox' ==> x in outbox && outbox'[x].event == outbox[x].event)
    && (forall x :: x in outbox' && outbox'[x].published ==> outbox[x].published || outbox[x].event in dispatched)
    && (forall x :: x in outbox && !outbox[x].published && outbox[x].event !in dispatched ==> x in outbox' && outbox'[x] == outbox[x])
  }

  lemma SameButOutbox(cfg: Config, db: Database, outbox': map<nat, Entry>)
    ensures StreamsOk(cfg, db) ==> StreamsOk(cfg, db.(outbox := outbox'))
    ensures ViewsOk(cfg, db) ==> ViewsOk(cfg, db.(outbox := outbox'))
    ensures ClaimsOk(cfg, db) ==> ClaimsOk(cfg, db.(outbox := outbox'))
    ensures SnapshotsOk(cfg, db) ==> SnapshotsOk(cfg, db.(outbox := outbox'))
  {
  }

  lemma SettledOutbox(cfg: Config, issued: map<nat, Event>, dispatched: set<Event>, db: Database, outbox': map<nat, Entry>)
    requires GoodDb(cfg, issued, dispatched, db) && Settles(dispatched, db.outbox, outbox')
    ensures GoodDb(cfg, issued, dispatched, db.(outbox := outbox'))
  {
    SameButOutbox(cfg, db, outbox');
    hide StreamsOk, ViewsOk, ClaimsOk, SnapshotsOk, StoredNamed, Boxed, Unboxed;
    if cfg.outboxed {
      forall i, e | 0 <= i < |db.log| && Boxed(cfg, db.log[i]) && e in db.log[i].events
        ensures Accounted(dispatched, outbox', e)
      {
        assert Accounted(dispatched, db.outbox, e);
        if e !in dispatched {
          var x :| x in db.outbox && db.outbox[x] == Entry(e, false);
          assert outbox'[x] == Entry(e, false);
        }
      }
    }
  }

  lemma MarkPublishedKeepsInv(cfg: Config, s: Sys, t: nat, marked: bool)
    requires Inv(cfg, s)
    ensures Inv(cfg, MarkPublishedStep(s, t, marked))
  {
    var s' := MarkPublishedStep(s, t, marked);
    if t in s.threads && s.threads[t].Committed? && s'.threads[t] != s.threads[t] {
      var th := s.threads[t];
      MarkingSettles(cfg, s, t);
      hide GoodDb;
      if marked {
        SettledOutbox(cfg, s.issued, s.dispatched, s.db, s'.db.outbox);
      }
      QuietMoveKeepsInv(cfg, s, s', t);
    }
  }

  /** Marking by event id touches only entries of published events: ids name one event each. */
  lemma MarkingSettles(cfg: Config, s: Sys, t: nat)
    requires Inv(cfg, s) && t in s.threads && s.threads[t].Committed? && s.threads[t].next == |s.threads[t].events|
    ensures Settles(s.dispatched, s.db.outbox, MarkByEventId(s.db.outbox, EventIds(s.threads[t].events)))
  {
    hide StreamsOk, ViewsOk, ClaimsOk, SnapshotsOk, DeliveryOk;
    var events := s.threads[t].events;
    assert ThreadOk(cfg, s, t, s.threads[t]);
    forall x | x in s.db.outbox && s.db.outbox[x].event.metadata.eventId in EventIds(events)
      ensures s.db.outbox[x].event in s.dispatched
    {
      var e := s.db.outbox[x].event;
      var i :| 0 <= i < |events| && events[i].metadata.eventId == e.metadata.eventId;
      CommittedNamed(s.issued, s.db.streams, e);
      CommittedNamed(s.issued, s.db.streams, events[i]);
    }
  }

  lemma CommittedNamed(issued: map<nat, Event>, streams: Streams, e: Event)
    requires StoredNamed(issued, streams) && IsCommitted(streams, e)
    ensures Named(issued, e)
  {
    var i := e.metadata.sequenceNumber - 1;
    assert Named(issued, Stream(streams, e.metadata.aggregate)[i]);
  }

  // --- The relay ---

  lemma RelayLoadKeepsInv(cfg: Config, s: Sys, t: nat, picked: seq<nat>)
    requires Inv(cfg, s)
    ensures Inv(cfg, RelayLoadStep(s, t, picked))
  {
    hide StreamsOk, ViewsOk, ClaimsOk, SnapshotsOk, StoredNamed, DeliveryOk;
    var s' := RelayLoadStep(s, t, picked);
    if t in s.threads && s'.threads[t] != s.threads[t] {
      forall i | 0 <= i < |picked| ensures Unpublished(s.db.outbox, picked[i]) {
      }
      QuietMoveKeepsInv(cfg, s, s', t);
    }
  }

  lemma RelayDispatchKeepsInv(cfg: Config, s: Sys, t: nat)
    requires Inv(cfg, s)
    ensures Inv(cfg, RelayDispatchStep(s, t))
  {
    hide GoodDb;
    var s' := RelayDispatchStep(s, t);
    if t in s.threads && s.threads[t].Relaying? && s.threads[t].batch != [] {
      assert ThreadOk(cfg, s, t, s.threads[t]);
      DispatchedMore(cfg, s.issued, s.dispatched, s.db, s.threads[t].batch[0].1);
      QuietMoveKeepsInv(cfg, s, s', t);
    }
  }

  lemma RelayMarkKeepsInv(cfg: Config, s: Sys, t: nat)
    requires Inv(cfg, s)
    ensures Inv(cfg, RelayMarkStep(s, t))
  {
    var s' := RelayMarkStep(s, t);
    if t in s.threads && s.threads[t].Relaying? && s.threads[t].batch != [] && s.threads[t].sent {
      assert ThreadOk(cfg, s, t, s.threads[t]);
      RelayMarkSettles(cfg, s, t);
      hide GoodDb, Settles;
      SettledOutbox(cfg, s.issued, s.dispatched, s.db, s'.db.outbox);
      QuietMoveKeepsInv(cfg, s, s', t);
    }
  }

  lemma RelayMarkSettles(cfg: Config, s: Sys, t: nat)
    requires Inv(cfg, s) && t in s.threads && s.threads[t].Relaying? && s.threads[t].batch != [] && s.threads[t].sent
    ensures Settles(s.dispatched, s.db.outbox, RelayMarkStep(s, t).db.outbox)
  {
    assert ThreadOk(cfg, s, t, s.threads[t]);
    assert OutboxOk(cfg, s.issued, s.dispatched, s.db);
    hide *;
    SentEntry(cfg, s, t);
    RelayMarked(s, t);
    MarkedSettles(s.dispatched, s.db.outbox, s.threads[t].batch[0].0);
  }

  /** The entry a relay is about to mark holds the event it dispatched. */
  lemma SentEntry(cfg: Config, s: Sys, t: nat)
    requires t in s.threads && s.threads[t].Relaying? && s.threads[t].batch != [] && s.threads[t].sent
    requires ThreadOk(cfg, s, t, s.threads[t]) && OutboxOk(cfg, s.issued, s.dispatched, s.db)
    ensures var x := s.threads[t].batch[0].0; x in s.db.outbox ==> s.db.outbox[x].event in s.dispatched
  {
    hide IsCommitted, Unboxed;
  }

  lemma RelayMarked(s: Sys, t: nat)
    requires t in s.threads && s.threads[t].Relaying? && s.threads[t].batch != [] && s.threads[t].sent
    ensures RelayMarkStep(s, t).db.outbox == MarkById(s.db.outbox, s.threads[t].batch[0].0)
  {
    hide MarkById;
  }

  lemma MarkedSettles(dispatched: set<Event>, outbox: map<nat, Entry>, x: nat)
    requires x in outbox ==> outbox[x].event in dispatched
    ensures Settles(dispatched, outbox, MarkById(outbox, x))
  {
  }

  lemma RelaySkipKeepsInv(cfg: Config, s: Sys, t: nat)
    requires Inv(cfg, s)
    ensures Inv(cfg, RelaySkipStep(s, t))
  {
    hide GoodDb;
    var s' := RelaySkipStep(s, t);
    if t in s.threads && s.threads[t].Relaying? && s.threads[t].batch != [] {
      assert ThreadOk(cfg, s, t, s.threads[t]);
      QuietMoveKeepsInv(cfg, s, s', t);
    }
  }

  lemma PurgeKeepsInv(cfg: Config, s: Sys, doomed: set<nat>)
    requires Inv(cfg, s)
    ensures Inv(cfg, s.(db := s.db.(outbox := Purged(s.db.outbox, doomed))))
  {
    hide StreamsOk, ViewsOk, ClaimsOk, SnapshotsOk, StoredNamed, OutboxOk, DeliveryOk;
    var s' := s.(db := s.db.(outbox := Purged(s.db.outbox, doomed)));
    SettledOutbox(cfg, s.issued, s.dispatched, s.db, s'.db.outbox);
    forall t | t in s.threads ensures ThreadOk(cfg, s', t, s.threads[t]) {
      QuietStable(cfg, s, s', t, s.threads[t]);
    }
  }

  lemma AbortKeepsInv(cfg: Config, s: Sys, t: nat)
    requires Inv(cfg, s)
    ensures Inv(cfg, AbortStep(s, t))
  {
    hide GoodDb;
    var s' := AbortStep(s, t);
    if t in s.threads && !s.threads[t].Ended? {
      QuietMoveKeepsInv(cfg, s, s', t);
    }
  }

  // --- Every run ---

  lemma StepKeepsInv(cfg: Config, s: Sys, a: Action)
    requires Inv(cfg, s)
    ensures Inv(cfg, Step(cfg, s, a))
  {
    hide Inv, StartCommandStep, StartUnitStep, StartRelayStep, DispatchStep, CheckDuplicateStep, LoadSnapshotStep, LoadEventsStep,
      DecideStep, FailCommandStep, CommitStep, SnapshotStep, PublishStep, MarkPublishedStep, RelayLoadStep, RelayDispatchStep,
      RelayMarkStep, RelaySkipStep, Purged, AbortStep;
    match a
    case StartCommand(t, cmd) => StartCommandKeepsInv(cfg, s, t, cmd);
    case StartUnit(t) => StartUnitKeepsInv(cfg, s, t);
    case StartRelay(t) => StartUnitKeepsInv(cfg, s, t);
    case Dispatch(t, cmd) => DispatchKeepsInv(cfg, s, t, cmd);
    case CheckDuplicate(t) => CheckDuplicateKeepsInv(cfg, s, t);
    case LoadSnapshot(t) => LoadSnapshotKeepsInv(cfg, s, t);
    case LoadEvents(t) => LoadEventsKeepsInv(cfg, s, t);
    case Decide(t, raws, ids, tickets, take) => DecideKeepsInv(cfg, s, t, raws, ids, tickets, take);
    case FailCommand(t) => FailCommandKeepsInv(cfg, s, t);
    case CommitUnit(t) => CommitKeepsInv(cfg, s, t);
    case SaveSnapshot(t, saved) => SnapshotKeepsInv(cfg, s, t, saved);
    case Publish(t) => PublishKeepsInv(cfg, s, t);
    case MarkPublished(t, marked) => MarkPublishedKeepsInv(cfg, s, t, marked);
    case RelayLoad(t, picked) => RelayLoadKeepsInv(cfg, s, t, picked);
    case RelayDispatch(t) => RelayDispatchKeepsInv(cfg, s, t);
    case RelayMark(t) => RelayMarkKeepsInv(cfg, s, t);
    case RelaySkip(t) => RelaySkipKeepsInv(cfg, s, t);
    case Purge(doomed) => PurgeKeepsInv(cfg, s, doomed);
    case Abort(t) => AbortKeepsInv(cfg, s, t);
  }

  lemma {:induction false} Invariant(cfg: Config, schedule: seq<Action>)
    ensures Inv(cfg, After(cfg, schedule))
  {
    if schedule != [] {
      var before := After(cfg, schedule[..|schedule| - 1]);
      Invariant(cfg, schedule[..|schedule| - 1]);
      StepKeepsInv(cfg, before, schedule[|schedule| - 1]);
    } else {
      InitialGood(cfg);
    }
  }

  lemma InitialGood(cfg: Config)
    ensures Inv(cfg, Initial(cfg))
  {
  }
}
