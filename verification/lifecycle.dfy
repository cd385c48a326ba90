/**
 * One pass of the command lifecycle as the executor's code runs it, loops and all, proved
 * to enlist what the steps of the transition system enlist.
 */
module CommandLifecycle {
  import opened Types
  import opened Seqs
  import opened Upcaster
  import opened EventStore
  import opened Engine

  /** When to take a snapshot: new version, last snapshot's version, events since. */
  type SnapshotStrategy = (nat, nat, int) -> bool

  method LoadAggregate(cfg: Config, db: Database, k: Key) returns (base: Option<Snapshot>, state: State, version: nat)
    ensures base == if cfg.snapshotting(k.name) && k in db.snapshots then Some(db.snapshots[k]) else None
    ensures (state, version) == LoadState(cfg, db, k, base)
    ensures forall record ::
      Tracks(cfg.aggregates(k.name), record) && (base.Some? ==> TakenFrom(cfg.aggregates(k.name), record, Stream(db.streams, k), base.value)) ==>
        state == Recorded(cfg.aggregates(k.name), record, LoadedRaws(Stream(db.streams, k), cfg.aggregates(k.name).upcasters))
  {
    hide Replay, Upcasted, Raws, Stream, Drop, StateFrom, StateOf, Tracks, TakenFrom, Recorded, LoadedRaws, Filter;
    var agg := cfg.aggregates(k.name);
    base := None;
    if cfg.snapshotting(k.name) && k in db.snapshots {
      base := Some(db.snapshots[k]);
    }
    var events: seq<Event>;
    var start: State;
    if base.Some? {
      events := Drop(Stream(db.streams, k), base.value.version);
      version := base.value.version + |events|;
      start := base.value.state;
    } else {
      events := Stream(db.streams, k);
      version := |events|;
      start := agg.initial;
    }
    state := ApplyEvents(agg, start, Raws(Upcasted(agg, events)));
    LoadedStart(agg, db, k, base, events, start);
    forall record | Tracks(agg, record) && (base.Some? ==> TakenFrom(agg, record, Stream(db.streams, k), base.value))
      ensures state == Recorded(agg, record, LoadedRaws(Stream(db.streams, k), agg.upcasters))
    {
      LoadFollowsRecord(agg, record, Stream(db.streams, k), base);
    }
  }

  /** A snapshot taken of a prefix of the stream, by the record of its events. */
  ghost predicate TakenFrom(agg: Aggregate, record: seq<RawEvent> -> State, stream: seq<Event>, snap: Snapshot) {
    snap.version <= |stream| && snap.state == Recorded(agg, record, LoadedRaws(stream[..snap.version], agg.upcasters))
  }

  lemma LoadedStart(agg: Aggregate, db: Database, k: Key, base: Option<Snapshot>, events: seq<Event>, start: State)
    requires events == (if base.Some? then Drop(Stream(db.streams, k), base.value.version) else Stream(db.streams, k))
    requires start == if base.Some? then base.value.state else agg.initial
    ensures Replay(agg, start, Raws(Upcasted(agg, events))) == StateFrom(agg, start, events)
    ensures base.None? ==> StateFrom(agg, start, events) == StateOf(agg, events)
  {
    hide Stream, Drop;
  }

  lemma LoadFollowsRecord(agg: Aggregate, record: seq<RawEvent> -> State, stream: seq<Event>, base: Option<Snapshot>)
    requires Tracks(agg, record) && (base.Some? ==> TakenFrom(agg, record, stream, base.value))
    ensures base.None? ==> StateOf(agg, stream) == Recorded(agg, record, LoadedRaws(stream, agg.upcasters))
    ensures base.Some? ==>
      StateFrom(agg, base.value.state, Drop(stream, base.value.version)) == Recorded(agg, record, LoadedRaws(stream, agg.upcasters))
  {
    hide Tracks, LoadedRaws, Filter, Replay, Upcasted, Raws;
    StateFollowsRecord(agg, record, stream);
    if base.Some? {
      var v := base.value.version;
      SuffixFollowsRecord(agg, record, stream[..v], stream[v..]);
      assert stream[..v] + stream[v..] == stream;
    }
  }

  lemma SuffixFollowsRecord(agg: Aggregate, record: seq<RawEvent> -> State, before: seq<Event>, after: seq<Event>)
    requires Tracks(agg, record)
    ensures StateFrom(agg, Recorded(agg, record, LoadedRaws(before, agg.upcasters)), after)
         == Recorded(agg, record, LoadedRaws(before + after, agg.upcasters))
  {
    var d := agg.upcasters;
    assert LoadedRaws(before + after, d) == LoadedRaws(before, d) + LoadedRaws(after, d);
    UpcastedIsLoaded(agg, after);
    hide Tracks, LoadedRaws, Filter, Replay, Upcasted, Raws;
    FilterAppend(EvolvedBy(agg), LoadedRaws(before, d), LoadedRaws(after, d));
    FoldFollowsRecord(agg, record, Filter(EvolvedBy(agg), LoadedRaws(before, d)), LoadedRaws(after, d));
  }

  /** Folds `evolve` over events; one without a handler leaves the state alone. */
  method ApplyEvents(agg: Aggregate, start: State, events: seq<RawEvent>) returns (state: State)
    ensures state == Replay(agg, start, events)
    ensures forall record, history :: Tracks(agg, record) && start == record(history) ==>
      state == record(history + Filter(EvolvedBy(agg), events))
  {
    state := start;
    for i := 0 to |events|
      invariant state == Replay(agg, start, events[..i])
    {
      assert events[..i + 1][..i] == events[..i];
      if events[i].name in agg.evolve {
        state := agg.evolve[events[i].name](events[i].payload, state);
      }
    }
    assert events[..|events|] == events;
    forall record, history | Tracks(agg, record) && start == record(history)
      ensures state == record(history + Filter(EvolvedBy(agg), events))
    {
      FoldFollowsRecord(agg, record, history, events);
    }
  }

  /** Up to the first extractor that throws, the enlisted events are exactly those seen. */
  lemma UntilRaiseSeen(cfg: Config, p: nat, events: seq<Event>, i: nat)
    requires p < |cfg.strong| && i <= |events| && forall j :: 0 <= j < i ==> !Raises(cfg, p, events[j])
    requires i < |events| ==> Raises(cfg, p, events[i])
    ensures UntilRaise(cfg, p, events) == events[..i]
  {
    var seen := UntilRaise(cfg, p, events);
    assert |seen| < |events| ==> Raises(cfg, p, events[|seen|]);
    assert forall j :: 0 <= j < |seen| ==> seen[j] == events[j];
    assert |seen| == i;
  }

  lemma NothingDelivered(cfg: Config, events: seq<Event>, p: nat, q: nat)
    requires p < q < |cfg.strong| && !Quiet(cfg, events, p + 1)
    ensures Delivered(cfg, events, q) == []
  {
  }

  /** After a throw no later projection has anything enlisted. */
  lemma {:induction false} NothingAfterRaise(cfg: Config, events: seq<Event>, p: nat, n: nat)
    requires p < n <= |cfg.strong| && !Quiet(cfg, events, p + 1)
    ensures ViewOps(cfg, events, n) == ViewOps(cfg, events, p + 1)
    decreases n
  {
    hide Quiet, Delivered;
    if p + 1 < n {
      NothingAfterRaise(cfg, events, p, n - 1);
      NothingDelivered(cfg, events, p, n - 1);
      assert ViewOps(cfg, events, n - 1) + [] == ViewOps(cfg, events, n - 1);
    }
  }

  /** The updates of one projection, event by event, up to an extractor that throws. */
  method EnlistUpdates(cfg: Config, p: nat, events: seq<Event>, enlisted: seq<Op>) returns (ops: seq<Op>, threw: bool)
    requires p < |cfg.strong|
    ensures threw <==> |UntilRaise(cfg, p, events)| < |events|
    ensures ops == enlisted + HandledUpdates(cfg.strong[p], p, UntilRaise(cfg, p, events))
  {
    ops := enlisted;
    for i := 0 to |events|
      invariant ops == enlisted + HandledUpdates(cfg.strong[p], p, events[..i])
      invariant forall j :: 0 <= j < i ==> !Raises(cfg, p, events[j])
    {
      assert events[..i + 1][..i] == events[..i];
      if events[i].name in cfg.strong[p].on {
        if cfg.throws(p, events[i]) {
          UntilRaiseSeen(cfg, p, events, i);
          return ops, true;
        }
        ops := ops + [UpdateView(p, events[i])];
      }
    }
    UntilRaiseSeen(cfg, p, events, |events|);
    assert events[..|events|] == events;
    threw := false;
  }

  lemma QuietStep(cfg: Config, events: seq<Event>, p: nat)
    requires p < |cfg.strong| && Quiet(cfg, events, p)
    ensures Quiet(cfg, events, p + 1) <==> |UntilRaise(cfg, p, events)| == |events|
    ensures Delivered(cfg, events, p) == UntilRaise(cfg, p, events)
  {
    var seen := UntilRaise(cfg, p, events);
    assert forall i :: 0 <= i < |seen| ==> seen[i] == events[i];
  }

  lemma NoLongerQuiet(cfg: Config, events: seq<Event>, n: nat)
    requires n <= |cfg.strong| && !Quiet(cfg, events, n)
    ensures !Quiet(cfg, events, |cfg.strong|)
  {
  }

  lemma ViewOpsNone(cfg: Config, events: seq<Event>)
    ensures ViewOps(cfg, events, 0) == [] && Quiet(cfg, events, 0)
  {
  }

  lemma ViewOpsNext(cfg: Config, events: seq<Event>, p: nat)
    requires p < |cfg.strong| && Quiet(cfg, events, p)
    ensures ViewOps(cfg, events, p + 1) == ViewOps(cfg, events, p) + HandledUpdates(cfg.strong[p], p, UntilRaise(cfg, p, events))
  {
    QuietStep(cfg, events, p);
    hide Quiet, UntilRaise, Delivered, HandledUpdates;
  }

  method EnlistViews(cfg: Config, events: seq<Event>, enlisted: seq<Op>) returns (ops: seq<Op>, threw: bool)
    ensures threw <==> !Quiet(cfg, events, |cfg.strong|)
    ensures ops == enlisted + ViewOps(cfg, events, |cfg.strong|)
  {
    hide *;
    ops := enlisted;
    ViewOpsNone(cfg, events);
    for p := 0 to |cfg.strong|
      invariant ops == enlisted + ViewOps(cfg, events, p) && Quiet(cfg, events, p)
    {
      ops, threw := EnlistNext(cfg, events, p, enlisted, ops);
      if threw {
        return;
      }
    }
    threw := false;
  }

  /** One projection's updates; if an extractor throws, nothing more will be enlisted. */
  method EnlistNext(cfg: Config, events: seq<Event>, p: nat, ghost enlisted: seq<Op>, sofar: seq<Op>) returns (ops: seq<Op>, threw: bool)
    requires p < |cfg.strong| && Quiet(cfg, events, p) && sofar == enlisted + ViewOps(cfg, events, p)
    ensures threw <==> !Quiet(cfg, events, p + 1)
    ensures threw ==> !Quiet(cfg, events, |cfg.strong|)
    ensures ops == enlisted + ViewOps(cfg, events, if threw then |cfg.strong| else p + 1)
  {
    hide *;
    QuietStep(cfg, events, p);
    ViewOpsNext(cfg, events, p);
    ops, threw := EnlistUpdates(cfg, p, events, sofar);
    UntilRaiseLength(cfg, p, events);
    if threw {
      NothingAfterRaise(cfg, events, p, |cfg.strong|);
      NoLongerQuiet(cfg, events, p + 1);
    }
  }

  lemma QuietIs(cfg: Config, events: seq<Event>)
    ensures !Quiet(cfg, events, |cfg.strong|) <==>
      exists p, i :: 0 <= p < |cfg.strong| && 0 <= i < |events| && events[i].name in cfg.strong[p].on && cfg.throws(p, events[i])
  {
    if !Quiet(cfg, events, |cfg.strong|) {
      var p, i :| 0 <= p < |cfg.strong| && 0 <= i < |events| && Raises(cfg, p, events[i]);
      assert events[i].name in cfg.strong[p].on && cfg.throws(p, events[i]);
    } else {
      forall p, i | 0 <= p < |cfg.strong| && 0 <= i < |events|
        ensures !(events[i].name in cfg.strong[p].on && cfg.throws(p, events[i]))
      {
        assert !Raises(cfg, p, events[i]);
      }
    }
  }

  lemma UntilRaiseLength(cfg: Config, p: nat, events: seq<Event>)
    requires p < |cfg.strong|
    ensures |UntilRaise(cfg, p, events)| <= |events|
  {
  }

  /**
   * Enlists the strong projections' updates, projection by projection, then the outbox
   * entries. An id extractor that throws ends it, with what came before left enlisted.
   */
  method OnEventsProduced(cfg: Config, events: seq<Event>, tickets: seq<nat>, enlisted: seq<Op>)
    returns (ops: seq<Op>, threw: bool)
    ensures threw <==> !Quiet(cfg, events, |cfg.strong|)
    ensures ops == enlisted + ViewOps(cfg, events, |cfg.strong|) +
      if cfg.outboxed && events != [] && !threw then [SaveOutbox(tickets, events)] else []
    ensures threw <==>
      exists p, i :: 0 <= p < |cfg.strong| && 0 <= i < |events| && events[i].name in cfg.strong[p].on && cfg.throws(p, events[i])
    ensures forall o :: o in ViewOps(cfg, events, |cfg.strong|) <==>
      exists p, i :: 0 <= p < |cfg.strong| && 0 <= i < |events| && UpdateDue(cfg, events, p, i, o)
  {
    QuietIs(cfg, events);
    forall o
      ensures o in ViewOps(cfg, events, |cfg.strong|) <==>
        exists p, i :: 0 <= p < |cfg.strong| && 0 <= i < |events| && UpdateDue(cfg, events, p, i, o)
    {
      ViewOpsIff(cfg, events, |cfg.strong|, o);
    }
    hide Quiet, ViewOps, UpdateDue;
    ops, threw := EnlistViews(cfg, events, enlisted);
    if !threw && cfg.outboxed && |events| > 0 {
      ops := ops + [SaveOutbox(tickets, events)];
    }
  }

  /**
   * Load, decide, evolve, enrich, enlist: with the handler answering `raws` on the state it
   * is shown, the operations enlisted and the snapshot returned are those of `Enlist`, also
   * when an id extractor throws and the command is rejected.
   */
  method ExecuteLifecycle(cfg: Config, db: Database, t: nat, cmd: Command, decide: (Command, State) -> seq<RawEvent>,
                          ids: seq<nat>, tickets: seq<nat>, strategy: SnapshotStrategy)
    returns (w: Work, ops: seq<Op>, threw: bool)
    requires var base := if cfg.snapshotting(cmd.target.name) && cmd.target in db.snapshots
                         then Some(db.snapshots[cmd.target]) else None;
      |ids| == |decide(cmd, LoadState(cfg, db, cmd.target, base).0)|
    ensures ops == WorkOps(cfg, w) && (threw <==> !Boxed(cfg, w.batch))
    ensures var base := if cfg.snapshotting(cmd.target.name) && cmd.target in db.snapshots
                        then Some(db.snapshots[cmd.target]) else None;
      var (state, version) := LoadState(cfg, db, cmd.target, base);
      var raws := decide(cmd, state);
      var last := if base.Some? then base.value.version else 0;
      var due := !threw && cfg.snapshotting(cmd.target.name) && strategy(version + |raws|, last, version + |raws| - last);
      && w == Enlist(cfg, t, Deciding(Explicit, [], cmd, version, state), raws, ids, tickets, due)
      && |w.batch.events| == |raws|
      && (forall i :: 0 <= i < |raws| ==> w.batch.events[i] == Event(raws[i].name, raws[i].payload,
            Metadata(ids[i], VersionTag(cfg.aggregates(cmd.target.name).upcasters, raws[i].name), cmd.target, version + i + 1)))
      && (w.snapshot.Some? ==> w.snapshot.value.version == version + |raws|)
      && (w.snapshot.Some? ==>
            forall record, history :: Tracks(cfg.aggregates(cmd.target.name), record) && state == record(history) ==>
              w.snapshot.value.state == record(history + Filter(EvolvedBy(cfg.aggregates(cmd.target.name)), raws)))
  {
    hide Quiet, ViewOps, Replay, LoadState, Tracks, Filter, TakenFrom, Recorded, LoadedRaws;
    var agg := cfg.aggregates(cmd.target.name);
    var base, state, version := LoadAggregate(cfg, db, cmd.target);
    var raws := decide(cmd, state);
    var newState := ApplyEvents(agg, state, raws);
    var enriched := Enrich(agg, raws, cmd.target, version, ids);
    ops := [SaveEvents(Batch(t, cmd, version, enriched))];
    if cmd.id.Some? && cfg.idempotent {
      ops := ops + [ClaimCommand(cmd.id.value)];
    }
    ghost var claimed := ops;
    ops, threw := OnEventsProduced(cfg, enriched, tickets, ops);
    var snapshot: Option<Snapshot> := None;
    if !threw && cfg.snapshotting(cmd.target.name) {
      var newVersion := version + |raws|;
      var last := if base.Some? then base.value.version else 0;
      if strategy(newVersion, last, newVersion - last) {
        snapshot := Some(Snapshot(newState, newVersion));
      }
    }
    w := Work(Batch(t, cmd, version, enriched), tickets, snapshot);
    assert claimed == [SaveEvents(w.batch)] + ClaimOps(cfg, cmd);
  }
}
