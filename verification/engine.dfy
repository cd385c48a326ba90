/**
 * The write path as a transition system. Any number of command executions, units of work
 * and outbox relays interleave, one step per `await`, over one database whose commits are
 * atomic; any of them may vanish at any step. `Step` is what one step does, and a run is
 * any sequence of actions.
 */
module Engine {
  import opened Types
  import opened Seqs
  import opened Upcaster
  import opened Projections
  import opened EventStore

  type CommandId = string

  datatype Command = Command(name: string, id: Option<CommandId>, target: Key, payload: Payload)

  /**
   * An aggregate definition. `decides` relates a command and a state to the batches the
   * handler may return, so handlers may consult the outside world. Events without an
   * `evolve` entry leave the state alone.
   */
  datatype Aggregate = Aggregate(
    initial: State,
    evolve: map<EventName, (Payload, State) -> State>,
    decides: (Command, State, seq<RawEvent>) -> bool,
    upcasters: Deployment)

  /** `throws` says on which events the id extractor of a strong projection throws. */
  datatype Config = Config(
    aggregates: string -> Aggregate,
    snapshotting: string -> bool,
    strong: seq<Projection>,
    throws: (nat, Event) -> bool,
    maxRetries: nat,
    idempotent: bool,
    outboxed: bool)

  datatype Snapshot = Snapshot(state: State, version: nat)

  // --- State from events ---

  function Evolve(agg: Aggregate, s: State, e: RawEvent): State {
    if e.name in agg.evolve then agg.evolve[e.name](e.payload, s) else s
  }

  function Replay(agg: Aggregate, s: State, events: seq<RawEvent>): State {
    if events == [] then s
    else Evolve(agg, Replay(agg, s, events[..|events| - 1]), events[|events| - 1])
  }

  function Upcasted(agg: Aggregate, events: seq<Event>): (r: seq<Event>)
    ensures |r| == |events|
  {
    match agg.upcasters
    case None => events
    case Some(upcasters) => UpcastAll(events, upcasters)
  }

  /** Load: upcast, then fold `evolve` from a base state. */
  function StateFrom(agg: Aggregate, base: State, events: seq<Event>): State {
    Replay(agg, base, Raws(Upcasted(agg, events)))
  }

  /** Full replay of a stream. */
  function StateOf(agg: Aggregate, events: seq<Event>): State {
    StateFrom(agg, agg.initial, events)
  }

  // --- What a folded state is, told by the events alone ---

  /**
   * `record` says what state each history leaves: the empty one the initial state, and one
   * more event with an `evolve` entry what that entry makes of its payload and the state
   * before it.
   */
  ghost predicate Tracks(agg: Aggregate, record: seq<RawEvent> -> State) {
    && record([]) == agg.initial
    && forall history: seq<RawEvent>, name: EventName, payload: Payload :: name in agg.evolve ==>
         agg.evolve[name](payload, record(history)) == record(history + [RawEvent(name, payload)])
  }

  /** The events an aggregate has an `evolve` entry for. */
  function EvolvedBy(agg: Aggregate): RawEvent -> bool {
    (e: RawEvent) => e.name in agg.evolve
  }

  /** The state after `raws`, by the record. */
  function Recorded(agg: Aggregate, record: seq<RawEvent> -> State, raws: seq<RawEvent>): State {
    record(Filter(EvolvedBy(agg), raws))
  }

  /** Folding on from a recorded state records on. */
  lemma {:induction false} FoldFollowsRecord(agg: Aggregate, record: seq<RawEvent> -> State, history: seq<RawEvent>, raws: seq<RawEvent>)
    requires Tracks(agg, record)
    ensures Replay(agg, record(history), raws) == record(history + Filter(EvolvedBy(agg), raws))
  {
    if raws == [] {
      assert history + [] == history;
    } else {
      var front, last := raws[..|raws| - 1], raws[|raws| - 1];
      FoldFollowsRecord(agg, record, history, front);
      assert raws == front + [last];
      FilterAppend(EvolvedBy(agg), front, [last]);
      var kept := Filter(EvolvedBy(agg), front);
      if last.name in agg.evolve {
        FilterAll(EvolvedBy(agg), [last]);
        assert history + (kept + [last]) == history + kept + [RawEvent(last.name, last.payload)];
      } else {
        FilterNone(EvolvedBy(agg), [last]);
        assert kept + [] == kept;
      }
    }
  }

  lemma UpcastedIsLoaded(agg: Aggregate, events: seq<Event>)
    ensures Raws(Upcasted(agg, events)) == LoadedRaws(events, agg.upcasters)
  {
    var raws, loaded := Raws(Upcasted(agg, events)), LoadedRaws(events, agg.upcasters);
    forall i | 0 <= i < |events| ensures raws[i] == loaded[i] {
      assert Upcasted(agg, events)[i] == Loaded(events[i], agg.upcasters);
      UpcastKeepsName(events[i], agg.upcasters);
    }
  }

  lemma UpcastKeepsName(e: Event, d: Deployment)
    ensures Loaded(e, d).name == e.name
  {
  }

  /** The state of a stream is the record of what loading it yields. */
  lemma StateFollowsRecord(agg: Aggregate, record: seq<RawEvent> -> State, events: seq<Event>)
    requires Tracks(agg, record)
    ensures StateOf(agg, events) == Recorded(agg, record, LoadedRaws(events, agg.upcasters))
  {
    UpcastedIsLoaded(agg, events);
    var raws := LoadedRaws(events, agg.upcasters);
    FoldFollowsRecord(agg, record, [], raws);
    assert [] + Filter(EvolvedBy(agg), raws) == Filter(EvolvedBy(agg), raws);
    hide Replay, Upcasted, LoadedRaws, Filter, Raws;
  }

  // --- Enrichment ---

  function SchemaVersion(agg: Aggregate, name: EventName): Option<Version> {
    VersionTag(agg.upcasters, name)
  }

  function Enrich(agg: Aggregate, raws: seq<RawEvent>, k: Key, version: nat, ids: seq<nat>): (r: seq<Event>)
    requires |ids| == |raws|
    ensures |r| == |raws|
    ensures forall i :: 0 <= i < |r| ==>
      r[i] == Event(raws[i].name, raws[i].payload,
                    Metadata(ids[i], SchemaVersion(agg, raws[i].name), k, version + i + 1))
  {
    seq(|raws|, i requires 0 <= i < |raws| =>
      Event(raws[i].name, raws[i].payload,
            Metadata(ids[i], SchemaVersion(agg, raws[i].name), k, version + i + 1)))
  }

  // --- The database and the operations a unit of work enlists ---

  datatype Entry = Entry(event: Event, published: bool)

  /** One executed event save, kept as history: who ran it, and from which version. */
  datatype Batch = Batch(owner: nat, cmd: Command, version: nat, events: seq<Event>)

  datatype Database = Database(
    streams: Streams,
    claims: set<CommandId>,
    views: seq<ViewMap>,
    outbox: map<nat, Entry>,
    snapshots: map<Key, Snapshot>,
    log: seq<Batch>)

  datatype Op =
    | SaveEvents(batch: Batch)
    | ClaimCommand(id: CommandId)
    | UpdateView(projection: nat, event: Event)
    | SaveOutbox(tickets: seq<nat>, events: seq<Event>)

  datatype Outcome = Ok(db: Database) | ConcurrencyError | IdempotencyConflict

  /** Entry ids map to fresh unpublished entries. */
  function AddEntries(outbox: map<nat, Entry>, tickets: seq<nat>, events: seq<Event>): (r: map<nat, Entry>)
    requires |tickets| == |events|
    ensures forall x :: x in outbox && x !in tickets ==> x in r && r[x] == outbox[x]
    ensures forall x :: x in r && x !in tickets ==> x in outbox
    ensures forall x :: x in tickets ==> x in r
    ensures forall x :: x in r && x in tickets ==>
      exists i :: 0 <= i < |tickets| && tickets[i] == x && r[x] == Entry(events[i], false)
  {
    if tickets == [] then outbox
    else
      var n := |tickets| - 1;
      var r := AddEntries(outbox, tickets[..n], events[..n])[tickets[n] := Entry(events[n], false)];
      assert forall x :: x in tickets <==> x in tickets[..n] || x == tickets[n];
      assert forall x :: x in r && x in tickets && x != tickets[n] ==>
        exists i :: 0 <= i < n && tickets[i] == x && r[x] == Entry(events[i], false) by {
        forall x | x in r && x in tickets && x != tickets[n]
          ensures exists i :: 0 <= i < n && tickets[i] == x && r[x] == Entry(events[i], false)
        {
          var i :| 0 <= i < |tickets[..n]| && tickets[..n][i] == x && r[x] == Entry(events[..n][i], false);
          assert tickets[i] == x;
        }
      }
      r
  }

  function Exec(cfg: Config, db: Database, op: Op): Outcome {
    match op
    case SaveEvents(b) =>
      (match Append(db.streams, b.cmd.target, b.events, b.version)
       case None => ConcurrencyError
       case Some(streams) => Ok(db.(streams := streams, log := db.log + [b])))
    case ClaimCommand(id) =>
      if id in db.claims then IdempotencyConflict else Ok(db.(claims := db.claims + {id}))
    case UpdateView(p, e) =>
      if p < |db.views| && p < |cfg.strong|
      then Ok(db.(views := db.views[p := Deliver(cfg.strong[p], db.views[p], e)]))
      else Ok(db)
    case SaveOutbox(tickets, events) =>
      if |tickets| == |events| then Ok(db.(outbox := AddEntries(db.outbox, tickets, events))) else Ok(db)
  }

  /** Operations in enlistment order inside one transaction: the first failure is the result. */
  function Run(cfg: Config, db: Database, ops: seq<Op>): Outcome {
    if ops == [] then Ok(db)
    else
      match Run(cfg, db, ops[..|ops| - 1])
      case Ok(d) => Exec(cfg, d, ops[|ops| - 1])
      case failed => failed
  }

  // --- What one command enlists ---

  /** One command's contribution to a unit of work. */
  datatype Work = Work(batch: Batch, tickets: seq<nat>, snapshot: Option<Snapshot>)

  function HandledUpdates(p: Projection, index: nat, events: seq<Event>): seq<Op> {
    if events == [] then []
    else
      HandledUpdates(p, index, events[..|events| - 1]) +
      if events[|events| - 1].name in p.on then [UpdateView(index, events[|events| - 1])] else []
  }

  predicate Raises(cfg: Config, p: nat, e: Event)
    requires p < |cfg.strong|
  {
    e.name in cfg.strong[p].on && cfg.throws(p, e)
  }

  /** No id extractor of the first `n` strong projections throws on `events`. */
  predicate Quiet(cfg: Config, events: seq<Event>, n: nat)
    requires n <= |cfg.strong|
  {
    forall p, i :: 0 <= p < n && 0 <= i < |events| ==> !Raises(cfg, p, events[i])
  }

  /** The events before the first on which the extractor of projection `p` throws. */
  function UntilRaise(cfg: Config, p: nat, events: seq<Event>): (r: seq<Event>)
    requires p < |cfg.strong|
    ensures r <= events
    ensures forall i :: 0 <= i < |r| ==> !Raises(cfg, p, r[i])
    ensures |r| < |events| ==> Raises(cfg, p, events[|r|])
  {
    if events == [] || Raises(cfg, p, events[0]) then [] else [events[0]] + UntilRaise(cfg, p, events[1..])
  }

  /** The events whose updates of projection `p` are enlisted: a throw ends the enlisting for good. */
  function Delivered(cfg: Config, events: seq<Event>, p: nat): seq<Event>
    requires p < |cfg.strong|
  {
    if Quiet(cfg, events, p) then UntilRaise(cfg, p, events) else []
  }

  /**
   * Taking the projections one after the other, each with the events in order, no extractor
   * throws up to event `i` of projection `p`.
   */
  predicate NoThrowUpTo(cfg: Config, events: seq<Event>, p: nat, i: nat) {
    forall q, j :: 0 <= q < |cfg.strong| && 0 <= j < |events| && (q < p || (q == p && j <= i)) ==>
      !(events[j].name in cfg.strong[q].on && cfg.throws(q, events[j]))
  }

  /** The update of an event is enlisted exactly if no extractor has thrown by then. */
  lemma DeliveredIff(cfg: Config, events: seq<Event>, p: nat, i: nat)
    requires p < |cfg.strong| && i < |events|
    ensures Delivered(cfg, events, p) <= events
    ensures i < |Delivered(cfg, events, p)| <==> NoThrowUpTo(cfg, events, p, i)
  {
    var seen := UntilRaise(cfg, p, events);
    assert forall j :: 0 <= j < |seen| ==> seen[j] == events[j];
    hide UntilRaise;
    if !Quiet(cfg, events, p) {
      var q, j :| 0 <= q < p && 0 <= j < |events| && Raises(cfg, q, events[j]);
      assert !NoThrowUpTo(cfg, events, p, i);
    } else if |seen| <= i {
      assert Raises(cfg, p, events[|seen|]);
    } else {
      forall q, j | 0 <= q < |cfg.strong| && 0 <= j < |events| && (q < p || (q == p && j <= i))
        ensures !(events[j].name in cfg.strong[q].on && cfg.throws(q, events[j]))
      {
        assert q == p ==> seen[j] == events[j];
        assert !Raises(cfg, q, events[j]);
      }
    }
  }

  lemma {:induction false} HandledUpdatesAre(p: Projection, index: nat, events: seq<Event>, o: Op)
    ensures o in HandledUpdates(p, index, events) <==>
      exists i :: 0 <= i < |events| && events[i].name in p.on && o == UpdateView(index, events[i])
  {
    if events != [] {
      var front := events[..|events| - 1];
      HandledUpdatesAre(p, index, front, o);
      assert forall i :: 0 <= i < |front| ==> front[i] == events[i];
    }
  }

  /** `o` updates projection `p` with a handled event, and no extractor has thrown by then. */
  ghost predicate UpdateDue(cfg: Config, events: seq<Event>, p: nat, i: nat, o: Op)
    requires p < |cfg.strong| && i < |events|
  {
    events[i].name in cfg.strong[p].on && NoThrowUpTo(cfg, events, p, i) && o == UpdateView(p, events[i])
  }

  /** What is enlisted for one projection. */
  lemma DeliveredUpdates(cfg: Config, events: seq<Event>, p: nat, o: Op)
    requires p < |cfg.strong|
    ensures o in HandledUpdates(cfg.strong[p], p, Delivered(cfg, events, p)) <==> exists i :: 0 <= i < |events| && UpdateDue(cfg, events, p, i, o)
  {
    var done := Delivered(cfg, events, p);
    HandledUpdatesAre(cfg.strong[p], p, done, o);
    DeliveredIsPrefix(cfg, events, p);
    hide Delivered, NoThrowUpTo, HandledUpdates;
    forall i | 0 <= i < |events| ensures i < |done| <==> NoThrowUpTo(cfg, events, p, i) {
      DeliveredIff(cfg, events, p, i);
    }
    var on := cfg.strong[p].on;
    if i :| 0 <= i < |done| && done[i].name in on && o == UpdateView(p, done[i]) {
      assert done[i] == events[i] && UpdateDue(cfg, events, p, i, o);
    }
    if i :| 0 <= i < |events| && UpdateDue(cfg, events, p, i, o) {
      assert i < |done| && done[i] == events[i];
    }
  }

  lemma DeliveredIsPrefix(cfg: Config, events: seq<Event>, p: nat)
    requires p < |cfg.strong|
    ensures Delivered(cfg, events, p) <= events
  {
  }

  /** What is enlisted for the first `n` projections: each handled event, unless an extractor has thrown by then. */
  lemma {:induction false} ViewOpsIff(cfg: Config, events: seq<Event>, n: nat, o: Op)
    requires n <= |cfg.strong|
    ensures o in ViewOps(cfg, events, n) <==> exists p, i :: 0 <= p < n && 0 <= i < |events| && UpdateDue(cfg, events, p, i, o)
  {
    hide *;
    if n > 0 {
      ViewOpsIff(cfg, events, n - 1, o);
      DeliveredUpdates(cfg, events, n - 1, o);
      ViewOpsSplit(cfg, events, n, o);
    } else {
      NoViewOps(cfg, events, o);
    }
  }

  lemma NoViewOps(cfg: Config, events: seq<Event>, o: Op)
    ensures o !in ViewOps(cfg, events, 0)
  {
  }

  lemma ViewOpsSplit(cfg: Config, events: seq<Event>, n: nat, o: Op)
    requires 0 < n <= |cfg.strong|
    ensures o in ViewOps(cfg, events, n) <==>
      o in ViewOps(cfg, events, n - 1) || o in HandledUpdates(cfg.strong[n - 1], n - 1, Delivered(cfg, events, n - 1))
  {
    hide Delivered, HandledUpdates;
  }

  /** Projection by projection, event by event, for the first `n` strong projections. */
  function ViewOps(cfg: Config, events: seq<Event>, n: nat): seq<Op>
    requires n <= |cfg.strong|
  {
    if n == 0 then []
    else ViewOps(cfg, events, n - 1) + HandledUpdates(cfg.strong[n - 1], n - 1, Delivered(cfg, events, n - 1))
  }

  /** The whole batch was enlisted, so its outbox entries were too. */
  predicate Boxed(cfg: Config, b: Batch) {
    Quiet(cfg, b.events, |cfg.strong|)
  }

  function ClaimOps(cfg: Config, cmd: Command): seq<Op> {
    if cmd.id.Some? && cfg.idempotent then [ClaimCommand(cmd.id.value)] else []
  }

  function OutboxOps(cfg: Config, w: Work): seq<Op> {
    if cfg.outboxed && w.batch.events != [] && Boxed(cfg, w.batch) then [SaveOutbox(w.tickets, w.batch.events)] else []
  }

  function WorkOps(cfg: Config, w: Work): seq<Op> {
    [SaveEvents(w.batch)] + ClaimOps(cfg, w.batch.cmd) + ViewOps(cfg, w.batch.events, |cfg.strong|) + OutboxOps(cfg, w)
  }

  function UnitOps(cfg: Config, works: seq<Work>): seq<Op> {
    if works == [] then [] else UnitOps(cfg, works[..|works| - 1]) + WorkOps(cfg, works[|works| - 1])
  }

  function UnitEvents(works: seq<Work>): seq<Event> {
    if works == [] then [] else UnitEvents(works[..|works| - 1]) + works[|works| - 1].batch.events
  }

  function UnitSnapshots(works: seq<Work>): seq<(Key, Snapshot)> {
    if works == [] then []
    else
      var w := works[|works| - 1];
      UnitSnapshots(works[..|works| - 1]) +
      if w.snapshot.Some? then [(w.batch.cmd.target, w.snapshot.value)] else []
  }

  /** A transactional commit: every operation, or none. */
  function Commit(cfg: Config, db: Database, works: seq<Work>): Outcome {
    Run(cfg, db, UnitOps(cfg, works))
  }

  // --- Threads of execution ---

  /** An implicit unit of work runs one command with retries; an explicit one runs any number, once. */
  datatype Job = Implicit(cmd: Command, attempt: nat) | Explicit

  datatype Result = Skipped | Completed | Aborted | ConcurrencyFailure | DuplicateFailure

  datatype Thread =
    | Checking(job: Job, works: seq<Work>, cmd: Command)
    | Loading(job: Job, works: seq<Work>, cmd: Command)
    | Based(job: Job, works: seq<Work>, cmd: Command, base: Option<Snapshot>)
    | Deciding(job: Job, works: seq<Work>, cmd: Command, version: nat, state: State)
    | Ready(job: Job, works: seq<Work>)
    | Committed(job: Job, snapshots: seq<(Key, Snapshot)>, events: seq<Event>, next: nat)
    | Relaying(batch: seq<(nat, Event)>, sent: bool)
    | Ended(job: Job, result: Result)

  /** `issued` records which event each generated identifier was drawn for. */
  datatype Sys = Sys(db: Database, dispatched: set<Event>, issued: map<nat, Event>, threads: map<nat, Thread>)

  datatype Action =
    | StartCommand(t: nat, cmd: Command)
    | StartUnit(t: nat)
    | StartRelay(t: nat)
    | Dispatch(t: nat, cmd: Command)
    | CheckDuplicate(t: nat)
    | LoadSnapshot(t: nat)
    | LoadEvents(t: nat)
    | Decide(t: nat, raws: seq<RawEvent>, ids: seq<nat>, tickets: seq<nat>, takeSnapshot: bool)
    | FailCommand(t: nat)
    | CommitUnit(t: nat)
    | SaveSnapshot(t: nat, saved: bool)
    | Publish(t: nat)
    | MarkPublished(t: nat, marked: bool)
    | RelayLoad(t: nat, picked: seq<nat>)
    | RelayDispatch(t: nat)
    | RelayMark(t: nat)
    | RelaySkip(t: nat)
    | Purge(doomed: set<nat>)
    | Abort(t: nat)

  predicate DistinctNames(names: seq<nat>) {
    forall i, j :: 0 <= i < j < |names| ==> names[i] != names[j]
  }

  /** Freshly generated identifiers: distinct and never seen before. */
  predicate Fresh(issued: map<nat, Event>, names: seq<nat>) {
    DistinctNames(names) && forall i :: 0 <= i < |names| ==> names[i] !in issued
  }

  lemma FreshFront(issued: map<nat, Event>, names: seq<nat>)
    requires Fresh(issued, names) && names != []
    ensures Fresh(issued, names[..|names| - 1]) && names[|names| - 1] !in names[..|names| - 1]
  {
  }

  function Issue(issued: map<nat, Event>, names: seq<nat>, events: seq<Event>): (r: map<nat, Event>)
    requires |names| == |events| && Fresh(issued, names)
    ensures forall n :: n in issued ==> n in r && r[n] == issued[n]
    ensures forall i :: 0 <= i < |names| ==> names[i] in r && r[names[i]] == events[i]
    ensures forall n :: n in r ==> n in issued || n in names
  {
    if names == [] then issued
    else
      var n := |names| - 1;
      FreshFront(issued, names);
      Issue(issued, names[..n], events[..n])[names[n] := events[n]]
  }

  function WithThread(s: Sys, t: nat, th: Thread): Sys {
    s.(threads := s.threads[t := th])
  }

  /** The state and version a command sees, through its snapshot if it has one. */
  function LoadState(cfg: Config, db: Database, k: Key, base: Option<Snapshot>): (State, nat) {
    var agg := cfg.aggregates(k.name);
    match base
    case None => var events := Stream(db.streams, k); (StateOf(agg, events), |events|)
    case Some(snap) =>
      var events := Drop(Stream(db.streams, k), snap.version);
      (StateFrom(agg, snap.state, events), snap.version + |events|)
  }

  function MarkByEventId(outbox: map<nat, Entry>, ids: set<nat>): map<nat, Entry> {
    map x | x in outbox :: if outbox[x].event.metadata.eventId in ids then outbox[x].(published := true) else outbox[x]
  }

  function EventIds(events: seq<Event>): set<nat> {
    set e | e in events :: e.metadata.eventId
  }

  predicate Unpublished(outbox: map<nat, Entry>, x: nat) {
    x in outbox && !outbox[x].published
  }

  function BatchOf(outbox: map<nat, Entry>, picked: seq<nat>): seq<(nat, Event)>
    requires forall i :: 0 <= i < |picked| ==> Unpublished(outbox, picked[i])
  {
    seq(|picked|, i requires 0 <= i < |picked| => assert Unpublished(outbox, picked[i]); (picked[i], outbox[picked[i]].event))
  }

  /** The command handler returned: enrich, enlist, and note a snapshot if one is due. */
  function Enlist(cfg: Config, t: nat, th: Thread, raws: seq<RawEvent>, ids: seq<nat>, tickets: seq<nat>,
                  takeSnapshot: bool): Work
    requires th.Deciding? && |ids| == |raws|
  {
    var agg := cfg.aggregates(th.cmd.target.name);
    var events := Enrich(agg, raws, th.cmd.target, th.version, ids);
    var snapshot := if takeSnapshot then Some(Snapshot(Replay(agg, th.state, raws), th.version + |raws|)) else None;
    Work(Batch(t, th.cmd, th.version, events), tickets, snapshot)
  }

  /** How a thread goes on after its transaction: published, retried, or failed. */
  function AfterCommit(cfg: Config, outcome: Outcome, job: Job, works: seq<Work>): Thread {
    match outcome
    case Ok(_) => Committed(job, UnitSnapshots(works), UnitEvents(works), 0)
    case ConcurrencyError =>
      if job.Implicit? && job.attempt < cfg.maxRetries
      then Loading(Implicit(job.cmd, job.attempt + 1), [], job.cmd)
      else Ended(job, ConcurrencyFailure)
    case IdempotencyConflict => Ended(job, DuplicateFailure)
  }

  // --- The steps. One that cannot happen in a state changes nothing. ---

  function StartCommandStep(s: Sys, t: nat, cmd: Command): Sys {
    if t in s.threads then s else WithThread(s, t, Checking(Implicit(cmd, 0), [], cmd))
  }

  function StartUnitStep(s: Sys, t: nat): Sys {
    if t in s.threads then s else WithThread(s, t, Ready(Explicit, []))
  }

  function StartRelayStep(s: Sys, t: nat): Sys {
    if t in s.threads then s else WithThread(s, t, Relaying([], false))
  }

  /** Code inside an explicit unit of work dispatches its next command. */
  function DispatchStep(s: Sys, t: nat, cmd: Command): Sys {
    if t !in s.threads || !s.threads[t].Ready? || !s.threads[t].job.Explicit? then s
    else WithThread(s, t, Checking(Explicit, s.threads[t].works, cmd))
  }

  /** The fast path: skip a command whose id is already recorded. */
  function CheckDuplicateStep(cfg: Config, s: Sys, t: nat): Sys {
    if t !in s.threads || !s.threads[t].Checking? then s
    else
      var th := s.threads[t];
      if cfg.idempotent && th.cmd.id.Some? && th.cmd.id.value in s.db.claims
      then WithThread(s, t, if th.job.Explicit? then Ready(th.job, th.works) else Ended(th.job, Skipped))
      else WithThread(s, t, Loading(th.job, th.works, th.cmd))
  }

  function LoadSnapshotStep(cfg: Config, s: Sys, t: nat): Sys {
    if t !in s.threads || !s.threads[t].Loading? then s
    else
      var th := s.threads[t];
      var k := th.cmd.target;
      var base := if cfg.snapshotting(k.name) && k in s.db.snapshots then Some(s.db.snapshots[k]) else None;
      WithThread(s, t, Based(th.job, th.works, th.cmd, base))
  }

  function LoadEventsStep(cfg: Config, s: Sys, t: nat): Sys {
    if t !in s.threads || !s.threads[t].Based? then s
    else
      var th := s.threads[t];
      var loaded := LoadState(cfg, s.db, th.cmd.target, th.base);
      WithThread(s, t, Deciding(th.job, th.works, th.cmd, loaded.1, loaded.0))
  }

  /**
   * The handler answers. If an id extractor then throws, what was enlisted before it stays
   * in the unit of work: an implicit one is rolled back, but code inside an explicit one
   * may carry on and commit it.
   */
  function DecideStep(cfg: Config, s: Sys, t: nat, raws: seq<RawEvent>, ids: seq<nat>, tickets: seq<nat>,
                      takeSnapshot: bool): Sys {
    if t !in s.threads || !s.threads[t].Deciding? then s
    else
      var th := s.threads[t];
      if !cfg.aggregates(th.cmd.target.name).decides(th.cmd, th.state, raws) then s
      else if |ids| != |raws| || |tickets| != |raws| || !Fresh(s.issued, ids + tickets) then s
      else if takeSnapshot && !cfg.snapshotting(th.cmd.target.name) then s
      else
        var w := Enlist(cfg, t, th, raws, ids, tickets, takeSnapshot);
        if takeSnapshot && !Boxed(cfg, w.batch) then s
        else
          Sys(s.db, s.dispatched, Issue(s.issued, ids + tickets, w.batch.events + w.batch.events),
              s.threads[t := if Boxed(cfg, w.batch) || th.job.Explicit? then Ready(th.job, th.works + [w])
                             else Ended(th.job, Aborted)])
  }

  /** A command fails before it enlisted anything, inside an explicit unit of work whose code carries on. */
  function FailCommandStep(s: Sys, t: nat): Sys {
    if t !in s.threads then s
    else
      match s.threads[t]
      case Checking(Explicit, works, _) => WithThread(s, t, Ready(Explicit, works))
      case Loading(Explicit, works, _) => WithThread(s, t, Ready(Explicit, works))
      case Based(Explicit, works, _, _) => WithThread(s, t, Ready(Explicit, works))
      case Deciding(Explicit, works, _, _, _) => WithThread(s, t, Ready(Explicit, works))
      case _ => s
  }

  function CommitStep(cfg: Config, s: Sys, t: nat): Sys {
    if t !in s.threads || !s.threads[t].Ready? then s
    else
      var th := s.threads[t];
      var outcome := Commit(cfg, s.db, th.works);
      WithThread(s, t, AfterCommit(cfg, outcome, th.job, th.works))
        .(db := if outcome.Ok? then outcome.db else s.db)
  }

  /** Save the next pending snapshot, or fail to: either way the command is unaffected. */
  function SnapshotStep(s: Sys, t: nat, saved: bool): Sys {
    if t !in s.threads || !s.threads[t].Committed? || s.threads[t].snapshots == [] then s
    else
      var th := s.threads[t];
      var first := th.snapshots[0];
      WithThread(s, t, th.(snapshots := th.snapshots[1..]))
        .(db := if saved then s.db.(snapshots := s.db.snapshots[first.0 := first.1]) else s.db)
  }

  function PublishStep(s: Sys, t: nat): Sys {
    if t !in s.threads || !s.threads[t].Committed? || s.threads[t].snapshots != [] then s
    else
      var th := s.threads[t];
      if th.next >= |th.events| then s
      else WithThread(s, t, th.(next := th.next + 1)).(dispatched := s.dispatched + {th.events[th.next]})
  }

  /** Mark the outbox, or fail to: either way the command is done. */
  function MarkPublishedStep(s: Sys, t: nat, marked: bool): Sys {
    if t !in s.threads || !s.threads[t].Committed? || s.threads[t].snapshots != [] then s
    else
      var th := s.threads[t];
      if th.next < |th.events| then s
      else WithThread(s, t, Ended(th.job, Completed))
        .(db := if marked then s.db.(outbox := MarkByEventId(s.db.outbox, EventIds(th.events))) else s.db)
  }

  function RelayLoadStep(s: Sys, t: nat, picked: seq<nat>): Sys {
    if t !in s.threads || !s.threads[t].Relaying? || s.threads[t].batch != [] then s
    else if exists i :: 0 <= i < |picked| && !Unpublished(s.db.outbox, picked[i]) then s
    else WithThread(s, t, Relaying(BatchOf(s.db.outbox, picked), false))
  }

  function RelayDispatchStep(s: Sys, t: nat): Sys {
    if t !in s.threads || !s.threads[t].Relaying? || s.threads[t].batch == [] then s
    else
      WithThread(s, t, Relaying(s.threads[t].batch, true)).(dispatched := s.dispatched + {s.threads[t].batch[0].1})
  }

  function MarkById(outbox: map<nat, Entry>, x: nat): map<nat, Entry> {
    if x in outbox then outbox[x := outbox[x].(published := true)] else outbox
  }

  function RelayMarkStep(s: Sys, t: nat): Sys {
    if t !in s.threads || !s.threads[t].Relaying? || s.threads[t].batch == [] || !s.threads[t].sent then s
    else
      var batch := s.threads[t].batch;
      WithThread(s, t, Relaying(batch[1..], false)).(db := s.db.(outbox := MarkById(s.db.outbox, batch[0].0)))
  }

  /** The dispatch or the marking failed: go on to the next entry. */
  function RelaySkipStep(s: Sys, t: nat): Sys {
    if t !in s.threads || !s.threads[t].Relaying? || s.threads[t].batch == [] then s
    else WithThread(s, t, Relaying(s.threads[t].batch[1..], false))
  }

  function Purged(outbox: map<nat, Entry>, doomed: set<nat>): map<nat, Entry> {
    map x | x in outbox && !(x in doomed && outbox[x].published) :: outbox[x]
  }

  /** A thread fails, is rolled back, or dies with its process: its locals are gone. */
  function AbortStep(s: Sys, t: nat): Sys {
    if t !in s.threads || s.threads[t].Ended? then s
    else WithThread(s, t, Ended(if s.threads[t].Relaying? then Explicit else s.threads[t].job, Aborted))
  }

  function Step(cfg: Config, s: Sys, a: Action): Sys {
    match a
    case StartCommand(t, cmd) => StartCommandStep(s, t, cmd)
    case StartUnit(t) => StartUnitStep(s, t)
    case StartRelay(t) => StartRelayStep(s, t)
    case Dispatch(t, cmd) => DispatchStep(s, t, cmd)
    case CheckDuplicate(t) => CheckDuplicateStep(cfg, s, t)
    case LoadSnapshot(t) => LoadSnapshotStep(cfg, s, t)
    case LoadEvents(t) => LoadEventsStep(cfg, s, t)
    case Decide(t, raws, ids, tickets, take) => DecideStep(cfg, s, t, raws, ids, tickets, take)
    case FailCommand(t) => FailCommandStep(s, t)
    case CommitUnit(t) => CommitStep(cfg, s, t)
    case SaveSnapshot(t, saved) => SnapshotStep(s, t, saved)
    case Publish(t) => PublishStep(s, t)
    case MarkPublished(t, marked) => MarkPublishedStep(s, t, marked)
    case RelayLoad(t, picked) => RelayLoadStep(s, t, picked)
    case RelayDispatch(t) => RelayDispatchStep(s, t)
    case RelayMark(t) => RelayMarkStep(s, t)
    case RelaySkip(t) => RelaySkipStep(s, t)
    case Purge(doomed) => s.(db := s.db.(outbox := Purged(s.db.outbox, doomed)))
    case Abort(t) => AbortStep(s, t)
  }

  function Initial(cfg: Config): Sys {
    Sys(Database(map[], {}, seq(|cfg.strong|, _ => map[]), map[], map[], []), {}, map[], map[])
  }

  /** The state after any schedule of steps: every interleaving is one. */
  function After(cfg: Config, schedule: seq<Action>): Sys {
    if schedule == [] then Initial(cfg)
    else Step(cfg, After(cfg, schedule[..|schedule| - 1]), schedule[|schedule| - 1])
  }
}
