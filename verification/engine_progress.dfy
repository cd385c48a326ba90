/** What the write path does when nothing stands in its way, and what always does. */
module EngineProgress {
  import opened Types
  import opened Projections
  import opened EventStore
  import opened Engine
  import opened EngineInvariant
  import opened EngineCommit
  import opened EngineSteps
  import EngineHistory

  lemma AfterOne(cfg: Config, schedule: seq<Action>, a: Action)
    ensures After(cfg, schedule + [a]) == Step(cfg, After(cfg, schedule), a)
  {
    assert (schedule + [a])[..|schedule|] == schedule;
  }

  // --- One command, undisturbed ---

  /** From a command's beginning to the commit, with nothing in between. */
  function Through(cfg: Config, s: Sys, t: nat, raws: seq<RawEvent>, ids: seq<nat>, tickets: seq<nat>): Sys {
    var s4 := LoadEventsStep(cfg, LoadSnapshotStep(cfg, CheckDuplicateStep(cfg, s, t), t), t);
    CommitStep(cfg, DecideStep(cfg, s4, t, raws, ids, tickets, false), t)
  }

  function ThroughActions(t: nat, raws: seq<RawEvent>, ids: seq<nat>, tickets: seq<nat>): seq<Action> {
    [CheckDuplicate(t), LoadSnapshot(t), LoadEvents(t), Decide(t, raws, ids, tickets, false), CommitUnit(t)]
  }

  lemma ThroughSteps(cfg: Config, schedule: seq<Action>, t: nat, raws: seq<RawEvent>, ids: seq<nat>, tickets: seq<nat>)
    ensures After(cfg, schedule + ThroughActions(t, raws, ids, tickets))
         == Through(cfg, After(cfg, schedule), t, raws, ids, tickets)
  {
    hide CommitStep, DecideStep, LoadEventsStep, LoadSnapshotStep, CheckDuplicateStep;
    var q1 := schedule + [CheckDuplicate(t)];
    var q2 := q1 + [LoadSnapshot(t)];
    var q3 := q2 + [LoadEvents(t)];
    var q4 := q3 + [Decide(t, raws, ids, tickets, false)];
    AfterOne(cfg, schedule, CheckDuplicate(t));
    AfterOne(cfg, q1, LoadSnapshot(t));
    AfterOne(cfg, q2, LoadEvents(t));
    AfterOne(cfg, q3, Decide(t, raws, ids, tickets, false));
    AfterOne(cfg, q4, CommitUnit(t));
    hide After;
    assert schedule + ThroughActions(t, raws, ids, tickets) == q4 + [CommitUnit(t)];
  }

  /** The steps of one implicit command, with nothing in between. */
  function Alone(t: nat, cmd: Command, raws: seq<RawEvent>, ids: seq<nat>, tickets: seq<nat>): seq<Action> {
    [StartCommand(t, cmd)] + ThroughActions(t, raws, ids, tickets)
  }

  lemma AloneSteps(cfg: Config, schedule: seq<Action>, t: nat, cmd: Command, raws: seq<RawEvent>, ids: seq<nat>, tickets: seq<nat>)
    ensures After(cfg, schedule + Alone(t, cmd, raws, ids, tickets)) ==
      Through(cfg, StartCommandStep(After(cfg, schedule), t, cmd), t, raws, ids, tickets)
  {
    hide Through, ThroughActions, StartCommandStep;
    AfterOne(cfg, schedule, StartCommand(t, cmd));
    ThroughSteps(cfg, schedule + [StartCommand(t, cmd)], t, raws, ids, tickets);
    hide After;
    assert schedule + Alone(t, cmd, raws, ids, tickets) == schedule + [StartCommand(t, cmd)] + ThroughActions(t, raws, ids, tickets);
  }

  /** A single command's transaction, from the exact conditions under which it succeeds. */
  lemma CommitOne(cfg: Config, db: Database, w: Work)
    requires |db.views| == |cfg.strong| && |w.tickets| == |w.batch.events| && Accepted(cfg, db, w.batch)
    ensures Commit(cfg, db, [w]) == Ok(Applied(cfg, db, w))
  {
    assert [w][..0] == [];
    assert UnitOps(cfg, [w]) == [] + WorkOps(cfg, w) == WorkOps(cfg, w);
    RunWork(cfg, db, w);
  }

  /** Whatever snapshot there is, a command loads the full replay of its stream. */
  lemma LoadsTheStream(cfg: Config, s: Sys, k: Key, base: Option<Snapshot>)
    requires Inv(cfg, s) && (base.Some? ==> k in s.db.snapshots && base == Some(s.db.snapshots[k]))
    ensures LoadState(cfg, s.db, k, base) == (StateOf(AggregateOf(cfg, k), Stream(s.db.streams, k)), |Stream(s.db.streams, k)|)
  {
    if base.Some? {
      SnapshotTransparent(cfg, s.db, k, base.value);
    }
  }

  /** A command that has just been handed to its unit of work and is not a duplicate. */
  ghost predicate Beginning(cfg: Config, s: Sys, t: nat, job: Job, cmd: Command) {
    && t in s.threads && s.threads[t] == Checking(job, [], cmd)
    && (cfg.idempotent && cmd.id.Some? ==> cmd.id.value !in s.db.claims)
  }

  /** Nothing but the thread changes until the handler has answered, and it is asked about the whole stream. */
  lemma DecidingAlone(cfg: Config, s: Sys, t: nat, job: Job, cmd: Command)
    requires Inv(cfg, s) && Beginning(cfg, s, t, job, cmd)
    ensures var stream := Stream(s.db.streams, cmd.target);
      LoadEventsStep(cfg, LoadSnapshotStep(cfg, CheckDuplicateStep(cfg, s, t), t), t) ==
      WithThread(s, t, Deciding(job, [], cmd, |stream|, StateOf(AggregateOf(cfg, cmd.target), stream)))
  {
    hide Inv, StateOf, LoadState;
    var k := cmd.target;
    var base := if cfg.snapshotting(k.name) && k in s.db.snapshots then Some(s.db.snapshots[k]) else None;
    LoadsTheStream(cfg, s, k, base);
    var s2 := CheckDuplicateStep(cfg, s, t);
    assert s2 == WithThread(s, t, Loading(job, [], cmd));
    var s3 := LoadSnapshotStep(cfg, s2, t);
    assert s3 == WithThread(s, t, Based(job, [], cmd, base));
  }

  /** The work of a command that saw the whole of its stream. */
  function WorkAlone(cfg: Config, s: Sys, t: nat, cmd: Command, raws: seq<RawEvent>, ids: seq<nat>, tickets: seq<nat>): Work
    requires |ids| == |raws|
  {
    var version := |Stream(s.db.streams, cmd.target)|;
    Work(Batch(t, cmd, version, Enrich(AggregateOf(cfg, cmd.target), raws, cmd.target, version, ids)), tickets, None)
  }

  /** `raws` may be the handler's answer on the current state, and the identifiers are fresh. */
  ghost predicate MayAnswer(cfg: Config, s: Sys, cmd: Command, raws: seq<RawEvent>, ids: seq<nat>, tickets: seq<nat>) {
    && AggregateOf(cfg, cmd.target).decides(cmd, StateOf(AggregateOf(cfg, cmd.target), Stream(s.db.streams, cmd.target)), raws)
    && |ids| == |raws| && |tickets| == |raws| && Fresh(s.issued, ids + tickets)
  }

  lemma DecideAlone(cfg: Config, s: Sys, t: nat, job: Job, cmd: Command, raws: seq<RawEvent>, ids: seq<nat>, tickets: seq<nat>)
    requires MayAnswer(cfg, s, cmd, raws, ids, tickets)
    ensures var stream := Stream(s.db.streams, cmd.target);
      var s4 := WithThread(s, t, Deciding(job, [], cmd, |stream|, StateOf(AggregateOf(cfg, cmd.target), stream)));
      var s5 := DecideStep(cfg, s4, t, raws, ids, tickets, false);
      var w := WorkAlone(cfg, s, t, cmd, raws, ids, tickets);
      && s5.db == s.db && s5.dispatched == s.dispatched && t in s5.threads
      && s5.threads[t] == if Boxed(cfg, w.batch) || job.Explicit? then Ready(job, [w]) else Ended(job, Aborted)
  {
    hide Fresh, Issue, Enrich, StateOf, Boxed;
    var stream := Stream(s.db.streams, cmd.target);
    var s4 := WithThread(s, t, Deciding(job, [], cmd, |stream|, StateOf(AggregateOf(cfg, cmd.target), stream)));
    assert Enlist(cfg, t, s4.threads[t], raws, ids, tickets, false) == WorkAlone(cfg, s, t, cmd, raws, ids, tickets);
  }

  lemma CommitAlone(cfg: Config, s5: Sys, t: nat, job: Job, w: Work)
    requires t in s5.threads && s5.threads[t] == Ready(job, [w])
    requires |s5.db.views| == |cfg.strong| && |w.tickets| == |w.batch.events| && Accepted(cfg, s5.db, w.batch)
    ensures var s' := CommitStep(cfg, s5, t);
      && t in s'.threads && s'.threads[t] == Committed(job, UnitSnapshots([w]), UnitEvents([w]), 0)
      && s'.db == Applied(cfg, s5.db, w) && s'.dispatched == s5.dispatched
  {
    CommitOne(cfg, s5.db, w);
    hide Commit, Applied, UnitSnapshots, UnitEvents;
  }

  lemma UnitOfOne(w: Work)
    requires w.snapshot.None?
    ensures UnitSnapshots([w]) == [] && UnitEvents([w]) == w.batch.events
  {
    assert [w][..0] == [];
  }

  lemma ThroughAlone(cfg: Config, s: Sys, t: nat, job: Job, cmd: Command, raws: seq<RawEvent>, ids: seq<nat>, tickets: seq<nat>)
    requires Inv(cfg, s) && Beginning(cfg, s, t, job, cmd) && MayAnswer(cfg, s, cmd, raws, ids, tickets)
    ensures |s.db.views| == |cfg.strong|
    ensures var w := WorkAlone(cfg, s, t, cmd, raws, ids, tickets);
      var s' := Through(cfg, s, t, raws, ids, tickets);
      && s'.dispatched == s.dispatched && t in s'.threads
      && if Boxed(cfg, w.batch) || job.Explicit?
         then s'.threads[t] == Committed(job, [], w.batch.events, 0) && s'.db == Applied(cfg, s.db, w)
         else s'.threads[t] == Ended(job, Aborted) && s'.db == s.db
  {
    ViewsCounted(cfg, s);
    DecidingAlone(cfg, s, t, job, cmd);
    DecideAlone(cfg, s, t, job, cmd, raws, ids, tickets);
    hide Inv, Fresh, Applied, StateOf, DecideStep, LoadEventsStep, LoadSnapshotStep, CheckDuplicateStep, Boxed;
    var w := WorkAlone(cfg, s, t, cmd, raws, ids, tickets);
    var s4 := LoadEventsStep(cfg, LoadSnapshotStep(cfg, CheckDuplicateStep(cfg, s, t), t), t);
    var s5 := DecideStep(cfg, s4, t, raws, ids, tickets, false);
    if Boxed(cfg, w.batch) || job.Explicit? {
      hide CommitStep;
      CommitAlone(cfg, s5, t, job, w);
      UnitOfOne(w);
    }
  }

  /**
   * From every reachable state, a command with a fresh id that no other step disturbs is
   * executed: the handler's answer on the current state, enriched, is appended to its
   * stream, no other stream changes, and its id is claimed. Only if the id extractor of a
   * strong projection throws on those events is it rolled back, with nothing changed.
   */
  lemma UndisturbedCommandCommits(cfg: Config, schedule: seq<Action>, t: nat, cmd: Command, raws: seq<RawEvent>,
                                  ids: seq<nat>, tickets: seq<nat>)
    requires var s := After(cfg, schedule);
      && t !in s.threads
      && (cfg.idempotent && cmd.id.Some? ==> cmd.id.value !in s.db.claims)
      && MayAnswer(cfg, s, cmd, raws, ids, tickets)
    ensures var s := After(cfg, schedule);
      var s' := After(cfg, schedule + Alone(t, cmd, raws, ids, tickets));
      var stream := Stream(s.db.streams, cmd.target);
      var events := Enrich(AggregateOf(cfg, cmd.target), raws, cmd.target, |stream|, ids);
      && t in s'.threads
      && (if Quiet(cfg, events, |cfg.strong|) then
            && s'.threads[t] == Committed(Implicit(cmd, 0), [], events, 0)
            && Stream(s'.db.streams, cmd.target) == stream + events
            && (forall k: Key :: k != cmd.target ==> Stream(s'.db.streams, k) == Stream(s.db.streams, k))
            && (cfg.idempotent && cmd.id.Some? ==> s'.db.claims == s.db.claims + {cmd.id.value})
          else s'.threads[t] == Ended(Implicit(cmd, 0), Aborted) && s'.db == s.db)
  {
    var s := After(cfg, schedule);
    Invariant(cfg, schedule);
    AloneSteps(cfg, schedule, t, cmd, raws, ids, tickets);
    var s1 := StartCommandStep(s, t, cmd);
    StartInv(cfg, s, t, cmd);
    hide Inv, After, Fresh, StateOf, Quiet, CommitStep, DecideStep, LoadEventsStep, LoadSnapshotStep, CheckDuplicateStep;
    ThroughAlone(cfg, s1, t, Implicit(cmd, 0), cmd, raws, ids, tickets);
    var w := WorkAlone(cfg, s, t, cmd, raws, ids, tickets);
    if Boxed(cfg, w.batch) {
      AppliedOnly(cfg, s.db, w);
    }
  }

  lemma StartInv(cfg: Config, s: Sys, t: nat, cmd: Command)
    requires Inv(cfg, s) && t !in s.threads
    ensures Inv(cfg, StartCommandStep(s, t, cmd))
  {
    hide Inv;
    StepKeepsInv(cfg, s, StartCommand(t, cmd));
  }

  /** What one command's transaction changes, stream by stream, and what it claims. */
  lemma AppliedOnly(cfg: Config, db: Database, w: Work)
    requires |db.views| == |cfg.strong| && |w.tickets| == |w.batch.events|
    ensures var db' := Applied(cfg, db, w);
      && Stream(db'.streams, w.batch.cmd.target) == Stream(db.streams, w.batch.cmd.target) + w.batch.events
      && (forall k: Key :: k != w.batch.cmd.target ==> Stream(db'.streams, k) == Stream(db.streams, k))
      && (cfg.idempotent && w.batch.cmd.id.Some? ==> db'.claims == db.claims + {w.batch.cmd.id.value})
      && (forall p :: 0 <= p < |db.views| ==>
            db'.views[p] == Project(cfg.strong[p], db.views[p], Delivered(cfg, w.batch.events, p)))
  {
    AppliedClaim(cfg, db, w);
    ViewsAfterLength(cfg, db.views, w.batch.events, |db.views|);
    forall k: Key | k != w.batch.cmd.target ensures Stream(Applied(cfg, db, w).streams, k) == Stream(db.streams, k) {
      AppliedStream(cfg, db, w, k);
      assert Stream(db.streams, k) + [] == Stream(db.streams, k);
    }
    AppliedStream(cfg, db, w, w.batch.cmd.target);
    hide Delivered, Project;
  }

  lemma ViewsCounted(cfg: Config, s: Sys)
    requires Inv(cfg, s)
    ensures |s.db.views| == |cfg.strong|
  {
  }

  lemma AppliedClaim(cfg: Config, db: Database, w: Work)
    requires |db.views| == |cfg.strong| && |w.tickets| == |w.batch.events|
    ensures cfg.idempotent && w.batch.cmd.id.Some? ==> Applied(cfg, db, w).claims == db.claims + {w.batch.cmd.id.value}
  {
  }

  // --- An explicit unit whose code catches a failed command ---

  /** The steps of a unit with one command, committed whether or not the command failed, and then a crash. */
  function CaughtThenCrash(t: nat, cmd: Command, raws: seq<RawEvent>, ids: seq<nat>, tickets: seq<nat>): seq<Action> {
    [StartUnit(t), Dispatch(t, cmd)] + ThroughActions(t, raws, ids, tickets) + [Abort(t)]
  }

  lemma CaughtSteps(cfg: Config, schedule: seq<Action>, t: nat, cmd: Command, raws: seq<RawEvent>, ids: seq<nat>, tickets: seq<nat>)
    ensures After(cfg, schedule + CaughtThenCrash(t, cmd, raws, ids, tickets)) ==
      AbortStep(Through(cfg, DispatchStep(StartUnitStep(After(cfg, schedule), t), t, cmd), t, raws, ids, tickets), t)
  {
    hide Through, ThroughActions, StartUnitStep, DispatchStep, AbortStep;
    var q1 := schedule + [StartUnit(t)];
    var q2 := q1 + [Dispatch(t, cmd)];
    var q3 := q2 + ThroughActions(t, raws, ids, tickets);
    AfterOne(cfg, schedule, StartUnit(t));
    AfterOne(cfg, q1, Dispatch(t, cmd));
    ThroughSteps(cfg, q2, t, raws, ids, tickets);
    AfterOne(cfg, q3, Abort(t));
    hide After;
    assert schedule + CaughtThenCrash(t, cmd, raws, ids, tickets) == q3 + [Abort(t)];
  }

  lemma UnitInv(cfg: Config, s: Sys, t: nat, cmd: Command)
    requires Inv(cfg, s) && t !in s.threads
    ensures Inv(cfg, DispatchStep(StartUnitStep(s, t), t, cmd))
  {
    hide Inv, Step;
    StepOf(cfg, s, StartUnit(t));
    StepKeepsInv(cfg, s, StartUnit(t));
    StepKeepsInv(cfg, StartUnitStep(s, t), Dispatch(t, cmd));
    StepOf(cfg, StartUnitStep(s, t), Dispatch(t, cmd));
  }

  lemma StepOf(cfg: Config, s: Sys, a: Action)
    ensures a.StartUnit? ==> Step(cfg, s, a) == StartUnitStep(s, a.t)
    ensures a.Dispatch? ==> Step(cfg, s, a) == DispatchStep(s, a.t, a.cmd)
    ensures a.StartCommand? ==> Step(cfg, s, a) == StartCommandStep(s, a.t, a.cmd)
    ensures a.CheckDuplicate? ==> Step(cfg, s, a) == CheckDuplicateStep(cfg, s, a.t)
  {
  }

  /**
   * Where the outbox and strong views fall short: from every reachable state, a unit whose
   * code carries on after a command failed while it was being enlisted commits the events.
   * After a crash before publishing they wait in the outbox exactly if no id extractor
   * threw; and each strong view has seen just what was enlisted before the throw.
   */
  lemma CaughtFailureLosesEventsIff(cfg: Config, schedule: seq<Action>, t: nat, cmd: Command, raws: seq<RawEvent>,
                                    ids: seq<nat>, tickets: seq<nat>, e: Event)
    requires var s := After(cfg, schedule);
      && cfg.outboxed && t !in s.threads
      && (cfg.idempotent && cmd.id.Some? ==> cmd.id.value !in s.db.claims)
      && MayAnswer(cfg, s, cmd, raws, ids, tickets)
    requires e in Enrich(AggregateOf(cfg, cmd.target), raws, cmd.target, |Stream(After(cfg, schedule).db.streams, cmd.target)|, ids)
    ensures var s := After(cfg, schedule);
      var s' := After(cfg, schedule + CaughtThenCrash(t, cmd, raws, ids, tickets));
      var events := Enrich(AggregateOf(cfg, cmd.target), raws, cmd.target, |Stream(s.db.streams, cmd.target)|, ids);
      && IsCommitted(s'.db.streams, e) && e !in s'.dispatched
      && (Pending(s'.db.outbox, e) <==> Quiet(cfg, events, |cfg.strong|))
      && |s.db.views| == |s'.db.views| == |cfg.strong|
      && forall p :: 0 <= p < |cfg.strong| ==>
           s'.db.views[p] == Project(cfg.strong[p], s.db.views[p], Delivered(cfg, events, p))
  {
    var s := After(cfg, schedule);
    Invariant(cfg, schedule);
    CaughtSteps(cfg, schedule, t, cmd, raws, ids, tickets);
    Invariant(cfg, schedule + CaughtThenCrash(t, cmd, raws, ids, tickets));
    UnitInv(cfg, s, t, cmd);
    CaughtAccount(cfg, s, t, cmd, raws, ids, tickets, e);
  }

  lemma CaughtAccount(cfg: Config, s: Sys, t: nat, cmd: Command, raws: seq<RawEvent>, ids: seq<nat>, tickets: seq<nat>, e: Event)
    requires Inv(cfg, s) && cfg.outboxed && t !in s.threads
    requires cfg.idempotent && cmd.id.Some? ==> cmd.id.value !in s.db.claims
    requires MayAnswer(cfg, s, cmd, raws, ids, tickets)
    requires Inv(cfg, DispatchStep(StartUnitStep(s, t), t, cmd))
    requires Inv(cfg, AbortStep(Through(cfg, DispatchStep(StartUnitStep(s, t), t, cmd), t, raws, ids, tickets), t))
    requires e in WorkAlone(cfg, s, t, cmd, raws, ids, tickets).batch.events
    ensures var s' := AbortStep(Through(cfg, DispatchStep(StartUnitStep(s, t), t, cmd), t, raws, ids, tickets), t);
      var w := WorkAlone(cfg, s, t, cmd, raws, ids, tickets);
      && IsCommitted(s'.db.streams, e) && e !in s'.dispatched
      && (Pending(s'.db.outbox, e) <==> Boxed(cfg, w.batch))
      && |s.db.views| == |s'.db.views| == |cfg.strong|
      && forall p :: 0 <= p < |cfg.strong| ==>
           s'.db.views[p] == Project(cfg.strong[p], s.db.views[p], Delivered(cfg, w.batch.events, p))
  {
    hide *;
    WorkAloneOk(cfg, s, t, cmd, raws, ids, tickets);
    var w := WorkAlone(cfg, s, t, cmd, raws, ids, tickets);
    NotDispatchedYet(cfg, s, w, e);
    CaughtCommits(cfg, s, t, cmd, raws, ids, tickets);
    var s' := AbortStep(Through(cfg, DispatchStep(StartUnitStep(s, t), t, cmd), t, raws, ids, tickets), t);
    AppliedOnly(cfg, s.db, w);
    AppliedLog(cfg, s.db, w);
    ViewsCounted(cfg, s');
    LastAccount(cfg, s', w, e);
  }

  lemma WorkAloneOk(cfg: Config, s: Sys, t: nat, cmd: Command, raws: seq<RawEvent>, ids: seq<nat>, tickets: seq<nat>)
    requires MayAnswer(cfg, s, cmd, raws, ids, tickets)
    ensures |ids| == |raws|
    ensures var w := WorkAlone(cfg, s, t, cmd, raws, ids, tickets);
      && |w.tickets| == |w.batch.events| && w.batch.version == |Stream(s.db.streams, w.batch.cmd.target)|
      && Enriched(AggregateOf(cfg, w.batch.cmd.target), w.batch.cmd.target, w.batch.version, w.batch.events)
  {
  }

  lemma CaughtCommits(cfg: Config, s: Sys, t: nat, cmd: Command, raws: seq<RawEvent>, ids: seq<nat>, tickets: seq<nat>)
    requires Inv(cfg, s) && t !in s.threads
    requires cfg.idempotent && cmd.id.Some? ==> cmd.id.value !in s.db.claims
    requires MayAnswer(cfg, s, cmd, raws, ids, tickets)
    requires Inv(cfg, DispatchStep(StartUnitStep(s, t), t, cmd))
    ensures |s.db.views| == |cfg.strong|
    ensures var s' := AbortStep(Through(cfg, DispatchStep(StartUnitStep(s, t), t, cmd), t, raws, ids, tickets), t);
      s'.dispatched == s.dispatched && s'.db == Applied(cfg, s.db, WorkAlone(cfg, s, t, cmd, raws, ids, tickets))
  {
    var s2 := DispatchStep(StartUnitStep(s, t), t, cmd);
    UnitBegins(cfg, s, t, cmd);
    ViewsCounted(cfg, s);
    assert MayAnswer(cfg, s2, cmd, raws, ids, tickets) && WorkAlone(cfg, s2, t, cmd, raws, ids, tickets) == WorkAlone(cfg, s, t, cmd, raws, ids, tickets);
    hide Inv, Through, MayAnswer, DispatchStep, StartUnitStep, Boxed, Applied, Beginning;
    ThroughAlone(cfg, s2, t, Explicit, cmd, raws, ids, tickets);
  }

  lemma UnitBegins(cfg: Config, s: Sys, t: nat, cmd: Command)
    requires t !in s.threads && (cfg.idempotent && cmd.id.Some? ==> cmd.id.value !in s.db.claims)
    ensures var s2 := DispatchStep(StartUnitStep(s, t), t, cmd);
      s2.db == s.db && s2.issued == s.issued && s2.dispatched == s.dispatched && Beginning(cfg, s2, t, Explicit, cmd)
  {
  }

  /** An event with a number past the end of its stream has not been dispatched. */
  lemma NotDispatchedYet(cfg: Config, s: Sys, w: Work, e: Event)
    requires Inv(cfg, s) && e in w.batch.events && w.batch.version == |Stream(s.db.streams, w.batch.cmd.target)|
    requires Enriched(AggregateOf(cfg, w.batch.cmd.target), w.batch.cmd.target, w.batch.version, w.batch.events)
    ensures e !in s.dispatched
  {
    assert DeliveryOk(cfg, s.dispatched, s.db);
    assert e in s.dispatched ==> IsCommitted(s.db.streams, e);
  }

  lemma LastAccount(cfg: Config, s: Sys, w: Work, e: Event)
    requires Inv(cfg, s) && cfg.outboxed && s.db.log != [] && s.db.log[|s.db.log| - 1] == w.batch && e in w.batch.events
    requires e !in s.dispatched
    ensures IsCommitted(s.db.streams, e) && (Pending(s.db.outbox, e) <==> Boxed(cfg, w.batch))
  {
    var n := |s.db.log| - 1;
    assert StreamsOk(cfg, s.db) && OutboxOk(cfg, s.issued, s.dispatched, s.db) && DeliveryOk(cfg, s.dispatched, s.db);
    hide Inv, Boxed;
    LoggedIsCommitted(cfg, s.db, n, e);
    assert w.batch in s.db.log;
    if Boxed(cfg, w.batch) {
      assert Accounted(s.dispatched, s.db.outbox, e);
    } else {
      assert e in Unboxed(cfg, s.db.log);
    }
  }

  // --- What is saved after the commit is found again ---

  /**
   * From every reachable state, a snapshot that is saved is the one the next command on its
   * aggregate starts from, and it gives that command the state of the whole stream.
   */
  lemma SavedSnapshotIsLoaded(cfg: Config, schedule: seq<Action>, t: nat, u: nat)
    requires var s := After(cfg, schedule);
      && t in s.threads && s.threads[t].Committed? && s.threads[t].snapshots != []
      && u in s.threads && s.threads[u].Loading? && s.threads[u].cmd.target == s.threads[t].snapshots[0].0
      && cfg.snapshotting(s.threads[u].cmd.target.name)
    ensures var s := After(cfg, schedule);
      var s' := After(cfg, schedule + [SaveSnapshot(t, true)] + [LoadSnapshot(u)]);
      var k, stream := s.threads[u].cmd.target, Stream(s.db.streams, s.threads[u].cmd.target);
      && u in s'.threads && s'.threads[u].Based? && s'.threads[u].base == Some(s.threads[t].snapshots[0].1)
      && s'.db.streams == s.db.streams
      && LoadState(cfg, s'.db, k, s'.threads[u].base) == (StateOf(AggregateOf(cfg, k), stream), |stream|)
  {
    var s := After(cfg, schedule);
    var q1 := schedule + [SaveSnapshot(t, true)];
    AfterOne(cfg, schedule, SaveSnapshot(t, true));
    AfterOne(cfg, q1, LoadSnapshot(u));
    Invariant(cfg, q1 + [LoadSnapshot(u)]);
    var s' := After(cfg, q1 + [LoadSnapshot(u)]);
    hide After, Inv, LoadState, StateOf;
    LoadsTheStream(cfg, s', s.threads[u].cmd.target, s'.threads[u].base);
  }

  /** Once its publisher has marked the outbox, none of its events waits there. */
  lemma MarkedNoLongerWait(cfg: Config, schedule: seq<Action>, t: nat, e: Event)
    requires var s := After(cfg, schedule);
      && t in s.threads && s.threads[t].Committed? && s.threads[t].snapshots == []
      && s.threads[t].next >= |s.threads[t].events| && e in s.threads[t].events
    ensures var s' := After(cfg, schedule + [MarkPublished(t, true)]);
      && !Pending(s'.db.outbox, e) && e in s'.dispatched && t in s'.threads
      && s'.threads[t] == Ended(After(cfg, schedule).threads[t].job, Completed)
  {
    hide *;
    AfterOne(cfg, schedule, MarkPublished(t, true));
    Invariant(cfg, schedule);
    AllPublished(cfg, After(cfg, schedule), t);
    MarkedOutbox(cfg, After(cfg, schedule), t, e);
  }

  lemma AllPublished(cfg: Config, s: Sys, t: nat)
    requires Inv(cfg, s) && t in s.threads && s.threads[t].Committed? && s.threads[t].next >= |s.threads[t].events|
    ensures forall i :: 0 <= i < |s.threads[t].events| ==> s.threads[t].events[i] in s.dispatched
  {
    assert ThreadOk(cfg, s, t, s.threads[t]);
    hide GoodDb, SavesOnce, SnapshotValid, IsCommitted;
  }

  lemma MarkedOutbox(cfg: Config, s: Sys, t: nat, e: Event)
    requires t in s.threads && s.threads[t].Committed? && s.threads[t].snapshots == []
    requires s.threads[t].next >= |s.threads[t].events| && e in s.threads[t].events
    requires forall i :: 0 <= i < |s.threads[t].events| ==> s.threads[t].events[i] in s.dispatched
    ensures var s' := Step(cfg, s, MarkPublished(t, true));
      && !Pending(s'.db.outbox, e) && e in s'.dispatched && t in s'.threads
      && s'.threads[t] == Ended(s.threads[t].job, Completed)
  {
    assert e.metadata.eventId in EventIds(s.threads[t].events);
    hide EventIds;
  }

  // --- A duplicate ---

  /** A step by or about a thread that ended changes neither it nor what it owns. */
  lemma EndedStays(cfg: Config, s: Sys, a: Action, t: nat)
    requires Inv(cfg, s) && t in s.threads && s.threads[t].Ended? && t !in AllOwners(s.db.log)
    ensures var s' := Step(cfg, s, a); t in s'.threads && s'.threads[t] == s.threads[t] && t !in AllOwners(s'.db.log)
  {
    hide *;
    EndedThread(cfg, s, a, t);
    if a.CommitUnit? {
      CommitAction(cfg, s, a.t);
      CommitsOthers(cfg, s, a.t, t);
    } else {
      EngineHistory.QuietStepMoved(cfg, s, a);
    }
  }

  lemma CommitAction(cfg: Config, s: Sys, c: nat)
    ensures Step(cfg, s, CommitUnit(c)) == CommitStep(cfg, s, c)
  {
    hide CommitStep;
  }

  lemma CommitsOthers(cfg: Config, s: Sys, c: nat, t: nat)
    requires Inv(cfg, s) && t in s.threads && s.threads[t].Ended? && t !in AllOwners(s.db.log)
    ensures t !in AllOwners(CommitStep(cfg, s, c).db.log)
  {
    hide *;
    if c in s.threads && s.threads[c].Ready? {
      EngineHistory.CommitMoved(cfg, s, c);
      EngineHistory.OwnCommandsNone(s.db.log, t);
      EngineHistory.OwnCommandsNone(CommitStep(cfg, s, c).db.log, t);
      MovedSaves(s, CommitStep(cfg, s, c), c, t);
    } else {
      EngineHistory.IdleCommit(cfg, s, c);
    }
  }

  lemma MovedSaves(s: Sys, s': Sys, c: nat, t: nat)
    requires EngineHistory.Moved(s, s', c) && t != c
    ensures EngineHistory.OwnCommands(s'.db.log, t) == EngineHistory.OwnCommands(s.db.log, t)
  {
    hide EngineHistory.OwnCommands;
    assert EngineHistory.Untouched(s, s', t);
  }

  lemma EndedThread(cfg: Config, s: Sys, a: Action, t: nat)
    requires t in s.threads && s.threads[t].Ended?
    ensures var s' := Step(cfg, s, a); t in s'.threads && s'.threads[t] == s.threads[t]
  {
    hide Commit, LoadState, Enlist, Issue, Fresh, MarkByEventId, EventIds, BatchOf, Purged, UnitSnapshots, UnitEvents, Boxed, AfterCommit;
  }

  /**
   * From every reachable state, a command whose id is already claimed when checked is
   * skipped: the database is untouched, and however the schedule goes on it stays skipped
   * and saves nothing.
   */
  lemma {:induction false} ClaimedCommandIsSkipped(cfg: Config, schedule: seq<Action>, t: nat, cmd: Command, later: seq<Action>)
    requires cfg.idempotent && cmd.id.Some? && cmd.id.value in After(cfg, schedule).db.claims
    requires t !in After(cfg, schedule).threads
    ensures var checked := schedule + [StartCommand(t, cmd), CheckDuplicate(t)];
      var s' := After(cfg, checked + later);
      && After(cfg, checked).db == After(cfg, schedule).db
      && t in s'.threads && s'.threads[t] == Ended(Implicit(cmd, 0), Skipped)
      && t !in AllOwners(s'.db.log)
    decreases |later|
  {
    var checked := schedule + [StartCommand(t, cmd), CheckDuplicate(t)];
    if later == [] {
      SkippedAtOnce(cfg, schedule, t, cmd);
      assert checked + later == checked;
    } else {
      var front, last := later[..|later| - 1], later[|later| - 1];
      ClaimedCommandIsSkipped(cfg, schedule, t, cmd, front);
      assert checked + later == checked + front + [last];
      AfterOne(cfg, checked + front, last);
      Invariant(cfg, checked + front);
      hide Inv, Step, After, AllOwners;
      EndedStays(cfg, After(cfg, checked + front), last, t);
    }
  }

  lemma SkippedAtOnce(cfg: Config, schedule: seq<Action>, t: nat, cmd: Command)
    requires cfg.idempotent && cmd.id.Some? && cmd.id.value in After(cfg, schedule).db.claims
    requires t !in After(cfg, schedule).threads
    ensures var s := After(cfg, schedule);
      var s' := After(cfg, schedule + [StartCommand(t, cmd), CheckDuplicate(t)]);
      && s'.db == s.db && t in s'.threads && s'.threads[t] == Ended(Implicit(cmd, 0), Skipped)
      && t !in AllOwners(s'.db.log)
  {
    hide *;
    var s := After(cfg, schedule);
    Invariant(cfg, schedule);
    NoOwner(cfg, s, t);
    StepOf(cfg, s, StartCommand(t, cmd));
    StepOf(cfg, StartCommandStep(s, t, cmd), CheckDuplicate(t));
    AfterOne(cfg, schedule, StartCommand(t, cmd));
    AfterOne(cfg, schedule + [StartCommand(t, cmd)], CheckDuplicate(t));
    assert schedule + [StartCommand(t, cmd), CheckDuplicate(t)] == schedule + [StartCommand(t, cmd)] + [CheckDuplicate(t)];
    SkippedSteps(cfg, s, t, cmd);
  }

  lemma SkippedSteps(cfg: Config, s: Sys, t: nat, cmd: Command)
    requires cfg.idempotent && cmd.id.Some? && cmd.id.value in s.db.claims && t !in s.threads
    ensures var s' := CheckDuplicateStep(cfg, StartCommandStep(s, t, cmd), t);
      s'.db == s.db && t in s'.threads && s'.threads[t] == Ended(Implicit(cmd, 0), Skipped)
  {
    var s1 := StartCommandStep(s, t, cmd);
    assert s1 == WithThread(s, t, Checking(Implicit(cmd, 0), [], cmd));
  }

  lemma NoOwner(cfg: Config, s: Sys, t: nat)
    requires Inv(cfg, s) && t !in s.threads
    ensures t !in AllOwners(s.db.log)
  {
  }

  // --- No execution is retried more than it may be ---

  ghost predicate Retries(cfg: Config, s: Sys) {
    forall t :: t in s.threads && IsImplicit(s.threads[t]) ==> s.threads[t].job.attempt <= cfg.maxRetries
  }

  /** The attempts of the thread that moves. */
  lemma AttemptKept(cfg: Config, s: Sys, a: Action)
    requires !a.Purge? && !a.CommitUnit? && Retries(cfg, s)
    ensures var s' := Step(cfg, s, a);
      a.t in s'.threads && IsImplicit(s'.threads[a.t]) ==> s'.threads[a.t].job.attempt <= cfg.maxRetries
  {
    hide Commit, LoadState, Enlist, Issue, Fresh, MarkByEventId, EventIds, BatchOf, Purged, UnitSnapshots, UnitEvents, Boxed, AfterCommit;
  }

  lemma RetryCounted(cfg: Config, s: Sys, t: nat)
    requires Retries(cfg, s)
    ensures var s' := CommitStep(cfg, s, t);
      t in s'.threads && IsImplicit(s'.threads[t]) ==> s'.threads[t].job.attempt <= cfg.maxRetries
  {
    hide Commit, UnitSnapshots, UnitEvents;
  }

  lemma {:induction false} RetriesStep(cfg: Config, s: Sys, a: Action)
    requires Retries(cfg, s)
    ensures Retries(cfg, Step(cfg, s, a))
  {
    hide Step, CommitStep;
    EngineHistory.ThreadsOf(cfg, s, a);
    if a.CommitUnit? {
      CommitAction(cfg, s, a.t);
      RetryCounted(cfg, s, a.t);
    } else if !a.Purge? {
      AttemptKept(cfg, s, a);
    }
  }

  /** In every schedule an execution makes at most `maxRetries + 1` attempts. */
  lemma {:induction false} AttemptsBounded(cfg: Config, schedule: seq<Action>)
    ensures Retries(cfg, After(cfg, schedule))
  {
    if schedule != [] {
      AttemptsBounded(cfg, schedule[..|schedule| - 1]);
      RetriesStep(cfg, After(cfg, schedule[..|schedule| - 1]), schedule[|schedule| - 1]);
    }
  }

  // --- One aggregate twice in one unit of work ---

  lemma {:induction false} LogStreamMonotone(log: seq<Batch>, k: Key, m: nat, n: nat)
    requires m <= n <= |log|
    ensures |LogStream(log[..m], k)| <= |LogStream(log[..n], k)|
    ensures m < n && log[m].cmd.target == k ==> |LogStream(log[..m], k)| + |log[m].events| <= |LogStream(log[..n], k)|
    decreases n
  {
    if m < n {
      assert log[..n][..n - 1] == log[..n - 1];
      LogStreamMonotone(log, k, m, n - 1);
    }
  }

  /**
   * Commands of one unit of work all load before it commits, so two non-empty batches on
   * one aggregate expect versions that cannot both be current: such a unit never commits,
   * and its attempt to leaves the database as it was.
   */
  lemma {:induction false} SameAggregateTwiceNeverCommits(cfg: Config, schedule: seq<Action>, t: nat, i: nat, j: nat)
    requires var s := After(cfg, schedule);
      && t in s.threads && s.threads[t].Ready? && i < j < |s.threads[t].works|
      && s.threads[t].works[i].batch.events != [] && s.threads[t].works[j].batch.events != []
      && s.threads[t].works[i].batch.cmd.target == s.threads[t].works[j].batch.cmd.target
    ensures var s := After(cfg, schedule);
      && !Commit(cfg, s.db, s.threads[t].works).Ok?
      && CommitStep(cfg, s, t).db == s.db
  {
    Invariant(cfg, schedule);
    var s := After(cfg, schedule);
    var works := s.threads[t].works;
    assert ThreadOk(cfg, s, t, s.threads[t]);
    if Commit(cfg, s.db, works).Ok? {
      CommitGood(cfg, s.issued, s.dispatched, s.db, t, works);
      var d := Commit(cfg, s.db, works).db;
      hide *;
      TwiceContradicts(cfg, s, d, t, works, i, j);
    }
  }

  /** A saved non-empty batch was saved at the length its stream then had. */
  lemma SavedAtItsVersion(cfg: Config, db: Database, n: nat)
    requires StreamsOk(cfg, db) && n < |db.log| && db.log[n].events != []
    ensures db.log[n].version == |LogStream(db.log[..n], db.log[n].cmd.target)|
  {
    assert BatchOk(cfg, db.log[..n], db.log[n]);
  }

  lemma SeenAtMost(cfg: Config, s: Sys, t: nat, works: seq<Work>, j: nat)
    requires WorksOk(cfg, s.db.streams, s.issued, t, works) && j < |works| && StreamsOk(cfg, s.db)
    ensures works[j].batch.version <= |LogStream(s.db.log, works[j].batch.cmd.target)|
  {
    assert WorkOk(cfg, s.db.streams, s.issued, t, works[j]);
  }

  lemma UnitInLog(log: seq<Batch>, works: seq<Work>)
    ensures |UnitBatches(works)| == |works|
    ensures forall i :: 0 <= i < |works| ==> (log + UnitBatches(works))[|log| + i] == works[i].batch
  {
  }

  lemma TwiceContradicts(cfg: Config, s: Sys, d: Database, t: nat, works: seq<Work>, i: nat, j: nat)
    requires i < j < |works| && works[i].batch.events != [] && works[j].batch.events != []
    requires works[i].batch.cmd.target == works[j].batch.cmd.target
    requires WorksOk(cfg, s.db.streams, s.issued, t, works) && StreamsOk(cfg, s.db)
    ensures StreamsOk(cfg, d) ==> d.log != s.db.log + UnitBatches(works)
  {
    hide *;
    var k, n := works[j].batch.cmd.target, |s.db.log|;
    SeenAtMost(cfg, s, t, works, j);
    if StreamsOk(cfg, d) && d.log == s.db.log + UnitBatches(works) {
      UnitInLog(s.db.log, works);
      assert d.log[n + i] == works[i].batch && d.log[n + j] == works[j].batch && d.log[..n] == s.db.log;
      LogStreamMonotone(d.log, k, n, n + i);
      LogStreamMonotone(d.log, k, n + i, n + j);
      SavedAtItsVersion(cfg, d, n + j);
    }
  }
}
