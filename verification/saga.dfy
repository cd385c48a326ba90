/**
 * The saga executor over the engine: any number of saga executions interleave with any
 * number of commands, units of work and relays. In atomic mode the state save and what the
 * reaction commands enlist are one transaction; in best-effort mode the state is committed
 * first and each reaction is a command with its own unit of work.
 */
module Saga {
  import opened Types
  import opened VersionedStore
  import Engine

  type SagaId = string

  datatype Reaction = Reaction(state: State, commands: seq<Engine.Command>)

  datatype SagaHandler = SagaHandler(id: Event -> SagaId, handle: (Event, State) -> Reaction)

  datatype Definition = Definition(
    initial: State,
    startedBy: set<EventName>,
    on: map<EventName, SagaHandler>,
    atomic: bool)

  /** What dispatching a reaction command into the saga's unit came to: a batch enlisted, or a duplicate skipped. */
  datatype Fate = Batched | Skipped

  /** A committed transition, with the reaction commands and what became of each in an atomic unit. */
  datatype Transition = Transition(owner: nat, id: SagaId, event: Event, commands: seq<Engine.Command>, fates: seq<Fate>)

  /** A saga execution. Its unit of work is the engine thread of the same number. */
  datatype Execution =
    | Loading(event: Event)
    | Handling(event: Event, id: SagaId, state: State, version: nat)
    | Reacting(event: Event, id: SagaId, version: nat, reaction: Reaction, fates: seq<Fate>)
    | Settled(reaction: Reaction, committed: bool)
    | Publishing(reaction: Reaction)
    | Dispatching(reaction: Reaction)
    | Ended

  /**
   * The engine, the saga store, and the log of committed transitions. `children` lists the
   * commands a best-effort execution started, in order. `hooks` counts how often an
   * execution ran its completion hooks; `started` says which opened a unit of work, and
   * `failed` which failed, conflicted or crashed.
   */
  datatype World = World(
    sys: Engine.Sys,
    sagas: map<SagaId, Versioned<State>>,
    log: seq<Transition>,
    children: map<nat, seq<nat>>,
    started: set<nat>,
    failed: set<nat>,
    crashed: set<nat>,
    hooks: map<nat, nat>,
    executions: map<nat, Execution>)

  datatype Move =
    | Environment(a: Engine.Action)
    | Deliver(t: nat, event: Event)
    | Load(t: nat)
    | Handle(t: nat)
    | Dispatch(t: nat)
    | Work(a: Engine.Action)
    | Commit(t: nat)
    | Fail(t: nat)
    | SaveSnapshot(t: nat, saved: bool)
    | RunHooks(t: nat)
    | Publish(t: nat)
    | Published(t: nat, marked: bool)
    | React(t: nat, child: nat)
    | Finish(t: nat)
    | Crash(t: nat)

  // --- One transaction over the saga store and the engine's database ---

  datatype Stored = Stored(sagas: map<SagaId, Versioned<State>>, db: Engine.Database)

  datatype UnitOp =
    | SaveSaga(id: SagaId, state: State, expected: nat)
    | EngineOp(op: Engine.Op)

  function ExecUnit(cfg: Engine.Config, s: Stored, op: UnitOp): Option<Stored> {
    match op
    case SaveSaga(id, state, expected) =>
      (match CompareAndSet(s.sagas, id, state, expected)
       case None => None
       case Some(sagas) => Some(s.(sagas := sagas)))
    case EngineOp(engineOp) =>
      (match Engine.Exec(cfg, s.db, engineOp)
       case Ok(db) => Some(s.(db := db))
       case _ => None)
  }

  /** Operations in enlistment order, all or none. */
  function RunUnit(cfg: Engine.Config, s: Stored, ops: seq<UnitOp>): Option<Stored> {
    if ops == [] then Some(s)
    else
      match RunUnit(cfg, s, ops[..|ops| - 1])
      case None => None
      case Some(front) => ExecUnit(cfg, front, ops[|ops| - 1])
  }

  function Lifted(ops: seq<Engine.Op>): (r: seq<UnitOp>)
    ensures |r| == |ops|
    ensures forall i :: 0 <= i < |r| ==> r[i] == EngineOp(ops[i])
  {
    seq(|ops|, i requires 0 <= i < |ops| => EngineOp(ops[i]))
  }

  /** The saga's state save first, then everything its reaction commands enlisted. */
  function SagaOps(cfg: Engine.Config, x: Execution, works: seq<Engine.Work>): seq<UnitOp>
    requires x.Reacting?
  {
    [SaveSaga(x.id, x.reaction.state, x.version)] + Lifted(Engine.UnitOps(cfg, works))
  }

  // --- Steps ---

  function With(w: World, t: nat, x: Execution): World {
    w.(executions := w.executions[t := x])
  }

  function Do(cfg: Engine.Config, w: World, a: Engine.Action): World {
    w.(sys := Engine.Step(cfg, w.sys, a))
  }

  /** Anything the engine does that is not part of a saga execution's own unit of work. */
  function EnvironmentStep(cfg: Engine.Config, w: World, a: Engine.Action): World {
    if !a.Purge? && a.t in w.executions then w else Do(cfg, w, a)
  }

  /** An event the saga does not handle is dropped. */
  function DeliverStep(def: Definition, w: World, t: nat, e: Event): World {
    if t in w.executions || t in w.sys.threads then w
    else With(w, t, if e.name in def.on then Loading(e) else Ended)
  }

  /** Bootstrap or resume; an absent instance ignores events that do not start it. */
  function LoadStep(def: Definition, w: World, t: nat): World {
    if t !in w.executions || !w.executions[t].Loading? || w.executions[t].event.name !in def.on then w
    else
      var e := w.executions[t].event;
      var id := def.on[e.name].id(e);
      if id in w.sagas then With(w, t, Handling(e, id, w.sagas[id].state, w.sagas[id].version))
      else if e.name in def.startedBy then With(w, t, Handling(e, id, def.initial, 0))
      else With(w, t, Ended)
  }

  /** The handler runs, then the unit of work is created and the state save enlisted. */
  function HandleStep(cfg: Engine.Config, def: Definition, w: World, t: nat): World {
    if t !in w.executions || !w.executions[t].Handling? || w.executions[t].event.name !in def.on then w
    else
      var x := w.executions[t];
      var reaction := def.on[x.event.name].handle(x.event, x.state);
      With(Do(cfg, w, Engine.StartUnit(t)), t, Reacting(x.event, x.id, x.version, reaction, []))
        .(started := w.started + {t})
  }

  predicate UnitReady(w: World, t: nat) {
    t in w.executions && w.executions[t].Reacting? && t in w.sys.threads && w.sys.threads[t].Ready?
  }

  /** Atomic mode: the next reaction command is dispatched into the saga's unit of work. */
  function DispatchStep(cfg: Engine.Config, def: Definition, w: World, t: nat): World {
    if !UnitReady(w, t) || !def.atomic then w
    else
      var x := w.executions[t];
      if |x.fates| >= |x.reaction.commands| then w
      else Do(cfg, w, Engine.Dispatch(t, x.reaction.commands[|x.fates|]))
  }

  /**
   * A step of the reaction command in flight. It is skipped if its id is claimed, and
   * otherwise ends by enlisting its batch; a command that throws fails the execution.
   */
  function WorkStep(cfg: Engine.Config, w: World, a: Engine.Action): World {
    if !(a.CheckDuplicate? || a.LoadSnapshot? || a.LoadEvents? || a.Decide?) then w
    else if a.t !in w.executions || !w.executions[a.t].Reacting? || a.t !in w.sys.threads then w
    else
      var x, before := w.executions[a.t], w.sys.threads[a.t];
      var w' := Do(cfg, w, a);
      if before.Ready? || a.t !in w'.sys.threads || !w'.sys.threads[a.t].Ready? then w'
      else if before.Checking? then With(w', a.t, x.(fates := x.fates + [Skipped]))
      else
        var works := w'.sys.threads[a.t].works;
        if works != [] && Engine.Boxed(cfg, works[|works| - 1].batch)
        then With(w', a.t, x.(fates := x.fates + [Batched]))
        else w
  }

  /** One transaction: the version-checked state save and whatever else was enlisted. */
  function CommitStep(cfg: Engine.Config, def: Definition, w: World, t: nat): World {
    if !UnitReady(w, t) || (def.atomic && |w.executions[t].fates| < |w.executions[t].reaction.commands|) then w
    else
      var x, works := w.executions[t], w.sys.threads[t].works;
      match RunUnit(cfg, Stored(w.sagas, w.sys.db), SagaOps(cfg, x, works))
      case None =>
        With(Do(cfg, w, Engine.Abort(t)), t, Settled(x.reaction, false)).(failed := w.failed + {t})
      case Some(after) =>
        var committed := Engine.Committed(w.sys.threads[t].job, Engine.UnitSnapshots(works), Engine.UnitEvents(works), 0);
        With(w, t, Settled(x.reaction, true))
          .(sys := Engine.WithThread(w.sys, t, committed).(db := after.db),
            sagas := after.sagas,
            log := w.log + [Transition(t, x.id, x.event, x.reaction.commands, x.fates)])
  }

  /** The handler, a reaction command, or publishing throws; an open unit of work is rolled back. */
  function FailStep(cfg: Engine.Config, w: World, t: nat): World {
    if t !in w.executions then w
    else
      match w.executions[t]
      case Loading(_) => With(w, t, Ended).(failed := w.failed + {t})
      case Handling(_, _, _, _) => With(w, t, Ended).(failed := w.failed + {t})
      case Reacting(_, _, _, reaction, _) =>
        With(Do(cfg, w, Engine.Abort(t)), t, Settled(reaction, false)).(failed := w.failed + {t})
      case Publishing(_) => With(Do(cfg, w, Engine.Abort(t)), t, Ended).(failed := w.failed + {t})
      case Dispatching(_) => With(w, t, Ended).(failed := w.failed + {t})
      case _ => w
  }

  /** The committed hooks: each pending snapshot is saved, or fails to be, without consequence. */
  function SaveSnapshotStep(cfg: Engine.Config, w: World, t: nat, saved: bool): World {
    if t !in w.executions || !w.executions[t].Settled? then w else Do(cfg, w, Engine.SaveSnapshot(t, saved))
  }

  function Hooks(w: World, t: nat): nat {
    if t in w.hooks then w.hooks[t] else 0
  }

  predicate SnapshotsDone(w: World, t: nat) {
    t in w.sys.threads && w.sys.threads[t].Committed? && w.sys.threads[t].snapshots == []
  }

  /** The completion hooks run once the unit settled, before anything is published. */
  function RunHooksStep(w: World, t: nat): World {
    if t !in w.executions || !w.executions[t].Settled? then w
    else if w.executions[t].committed && !SnapshotsDone(w, t) then w
    else
      With(w, t, if w.executions[t].committed then Publishing(w.executions[t].reaction) else Ended)
        .(hooks := w.hooks[t := Hooks(w, t) + 1])
  }

  function PublishStep(cfg: Engine.Config, w: World, t: nat): World {
    if t !in w.executions || !w.executions[t].Publishing? then w else Do(cfg, w, Engine.Publish(t))
  }

  /** Everything is published; the outbox is marked, or failed to be. */
  function PublishedStep(cfg: Engine.Config, def: Definition, w: World, t: nat, marked: bool): World {
    if t !in w.executions || !w.executions[t].Publishing? || !SnapshotsDone(w, t) then w
    else if w.sys.threads[t].next < |w.sys.threads[t].events| then w
    else
      var w' := Do(cfg, w, Engine.MarkPublished(t, marked));
      With(w', t, if def.atomic then Ended else Dispatching(w.executions[t].reaction))
  }

  function Children(w: World, t: nat): seq<nat> {
    if t in w.children then w.children[t] else []
  }

  /** A command's dispatch resolves when it completed or was skipped, and rejects otherwise. */
  predicate Resolved(s: Engine.Sys, c: nat) {
    c in s.threads && s.threads[c].Ended? && (s.threads[c].result == Engine.Completed || s.threads[c].result == Engine.Skipped)
  }

  predicate AllResolved(w: World, t: nat) {
    forall n :: 0 <= n < |Children(w, t)| ==> Resolved(w.sys, Children(w, t)[n])
  }

  /** Best-effort mode: the next reaction command is dispatched on its own. */
  function ReactStep(cfg: Engine.Config, w: World, t: nat, child: nat): World {
    if t !in w.executions || !w.executions[t].Dispatching? || !AllResolved(w, t) then w
    else if |Children(w, t)| >= |w.executions[t].reaction.commands| then w
    else if child in w.sys.threads || child in w.executions then w
    else
      Do(cfg, w, Engine.StartCommand(child, w.executions[t].reaction.commands[|Children(w, t)|]))
        .(children := w.children[t := Children(w, t) + [child]])
  }

  function FinishStep(w: World, t: nat): World {
    if t !in w.executions || !w.executions[t].Dispatching? || !AllResolved(w, t) then w
    else if |Children(w, t)| < |w.executions[t].reaction.commands| then w
    else With(w, t, Ended)
  }

  function CrashStep(cfg: Engine.Config, w: World, t: nat): World {
    if t !in w.executions || w.executions[t].Ended? then w
    else With(Do(cfg, w, Engine.Abort(t)), t, Ended).(crashed := w.crashed + {t}, failed := w.failed + {t})
  }

  function Step(cfg: Engine.Config, def: Definition, w: World, m: Move): World {
    match m
    case Environment(a) => EnvironmentStep(cfg, w, a)
    case Deliver(t, e) => DeliverStep(def, w, t, e)
    case Load(t) => LoadStep(def, w, t)
    case Handle(t) => HandleStep(cfg, def, w, t)
    case Dispatch(t) => DispatchStep(cfg, def, w, t)
    case Work(a) => WorkStep(cfg, w, a)
    case Commit(t) => CommitStep(cfg, def, w, t)
    case Fail(t) => FailStep(cfg, w, t)
    case SaveSnapshot(t, saved) => SaveSnapshotStep(cfg, w, t, saved)
    case RunHooks(t) => RunHooksStep(w, t)
    case Publish(t) => PublishStep(cfg, w, t)
    case Published(t, marked) => PublishedStep(cfg, def, w, t, marked)
    case React(t, child) => ReactStep(cfg, w, t, child)
    case Finish(t) => FinishStep(w, t)
    case Crash(t) => CrashStep(cfg, w, t)
  }

  function After(cfg: Engine.Config, def: Definition, moves: seq<Move>): World {
    if moves == [] then World(Engine.Initial(cfg), map[], [], map[], {}, {}, {}, map[], map[])
    else Step(cfg, def, After(cfg, def, moves[..|moves| - 1]), moves[|moves| - 1])
  }

  // --- The meaning of a saga's state ---

  /** The committed events of one instance, in commit order. */
  function History(log: seq<Transition>, id: SagaId): seq<Event> {
    if log == [] then []
    else History(log[..|log| - 1], id) + if log[|log| - 1].id == id then [log[|log| - 1].event] else []
  }

  function ReactionTo(def: Definition, s: State, e: Event): Reaction {
    if e.name in def.on then def.on[e.name].handle(e, s) else Reaction(s, [])
  }

  /** The fold of `handle` over events. */
  function Fold(def: Definition, events: seq<Event>): State {
    if events == [] then def.initial
    else ReactionTo(def, Fold(def, events[..|events| - 1]), events[|events| - 1]).state
  }
}

/** A saga's transaction is the engine's, with the saga's state save in front. */
module SagaTransactions {
  import opened Types
  import opened VersionedStore
  import opened Saga

  lemma {:induction false} RunUnitAppend(cfg: Engine.Config, s: Stored, a: seq<UnitOp>, b: seq<UnitOp>)
    ensures RunUnit(cfg, s, a + b) == match RunUnit(cfg, s, a) case None => None case Some(mid) => RunUnit(cfg, mid, b)
  {
    if b == [] {
      assert a + b == a;
    } else {
      assert (a + b)[..|a + b| - 1] == a + b[..|b| - 1];
      RunUnitAppend(cfg, s, a, b[..|b| - 1]);
    }
  }

  lemma {:induction false} RunLifted(cfg: Engine.Config, s: Stored, ops: seq<Engine.Op>)
    ensures RunUnit(cfg, s, Lifted(ops)) ==
      match Engine.Run(cfg, s.db, ops) case Ok(db) => Some(Stored(s.sagas, db)) case _ => None
  {
    if ops != [] {
      RunLifted(cfg, s, ops[..|ops| - 1]);
      assert Lifted(ops)[..|ops| - 1] == Lifted(ops[..|ops| - 1]);
      hide Engine.Exec;
    }
  }

  /** The transaction commits exactly when the saga's version is current and the engine's commit succeeds; then it is both. */
  lemma SagaTransaction(cfg: Engine.Config, s: Stored, x: Execution, works: seq<Engine.Work>)
    requires x.Reacting?
    ensures RunUnit(cfg, s, SagaOps(cfg, x, works)) ==
      match (CompareAndSet(s.sagas, x.id, x.reaction.state, x.version), Engine.Commit(cfg, s.db, works))
      case (Some(sagas), Ok(db)) => Some(Stored(sagas, db))
      case _ => None
  {
    var save := [SaveSaga(x.id, x.reaction.state, x.version)];
    var ops := Engine.UnitOps(cfg, works);
    RunUnitAppend(cfg, s, save, Lifted(ops));
    assert save[..0] == [];
    assert RunUnit(cfg, s, save) == ExecUnit(cfg, s, save[0]);
    match CompareAndSet(s.sagas, x.id, x.reaction.state, x.version)
    case None =>
    case Some(sagas) => RunLifted(cfg, Stored(sagas, s.db), ops);
  }

  // --- The engine underneath ---

  /** A saga's commit is the engine's commit of its unit of work. */
  lemma CommitBeneath(cfg: Engine.Config, def: Definition, w: World, t: nat) returns (a: Option<Engine.Action>)
    ensures CommitStep(cfg, def, w, t).sys == match a case None => w.sys case Some(action) => Engine.Step(cfg, w.sys, action)
  {
    a := None;
    if UnitReady(w, t) && !(def.atomic && |w.executions[t].fates| < |w.executions[t].reaction.commands|) {
      var x, works := w.executions[t], w.sys.threads[t].works;
      SagaTransaction(cfg, Stored(w.sagas, w.sys.db), x, works);
      hide RunUnit, SagaOps, Engine.Commit, Engine.AbortStep;
      if RunUnit(cfg, Stored(w.sagas, w.sys.db), SagaOps(cfg, x, works)).Some? {
        a := Some(Engine.CommitUnit(t));
      } else {
        a := Some(Engine.Abort(t));
      }
    }
  }

  /** The same up to the enlisting of the reaction commands. */
  lemma EarlyBeneath(cfg: Engine.Config, def: Definition, w: World, m: Move) returns (a: Option<Engine.Action>)
    requires m.Environment? || m.Deliver? || m.Load? || m.Handle? || m.Dispatch? || m.Work?
    ensures Step(cfg, def, w, m).sys == match a case None => w.sys case Some(action) => Engine.Step(cfg, w.sys, action)
  {
    hide Engine.Step, Engine.Boxed;
    a := None;
    match m
    case Environment(action) => a := if !action.Purge? && action.t in w.executions then None else Some(action);
    case Handle(t) => a := if Step(cfg, def, w, m).sys == w.sys then None else Some(Engine.StartUnit(t));
    case Dispatch(t) =>
      if Step(cfg, def, w, m).sys != w.sys {
        a := Some(Engine.Dispatch(t, w.executions[t].reaction.commands[|w.executions[t].fates|]));
      }
    case Work(action) => a := if Step(cfg, def, w, m).sys == w.sys then None else Some(action);
    case _ =>
  }

  /** Every move is at most one step of the engine. */
  lemma MoveBeneath(cfg: Engine.Config, def: Definition, w: World, m: Move) returns (a: Option<Engine.Action>)
    ensures Step(cfg, def, w, m).sys == match a case None => w.sys case Some(action) => Engine.Step(cfg, w.sys, action)
  {
    hide Engine.Step, CommitStep, Engine.Boxed, EnvironmentStep, DeliverStep, LoadStep, HandleStep, DispatchStep, WorkStep;
    a := None;
    match m
    case Environment(_) => a := EarlyBeneath(cfg, def, w, m);
    case Deliver(_, _) => a := EarlyBeneath(cfg, def, w, m);
    case Load(_) => a := EarlyBeneath(cfg, def, w, m);
    case Handle(_) => a := EarlyBeneath(cfg, def, w, m);
    case Dispatch(_) => a := EarlyBeneath(cfg, def, w, m);
    case Work(_) => a := EarlyBeneath(cfg, def, w, m);
    case Commit(t) => a := CommitBeneath(cfg, def, w, t);
    case Fail(t) => a := if Step(cfg, def, w, m).sys == w.sys then None else Some(Engine.Abort(t));
    case SaveSnapshot(t, saved) => a := if Step(cfg, def, w, m).sys == w.sys then None else Some(Engine.SaveSnapshot(t, saved));
    case Publish(t) => a := if Step(cfg, def, w, m).sys == w.sys then None else Some(Engine.Publish(t));
    case Published(t, marked) =>
      if Step(cfg, def, w, m).sys != w.sys {
        a := Some(Engine.MarkPublished(t, marked));
      }
    case React(t, child) =>
      if Step(cfg, def, w, m).sys != w.sys {
        a := Some(Engine.StartCommand(child, w.executions[t].reaction.commands[|Children(w, t)|]));
      }
    case Crash(t) => a := if Step(cfg, def, w, m).sys == w.sys then None else Some(Engine.Abort(t));
    case _ =>
  }

  /**
   * Whatever sagas do, the engine beneath them has run some schedule of its own: every
   * guarantee over its schedules holds with sagas running.
   */
  lemma {:induction false} EngineBeneath(cfg: Engine.Config, def: Definition, moves: seq<Move>) returns (schedule: seq<Engine.Action>)
    ensures After(cfg, def, moves).sys == Engine.After(cfg, schedule)
  {
    if moves == [] {
      schedule := [];
    } else {
      var front := moves[..|moves| - 1];
      schedule := EngineBeneath(cfg, def, front);
      var a := MoveBeneath(cfg, def, After(cfg, def, front), moves[|moves| - 1]);
      hide Step, Engine.Step;
      if a.Some? {
        assert (schedule + [a.value])[..|schedule|] == schedule;
        schedule := schedule + [a.value];
      }
    }
  }
}
