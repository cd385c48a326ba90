/** What sagas guarantee over every run. */
module SagaTheorems {
  import opened Types
  import opened VersionedStore
  import opened Saga
  import opened SagaInvariant
  import opened EngineHistory

  /**
   * `record` says what state each history of handled events leaves a saga in: the empty one
   * the initial state, and one more event what its handler makes of the state before it.
   */
  ghost predicate SagaTracks(def: Definition, record: seq<Event> -> State) {
    && record([]) == def.initial
    && forall history: seq<Event>, e: Event :: e.name in def.on ==>
         def.on[e.name].handle(e, record(history)).state == record(history + [e])
  }

  lemma {:induction false} SagaFollowsRecord(def: Definition, record: seq<Event> -> State, events: seq<Event>)
    requires SagaTracks(def, record) && forall i :: 0 <= i < |events| ==> events[i].name in def.on
    ensures Fold(def, events) == record(events)
  {
    if events != [] {
      var front, last := events[..|events| - 1], events[|events| - 1];
      SagaFollowsRecord(def, record, front);
      assert events == front + [last];
    }
  }

  /**
   * Over every run, a saga instance is the fold of `handle` over exactly the events whose
   * executions committed, in commit order, one version step each; it exists only if one
   * did, and the first of them is a starting event. Told without the fold: its state is the
   * one any record gives for those events.
   */
  lemma {:induction false} SagaIsFoldOfCommittedEvents(cfg: Engine.Config, def: Definition, moves: seq<Move>, id: SagaId)
    ensures var w := After(cfg, def, moves);
      var h := History(w.log, id);
      && (id in w.sagas <==> h != [])
      && (id in w.sagas ==> w.sagas[id].state == Fold(def, h) && w.sagas[id].version == |h|)
      && (h != [] ==> h[0].name in def.startedBy)
      && (id in w.sagas ==> forall record :: SagaTracks(def, record) ==> w.sagas[id].state == record(h))
  {
    Invariant(cfg, def, moves);
    var w := After(cfg, def, moves);
    assert InstanceOk(def, w.sagas, w.log, id);
    hide After, History, Fold, Inv, SagaTracks;
    forall record | SagaTracks(def, record) ensures Fold(def, History(w.log, id)) == record(History(w.log, id)) {
      SagaFollowsRecord(def, record, History(w.log, id));
    }
  }

  /** A transition is what the event's handler made of the state the instance's earlier events leave. */
  ghost predicate HandledOk(def: Definition, log: seq<Transition>, i: nat)
    requires i < |log|
  {
    var x := log[i];
    && x.event.name in def.on && x.id == def.on[x.event.name].id(x.event)
    && x.commands == def.on[x.event.name].handle(x.event, Fold(def, History(log[..i], x.id))).commands
  }

  lemma OnlyCommitsLog(cfg: Engine.Config, def: Definition, w: World, m: Move)
    requires !m.Commit?
    ensures Step(cfg, def, w, m).log == w.log
  {
    hide Engine.Step, Engine.Boxed, UnitReady, SnapshotsDone, AllResolved;
  }

  lemma RollbackLogs(cfg: Engine.Config, w: World, t: nat, settled: Execution)
    ensures With(Do(cfg, w, Engine.Abort(t)), t, settled).(failed := w.failed + {t}).log == w.log
  {
    hide Engine.Step;
  }

  lemma CommitLogs(cfg: Engine.Config, def: Definition, w: World, t: nat)
    requires Inv(cfg, def, w)
    ensures var w' := CommitStep(cfg, def, w, t);
      w'.log == w.log || (|w'.log| == |w.log| + 1 && w'.log[..|w.log|] == w.log && HandledOk(def, w'.log, |w.log|))
  {
    if CommitStep(cfg, def, w, t) != w {
      CommitCases(cfg, def, w, t);
      var ex := w.executions[t];
      assert ExecutionOk(cfg, def, w, t, ex) && InstanceOk(def, w.sagas, w.log, ex.id);
      var made := Transition(t, ex.id, ex.event, ex.reaction.commands, ex.fates);
      hide Inv, CommitStep, Engine.Step, Engine.Commit, UnitHolds, SkippedClaimed, Uncommitted, Fold, History;
      if Commits(cfg, def, w, CommitStep(cfg, def, w, t), t, made) {
        MadeIsHandled(def, w, t, made);
      } else {
        RollbackLogs(cfg, w, t, Settled(ex.reaction, false));
      }
    }
  }

  /** A commit whose version is current was handled on the state of the whole history. */
  lemma MadeIsHandled(def: Definition, w: World, t: nat, x: Transition)
    requires t in w.executions && w.executions[t].Reacting?
    requires var ex := w.executions[t];
      && x == Transition(t, ex.id, ex.event, ex.reaction.commands, ex.fates)
      && InstanceOk(def, w.sagas, w.log, ex.id) && VersionOf(w.sagas, ex.id) == ex.version
      && ex.version <= |History(w.log, ex.id)|
      && (var state := Fold(def, History(w.log, ex.id)[..ex.version]);
          SawPrefix(def, w.log, ex.event, ex.id, state, ex.version) && ex.reaction == ReactionTo(def, state, ex.event))
    ensures HandledOk(def, w.log + [x], |w.log|)
  {
    hide Fold, History;
    var h := History(w.log, x.id);
    assert (w.log + [x])[..|w.log|] == w.log;
    assert h[..|h|] == h;
  }

  /** The log grew by a handled transition, if at all. */
  ghost predicate GrownHandled(def: Definition, log: seq<Transition>, log': seq<Transition>) {
    log' == log || (|log'| == |log| + 1 && log'[..|log|] == log && HandledOk(def, log', |log|))
  }

  ghost predicate HandledAll(def: Definition, log: seq<Transition>) {
    forall i :: 0 <= i < |log| ==> HandledOk(def, log, i)
  }

  lemma StaysHandled(def: Definition, log: seq<Transition>, log': seq<Transition>)
    requires HandledAll(def, log) && GrownHandled(def, log, log')
    ensures HandledAll(def, log')
  {
    forall i | 0 <= i < |log'| ensures HandledOk(def, log', i) {
      if i < |log| {
        EarlierHandled(def, log, log', i);
      }
    }
  }

  lemma MoveLogs(cfg: Engine.Config, def: Definition, w: World, m: Move)
    requires Inv(cfg, def, w)
    ensures GrownHandled(def, w.log, Step(cfg, def, w, m).log)
  {
    hide Inv, CommitStep, HandledOk;
    if m.Commit? {
      CommitLogs(cfg, def, w, m.t);
    } else {
      hide Step;
      OnlyCommitsLog(cfg, def, w, m);
    }
  }

  lemma {:induction false} AllHandled(cfg: Engine.Config, def: Definition, moves: seq<Move>)
    ensures HandledAll(def, After(cfg, def, moves).log)
  {
    hide Inv, Step, HandledAll, GrownHandled;
    if moves != [] {
      var front, m := moves[..|moves| - 1], moves[|moves| - 1];
      AllHandled(cfg, def, front);
      Invariant(cfg, def, front);
      MoveLogs(cfg, def, After(cfg, def, front), m);
      StaysHandled(def, After(cfg, def, front).log, After(cfg, def, moves).log);
    } else {
      NothingHandled(cfg, def);
    }
  }

  lemma NothingHandled(cfg: Engine.Config, def: Definition)
    ensures HandledAll(def, After(cfg, def, []).log)
  {
  }

  lemma EarlierHandled(def: Definition, log: seq<Transition>, log': seq<Transition>, i: nat)
    requires i < |log| && log <= log' && HandledOk(def, log, i)
    ensures HandledOk(def, log', i)
  {
    assert log'[..i] == log[..i];
  }

  /**
   * Over every run each committed transition belongs to the instance its event's handler
   * names, and its reaction commands are exactly those the handler returned on the state
   * the instance's committed events before it leave, by any record.
   */
  lemma TransitionsAreHandled(cfg: Engine.Config, def: Definition, moves: seq<Move>, i: nat, record: seq<Event> -> State)
    requires i < |After(cfg, def, moves).log| && SagaTracks(def, record)
    ensures var log := After(cfg, def, moves).log;
      var x := log[i];
      && x.event.name in def.on && x.id == def.on[x.event.name].id(x.event)
      && x.commands == def.on[x.event.name].handle(x.event, record(History(log[..i], x.id))).commands
  {
    AllHandled(cfg, def, moves);
    var log := After(cfg, def, moves).log;
    var x := log[i];
    assert HandledAll(def, log) && HandledOk(def, log, i);
    forall j | 0 <= j < i ensures log[j].event.name in def.on {
      assert HandledOk(def, log, j);
    }
    hide After, Fold, SagaTracks, HandledOk;
    HistoryHandled(def, log[..i], x.id);
    SagaFollowsRecord(def, record, History(log[..i], x.id));
  }

  lemma {:induction false} HistoryHandled(def: Definition, log: seq<Transition>, id: SagaId)
    requires forall j :: 0 <= j < |log| ==> log[j].event.name in def.on
    ensures forall j :: 0 <= j < |History(log, id)| ==> History(log, id)[j].name in def.on
  {
    if log != [] {
      HistoryHandled(def, log[..|log| - 1], id);
    }
  }

  // --- Atomic mode ---

  /** The reaction command was saved by its saga's transaction, or was a duplicate when it was checked. */
  ghost predicate Settles(cfg: Engine.Config, db: Engine.Database, x: Transition, n: nat)
    requires n < |x.commands|
  {
    || (exists b :: b in db.log && b.owner == x.owner && b.cmd == x.commands[n])
    || (cfg.idempotent && x.commands[n].id.Some? && x.commands[n].id.value in db.claims)
  }

  lemma {:induction false} BatchedIn(commands: seq<Command>, fates: seq<Fate>, n: nat)
    requires |fates| <= |commands| && n < |fates| && fates[n] == Batched
    ensures commands[n] in Batches(commands, fates)
  {
    var m := |fates| - 1;
    if n < m {
      BatchedIn(commands, fates[..m], n);
    } else {
      assert [commands[n]][0] == commands[n];
    }
  }

  lemma {:induction false} OwnedIn(log: seq<Engine.Batch>, t: nat, cmd: Command) returns (b: Engine.Batch)
    requires cmd in OwnCommands(log, t)
    ensures b in log && b.owner == t && b.cmd == cmd
  {
    if cmd in OwnCommands(log[..|log| - 1], t) {
      b := OwnedIn(log[..|log| - 1], t, cmd);
    } else {
      b := log[|log| - 1];
    }
  }

  /**
   * Atomic mode: an execution's transition is committed iff its reaction commands are. With
   * the transition, what the execution saved is exactly one batch for each of its commands
   * in order, but for those skipped because their ids were claimed already; without it, the
   * execution saved nothing.
   */
  lemma {:induction false} AtomicCoupling(cfg: Engine.Config, def: Definition, moves: seq<Move>, t: nat)
    requires def.atomic && t in After(cfg, def, moves).executions
    ensures var w := After(cfg, def, moves);
      && (forall i :: 0 <= i < |w.log| && w.log[i].owner == t ==>
            && |w.log[i].fates| == |w.log[i].commands|
            && OwnCommands(w.sys.db.log, t) == Batches(w.log[i].commands, w.log[i].fates)
            && forall n :: 0 <= n < |w.log[i].commands| ==> Settles(cfg, w.sys.db, w.log[i], n))
      && ((exists b :: b in w.sys.db.log && b.owner == t) ==> exists i :: 0 <= i < |w.log| && w.log[i].owner == t)
  {
    hide *;
    Invariant(cfg, def, moves);
    var w := After(cfg, def, moves);
    StaysCoupled(cfg, def, w);
    forall i | 0 <= i < |w.log| && w.log[i].owner == t
      ensures |w.log[i].fates| == |w.log[i].commands|
      ensures OwnCommands(w.sys.db.log, t) == Batches(w.log[i].commands, w.log[i].fates)
      ensures forall n :: 0 <= n < |w.log[i].commands| ==> Settles(cfg, w.sys.db, w.log[i], n)
    {
      TransitionSettles(cfg, def, w, i);
    }
    if b :| b in w.sys.db.log && b.owner == t {
      OwnerHasTransition(cfg, def, w, t, b);
    }
  }

  lemma StaysCoupled(cfg: Engine.Config, def: Definition, w: World)
    requires Inv(cfg, def, w)
    ensures Coupled(cfg, def, w)
  {
    hide EngineInvariant.Inv, InstanceOk, Coupled, Tracked, ExecutionOk, ChildrenOk;
  }

  /** What the execution of a transition saved is one batch per command, but for those skipped. */
  lemma TransitionSettles(cfg: Engine.Config, def: Definition, w: World, i: nat)
    requires def.atomic && Coupled(cfg, def, w) && i < |w.log|
    ensures |w.log[i].fates| == |w.log[i].commands|
    ensures OwnCommands(w.sys.db.log, w.log[i].owner) == Batches(w.log[i].commands, w.log[i].fates)
    ensures forall n :: 0 <= n < |w.log[i].commands| ==> Settles(cfg, w.sys.db, w.log[i], n)
  {
    hide OwnCommands, Batches, Settles, Uncommitted;
    assert TransitionOk(cfg, def, w.sys, w.log[i]);
    hide Coupled;
    forall n | 0 <= n < |w.log[i].commands| ensures Settles(cfg, w.sys.db, w.log[i], n) {
      CommandSettles(cfg, def, w.sys, w.log[i], n);
    }
  }

  lemma OwnerHasTransition(cfg: Engine.Config, def: Definition, w: World, t: nat, b: Engine.Batch)
    requires def.atomic && t in w.executions && Coupled(cfg, def, w) && b in w.sys.db.log && b.owner == t
    ensures exists i :: 0 <= i < |w.log| && w.log[i].owner == t
  {
    OwnCommandsNone(w.sys.db.log, t);
    assert t in EngineInvariant.AllOwners(w.sys.db.log);
    hide OwnCommands, TransitionOk;
    assert !Uncommitted(w.log, t);
  }

  lemma CommandSettles(cfg: Engine.Config, def: Definition, sys: Engine.Sys, x: Transition, n: nat)
    requires def.atomic && TransitionOk(cfg, def, sys, x) && n < |x.commands|
    ensures Settles(cfg, sys.db, x, n)
  {
    hide OwnCommands, Batches;
    if x.fates[n] == Batched {
      BatchedIn(x.commands, x.fates, n);
      var b := OwnedIn(sys.db.log, x.owner, x.commands[n]);
    }
  }

  /** Two non-empty reaction batches on one aggregate: such a saga can never commit, and its attempt to changes nothing. */
  lemma {:induction false} SameAggregateReactionsNeverCommit(cfg: Engine.Config, def: Definition, moves: seq<Move>, t: nat, i: nat, j: nat)
    requires var w := After(cfg, def, moves);
      && UnitReady(w, t) && i < j < |w.sys.threads[t].works|
      && w.sys.threads[t].works[i].batch.events != [] && w.sys.threads[t].works[j].batch.events != []
      && w.sys.threads[t].works[i].batch.cmd.target == w.sys.threads[t].works[j].batch.cmd.target
    ensures var w := After(cfg, def, moves);
      var w' := CommitStep(cfg, def, w, t);
      w'.log == w.log && w'.sagas == w.sagas && w'.sys.db == w.sys.db
  {
    var w := After(cfg, def, moves);
    var schedule := Transactions.EngineBeneath(cfg, def, moves);
    EngineProgress.SameAggregateTwiceNeverCommits(cfg, schedule, t, i, j);
    Transactions.SagaTransaction(cfg, Stored(w.sagas, w.sys.db), w.executions[t], w.sys.threads[t].works);
    AbortEnds(cfg, w.sys, t);
    hide After, RunUnit, SagaOps, Engine.Commit, Engine.Step, Engine.After;
  }

  // --- Best-effort mode ---

  /**
   * Best-effort mode: the saga's own transaction saves nothing but the transition. A
   * reaction is started only once the transition is committed and every reaction before it
   * was carried out; it saves at most one batch, its own command's.
   */
  lemma {:induction false} NoEffectWithoutTransition(cfg: Engine.Config, def: Definition, moves: seq<Move>, t: nat, n: nat)
    requires n < |Children(After(cfg, def, moves), t)|
    ensures var w := After(cfg, def, moves);
      var child := Children(w, t)[n];
      && !def.atomic && OwnCommands(w.sys.db.log, t) == []
      && exists i :: 0 <= i < |w.log| && w.log[i].owner == t && n < |w.log[i].commands|
           && (OwnCommands(w.sys.db.log, child) == [] || OwnCommands(w.sys.db.log, child) == [w.log[i].commands[n]])
           && forall m :: 0 <= m < n ==>
                var earlier := Children(w, t)[m];
                && earlier in w.sys.threads && w.sys.threads[earlier].Ended?
                && (w.sys.threads[earlier].result.Completed? || w.sys.threads[earlier].result.Skipped?)
  {
    hide *;
    Invariant(cfg, def, moves);
    ChildFacts(cfg, def, After(cfg, def, moves), t, n);
    forall m | 0 <= m < n ensures var earlier := Children(After(cfg, def, moves), t)[m];
      && earlier in After(cfg, def, moves).sys.threads && After(cfg, def, moves).sys.threads[earlier].Ended?
      && (After(cfg, def, moves).sys.threads[earlier].result.Completed? || After(cfg, def, moves).sys.threads[earlier].result.Skipped?)
    {
      ResolvedIs(After(cfg, def, moves).sys, Children(After(cfg, def, moves), t)[m]);
    }
  }

  lemma ResolvedIs(s: Engine.Sys, c: nat)
    requires Resolved(s, c)
    ensures c in s.threads && s.threads[c].Ended? && (s.threads[c].result.Completed? || s.threads[c].result.Skipped?)
  {
  }

  lemma ChildFacts(cfg: Engine.Config, def: Definition, w: World, t: nat, n: nat)
    requires Inv(cfg, def, w) && n < |Children(w, t)|
    ensures var child := Children(w, t)[n];
      && !def.atomic && OwnCommands(w.sys.db.log, t) == []
      && exists i :: 0 <= i < |w.log| && w.log[i].owner == t && n < |w.log[i].commands|
           && (OwnCommands(w.sys.db.log, child) == [] || OwnCommands(w.sys.db.log, child) == [w.log[i].commands[n]])
           && forall m :: 0 <= m < n ==> Resolved(w.sys, Children(w, t)[m])
  {
    hide EngineInvariant.Inv, InstanceOk, ExecutionOk, OwnCommands, Coupled;
    assert t in w.executions && ChildrenOk(def, w, t) && Coupled(cfg, def, w);
    hide Inv;
    var i :| 0 <= i < |w.log| && w.log[i].owner == t && ChildrenOf(w, Children(w, t), w.log[i]);
    OwnNothing(cfg, def, w, i);
    assert KeepsCommand(w.sys, Children(w, t)[n], w.log[i].commands[n]);
  }

  lemma OwnNothing(cfg: Engine.Config, def: Definition, w: World, i: nat)
    requires Coupled(cfg, def, w) && !def.atomic && i < |w.log|
    ensures OwnCommands(w.sys.db.log, w.log[i].owner) == []
  {
    hide OwnCommands, Uncommitted;
    assert TransitionOk(cfg, def, w.sys, w.log[i]);
  }

  // --- Both modes ---

  /**
   * Completion hooks: never twice; exactly once for every execution that started a unit of
   * work and ran to its end without a crash; and already done when any of its events is
   * published or any reaction dispatched.
   */
  lemma {:induction false} HooksRunOnceBeforePublishing(cfg: Engine.Config, def: Definition, moves: seq<Move>, t: nat)
    requires t in After(cfg, def, moves).executions
    ensures var w := After(cfg, def, moves);
      && Hooks(w, t) <= 1
      && (w.executions[t].Ended? && t in w.started && t !in w.crashed ==> Hooks(w, t) == 1)
      && (t in w.sys.threads && w.sys.threads[t].Committed? && w.sys.threads[t].next > 0 ==> Hooks(w, t) == 1)
      && (w.executions[t].Dispatching? ==> Hooks(w, t) == 1)
  {
    Invariant(cfg, def, moves);
    var w := After(cfg, def, moves);
    assert ExecutionOk(cfg, def, w, t, w.executions[t]);
    hide *;
    HooksOf(cfg, def, w, t);
  }

  lemma HooksOf(cfg: Engine.Config, def: Definition, w: World, t: nat)
    requires t in w.executions && ExecutionOk(cfg, def, w, t, w.executions[t])
    ensures Hooks(w, t) <= 1
    ensures w.executions[t].Ended? && t in w.started && t !in w.crashed ==> Hooks(w, t) == 1
    ensures t in w.sys.threads && w.sys.threads[t].Committed? && w.sys.threads[t].next > 0 ==> Hooks(w, t) == 1
    ensures w.executions[t].Dispatching? ==> Hooks(w, t) == 1
  {
    hide Uncommitted, CommittedBy, SawPrefix, Fold, History, SkippedClaimed;
  }

  // --- Events that change nothing ---

  /** In this move the event of execution `t` is dropped: no handler, or an absent instance it does not start. */
  predicate DroppedBy(def: Definition, w: World, m: Move, t: nat) {
    match m
    case Deliver(x, e) => x == t && t !in w.executions && t !in w.sys.threads && e.name !in def.on
    case Load(x) =>
      && x == t && t in w.executions && w.executions[t].Loading? && w.executions[t].event.name in def.on
      && def.on[w.executions[t].event.name].id(w.executions[t].event) !in w.sagas
      && w.executions[t].event.name !in def.startedBy
    case _ => false
  }

  /** At some move of the run the event of execution `t` was dropped. */
  predicate Dropped(cfg: Engine.Config, def: Definition, moves: seq<Move>, t: nat) {
    moves != [] &&
    (Dropped(cfg, def, moves[..|moves| - 1], t)
     || DroppedBy(def, After(cfg, def, moves[..|moves| - 1]), moves[|moves| - 1], t))
  }

  /** An execution whose event was dropped has ended; one that ended otherwise failed or committed. */
  ghost predicate DropOk(w: World, t: nat, dropped: bool) {
    && (dropped ==> t in w.executions && w.executions[t].Ended? && Uncommitted(w.log, t) && t !in w.started && t !in w.failed && Hooks(w, t) == 0)
    && (t in w.executions && !dropped ==>
          match w.executions[t]
          case Loading(_) => t !in w.failed
          case Handling(_, _, _, _) => t !in w.failed
          case Reacting(_, _, _, _, _) => t !in w.failed
          case Settled(_, committed) => t !in w.failed ==> committed && !Uncommitted(w.log, t)
          case _ => t !in w.failed ==> !Uncommitted(w.log, t))
  }

  /** The execution a move is about. */
  predicate Moves(m: Move, t: nat) {
    match m
    case Environment(_) => false
    case Work(a) => !a.Purge? && a.t == t
    case _ => m.t == t
  }

  /** What the drop record says about `t` is the same in both worlds. */
  ghost predicate SameRecord(w: World, w': World, t: nat) {
    && (t in w'.executions <==> t in w.executions) && (t in w.executions ==> w'.executions[t] == w.executions[t])
    && (t in w'.started <==> t in w.started) && (t in w'.failed <==> t in w.failed) && Hooks(w', t) == Hooks(w, t)
    && (Uncommitted(w'.log, t) <==> Uncommitted(w.log, t))
  }

  lemma CommitRecord(cfg: Engine.Config, def: Definition, w: World, x: nat, t: nat)
    requires x != t
    ensures SameRecord(w, CommitStep(cfg, def, w, x), t)
  {
    hide CommitStep, SameRecord, Commits, Do, With;
    if CommitStep(cfg, def, w, x) != w {
      CommitCases(cfg, def, w, x);
      var ex := w.executions[x];
      var made := Transition(x, ex.id, ex.event, ex.reaction.commands, ex.fates);
      if Commits(cfg, def, w, CommitStep(cfg, def, w, x), x, made) {
        CommittedRecord(cfg, def, w, CommitStep(cfg, def, w, x), x, made, t);
      } else {
        RolledBackRecord(cfg, w, x, Settled(ex.reaction, false), t);
      }
    } else {
      OwnRecord(w, t);
    }
  }

  lemma OwnRecord(w: World, t: nat)
    ensures SameRecord(w, w, t)
  {
    hide Uncommitted;
  }

  lemma CommittedRecord(cfg: Engine.Config, def: Definition, w: World, w': World, x: nat, made: Transition, t: nat)
    requires x != t && Commits(cfg, def, w, w', x, made)
    ensures SameRecord(w, w', t)
  {
    LogKept(w.log, made, t, []);
    hide Engine.Step, Engine.Commit, Uncommitted, CommittedBy, UnitReady;
  }

  lemma RolledBackRecord(cfg: Engine.Config, w: World, x: nat, settled: Execution, t: nat)
    requires x != t
    ensures SameRecord(w, With(Do(cfg, w, Engine.Abort(x)), x, settled).(failed := w.failed + {x}), t)
  {
    hide Engine.Step, Uncommitted;
  }

  lemma OthersRecord(cfg: Engine.Config, def: Definition, w: World, m: Move, t: nat)
    requires !Moves(m, t)
    ensures SameRecord(w, Step(cfg, def, w, m), t)
  {
    hide Engine.Step, CommitStep, SameRecord;
    if m.Commit? {
      CommitRecord(cfg, def, w, m.t, t);
    } else if m.Deliver? || m.Load? || m.Handle? || m.Dispatch? || m.Work? || m.Environment? {
      OthersEarly(cfg, def, w, m, t);
    } else {
      OthersLate(cfg, def, w, m, t);
    }
  }

  lemma OthersEarly(cfg: Engine.Config, def: Definition, w: World, m: Move, t: nat)
    requires !Moves(m, t) && (m.Deliver? || m.Load? || m.Handle? || m.Dispatch? || m.Work? || m.Environment?)
    ensures SameRecord(w, Step(cfg, def, w, m), t)
  {
    hide SameRecord, WorkStep, EnvironmentStep, DeliverStep, LoadStep, HandleStep, DispatchStep;
    match m
    case Work(a) => OthersWork(cfg, w, a, t);
    case Environment(a) => OthersEnvironment(cfg, w, a, t);
    case Deliver(_, _) => OthersDeliver(cfg, def, w, m, t);
    case Load(x) => OthersLoad(def, w, x, t);
    case Handle(x) => OthersHandle(cfg, def, w, x, t);
    case Dispatch(x) => OthersHandle(cfg, def, w, x, t);
  }

  lemma OthersEnvironment(cfg: Engine.Config, w: World, a: Engine.Action, t: nat)
    ensures SameRecord(w, EnvironmentStep(cfg, w, a), t)
  {
    hide Engine.Step, Uncommitted;
  }

  lemma OthersDeliver(cfg: Engine.Config, def: Definition, w: World, m: Move, t: nat)
    requires m.Deliver? && m.t != t
    ensures SameRecord(w, Step(cfg, def, w, m), t)
  {
    hide Uncommitted;
  }

  lemma OthersLoad(def: Definition, w: World, x: nat, t: nat)
    requires x != t
    ensures SameRecord(w, LoadStep(def, w, x), t)
  {
    hide Uncommitted;
  }

  lemma OthersHandle(cfg: Engine.Config, def: Definition, w: World, x: nat, t: nat)
    requires x != t
    ensures SameRecord(w, HandleStep(cfg, def, w, x), t) && SameRecord(w, DispatchStep(cfg, def, w, x), t)
  {
    hide Engine.Step, Uncommitted, UnitReady;
  }

  lemma OthersWork(cfg: Engine.Config, w: World, a: Engine.Action, t: nat)
    requires a.Purge? || a.t != t
    ensures SameRecord(w, WorkStep(cfg, w, a), t)
  {
    hide Engine.Step, Engine.Boxed, Uncommitted;
  }

  lemma OthersLate(cfg: Engine.Config, def: Definition, w: World, m: Move, t: nat)
    requires !Moves(m, t) && !(m.Deliver? || m.Load? || m.Handle? || m.Dispatch? || m.Work? || m.Environment? || m.Commit?)
    ensures SameRecord(w, Step(cfg, def, w, m), t)
  {
    hide SameRecord, FailStep, CrashStep, SaveSnapshotStep, RunHooksStep, PublishStep, PublishedStep, ReactStep, FinishStep;
    if m.Fail? || m.Crash? {
      OthersFail(cfg, w, m.t, t);
    } else if m.React? || m.Finish? {
      OthersReact(cfg, w, m, t);
    } else {
      OthersSettle(cfg, def, w, m, t);
    }
  }

  lemma OthersFail(cfg: Engine.Config, w: World, x: nat, t: nat)
    requires x != t
    ensures SameRecord(w, FailStep(cfg, w, x), t) && SameRecord(w, CrashStep(cfg, w, x), t)
  {
    hide Uncommitted, Do;
    EngineOnly(cfg, w, Engine.Abort(x));
  }

  /** A step of the engine changes nothing else. */
  lemma EngineOnly(cfg: Engine.Config, w: World, a: Engine.Action)
    ensures Do(cfg, w, a) == w.(sys := Do(cfg, w, a).sys)
  {
    hide Engine.Step;
  }

  lemma OthersReact(cfg: Engine.Config, w: World, m: Move, t: nat)
    requires m.React? || m.Finish?
    requires m.t != t
    ensures m.React? ==> SameRecord(w, ReactStep(cfg, w, m.t, m.child), t)
    ensures m.Finish? ==> SameRecord(w, FinishStep(w, m.t), t)
  {
    hide Engine.Step, AllResolved, Uncommitted;
  }

  lemma OthersSettle(cfg: Engine.Config, def: Definition, w: World, m: Move, t: nat)
    requires (m.SaveSnapshot? || m.RunHooks? || m.Publish? || m.Published?) && m.t != t
    ensures SameRecord(w, Step(cfg, def, w, m), t)
  {
    hide SameRecord, SaveSnapshotStep, RunHooksStep, PublishStep, PublishedStep;
    match m
    case RunHooks(x) => OthersHooks(w, x, t);
    case SaveSnapshot(x, saved) => OthersSaveSnapshot(cfg, w, x, saved, t);
    case Publish(x) => OthersPublish(cfg, w, x, t);
    case Published(x, marked) => OthersPublished(cfg, def, w, x, marked, t);
  }

  lemma OthersHooks(w: World, x: nat, t: nat)
    requires x != t
    ensures SameRecord(w, RunHooksStep(w, x), t)
  {
    hide SnapshotsDone, Uncommitted;
  }

  lemma OthersSaveSnapshot(cfg: Engine.Config, w: World, x: nat, saved: bool, t: nat)
    requires x != t
    ensures SameRecord(w, SaveSnapshotStep(cfg, w, x, saved), t)
  {
    hide Engine.Step, Uncommitted;
  }

  lemma OthersPublish(cfg: Engine.Config, w: World, x: nat, t: nat)
    requires x != t
    ensures SameRecord(w, PublishStep(cfg, w, x), t)
  {
    hide Engine.Step, Uncommitted;
  }

  lemma OthersPublished(cfg: Engine.Config, def: Definition, w: World, x: nat, marked: bool, t: nat)
    requires x != t
    ensures SameRecord(w, PublishedStep(cfg, def, w, x, marked), t)
  {
    hide Engine.Step, SnapshotsDone, Uncommitted;
  }

  /** No move of its own changes an execution that ended. */
  lemma EndedIdle(cfg: Engine.Config, def: Definition, w: World, m: Move, t: nat)
    requires Moves(m, t) && t in w.executions && w.executions[t].Ended?
    ensures Step(cfg, def, w, m) == w
  {
    hide Engine.Step, RunUnit, Engine.Boxed, AllResolved, SnapshotsDone;
  }

  lemma RecordKeepsDrop(w: World, w': World, t: nat, dropped: bool)
    requires DropOk(w, t, dropped) && SameRecord(w, w', t)
    ensures DropOk(w', t, dropped)
  {
    hide Uncommitted;
  }

  /** What the invariant says about the record of `t`. */
  ghost predicate RecordOk(w: World, t: nat) {
    && (t !in w.executions ==> Uncommitted(w.log, t) && t !in w.started && t !in w.failed && Hooks(w, t) == 0)
    && (t in w.executions ==>
          match w.executions[t]
          case Loading(_) => Uncommitted(w.log, t) && t !in w.started && Hooks(w, t) == 0
          case Publishing(_) => !Uncommitted(w.log, t)
          case Dispatching(_) => !Uncommitted(w.log, t)
          case _ => true)
  }

  lemma InvRecord(cfg: Engine.Config, def: Definition, w: World, t: nat)
    requires Inv(cfg, def, w)
    ensures RecordOk(w, t)
  {
    if t in w.executions {
      assert ExecutionOk(cfg, def, w, t, w.executions[t]);
    } else {
      assert forall i :: 0 <= i < |w.log| ==> w.log[i].owner != t;
      assert Tracked(w);
    }
    hide EngineInvariant.Inv, InstanceOk, Coupled, ChildrenOk, ReactingOk, SawPrefix;
  }

  lemma OwnCommitDrop(cfg: Engine.Config, def: Definition, w: World, t: nat)
    requires RecordOk(w, t) && DropOk(w, t, false)
    ensures DropOk(CommitStep(cfg, def, w, t), t, false)
  {
    var w' := CommitStep(cfg, def, w, t);
    if w' != w {
      CommitCases(cfg, def, w, t);
      hide CommitStep, Engine.Step, Engine.Commit;
      if t !in w'.failed {
        assert w'.log[|w.log|].owner == t;
      }
    }
  }

  lemma OwnDrop(cfg: Engine.Config, def: Definition, w: World, m: Move, t: nat)
    requires RecordOk(w, t) && DropOk(w, t, false) && Moves(m, t) && (t in w.executions ==> !w.executions[t].Ended?)
    ensures DropOk(Step(cfg, def, w, m), t, DroppedBy(def, w, m, t))
  {
    hide Engine.Step, CommitStep, Engine.Boxed, AllResolved, SnapshotsDone, Uncommitted;
    if m.Commit? {
      hide DropOk, RecordOk;
      OwnCommitDrop(cfg, def, w, t);
    } else if m.Deliver? || m.Load? || m.Handle? || m.Dispatch? || m.Work? {
      EarlyDrop(cfg, def, w, m, t);
    } else {
      LateDrop(cfg, def, w, m, t);
    }
  }

  lemma EarlyDrop(cfg: Engine.Config, def: Definition, w: World, m: Move, t: nat)
    requires RecordOk(w, t) && DropOk(w, t, false) && Moves(m, t) && (t in w.executions ==> !w.executions[t].Ended?)
    requires m.Deliver? || m.Load? || m.Handle? || m.Dispatch? || m.Work?
    ensures DropOk(Step(cfg, def, w, m), t, DroppedBy(def, w, m, t))
  {
    hide Engine.Step, Engine.Boxed, Uncommitted;
  }

  lemma LateDrop(cfg: Engine.Config, def: Definition, w: World, m: Move, t: nat)
    requires RecordOk(w, t) && DropOk(w, t, false) && Moves(m, t) && (t in w.executions ==> !w.executions[t].Ended?)
    requires !(m.Deliver? || m.Load? || m.Handle? || m.Dispatch? || m.Work? || m.Commit?)
    ensures DropOk(Step(cfg, def, w, m), t, false)
  {
    hide Engine.Step, AllResolved, SnapshotsDone, Uncommitted;
  }

  lemma DropStep(cfg: Engine.Config, def: Definition, w: World, m: Move, t: nat, dropped: bool)
    requires Inv(cfg, def, w) && DropOk(w, t, dropped)
    ensures DropOk(Step(cfg, def, w, m), t, dropped || DroppedBy(def, w, m, t))
  {
    InvRecord(cfg, def, w, t);
    assert dropped ==> t in w.executions && w.executions[t].Ended?;
    NotDroppedBy(def, w, m, t);
    hide Inv, Step, DropOk, RecordOk, DroppedBy;
    if !Moves(m, t) {
      OthersRecord(cfg, def, w, m, t);
      RecordKeepsDrop(w, Step(cfg, def, w, m), t, dropped);
    } else if t in w.executions && w.executions[t].Ended? {
      EndedIdle(cfg, def, w, m, t);
    } else {
      OwnDrop(cfg, def, w, m, t);
    }
  }

  lemma NotDroppedBy(def: Definition, w: World, m: Move, t: nat)
    ensures !Moves(m, t) ==> !DroppedBy(def, w, m, t)
    ensures t in w.executions && w.executions[t].Ended? ==> !DroppedBy(def, w, m, t)
  {
  }

  lemma {:induction false} DropsTracked(cfg: Engine.Config, def: Definition, moves: seq<Move>, t: nat)
    ensures DropOk(After(cfg, def, moves), t, Dropped(cfg, def, moves, t))
  {
    if moves != [] {
      var front := moves[..|moves| - 1];
      DropsTracked(cfg, def, front, t);
      Invariant(cfg, def, front);
      hide Inv, Step, DropOk, DroppedBy;
      DropStep(cfg, def, After(cfg, def, front), moves[|moves| - 1], t, Dropped(cfg, def, front, t));
    }
  }

  /**
   * An execution that ended without failing, conflicting or crashing made no transition
   * exactly when its event was dropped on the way: it has no handler, or its instance was
   * absent when loaded and the event does not start one. Then it opened no unit of work,
   * ran no hooks and saved nothing.
   */
  lemma {:induction false} NonStartingEventIgnored(cfg: Engine.Config, def: Definition, moves: seq<Move>, t: nat)
    requires var w := After(cfg, def, moves); t in w.executions && w.executions[t].Ended? && t !in w.failed
    ensures var w := After(cfg, def, moves);
      && (Uncommitted(w.log, t) <==> Dropped(cfg, def, moves, t))
      && (Dropped(cfg, def, moves, t) ==>
            t !in w.started && t !in w.sys.threads && Hooks(w, t) == 0 && OwnCommands(w.sys.db.log, t) == [])
  {
    DropsTracked(cfg, def, moves, t);
    Invariant(cfg, def, moves);
    var w := After(cfg, def, moves);
    assert ExecutionOk(cfg, def, w, t, w.executions[t]) && Coupled(cfg, def, w);
    hide After, Inv, Dropped, Uncommitted, OwnCommands;
  }
}
