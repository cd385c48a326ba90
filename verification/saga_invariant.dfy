/** What every reachable world of sagas satisfies, and why each move keeps it. */
module SagaInvariant {
  import opened Types
  import opened VersionedStore
  import opened Saga
  import opened EngineHistory
  import EngineProgress
  import EngineSteps
  import Transactions = SagaTransactions

  type Command = Engine.Command

  // --- What an atomic unit holds ---

  /** The commands that enlisted a batch, in order. */
  function Batches(commands: seq<Command>, fates: seq<Fate>): seq<Command>
    requires |fates| <= |commands|
  {
    if fates == [] then []
    else
      var n := |fates| - 1;
      Batches(commands, fates[..n]) + if fates[n] == Batched then [commands[n]] else []
  }

  /** A skipped command's id was claimed already. */
  ghost predicate SkippedClaimed(cfg: Engine.Config, claims: set<Engine.CommandId>, commands: seq<Command>, fates: seq<Fate>) {
    && |fates| <= |commands|
    && forall n :: 0 <= n < |fates| && fates[n] == Skipped ==>
         cfg.idempotent && commands[n].id.Some? && commands[n].id.value in claims
  }

  /** The unit's works are those of the commands that enlisted a batch, and any command in flight is the next. */
  ghost predicate UnitHolds(cfg: Engine.Config, def: Definition, th: Engine.Thread, commands: seq<Command>, fates: seq<Fate>) {
    && |fates| <= |commands|
    && (!def.atomic ==> fates == [])
    && (th.Ready? || th.Checking? || th.Loading? || th.Based? || th.Deciding?)
    && th.job.Explicit?
    && CommandsOf(th.works) == Batches(commands, fates)
    && (!th.Ready? ==> def.atomic && |fates| < |commands| && th.cmd == commands[|fates|])
  }

  // --- Instances ---

  /** An instance is stored iff it has history, as the fold of that history, one version per event. */
  ghost predicate InstanceOk(def: Definition, sagas: map<SagaId, Versioned<State>>, log: seq<Transition>, id: SagaId) {
    var h := History(log, id);
    && (id in sagas <==> h != [])
    && (id in sagas ==> sagas[id] == Versioned(Fold(def, h), |h|))
    && (h != [] ==> h[0].name in def.startedBy)
    && (forall i :: 0 <= i < |h| ==> h[i].name in def.on && def.on[h[i].name].id(h[i]) == id)
  }

  /** What an execution loaded is the fold of a prefix of the instance's history. */
  ghost predicate SawPrefix(def: Definition, log: seq<Transition>, e: Event, id: SagaId, state: State, version: nat) {
    && e.name in def.on && def.on[e.name].id(e) == id
    && version <= |History(log, id)|
    && state == Fold(def, History(log, id)[..version])
    && (version == 0 ==> e.name in def.startedBy)
  }

  ghost predicate Uncommitted(log: seq<Transition>, t: nat) {
    forall i :: 0 <= i < |log| ==> log[i].owner != t
  }

  ghost predicate CommittedBy(log: seq<Transition>, t: nat, commands: seq<Command>) {
    exists i :: 0 <= i < |log| && log[i].owner == t && log[i].commands == commands
  }

  // --- Executions ---

  ghost predicate NotOpened(w: World, t: nat) {
    Uncommitted(w.log, t) && t !in w.sys.threads && t !in w.started && Hooks(w, t) == 0
  }

  ghost predicate ReactingOk(cfg: Engine.Config, def: Definition, w: World, t: nat, x: Execution)
    requires x.Reacting?
  {
    && Uncommitted(w.log, t) && t in w.started && Hooks(w, t) == 0
    && x.version <= |History(w.log, x.id)|
    && (var state := Fold(def, History(w.log, x.id)[..x.version]);
        SawPrefix(def, w.log, x.event, x.id, state, x.version) && x.reaction == ReactionTo(def, state, x.event))
    && t in w.sys.threads
    && UnitHolds(cfg, def, w.sys.threads[t], x.reaction.commands, x.fates)
    && SkippedClaimed(cfg, w.sys.db.claims, x.reaction.commands, x.fates)
  }

  ghost predicate ExecutionOk(cfg: Engine.Config, def: Definition, w: World, t: nat, x: Execution) {
    match x
    case Loading(e) => NotOpened(w, t)
    case Handling(e, id, state, version) => NotOpened(w, t) && SawPrefix(def, w.log, e, id, state, version)
    case Reacting(_, _, _, _, _) => ReactingOk(cfg, def, w, t, x)
    case Settled(reaction, committed) =>
      && t in w.started && Hooks(w, t) == 0 && t in w.sys.threads
      && (if committed
          then CommittedBy(w.log, t, reaction.commands) && w.sys.threads[t].Committed? && w.sys.threads[t].next == 0
          else Uncommitted(w.log, t) && w.sys.threads[t].Ended?)
    case Publishing(reaction) =>
      && t in w.started && Hooks(w, t) == 1
      && CommittedBy(w.log, t, reaction.commands)
      && t in w.sys.threads && w.sys.threads[t].Committed?
    case Dispatching(reaction) =>
      && !def.atomic && t in w.started && Hooks(w, t) == 1
      && CommittedBy(w.log, t, reaction.commands)
      && t in w.sys.threads && w.sys.threads[t].Ended?
    case Ended =>
      && Hooks(w, t) <= 1 && (t in w.started && t !in w.crashed ==> Hooks(w, t) == 1)
      && (t in w.sys.threads <==> t in w.started)
      && (t in w.sys.threads ==> w.sys.threads[t].Ended?)
  }

  // --- Coupling ---

  /** A committed transition is backed by exactly the batches of its reaction commands. */
  ghost predicate TransitionOk(cfg: Engine.Config, def: Definition, sys: Engine.Sys, x: Transition) {
    && (if def.atomic then |x.fates| == |x.commands| else x.fates == [])
    && SkippedClaimed(cfg, sys.db.claims, x.commands, x.fates)
    && OwnCommands(sys.db.log, x.owner) == Batches(x.commands, x.fates)
  }

  ghost predicate Coupled(cfg: Engine.Config, def: Definition, w: World) {
    && (forall i, j :: 0 <= i < j < |w.log| ==> w.log[i].owner != w.log[j].owner)
    && (forall i :: 0 <= i < |w.log| ==> w.log[i].owner in w.executions && TransitionOk(cfg, def, w.sys, w.log[i]))
    && (forall t :: t in w.executions && Uncommitted(w.log, t) ==> OwnCommands(w.sys.db.log, t) == [])
  }

  /** Each child runs its own reaction command, the ones before it having resolved. */
  ghost predicate ChildrenOf(w: World, children: seq<nat>, x: Transition) {
    && |children| <= |x.commands|
    && (forall n :: 0 <= n < |children| ==>
          children[n] !in w.executions && KeepsCommand(w.sys, children[n], x.commands[n]))
    && (forall n :: 0 <= n < |children| - 1 ==> Resolved(w.sys, children[n]))
  }

  ghost predicate ChildrenOk(def: Definition, w: World, t: nat) {
    Children(w, t) != [] ==>
      !def.atomic && exists i :: 0 <= i < |w.log| && w.log[i].owner == t && ChildrenOf(w, Children(w, t), w.log[i])
  }

  ghost predicate Tracked(w: World) {
    forall t: nat :: t in w.started || t in w.crashed || t in w.failed || t in w.hooks || t in w.children ==> t in w.executions
  }

  ghost predicate Inv(cfg: Engine.Config, def: Definition, w: World) {
    && EngineInvariant.Inv(cfg, w.sys)
    && (forall id: SagaId :: InstanceOk(def, w.sagas, w.log, id))
    && Coupled(cfg, def, w)
    && Tracked(w)
    && (forall t :: t in w.executions ==> ExecutionOk(cfg, def, w, t, w.executions[t]))
    && (forall t :: t in w.executions ==> ChildrenOk(def, w, t))
  }

  // --- What a move by one execution leaves of the others ---

  /** The world as another execution sees it. */
  ghost predicate SameFor(w: World, w': World, o: nat) {
    && Untouched(w.sys, w'.sys, o) && w.sys.db.claims <= w'.sys.db.claims
    && (o in w'.started <==> o in w.started) && (o in w'.crashed <==> o in w.crashed) && Hooks(w', o) == Hooks(w, o)
  }

  lemma ExecutionKept(cfg: Engine.Config, def: Definition, w: World, w': World, o: nat, x: Execution)
    requires ExecutionOk(cfg, def, w, o, x) && w'.log == w.log && SameFor(w, w', o)
    ensures ExecutionOk(cfg, def, w', o, x)
  {
    hide OwnCommands, UnitHolds, SawPrefix, Uncommitted, CommittedBy, Fold, History;
  }

  lemma TransitionKept(cfg: Engine.Config, def: Definition, sys: Engine.Sys, sys': Engine.Sys, x: Transition)
    requires TransitionOk(cfg, def, sys, x) && sys.db.claims <= sys'.db.claims
    requires OwnCommands(sys'.db.log, x.owner) == OwnCommands(sys.db.log, x.owner)
    ensures TransitionOk(cfg, def, sys', x)
  {
    hide OwnCommands, Batches;
  }

  /** A move that commits nothing: the log stands, and `t` alone moved. */
  ghost predicate QuietFor(w: World, w': World, t: nat) {
    && w'.sagas == w.sagas && w'.log == w.log && w'.children == w.children
    && t in w'.executions && w'.executions == w.executions[t := w'.executions[t]]
    && (forall o: nat :: o != t ==> SameFor(w, w', o))
    && OwnCommands(w'.sys.db.log, t) == OwnCommands(w.sys.db.log, t)
    && w.sys.db.claims <= w'.sys.db.claims
  }

  lemma QuietCoupled(cfg: Engine.Config, def: Definition, w: World, w': World, t: nat)
    requires Coupled(cfg, def, w) && QuietFor(w, w', t)
    requires t !in w.executions ==> OwnCommands(w.sys.db.log, t) == []
    ensures Coupled(cfg, def, w')
  {
    hide OwnCommands, TransitionOk, Uncommitted;
    forall o: nat ensures OwnCommands(w'.sys.db.log, o) == OwnCommands(w.sys.db.log, o) {
      assert o != t ==> SameFor(w, w', o);
    }
    forall i | 0 <= i < |w.log| ensures TransitionOk(cfg, def, w'.sys, w.log[i]) {
      TransitionKept(cfg, def, w.sys, w'.sys, w.log[i]);
    }
  }

  /** Threads outside a saga's own are as they were for its children. */
  lemma ChildrenKept(def: Definition, w: World, w': World, t: nat, o: nat)
    requires ChildrenOk(def, w, o) && QuietFor(w, w', t)
    requires t in w.executions || t !in w.sys.threads
    ensures ChildrenOk(def, w', o)
  {
    hide OwnCommands;
    if Children(w, o) != [] {
      var i :| 0 <= i < |w.log| && w.log[i].owner == o && ChildrenOf(w, Children(w, o), w.log[i]);
      forall n | 0 <= n < |Children(w, o)| ensures Untouched(w.sys, w'.sys, Children(w, o)[n]) {
        assert Children(w, o)[n] != t;
        assert SameFor(w, w', Children(w, o)[n]);
      }
      assert ChildrenOf(w', Children(w', o), w'.log[i]);
    }
  }

  lemma QuietMove(cfg: Engine.Config, def: Definition, w: World, w': World, t: nat)
    requires Inv(cfg, def, w) && QuietFor(w, w', t)
    requires EngineInvariant.Inv(cfg, w'.sys)
    requires t in w.executions || (t !in w.sys.threads && t !in w'.children)
    requires Tracked(w') && ExecutionOk(cfg, def, w', t, w'.executions[t])
    ensures Inv(cfg, def, w')
  {
    if t !in w.executions {
      NoThreadNoSaves(cfg, w.sys, t);
      assert Children(w', t) == [];
    }
    hide EngineInvariant.Inv, InstanceOk, Coupled, ExecutionOk, ChildrenOk, Tracked, OwnCommands;
    QuietCoupled(cfg, def, w, w', t);
    forall o | o in w'.executions ensures ExecutionOk(cfg, def, w', o, w'.executions[o]) {
      if o != t {
        ExecutionKept(cfg, def, w, w', o, w.executions[o]);
      }
    }
    forall o | o in w'.executions ensures ChildrenOk(def, w', o) {
      if o in w.executions {
        ChildrenKept(def, w, w', t, o);
      } else {
        NoChildren(def, w', o);
      }
    }
  }

  lemma NoChildren(def: Definition, w: World, t: nat)
    requires Children(w, t) == []
    ensures ChildrenOk(def, w, t)
  {
  }

  lemma NoThreadNoSaves(cfg: Engine.Config, s: Engine.Sys, t: nat)
    requires EngineInvariant.Inv(cfg, s) && t !in s.threads
    ensures OwnCommands(s.db.log, t) == []
  {
    OwnCommandsNone(s.db.log, t);
  }

  /** What one engine step by `t`'s own thread gives, when it is no commit. */
  lemma OwnStep(cfg: Engine.Config, w: World, a: Engine.Action)
    requires EngineInvariant.Inv(cfg, w.sys) && !a.CommitUnit? && !a.Purge?
    ensures var s' := Engine.Step(cfg, w.sys, a);
      && EngineInvariant.Inv(cfg, s')
      && OwnCommands(s'.db.log, a.t) == OwnCommands(w.sys.db.log, a.t)
      && w.sys.db.claims <= s'.db.claims
      && forall o: nat :: o != a.t ==> Untouched(w.sys, s', o)
  {
    EngineSteps.StepKeepsInv(cfg, w.sys, a);
    StepMoved(cfg, w.sys, a);
    QuietStepMoved(cfg, w.sys, a);
    hide EngineInvariant.Inv, Engine.Step, Untouched, OwnCommands;
  }

  /** Nothing but `t`'s own entries changed outside the engine. */
  ghost predicate OwnBooks(w: World, w': World, t: nat) {
    && w'.sagas == w.sagas && w'.log == w.log && w'.children == w.children
    && t in w'.executions && w'.executions == w.executions[t := w'.executions[t]]
    && (w'.started == w.started || w'.started == w.started + {t})
    && (w'.crashed == w.crashed || w'.crashed == w.crashed + {t})
    && (w'.failed == w.failed || w'.failed == w.failed + {t})
    && (w'.hooks == w.hooks || w'.hooks == w.hooks[t := Hooks(w', t)])
  }

  lemma BooksTracked(w: World, w': World, t: nat)
    requires Tracked(w) && OwnBooks(w, w', t)
    ensures Tracked(w')
    ensures forall o: nat :: o != t ==>
      (o in w'.started <==> o in w.started) && (o in w'.crashed <==> o in w.crashed) && Hooks(w', o) == Hooks(w, o)
  {
  }

  /** A move of one execution that leaves the engine alone. */
  lemma BookMove(cfg: Engine.Config, def: Definition, w: World, w': World, t: nat)
    requires Inv(cfg, def, w) && OwnBooks(w, w', t) && w'.sys == w.sys
    requires t in w.executions || t !in w.sys.threads
    requires ExecutionOk(cfg, def, w', t, w'.executions[t])
    ensures Inv(cfg, def, w')
  {
    BooksTracked(w, w', t);
    assert t !in w.executions ==> t !in w.children;
    hide EngineInvariant.Inv, InstanceOk, Coupled, ExecutionOk, ChildrenOk, Tracked, OwnCommands;
    QuietMove(cfg, def, w, w', t);
  }

  /** A move of one execution that takes one step of its own thread. */
  lemma ThreadMove(cfg: Engine.Config, def: Definition, w: World, w': World, a: Engine.Action)
    requires Inv(cfg, def, w) && !a.CommitUnit? && !a.Purge?
    requires a.t in w.executions && OwnBooks(w, w', a.t) && w'.sys == Engine.Step(cfg, w.sys, a)
    requires ExecutionOk(cfg, def, w', a.t, w'.executions[a.t])
    ensures Inv(cfg, def, w')
  {
    OwnStep(cfg, w, a);
    BooksTracked(w, w', a.t);
    hide EngineInvariant.Inv, InstanceOk, Coupled, ExecutionOk, ChildrenOk, Tracked, OwnCommands, Engine.Step, Untouched;
    QuietMove(cfg, def, w, w', a.t);
  }

  // --- The moves ---

  lemma DeliverKeeps(cfg: Engine.Config, def: Definition, w: World, t: nat, e: Event)
    requires Inv(cfg, def, w)
    ensures Inv(cfg, def, DeliverStep(def, w, t, e))
  {
    if t !in w.executions && t !in w.sys.threads {
      var w' := DeliverStep(def, w, t, e);
      assert forall i :: 0 <= i < |w.log| ==> w.log[i].owner != t;
      assert t !in w.started && t !in w.hooks;
      hide EngineInvariant.Inv, InstanceOk, Coupled, ChildrenOk, OwnCommands;
      BookMove(cfg, def, w, w', t);
    }
  }

  /** A stored instance is the fold of all its history, a new one of none. */
  lemma LoadSees(def: Definition, w: World, e: Event)
    requires e.name in def.on && InstanceOk(def, w.sagas, w.log, def.on[e.name].id(e))
    ensures var id := def.on[e.name].id(e);
      && (id in w.sagas ==> SawPrefix(def, w.log, e, id, w.sagas[id].state, w.sagas[id].version))
      && (e.name in def.startedBy ==> SawPrefix(def, w.log, e, id, def.initial, 0))
  {
    var h := History(w.log, def.on[e.name].id(e));
    assert h[..|h|] == h && h[..0] == [];
  }

  lemma LoadOk(cfg: Engine.Config, def: Definition, w: World, t: nat)
    requires LoadStep(def, w, t) != w && t in w.executions && ExecutionOk(cfg, def, w, t, w.executions[t])
    requires w.executions[t].Loading? && w.executions[t].event.name in def.on
    requires InstanceOk(def, w.sagas, w.log, def.on[w.executions[t].event.name].id(w.executions[t].event))
    ensures ExecutionOk(cfg, def, LoadStep(def, w, t), t, LoadStep(def, w, t).executions[t])
  {
    LoadSees(def, w, w.executions[t].event);
    hide InstanceOk, History, SawPrefix, Uncommitted, OwnBooks;
    LoadBooks(def, w, t);
  }

  lemma LoadKeeps(cfg: Engine.Config, def: Definition, w: World, t: nat)
    requires Inv(cfg, def, w)
    ensures Inv(cfg, def, LoadStep(def, w, t))
  {
    if LoadStep(def, w, t) != w {
      assert ExecutionOk(cfg, def, w, t, w.executions[t]);
      assert forall id: SagaId :: InstanceOk(def, w.sagas, w.log, id);
      hide *;
      LoadBooks(def, w, t);
      LoadOk(cfg, def, w, t);
      BookMove(cfg, def, w, LoadStep(def, w, t), t);
    }
  }

  lemma LoadBooks(def: Definition, w: World, t: nat)
    requires LoadStep(def, w, t) != w
    ensures OwnBooks(w, LoadStep(def, w, t), t) && LoadStep(def, w, t).sys == w.sys
    ensures t in w.executions && w.executions[t].Loading? && w.executions[t].event.name in def.on
    ensures var w', e := LoadStep(def, w, t), w.executions[t].event;
      var id := def.on[e.name].id(e);
      && w'.started == w.started && w'.hooks == w.hooks && w'.crashed == w.crashed
      && w'.executions[t] == if id in w.sagas then Handling(e, id, w.sagas[id].state, w.sagas[id].version)
                             else if e.name in def.startedBy then Handling(e, id, def.initial, 0) else Ended
  {
  }

  /** An opened unit holds nothing yet. */
  lemma OpenedHolds(cfg: Engine.Config, def: Definition, s: Engine.Sys, t: nat, commands: seq<Command>)
    requires t !in s.threads
    ensures var s' := Engine.Step(cfg, s, Engine.StartUnit(t));
      t in s'.threads && UnitHolds(cfg, def, s'.threads[t], commands, []) && s'.db == s.db
  {
    assert CommandsOf([]) == [];
  }

  lemma HandleBooks(cfg: Engine.Config, def: Definition, w: World, t: nat)
    requires t in w.executions && w.executions[t].Handling? && w.executions[t].event.name in def.on
    requires ExecutionOk(cfg, def, w, t, w.executions[t])
    ensures var w' := HandleStep(cfg, def, w, t);
      OwnBooks(w, w', t) && w'.sys == Engine.Step(cfg, w.sys, Engine.StartUnit(t)) && ExecutionOk(cfg, def, w', t, w'.executions[t])
  {
    OpenedHolds(cfg, def, w.sys, t, HandleStep(cfg, def, w, t).executions[t].reaction.commands);
    hide Engine.Step, UnitHolds, Fold, History, Uncommitted, Batches;
  }

  lemma HandleKeeps(cfg: Engine.Config, def: Definition, w: World, t: nat)
    requires Inv(cfg, def, w)
    ensures Inv(cfg, def, HandleStep(cfg, def, w, t))
  {
    if t in w.executions && w.executions[t].Handling? && w.executions[t].event.name in def.on {
      assert ExecutionOk(cfg, def, w, t, w.executions[t]);
      hide *;
      HandleBooks(cfg, def, w, t);
      ThreadMove(cfg, def, w, HandleStep(cfg, def, w, t), Engine.StartUnit(t));
    }
  }

  lemma DispatchHolds(cfg: Engine.Config, def: Definition, s: Engine.Sys, t: nat, commands: seq<Command>, fates: seq<Fate>)
    requires t in s.threads && s.threads[t].Ready? && def.atomic && UnitHolds(cfg, def, s.threads[t], commands, fates)
    requires |fates| < |commands|
    ensures var s' := Engine.Step(cfg, s, Engine.Dispatch(t, commands[|fates|]));
      t in s'.threads && UnitHolds(cfg, def, s'.threads[t], commands, fates) && s'.db == s.db
  {
    hide CommandsOf, Batches;
  }

  lemma DispatchBooks(cfg: Engine.Config, def: Definition, w: World, t: nat) returns (a: Engine.Action)
    requires DispatchStep(cfg, def, w, t) != w && t in w.executions && ExecutionOk(cfg, def, w, t, w.executions[t])
    ensures var w' := DispatchStep(cfg, def, w, t);
      && a.Dispatch? && a.t == t
      && OwnBooks(w, w', t) && w'.sys == Engine.Step(cfg, w.sys, a) && ExecutionOk(cfg, def, w', t, w'.executions[t])
  {
    var x := w.executions[t];
    a := Engine.Dispatch(t, x.reaction.commands[|x.fates|]);
    DispatchHolds(cfg, def, w.sys, t, x.reaction.commands, x.fates);
    assert w.executions[t := x] == w.executions;
    hide Engine.Step, UnitHolds, Fold, History, Uncommitted, SawPrefix, SkippedClaimed;
  }

  lemma DispatchKeeps(cfg: Engine.Config, def: Definition, w: World, t: nat)
    requires Inv(cfg, def, w)
    ensures Inv(cfg, def, DispatchStep(cfg, def, w, t))
  {
    if DispatchStep(cfg, def, w, t) != w {
      assert ExecutionOk(cfg, def, w, t, w.executions[t]);
      hide *;
      var a := DispatchBooks(cfg, def, w, t);
      ThreadMove(cfg, def, w, DispatchStep(cfg, def, w, t), a);
    }
  }

  // A step of the reaction command in flight

  lemma {:induction false} BatchesStep(commands: seq<Command>, fates: seq<Fate>, fate: Fate)
    requires |fates| < |commands|
    ensures Batches(commands, fates + [fate]) ==
      Batches(commands, fates) + if fate == Batched then [commands[|fates|]] else []
  {
    assert (fates + [fate])[..|fates|] == fates;
  }

  /** What a step of a command in flight does to its thread. */
  lemma WorkEffect(cfg: Engine.Config, s: Engine.Sys, a: Engine.Action)
    requires a.CheckDuplicate? || a.LoadSnapshot? || a.LoadEvents? || a.Decide?
    requires a.t in s.threads && (s.threads[a.t].Ready? || s.threads[a.t].Checking? || s.threads[a.t].Loading?
                                  || s.threads[a.t].Based? || s.threads[a.t].Deciding?)
    requires s.threads[a.t].job.Explicit?
    ensures var s' := Engine.Step(cfg, s, a);
      var th := s.threads[a.t];
      && s'.db == s.db && a.t in s'.threads
      && var th' := s'.threads[a.t];
         && (th'.Ready? || th'.Checking? || th'.Loading? || th'.Based? || th'.Deciding?)
         && th'.job == th.job
         && (th.Ready? ==> th' == th)
         && (!th.Ready? && !th'.Ready? ==> th'.works == th.works && th'.cmd == th.cmd)
         && (th.Checking? && th'.Ready? ==>
               th'.works == th.works && cfg.idempotent && th.cmd.id.Some? && th.cmd.id.value in s.db.claims)
         && (!th.Ready? && !th.Checking? && th'.Ready? ==>
               |th'.works| == |th.works| + 1 && th'.works[..|th.works|] == th.works && th'.works[|th.works|].batch.cmd == th.cmd)
  {
    hide Engine.LoadState, Engine.Issue, Engine.Fresh, Engine.Enrich, Engine.Replay, Engine.Boxed;
  }

  lemma SkipHolds(cfg: Engine.Config, def: Definition, th: Engine.Thread, th': Engine.Thread, claims: set<Engine.CommandId>,
                  commands: seq<Command>, fates: seq<Fate>)
    requires UnitHolds(cfg, def, th, commands, fates) && SkippedClaimed(cfg, claims, commands, fates)
    requires th.Checking? && th'.Ready? && th'.job == th.job && th'.works == th.works
    requires cfg.idempotent && th.cmd.id.Some? && th.cmd.id.value in claims
    ensures UnitHolds(cfg, def, th', commands, fates + [Skipped]) && SkippedClaimed(cfg, claims, commands, fates + [Skipped])
  {
    BatchesStep(commands, fates, Skipped);
    hide Batches;
    assert Batches(commands, fates) + [] == Batches(commands, fates);
  }

  lemma BatchHolds(cfg: Engine.Config, def: Definition, th: Engine.Thread, th': Engine.Thread, claims: set<Engine.CommandId>,
                   commands: seq<Command>, fates: seq<Fate>)
    requires UnitHolds(cfg, def, th, commands, fates) && SkippedClaimed(cfg, claims, commands, fates)
    requires !th.Ready? && th'.Ready? && th'.job == th.job
    requires |th'.works| == |th.works| + 1 && th'.works[..|th.works|] == th.works && th'.works[|th.works|].batch.cmd == th.cmd
    ensures UnitHolds(cfg, def, th', commands, fates + [Batched]) && SkippedClaimed(cfg, claims, commands, fates + [Batched])
  {
    BatchesStep(commands, fates, Batched);
    assert forall i :: 0 <= i < |th.works| ==> th'.works[i] == th.works[i];
    assert CommandsOf(th'.works) == CommandsOf(th.works) + [th.cmd];
    hide Batches, CommandsOf;
  }

  lemma FlightHolds(cfg: Engine.Config, def: Definition, th: Engine.Thread, th': Engine.Thread, commands: seq<Command>, fates: seq<Fate>)
    requires UnitHolds(cfg, def, th, commands, fates)
    requires th' == th || (!th.Ready? && !th'.Ready? && (th'.Checking? || th'.Loading? || th'.Based? || th'.Deciding?)
                           && th'.job == th.job && th'.works == th.works && th'.cmd == th.cmd)
    ensures UnitHolds(cfg, def, th', commands, fates)
  {
  }

  /** What became of the command in flight. */
  function FatesAfter(th: Engine.Thread, th': Engine.Thread, fates: seq<Fate>): seq<Fate> {
    if th.Ready? || !th'.Ready? then fates else if th.Checking? then fates + [Skipped] else fates + [Batched]
  }

  lemma WorkHolds(cfg: Engine.Config, def: Definition, s: Engine.Sys, a: Engine.Action, commands: seq<Command>, fates: seq<Fate>)
    requires a.CheckDuplicate? || a.LoadSnapshot? || a.LoadEvents? || a.Decide?
    requires a.t in s.threads && UnitHolds(cfg, def, s.threads[a.t], commands, fates)
    requires SkippedClaimed(cfg, s.db.claims, commands, fates)
    ensures var s' := Engine.Step(cfg, s, a);
      && a.t in s'.threads && s'.db == s.db
      && var fates' := FatesAfter(s.threads[a.t], s'.threads[a.t], fates);
         UnitHolds(cfg, def, s'.threads[a.t], commands, fates') && SkippedClaimed(cfg, s.db.claims, commands, fates')
  {
    WorkEffect(cfg, s, a);
    var th, th' := s.threads[a.t], Engine.Step(cfg, s, a).threads[a.t];
    assert (th.Ready? || th.Checking? || th.Loading? || th.Based? || th.Deciding?) && th.job.Explicit?;
    hide Engine.Step, UnitHolds, SkippedClaimed;
    if th.Ready? || !th'.Ready? {
      FlightHolds(cfg, def, th, th', commands, fates);
    } else if th.Checking? {
      SkipHolds(cfg, def, th, th', s.db.claims, commands, fates);
    } else {
      BatchHolds(cfg, def, th, th', s.db.claims, commands, fates);
    }
  }

  lemma WorkBooks(cfg: Engine.Config, w: World, a: Engine.Action)
    requires WorkStep(cfg, w, a) != w
    ensures a.CheckDuplicate? || a.LoadSnapshot? || a.LoadEvents? || a.Decide?
    ensures a.t in w.executions && w.executions[a.t].Reacting? && a.t in w.sys.threads
    ensures var x := w.executions[a.t];
      var s' := Engine.Step(cfg, w.sys, a);
      a.t in s'.threads ==>
        WorkStep(cfg, w, a) == With(Do(cfg, w, a), a.t, x.(fates := FatesAfter(w.sys.threads[a.t], s'.threads[a.t], x.fates)))
  {
    hide Engine.Step, Engine.Boxed;
    var x := w.executions[a.t];
    assert w.executions[a.t := x.(fates := x.fates)] == w.executions;
  }

  lemma WorkOk(cfg: Engine.Config, def: Definition, w: World, a: Engine.Action)
    requires WorkStep(cfg, w, a) != w
    requires a.CheckDuplicate? || a.LoadSnapshot? || a.LoadEvents? || a.Decide?
    requires a.t in w.executions && w.executions[a.t].Reacting? && a.t in w.sys.threads
    requires ExecutionOk(cfg, def, w, a.t, w.executions[a.t])
    ensures var w' := WorkStep(cfg, w, a);
      OwnBooks(w, w', a.t) && w'.sys == Engine.Step(cfg, w.sys, a) && ExecutionOk(cfg, def, w', a.t, w'.executions[a.t])
  {
    WorkBooks(cfg, w, a);
    var x := w.executions[a.t];
    assert UnitHolds(cfg, def, w.sys.threads[a.t], x.reaction.commands, x.fates);
    hide Engine.Step, Fold, History, SkippedClaimed, WorkStep, FatesAfter, SawPrefix, Uncommitted, UnitHolds;
    WorkHolds(cfg, def, w.sys, a, x.reaction.commands, x.fates);
  }

  lemma WorkKeeps(cfg: Engine.Config, def: Definition, w: World, a: Engine.Action)
    requires Inv(cfg, def, w)
    ensures Inv(cfg, def, WorkStep(cfg, w, a))
  {
    if WorkStep(cfg, w, a) != w {
      assert ExecutionOk(cfg, def, w, a.t, w.executions[a.t]);
      hide *;
      WorkBooks(cfg, w, a);
      WorkOk(cfg, def, w, a);
      ThreadMove(cfg, def, w, WorkStep(cfg, w, a), a);
    }
  }

  // Failing

  lemma AbortEnds(cfg: Engine.Config, s: Engine.Sys, t: nat)
    ensures var s' := Engine.Step(cfg, s, Engine.Abort(t));
      && (t in s'.threads <==> t in s.threads) && (t in s'.threads ==> s'.threads[t].Ended?) && s'.db == s.db
  {
  }

  lemma FailKeeps(cfg: Engine.Config, def: Definition, w: World, t: nat)
    requires Inv(cfg, def, w)
    ensures Inv(cfg, def, FailStep(cfg, w, t))
  {
    hide Inv;
    if t in w.executions {
      if w.executions[t].Reacting? || w.executions[t].Publishing? {
        RollbackKeeps(cfg, def, w, t);
      } else if !w.executions[t].Settled? && !w.executions[t].Ended? {
        ThrowKeeps(cfg, def, w, t);
      }
    }
  }

  lemma ThrowBooks(cfg: Engine.Config, def: Definition, w: World, t: nat)
    requires t in w.executions && ExecutionOk(cfg, def, w, t, w.executions[t])
    requires w.executions[t].Loading? || w.executions[t].Handling? || w.executions[t].Dispatching?
    ensures var w' := FailStep(cfg, w, t); OwnBooks(w, w', t) && w'.sys == w.sys && ExecutionOk(cfg, def, w', t, w'.executions[t])
  {
    hide SawPrefix, Uncommitted, CommittedBy;
  }

  /** A throw before the unit of work is opened, or after it is done with. */
  lemma ThrowKeeps(cfg: Engine.Config, def: Definition, w: World, t: nat)
    requires Inv(cfg, def, w) && t in w.executions
    requires w.executions[t].Loading? || w.executions[t].Handling? || w.executions[t].Dispatching?
    ensures Inv(cfg, def, FailStep(cfg, w, t))
  {
    assert ExecutionOk(cfg, def, w, t, w.executions[t]);
    hide *;
    ThrowBooks(cfg, def, w, t);
    BookMove(cfg, def, w, FailStep(cfg, w, t), t);
  }

  /** The books after a rollback, and the execution's own part of the invariant. */
  lemma RollbackBooks(cfg: Engine.Config, def: Definition, w: World, t: nat)
    requires t in w.executions && (w.executions[t].Reacting? || w.executions[t].Publishing?)
    requires ExecutionOk(cfg, def, w, t, w.executions[t])
    ensures var w' := FailStep(cfg, w, t);
      && OwnBooks(w, w', t) && w'.sys == Engine.Step(cfg, w.sys, Engine.Abort(t))
      && ExecutionOk(cfg, def, w', t, w'.executions[t])
  {
    AbortEnds(cfg, w.sys, t);
    hide Engine.Step, UnitHolds, Fold, History, SawPrefix, Uncommitted, CommittedBy, SkippedClaimed;
  }

  lemma RollbackKeeps(cfg: Engine.Config, def: Definition, w: World, t: nat)
    requires Inv(cfg, def, w) && t in w.executions && (w.executions[t].Reacting? || w.executions[t].Publishing?)
    ensures Inv(cfg, def, FailStep(cfg, w, t))
  {
    assert ExecutionOk(cfg, def, w, t, w.executions[t]);
    hide *;
    RollbackBooks(cfg, def, w, t);
    ThreadMove(cfg, def, w, FailStep(cfg, w, t), Engine.Abort(t));
  }

  lemma CrashBooks(cfg: Engine.Config, def: Definition, w: World, t: nat)
    requires t in w.executions && !w.executions[t].Ended? && ExecutionOk(cfg, def, w, t, w.executions[t])
    ensures var w' := CrashStep(cfg, w, t);
      OwnBooks(w, w', t) && w'.sys == Engine.Step(cfg, w.sys, Engine.Abort(t)) && ExecutionOk(cfg, def, w', t, w'.executions[t])
  {
    AbortEnds(cfg, w.sys, t);
    hide Engine.Step, UnitHolds, Fold, History, SawPrefix, Uncommitted, CommittedBy, SkippedClaimed;
  }

  lemma CrashKeeps(cfg: Engine.Config, def: Definition, w: World, t: nat)
    requires Inv(cfg, def, w)
    ensures Inv(cfg, def, CrashStep(cfg, w, t))
  {
    if t in w.executions && !w.executions[t].Ended? {
      assert ExecutionOk(cfg, def, w, t, w.executions[t]);
      hide *;
      CrashBooks(cfg, def, w, t);
      ThreadMove(cfg, def, w, CrashStep(cfg, w, t), Engine.Abort(t));
    }
  }

  // After the transaction

  lemma SnapshotEffect(cfg: Engine.Config, s: Engine.Sys, t: nat, saved: bool)
    requires t in s.threads && (s.threads[t].Committed? || s.threads[t].Ended?)
    ensures var s' := Engine.Step(cfg, s, Engine.SaveSnapshot(t, saved));
      && t in s'.threads
      && (s.threads[t].Committed? ==> s'.threads[t].Committed? && s'.threads[t].next == s.threads[t].next)
      && (s.threads[t].Ended? ==> s'.threads[t] == s.threads[t])
  {
  }

  lemma SnapshotBooks(cfg: Engine.Config, def: Definition, w: World, t: nat, saved: bool)
    requires t in w.executions && w.executions[t].Settled? && ExecutionOk(cfg, def, w, t, w.executions[t])
    ensures var w' := SaveSnapshotStep(cfg, w, t, saved);
      OwnBooks(w, w', t) && w'.sys == Engine.Step(cfg, w.sys, Engine.SaveSnapshot(t, saved)) && ExecutionOk(cfg, def, w', t, w'.executions[t])
  {
    SnapshotEffect(cfg, w.sys, t, saved);
    hide Engine.Step, Uncommitted, CommittedBy;
    assert w.executions[t := w.executions[t]] == w.executions;
  }

  lemma SnapshotKeeps(cfg: Engine.Config, def: Definition, w: World, t: nat, saved: bool)
    requires Inv(cfg, def, w)
    ensures Inv(cfg, def, SaveSnapshotStep(cfg, w, t, saved))
  {
    if t in w.executions && w.executions[t].Settled? {
      assert ExecutionOk(cfg, def, w, t, w.executions[t]);
      hide *;
      SnapshotBooks(cfg, def, w, t, saved);
      ThreadMove(cfg, def, w, SaveSnapshotStep(cfg, w, t, saved), Engine.SaveSnapshot(t, saved));
    }
  }

  lemma HooksBooks(cfg: Engine.Config, def: Definition, w: World, t: nat)
    requires t in w.executions && RunHooksStep(w, t) != w && ExecutionOk(cfg, def, w, t, w.executions[t])
    ensures var w' := RunHooksStep(w, t); OwnBooks(w, w', t) && w'.sys == w.sys && ExecutionOk(cfg, def, w', t, w'.executions[t])
  {
    hide Uncommitted, CommittedBy;
  }

  lemma HooksKeep(cfg: Engine.Config, def: Definition, w: World, t: nat)
    requires Inv(cfg, def, w)
    ensures Inv(cfg, def, RunHooksStep(w, t))
  {
    if RunHooksStep(w, t) != w {
      assert ExecutionOk(cfg, def, w, t, w.executions[t]);
      hide *;
      HooksBooks(cfg, def, w, t);
      BookMove(cfg, def, w, RunHooksStep(w, t), t);
    }
  }

  lemma PublishEffect(cfg: Engine.Config, s: Engine.Sys, t: nat)
    requires t in s.threads && s.threads[t].Committed?
    ensures var s' := Engine.Step(cfg, s, Engine.Publish(t)); t in s'.threads && s'.threads[t].Committed?
  {
  }

  lemma MarkEffect(cfg: Engine.Config, s: Engine.Sys, t: nat, marked: bool)
    requires t in s.threads && s.threads[t].Committed? && s.threads[t].snapshots == [] && s.threads[t].next >= |s.threads[t].events|
    ensures var s' := Engine.Step(cfg, s, Engine.MarkPublished(t, marked)); t in s'.threads && s'.threads[t].Ended?
  {
    hide Engine.MarkByEventId, Engine.EventIds;
  }

  lemma PublishBooks(cfg: Engine.Config, def: Definition, w: World, t: nat)
    requires t in w.executions && w.executions[t].Publishing? && ExecutionOk(cfg, def, w, t, w.executions[t])
    ensures var w' := PublishStep(cfg, w, t);
      OwnBooks(w, w', t) && w'.sys == Engine.Step(cfg, w.sys, Engine.Publish(t)) && ExecutionOk(cfg, def, w', t, w'.executions[t])
  {
    PublishEffect(cfg, w.sys, t);
    hide Engine.Step, CommittedBy;
    assert w.executions[t := w.executions[t]] == w.executions;
  }

  lemma PublishKeeps(cfg: Engine.Config, def: Definition, w: World, t: nat)
    requires Inv(cfg, def, w)
    ensures Inv(cfg, def, PublishStep(cfg, w, t))
  {
    if t in w.executions && w.executions[t].Publishing? {
      assert ExecutionOk(cfg, def, w, t, w.executions[t]);
      hide *;
      PublishBooks(cfg, def, w, t);
      ThreadMove(cfg, def, w, PublishStep(cfg, w, t), Engine.Publish(t));
    }
  }

  lemma PublishedBooks(cfg: Engine.Config, def: Definition, w: World, t: nat, marked: bool) returns (a: Engine.Action)
    requires t in w.executions && PublishedStep(cfg, def, w, t, marked) != w && ExecutionOk(cfg, def, w, t, w.executions[t])
    ensures var w' := PublishedStep(cfg, def, w, t, marked);
      && !a.CommitUnit? && !a.Purge? && a.t == t
      && OwnBooks(w, w', t) && w'.sys == Engine.Step(cfg, w.sys, a)
      && ExecutionOk(cfg, def, w', t, w'.executions[t])
  {
    a := Engine.MarkPublished(t, marked);
    MarkEffect(cfg, w.sys, t, marked);
    hide Engine.Step, CommittedBy;
  }

  lemma PublishedKeeps(cfg: Engine.Config, def: Definition, w: World, t: nat, marked: bool)
    requires Inv(cfg, def, w)
    ensures Inv(cfg, def, PublishedStep(cfg, def, w, t, marked))
  {
    if PublishedStep(cfg, def, w, t, marked) != w {
      assert ExecutionOk(cfg, def, w, t, w.executions[t]);
      hide *;
      var a := PublishedBooks(cfg, def, w, t, marked);
      ThreadMove(cfg, def, w, PublishedStep(cfg, def, w, t, marked), a);
    }
  }

  lemma FinishBooks(cfg: Engine.Config, def: Definition, w: World, t: nat)
    requires t in w.executions && FinishStep(w, t) != w && ExecutionOk(cfg, def, w, t, w.executions[t])
    ensures var w' := FinishStep(w, t); OwnBooks(w, w', t) && w'.sys == w.sys && ExecutionOk(cfg, def, w', t, w'.executions[t])
  {
    hide CommittedBy, AllResolved;
  }

  lemma FinishKeeps(cfg: Engine.Config, def: Definition, w: World, t: nat)
    requires Inv(cfg, def, w)
    ensures Inv(cfg, def, FinishStep(w, t))
  {
    if FinishStep(w, t) != w {
      assert ExecutionOk(cfg, def, w, t, w.executions[t]);
      hide *;
      FinishBooks(cfg, def, w, t);
      BookMove(cfg, def, w, FinishStep(w, t), t);
    }
  }

  // Reactions on their own

  lemma {:induction false} ChildrenGrow(def: Definition, w: World, t: nat, child: nat, s': Engine.Sys, cmd: Command)
    requires ChildrenOk(def, w, t) && AllResolved(w, t) && t in w.executions && !def.atomic
    requires w.executions[t].Dispatching? && CommittedBy(w.log, t, w.executions[t].reaction.commands)
    requires forall i, j :: 0 <= i < j < |w.log| ==> w.log[i].owner != w.log[j].owner
    requires |Children(w, t)| < |w.executions[t].reaction.commands| && cmd == w.executions[t].reaction.commands[|Children(w, t)|]
    requires child !in w.sys.threads && child !in w.executions && KeepsCommand(s', child, cmd)
    requires forall o: nat :: o != child ==> Untouched(w.sys, s', o)
    ensures ChildrenOk(def, w.(sys := s', children := w.children[t := Children(w, t) + [child]]), t)
  {
    hide OwnCommands;
    var w' := w.(sys := s', children := w.children[t := Children(w, t) + [child]]);
    var i :| 0 <= i < |w.log| && w.log[i].owner == t && w.log[i].commands == w.executions[t].reaction.commands;
    var before := Children(w, t);
    forall n | 0 <= n < |before|
      ensures before[n] !in w'.executions && KeepsCommand(w'.sys, before[n], w.log[i].commands[n]) && Resolved(w'.sys, before[n])
    {
      assert ChildrenOf(w, before, w.log[i]);
      assert Resolved(w.sys, before[n]) && Untouched(w.sys, s', before[n]);
    }
    assert ChildrenOf(w', Children(w', t), w'.log[i]);
  }

  lemma ReactBooks(cfg: Engine.Config, w: World, t: nat, child: nat)
    requires ReactStep(cfg, w, t, child) != w
    ensures t in w.executions && w.executions[t].Dispatching? && AllResolved(w, t)
    ensures child !in w.sys.threads && child !in w.executions
    ensures |Children(w, t)| < |w.executions[t].reaction.commands|
    ensures var cmd := w.executions[t].reaction.commands[|Children(w, t)|];
      ReactStep(cfg, w, t, child) ==
      w.(sys := Engine.Step(cfg, w.sys, Engine.StartCommand(child, cmd)), children := w.children[t := Children(w, t) + [child]])
  {
    hide Engine.Step;
  }

  lemma StartKeepsCommand(cfg: Engine.Config, s: Engine.Sys, child: nat, cmd: Command)
    requires EngineInvariant.Inv(cfg, s) && child !in s.threads
    ensures KeepsCommand(Engine.Step(cfg, s, Engine.StartCommand(child, cmd)), child, cmd)
  {
    hide *;
    NoThreadNoSaves(cfg, s, child);
    StartedShape(cfg, s, child, cmd);
    KeepsFirst(Engine.Step(cfg, s, Engine.StartCommand(child, cmd)), child, cmd);
  }

  lemma StartedShape(cfg: Engine.Config, s: Engine.Sys, child: nat, cmd: Command)
    requires child !in s.threads
    ensures var s' := Engine.Step(cfg, s, Engine.StartCommand(child, cmd));
      s'.db == s.db && child in s'.threads && s'.threads[child] == Engine.Checking(Engine.Implicit(cmd, 0), [], cmd)
  {
  }

  lemma KeepsFirst(s: Engine.Sys, child: nat, cmd: Command)
    requires child in s.threads && s.threads[child] == Engine.Checking(Engine.Implicit(cmd, 0), [], cmd)
    requires OwnCommands(s.db.log, child) == []
    ensures KeepsCommand(s, child, cmd)
  {
    hide OwnCommands;
  }

  /** A step outside every saga's own threads leaves the executions and the log as they were. */
  lemma OutsideMove(cfg: Engine.Config, def: Definition, w: World, w': World)
    requires Inv(cfg, def, w) && EngineInvariant.Inv(cfg, w'.sys)
    requires w'.log == w.log && w'.sagas == w.sagas && w'.executions == w.executions && Tracked(w')
    requires w'.started == w.started && w'.crashed == w.crashed && w'.hooks == w.hooks
    requires w.sys.db.claims <= w'.sys.db.claims && forall o :: o in w.executions ==> Untouched(w.sys, w'.sys, o)
    requires forall o :: o in w.executions ==> ChildrenOk(def, w', o)
    ensures Inv(cfg, def, w')
  {
    hide EngineInvariant.Inv, InstanceOk, ExecutionOk, ChildrenOk, Tracked, OwnCommands, TransitionOk, Uncommitted;
    forall i | 0 <= i < |w.log| ensures TransitionOk(cfg, def, w'.sys, w.log[i]) {
      TransitionKept(cfg, def, w.sys, w'.sys, w.log[i]);
    }
    forall o | o in w.executions ensures ExecutionOk(cfg, def, w', o, w.executions[o]) {
      assert SameFor(w, w', o);
      ExecutionKept(cfg, def, w, w', o, w.executions[o]);
    }
  }

  lemma ReactChildren(cfg: Engine.Config, def: Definition, w: World, t: nat, child: nat)
    requires Inv(cfg, def, w) && ReactStep(cfg, w, t, child) != w
    ensures forall o :: o in w.executions ==> ChildrenOk(def, ReactStep(cfg, w, t, child), o)
  {
    ReactFacts(cfg, def, w, t, child);
    hide *;
    ReactBooks(cfg, w, t, child);
    var w' := ReactStep(cfg, w, t, child);
    var cmd := w.executions[t].reaction.commands[|Children(w, t)|];
    OwnStep(cfg, w, Engine.StartCommand(child, cmd));
    StartKeepsCommand(cfg, w.sys, child, cmd);
    ChildrenGrow(def, w, t, child, w'.sys, cmd);
    forall o | o in w.executions ensures ChildrenOk(def, w', o) {
      if o != t {
        OthersChildren(w, t, child, w', o);
        OtherChildrenKept(def, w, w', o, child);
      }
    }
  }

  lemma OthersChildren(w: World, t: nat, child: nat, w': World, o: nat)
    requires w'.children == w.children[t := Children(w, t) + [child]] && o != t
    ensures Children(w', o) == Children(w, o)
  {
  }

  lemma ReactFacts(cfg: Engine.Config, def: Definition, w: World, t: nat, child: nat)
    requires Inv(cfg, def, w) && ReactStep(cfg, w, t, child) != w
    ensures EngineInvariant.Inv(cfg, w.sys) && t in w.executions && w.executions[t].Dispatching?
    ensures !def.atomic && CommittedBy(w.log, t, w.executions[t].reaction.commands)
    ensures forall i, j :: 0 <= i < j < |w.log| ==> w.log[i].owner != w.log[j].owner
    ensures forall o :: o in w.executions ==> ChildrenOk(def, w, o)
  {
    hide EngineInvariant.Inv, InstanceOk, ChildrenOk, OwnCommands, Engine.Step, CommittedBy, AllResolved, TransitionOk, Uncommitted;
    assert ExecutionOk(cfg, def, w, t, w.executions[t]);
  }

  lemma ReactBack(cfg: Engine.Config, def: Definition, w: World, t: nat, child: nat)
    requires Inv(cfg, def, w) && ReactStep(cfg, w, t, child) != w
    ensures var w' := ReactStep(cfg, w, t, child);
      && EngineInvariant.Inv(cfg, w'.sys) && w.sys.db.claims <= w'.sys.db.claims
      && (forall o :: o in w.executions ==> Untouched(w.sys, w'.sys, o))
      && w'.log == w.log && w'.sagas == w.sagas && w'.executions == w.executions && Tracked(w')
      && w'.started == w.started && w'.crashed == w.crashed && w'.hooks == w.hooks
  {
    ReactBooks(cfg, w, t, child);
    hide EngineInvariant.Inv, InstanceOk, ChildrenOk, OwnCommands, Coupled, Engine.Step, ReactStep, Untouched, ExecutionOk;
    OwnStep(cfg, w, Engine.StartCommand(child, w.executions[t].reaction.commands[|Children(w, t)|]));
  }

  lemma ReactKeeps(cfg: Engine.Config, def: Definition, w: World, t: nat, child: nat)
    requires Inv(cfg, def, w)
    ensures Inv(cfg, def, ReactStep(cfg, w, t, child))
  {
    hide *;
    if ReactStep(cfg, w, t, child) != w {
      ReactChildren(cfg, def, w, t, child);
      ReactBack(cfg, def, w, t, child);
      OutsideMove(cfg, def, w, ReactStep(cfg, w, t, child));
    }
  }

  lemma OtherChildrenKept(def: Definition, w: World, w': World, o: nat, actor: nat)
    requires ChildrenOk(def, w, o) && w'.log == w.log && w'.executions == w.executions
    requires Children(w', o) == Children(w, o) && actor !in w.sys.threads
    requires forall x: nat :: x != actor ==> Untouched(w.sys, w'.sys, x)
    ensures ChildrenOk(def, w', o)
  {
    hide OwnCommands;
    if Children(w, o) != [] {
      var i :| 0 <= i < |w.log| && w.log[i].owner == o && ChildrenOf(w, Children(w, o), w.log[i]);
      forall n | 0 <= n < |Children(w, o)| ensures Untouched(w.sys, w'.sys, Children(w, o)[n]) {
        assert KeepsCommand(w.sys, Children(w, o)[n], w.log[i].commands[n]);
      }
      assert ChildrenOf(w', Children(w', o), w'.log[i]);
    }
  }

  // The environment

  lemma ResolvedStays(cfg: Engine.Config, s: Engine.Sys, a: Engine.Action, c: nat)
    requires Resolved(s, c)
    ensures Resolved(Engine.Step(cfg, s, a), c)
  {
    hide Engine.Step;
    EngineProgress.EndedThread(cfg, s, a, c);
  }

  lemma ChildrenRun(cfg: Engine.Config, def: Definition, w: World, a: Engine.Action, o: nat)
    requires EngineInvariant.Inv(cfg, w.sys) && ChildrenOk(def, w, o)
    ensures ChildrenOk(def, Do(cfg, w, a), o)
  {
    hide OwnCommands, EngineInvariant.Inv, Engine.Step, KeepsCommand, Resolved;
    var w' := Do(cfg, w, a);
    if Children(w, o) != [] {
      var i :| 0 <= i < |w.log| && w.log[i].owner == o && ChildrenOf(w, Children(w, o), w.log[i]);
      forall n | 0 <= n < |Children(w, o)| ensures KeepsCommand(w'.sys, Children(w, o)[n], w.log[i].commands[n]) {
        CommandKept(cfg, w.sys, a, Children(w, o)[n], w.log[i].commands[n]);
      }
      forall n | 0 <= n < |Children(w, o)| - 1 ensures Resolved(w'.sys, Children(w, o)[n]) {
        ResolvedStays(cfg, w.sys, a, Children(w, o)[n]);
      }
      assert ChildrenOf(w', Children(w', o), w'.log[i]);
    }
  }

  lemma OutsideTouchesNone(cfg: Engine.Config, s: Engine.Sys, a: Engine.Action, o: nat)
    requires EngineInvariant.Inv(cfg, s) && (a.Purge? || a.t != o)
    ensures Untouched(s, Engine.Step(cfg, s, a), o) && s.db.claims <= Engine.Step(cfg, s, a).db.claims
  {
    hide EngineInvariant.Inv, Engine.Step, Untouched, OwnCommands;
    if a.Purge? {
      PurgeTouchesNone(cfg, s, a, o);
    } else {
      StepMoved(cfg, s, a);
    }
  }

  lemma EnvironmentKeeps(cfg: Engine.Config, def: Definition, w: World, a: Engine.Action)
    requires Inv(cfg, def, w)
    ensures Inv(cfg, def, EnvironmentStep(cfg, w, a))
  {
    hide Inv, Do;
    if a.Purge? || a.t !in w.executions {
      OutsideBooks(cfg, def, w, a);
      OutsideClaims(cfg, def, w, a);
      OutsideSpares(cfg, def, w, a);
      hide *;
      OutsideMove(cfg, def, w, Do(cfg, w, a));
    }
  }

  lemma OutsideBooks(cfg: Engine.Config, def: Definition, w: World, a: Engine.Action)
    requires Inv(cfg, def, w)
    ensures var w' := Do(cfg, w, a);
      && w'.log == w.log && w'.sagas == w.sagas && w'.executions == w.executions && Tracked(w')
      && w'.started == w.started && w'.crashed == w.crashed && w'.hooks == w.hooks
  {
    hide EngineInvariant.Inv, InstanceOk, ChildrenOk, Engine.Step, Coupled, ExecutionOk;
  }

  lemma OutsideClaims(cfg: Engine.Config, def: Definition, w: World, a: Engine.Action)
    requires Inv(cfg, def, w)
    ensures EngineInvariant.Inv(cfg, Do(cfg, w, a).sys) && w.sys.db.claims <= Do(cfg, w, a).sys.db.claims
  {
    assert EngineInvariant.Inv(cfg, w.sys);
    hide Inv, EngineInvariant.Inv, Engine.Step, Untouched;
    EngineSteps.StepKeepsInv(cfg, w.sys, a);
    var nobody: nat := if a.Purge? then 0 else a.t + 1;
    OutsideTouchesNone(cfg, w.sys, a, nobody);
  }

  lemma OutsideSpares(cfg: Engine.Config, def: Definition, w: World, a: Engine.Action)
    requires Inv(cfg, def, w) && (a.Purge? || a.t !in w.executions)
    ensures forall o :: o in w.executions ==> Untouched(w.sys, Do(cfg, w, a).sys, o) && ChildrenOk(def, Do(cfg, w, a), o)
  {
    assert EngineInvariant.Inv(cfg, w.sys) && forall o :: o in w.executions ==> ChildrenOk(def, w, o);
    hide Inv, EngineInvariant.Inv, ChildrenOk, Untouched, Engine.Step;
    forall o | o in w.executions ensures Untouched(w.sys, Do(cfg, w, a).sys, o) && ChildrenOk(def, Do(cfg, w, a), o) {
      OutsideTouchesNone(cfg, w.sys, a, o);
      ChildrenRun(cfg, def, w, a, o);
    }
  }

  // Committing

  /** The worlds before and after a successful commit by `t`, which adds the transition `x`. */
  ghost predicate Commits(cfg: Engine.Config, def: Definition, w: World, w': World, t: nat, x: Transition) {
    && UnitReady(w, t)
    && (def.atomic ==> |w.executions[t].fates| >= |w.executions[t].reaction.commands|)
    && var ex, works := w.executions[t], w.sys.threads[t].works;
       && x == Transition(t, ex.id, ex.event, ex.reaction.commands, ex.fates)
       && VersionOf(w.sagas, ex.id) == ex.version
       && Engine.Commit(cfg, w.sys.db, works).Ok?
       && w'.sys == Engine.Step(cfg, w.sys, Engine.CommitUnit(t))
       && w'.sagas == w.sagas[ex.id := Versioned(ex.reaction.state, ex.version + 1)]
       && w'.log == w.log + [x]
       && w'.children == w.children && w'.started == w.started && w'.failed == w.failed
       && w'.crashed == w.crashed && w'.hooks == w.hooks
       && w'.executions == w.executions[t := Settled(ex.reaction, true)]
  }

  /** A commit either does all of this or rolls back. */
  lemma CommitCases(cfg: Engine.Config, def: Definition, w: World, t: nat)
    requires CommitStep(cfg, def, w, t) != w
    ensures UnitReady(w, t)
    ensures var ex := w.executions[t];
      var w' := CommitStep(cfg, def, w, t);
      || Commits(cfg, def, w, w', t, Transition(t, ex.id, ex.event, ex.reaction.commands, ex.fates))
      || w' == With(Do(cfg, w, Engine.Abort(t)), t, Settled(ex.reaction, false)).(failed := w.failed + {t})
  {
    var ex, works := w.executions[t], w.sys.threads[t].works;
    Transactions.SagaTransaction(cfg, Stored(w.sagas, w.sys.db), ex, works);
    hide RunUnit, SagaOps, Engine.Commit, Engine.AbortStep;
  }

  lemma HistoryAppend(log: seq<Transition>, x: Transition, id: SagaId)
    ensures History(log + [x], id) == History(log, id) + if x.id == id then [x.event] else []
  {
    assert (log + [x])[..|log|] == log;
  }

  lemma FoldStep(def: Definition, h: seq<Event>, e: Event)
    ensures Fold(def, h + [e]) == ReactionTo(def, Fold(def, h), e).state
  {
    assert (h + [e])[..|h|] == h;
  }

  /** One more committed event folds into its own instance. */
  lemma OwnInstance(def: Definition, sagas: map<SagaId, Versioned<State>>, log: seq<Transition>, x: Transition, seen: State, version: nat)
    requires InstanceOk(def, sagas, log, x.id) && VersionOf(sagas, x.id) == version
    requires SawPrefix(def, log, x.event, x.id, seen, version)
    ensures InstanceOk(def, sagas[x.id := Versioned(ReactionTo(def, seen, x.event).state, version + 1)], log + [x], x.id)
  {
    HistoryAppend(log, x, x.id);
    var h := History(log, x.id);
    FoldStep(def, h, x.event);
    hide History, Fold, ReactionTo;
    assert |h| == version && h[..|h|] == h;
  }

  lemma OtherInstance(def: Definition, sagas: map<SagaId, Versioned<State>>, log: seq<Transition>, x: Transition,
                      doc: Versioned<State>, id: SagaId)
    requires InstanceOk(def, sagas, log, id) && id != x.id
    ensures InstanceOk(def, sagas[x.id := doc], log + [x], id)
  {
    HistoryAppend(log, x, id);
    hide History, Fold;
    assert History(log, id) + [] == History(log, id);
  }

  lemma CommitInstance(cfg: Engine.Config, def: Definition, w: World, w': World, t: nat, x: Transition, id: SagaId)
    requires Commits(cfg, def, w, w', t, x) && InstanceOk(def, w.sagas, w.log, id)
    requires ReactingOk(cfg, def, w, t, w.executions[t])
    ensures InstanceOk(def, w'.sagas, w'.log, id)
  {
    hide Engine.Step, Engine.Commit, UnitHolds, SkippedClaimed, Uncommitted, History, Fold, InstanceOk, SawPrefix;
    var ex := w.executions[t];
    if id == x.id {
      OwnInstance(def, w.sagas, w.log, x, Fold(def, History(w.log, ex.id)[..ex.version]), ex.version);
    } else {
      OtherInstance(def, w.sagas, w.log, x, w'.sagas[x.id], id);
    }
  }

  lemma SawPrefixKept(def: Definition, log: seq<Transition>, x: Transition, e: Event, id: SagaId, state: State, version: nat)
    requires SawPrefix(def, log, e, id, state, version)
    ensures SawPrefix(def, log + [x], e, id, state, version)
    ensures History(log + [x], id)[..version] == History(log, id)[..version]
  {
    HistoryAppend(log, x, id);
    hide History, Fold;
  }

  lemma LogKept(log: seq<Transition>, x: Transition, o: nat, commands: seq<Command>)
    requires x.owner != o
    ensures Uncommitted(log, o) <==> Uncommitted(log + [x], o)
    ensures CommittedBy(log, o, commands) ==> CommittedBy(log + [x], o, commands)
  {
    assert forall i :: 0 <= i < |log| ==> (log + [x])[i] == log[i];
    if CommittedBy(log, o, commands) {
      var i :| 0 <= i < |log| && log[i].owner == o && log[i].commands == commands;
      assert (log + [x])[i].owner == o;
    }
  }

  lemma ExecutionKeptByCommit(cfg: Engine.Config, def: Definition, w: World, w': World, x: Transition, o: nat, ex: Execution)
    requires ExecutionOk(cfg, def, w, o, ex) && x.owner != o && w'.log == w.log + [x] && SameFor(w, w', o)
    ensures ExecutionOk(cfg, def, w', o, ex)
  {
    match ex
    case Loading(_) => LogKept(w.log, x, o, []);
    case Handling(e, id, state, version) =>
      LogKept(w.log, x, o, []);
      SawPrefixKept(def, w.log, x, e, id, state, version);
    case Reacting(_, _, _, _, _) => ReactingKeptByCommit(cfg, def, w, w', x, o, ex);
    case Settled(reaction, _) => LogKept(w.log, x, o, reaction.commands);
    case Publishing(reaction) => LogKept(w.log, x, o, reaction.commands);
    case Dispatching(reaction) => LogKept(w.log, x, o, reaction.commands);
    case Ended =>
  }

  lemma ReactingKeptByCommit(cfg: Engine.Config, def: Definition, w: World, w': World, x: Transition, o: nat, ex: Execution)
    requires ex.Reacting? && ReactingOk(cfg, def, w, o, ex) && x.owner != o && w'.log == w.log + [x] && SameFor(w, w', o)
    ensures ReactingOk(cfg, def, w', o, ex)
  {
    hide OwnCommands, UnitHolds;
    LogKept(w.log, x, o, []);
    var state := Fold(def, History(w.log, ex.id)[..ex.version]);
    SawPrefixKept(def, w.log, x, ex.event, ex.id, state, ex.version);
    hide Fold, History, Uncommitted;
  }

  lemma CommittedThread(cfg: Engine.Config, s: Engine.Sys, t: nat)
    requires t in s.threads && s.threads[t].Ready? && Engine.Commit(cfg, s.db, s.threads[t].works).Ok?
    ensures var s' := Engine.CommitStep(cfg, s, t);
      && Engine.Step(cfg, s, Engine.CommitUnit(t)) == s'
      && t in s'.threads && s'.threads[t].Committed? && s'.threads[t].next == 0
  {
    hide Engine.Commit;
  }

  lemma CommitEngine(cfg: Engine.Config, s: Engine.Sys, t: nat)
    requires EngineInvariant.Inv(cfg, s) && t in s.threads && s.threads[t].Ready? && Engine.Commit(cfg, s.db, s.threads[t].works).Ok?
    requires OwnCommands(s.db.log, t) == []
    ensures var s' := Engine.Step(cfg, s, Engine.CommitUnit(t));
      && EngineInvariant.Inv(cfg, s')
      && s.db.claims <= s'.db.claims && (forall o: nat :: o != t ==> Untouched(s, s', o))
      && OwnCommands(s'.db.log, t) == CommandsOf(s.threads[t].works)
      && t in s'.threads && s'.threads[t].Committed? && s'.threads[t].next == 0
  {
    hide EngineInvariant.Inv, Engine.Commit, Engine.Step, Engine.CommitStep, CommandsOf, OwnCommands, Untouched;
    EngineSteps.StepKeepsInv(cfg, s, Engine.CommitUnit(t));
    CommittedThread(cfg, s, t);
    CommitMoved(cfg, s, t);
    assert [] + CommandsOf(s.threads[t].works) == CommandsOf(s.threads[t].works);
  }

  lemma CommitBacked(cfg: Engine.Config, def: Definition, w: World, w': World, t: nat, x: Transition)
    requires EngineInvariant.Inv(cfg, w.sys) && Commits(cfg, def, w, w', t, x)
    requires ReactingOk(cfg, def, w, t, w.executions[t]) && OwnCommands(w.sys.db.log, t) == []
    ensures EngineInvariant.Inv(cfg, w'.sys)
    ensures w.sys.db.claims <= w'.sys.db.claims && forall o: nat :: o != t ==> Untouched(w.sys, w'.sys, o)
    ensures TransitionOk(cfg, def, w'.sys, x)
    ensures t in w'.sys.threads && w'.sys.threads[t].Committed? && w'.sys.threads[t].next == 0
  {
    hide EngineInvariant.Inv, Engine.Commit, Engine.Step, Batches, CommandsOf, OwnCommands, Untouched, History, Fold, Uncommitted, SawPrefix;
    CommitEngine(cfg, w.sys, t);
  }

  lemma CommitCoupled(cfg: Engine.Config, def: Definition, w: World, w': World, t: nat, x: Transition)
    requires Coupled(cfg, def, w) && Commits(cfg, def, w, w', t, x) && Uncommitted(w.log, t)
    requires w.sys.db.claims <= w'.sys.db.claims && forall o: nat :: o != t ==> Untouched(w.sys, w'.sys, o)
    requires TransitionOk(cfg, def, w'.sys, x)
    ensures Coupled(cfg, def, w')
  {
    hide OwnCommands, TransitionOk, Engine.Step, Engine.Commit;
    var n := |w.log|;
    forall i | 0 <= i < |w'.log| ensures w'.log[i].owner in w'.executions && TransitionOk(cfg, def, w'.sys, w'.log[i]) {
      if i < n {
        assert w'.log[i] == w.log[i] && w.log[i].owner != t;
        assert Untouched(w.sys, w'.sys, w.log[i].owner);
        TransitionKept(cfg, def, w.sys, w'.sys, w.log[i]);
      }
    }
    forall o | o in w'.executions && Uncommitted(w'.log, o) ensures OwnCommands(w'.sys.db.log, o) == [] {
      assert w'.log[n].owner == t;
      assert forall i :: 0 <= i < n ==> w'.log[i] == w.log[i];
      assert o != t && Uncommitted(w.log, o) && Untouched(w.sys, w'.sys, o);
    }
  }

  lemma CommitChildren(cfg: Engine.Config, def: Definition, w: World, w': World, t: nat, x: Transition, o: nat)
    requires Commits(cfg, def, w, w', t, x) && ChildrenOk(def, w, o)
    requires forall y: nat :: y != t ==> Untouched(w.sys, w'.sys, y)
    ensures ChildrenOk(def, w', o)
  {
    hide OwnCommands, Engine.Step, Engine.Commit;
    if Children(w, o) != [] {
      var i :| 0 <= i < |w.log| && w.log[i].owner == o && ChildrenOf(w, Children(w, o), w.log[i]);
      forall n | 0 <= n < |Children(w, o)| ensures Untouched(w.sys, w'.sys, Children(w, o)[n]) {
        assert Children(w, o)[n] != t;
      }
      assert w'.log[i] == w.log[i];
      assert ChildrenOf(w', Children(w', o), w'.log[i]);
    }
  }

  lemma OwnCommitOk(cfg: Engine.Config, def: Definition, w: World, w': World, t: nat, x: Transition)
    requires Commits(cfg, def, w, w', t, x) && ReactingOk(cfg, def, w, t, w.executions[t])
    requires t in w'.sys.threads && w'.sys.threads[t].Committed? && w'.sys.threads[t].next == 0
    ensures ExecutionOk(cfg, def, w', t, w'.executions[t])
  {
    hide Engine.Step, Engine.Commit, UnitHolds, SawPrefix, Fold, History, SkippedClaimed;
    assert w'.log[|w.log|] == x;
  }

  lemma SuccessFacts(cfg: Engine.Config, def: Definition, w: World, w': World, t: nat, x: Transition)
    requires Inv(cfg, def, w) && Commits(cfg, def, w, w', t, x)
    ensures EngineInvariant.Inv(cfg, w.sys) && Coupled(cfg, def, w)
    ensures t in w.executions && w.executions[t].Reacting? && ReactingOk(cfg, def, w, t, w.executions[t])
    ensures Uncommitted(w.log, t) && OwnCommands(w.sys.db.log, t) == []
    ensures x.owner == t && w'.log == w.log + [x] && w'.executions.Keys == w.executions.Keys
    ensures forall o :: o in w.executions && o != t ==> w'.executions[o] == w.executions[o]
    ensures Tracked(w')
  {
    hide EngineInvariant.Inv, InstanceOk, ChildrenOk, OwnCommands, TransitionOk, Engine.Step, Engine.Commit;
    assert ExecutionOk(cfg, def, w, t, w.executions[t]);
    assert ReactingOk(cfg, def, w, t, w.executions[t]) && Uncommitted(w.log, t);
  }

  lemma CommitSameFor(cfg: Engine.Config, def: Definition, w: World, w': World, t: nat, x: Transition, o: nat)
    requires Commits(cfg, def, w, w', t, x) && Untouched(w.sys, w'.sys, o) && w.sys.db.claims <= w'.sys.db.claims
    ensures SameFor(w, w', o)
  {
    hide Engine.Step, Engine.Commit, OwnCommands;
  }

  lemma CommitExecutions(cfg: Engine.Config, def: Definition, w: World, w': World, t: nat, x: Transition)
    requires Inv(cfg, def, w) && Commits(cfg, def, w, w', t, x)
    requires w.sys.db.claims <= w'.sys.db.claims && forall o: nat :: o != t ==> Untouched(w.sys, w'.sys, o)
    requires ExecutionOk(cfg, def, w', t, w'.executions[t])
    ensures forall o :: o in w'.executions ==> ExecutionOk(cfg, def, w', o, w'.executions[o])
    ensures forall o :: o in w'.executions ==> ChildrenOk(def, w', o)
  {
    SuccessFacts(cfg, def, w, w', t, x);
    assert forall o :: o in w.executions ==> ExecutionOk(cfg, def, w, o, w.executions[o]) && ChildrenOk(def, w, o);
    hide *;
    forall o | o in w'.executions ensures ExecutionOk(cfg, def, w', o, w'.executions[o]) {
      if o != t {
        CommitSameFor(cfg, def, w, w', t, x, o);
        ExecutionKeptByCommit(cfg, def, w, w', x, o, w.executions[o]);
      }
    }
    forall o | o in w'.executions ensures ChildrenOk(def, w', o) {
      CommitChildren(cfg, def, w, w', t, x, o);
    }
  }

  lemma CommitInstances(cfg: Engine.Config, def: Definition, w: World, w': World, t: nat, x: Transition)
    requires Inv(cfg, def, w) && Commits(cfg, def, w, w', t, x)
    ensures forall id: SagaId :: InstanceOk(def, w'.sagas, w'.log, id)
  {
    SuccessFacts(cfg, def, w, w', t, x);
    assert forall id: SagaId :: InstanceOk(def, w.sagas, w.log, id);
    hide *;
    forall id: SagaId ensures InstanceOk(def, w'.sagas, w'.log, id) {
      CommitInstance(cfg, def, w, w', t, x, id);
    }
  }

  lemma SuccessKeeps(cfg: Engine.Config, def: Definition, w: World, w': World, t: nat, x: Transition)
    requires Inv(cfg, def, w) && Commits(cfg, def, w, w', t, x)
    ensures Inv(cfg, def, w')
  {
    SuccessFacts(cfg, def, w, w', t, x);
    hide EngineInvariant.Inv, InstanceOk, ExecutionOk, ChildrenOk, OwnCommands, Untouched, ReactingOk, Uncommitted, Commits, Coupled, Tracked,
      TransitionOk;
    CommitBacked(cfg, def, w, w', t, x);
    CommitCoupled(cfg, def, w, w', t, x);
    OwnCommitOk(cfg, def, w, w', t, x);
    CommitExecutions(cfg, def, w, w', t, x);
    CommitInstances(cfg, def, w, w', t, x);
  }

  lemma ConflictKeeps(cfg: Engine.Config, def: Definition, w: World, t: nat)
    requires Inv(cfg, def, w) && t in w.executions && w.executions[t].Reacting?
    ensures Inv(cfg, def, With(Do(cfg, w, Engine.Abort(t)), t, Settled(w.executions[t].reaction, false)).(failed := w.failed + {t}))
  {
    RollbackKeeps(cfg, def, w, t);
    hide Inv, Engine.Step;
  }

  lemma CommitKeeps(cfg: Engine.Config, def: Definition, w: World, t: nat)
    requires Inv(cfg, def, w)
    ensures Inv(cfg, def, CommitStep(cfg, def, w, t))
  {
    hide Inv, CommitStep, Commits, Engine.Step;
    var w' := CommitStep(cfg, def, w, t);
    if w' != w {
      CommitCases(cfg, def, w, t);
      var ex := w.executions[t];
      var x := Transition(t, ex.id, ex.event, ex.reaction.commands, ex.fates);
      if Commits(cfg, def, w, w', t, x) {
        SuccessKeeps(cfg, def, w, w', t, x);
      } else {
        ConflictKeeps(cfg, def, w, t);
      }
    }
  }

  // --- Every run ---

  lemma StepKeeps(cfg: Engine.Config, def: Definition, w: World, m: Move)
    requires Inv(cfg, def, w)
    ensures Inv(cfg, def, Step(cfg, def, w, m))
  {
    hide Inv, EnvironmentStep, DeliverStep, LoadStep, HandleStep, DispatchStep, WorkStep, CommitStep, FailStep, SaveSnapshotStep,
      RunHooksStep, PublishStep, PublishedStep, ReactStep, FinishStep, CrashStep;
    match m
    case Environment(a) => EnvironmentKeeps(cfg, def, w, a);
    case Deliver(t, e) => DeliverKeeps(cfg, def, w, t, e);
    case Load(t) => LoadKeeps(cfg, def, w, t);
    case Handle(t) => HandleKeeps(cfg, def, w, t);
    case Dispatch(t) => DispatchKeeps(cfg, def, w, t);
    case Work(a) => WorkKeeps(cfg, def, w, a);
    case Commit(t) => CommitKeeps(cfg, def, w, t);
    case Fail(t) => FailKeeps(cfg, def, w, t);
    case SaveSnapshot(t, saved) => SnapshotKeeps(cfg, def, w, t, saved);
    case RunHooks(t) => HooksKeep(cfg, def, w, t);
    case Publish(t) => PublishKeeps(cfg, def, w, t);
    case Published(t, marked) => PublishedKeeps(cfg, def, w, t, marked);
    case React(t, child) => ReactKeeps(cfg, def, w, t, child);
    case Finish(t) => FinishKeeps(cfg, def, w, t);
    case Crash(t) => CrashKeeps(cfg, def, w, t);
  }

  lemma {:induction false} Invariant(cfg: Engine.Config, def: Definition, moves: seq<Move>)
    ensures Inv(cfg, def, After(cfg, def, moves))
  {
    if moves != [] {
      Invariant(cfg, def, moves[..|moves| - 1]);
      hide Inv, Step;
      StepKeeps(cfg, def, After(cfg, def, moves[..|moves| - 1]), moves[|moves| - 1]);
    } else {
      EngineSteps.InitialGood(cfg);
      hide EngineInvariant.Inv;
    }
  }
}
