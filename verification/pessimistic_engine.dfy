/**
 * The engine under the pessimistic strategy: the engine's own threads, each step guarded by
 * the locks of its unit of work. A command is checked for duplicates, then waits for its
 * lock, then loads; locks are released once the unit has settled, and only then are its
 * events published. Nothing is retried.
 */
module PessimisticEngine {
  import opened Types
  import opened EventStore
  import opened Engine
  import opened EngineInvariant
  import EngineCommit
  import EngineSteps
  import EngineHistory
  import EngineProgress
  import Locker
  import Locks = Pessimistic

  datatype World = World(sys: Sys, locks: Locks.System)

  /** A step of the engine, or a step at the locks alone; a timeout is both. */
  datatype Move =
    | Act(a: Action)
    | Acquire(t: nat)
    | Expire(t: nat)
    | Settle(t: nat)

  function NoRetry(cfg: Config): Config {
    cfg.(maxRetries := 0)
  }

  /** What the strategy lets the engine do: load under the lock, publish once settled. */
  predicate Allowed(w: World, a: Action) {
    match a
    case LoadSnapshot(t) => t in w.locks.units && w.locks.units[t].phase.Running?
    case FailCommand(t) => t in w.locks.units ==> !w.locks.units[t].phase.Waiting?
    case Abort(t) => t in w.locks.units ==> !w.locks.units[t].phase.Waiting?
    case Publish(t) => t in w.locks.units ==> w.locks.units[t].phase.Publishing?
    case MarkPublished(t, _) => t in w.locks.units ==> w.locks.units[t].phase.Publishing?
    case _ => true
  }

  /** What a step of the engine, from thread `before` to `after`, is for the unit's locks. */
  function Companion(a: Action, before: Thread, after: Thread): Option<Locks.Move> {
    match a
    case CheckDuplicate(t) => if before.Checking? && after.Ended? then Some(Locks.Abort(t)) else None
    case LoadEvents(t) => if before.Based? then Some(Locks.Load(t)) else None
    case Decide(t, raws, _, _, _) =>
      if before.Deciding? && after.Ready? then Some(Locks.Decide(t, |raws|))
      else if before.Deciding? && after.Ended? then Some(Locks.Abort(t))
      else None
    case FailCommand(t) => Some(Locks.Fail(t))
    case CommitUnit(t) =>
      if before.Ready? && after.Committed? then Some(Locks.Commit(t))
      else if before.Ready? then Some(Locks.Abort(t))
      else None
    case MarkPublished(t, _) => if before.Committed? && after.Ended? then Some(Locks.Publish(t)) else None
    case Abort(t) => Some(Locks.Abort(t))
    case _ => None
  }

  /** The same for every action; a command or a unit that starts begins a guarded unit. */
  function LockMove(cfg: Config, s: Sys, a: Action): Option<Locks.Move> {
    if a.Purge? then None
    else if a.t in s.threads then
      var s' := Step(cfg, s, a);
      if a.t in s'.threads then Companion(a, s.threads[a.t], s'.threads[a.t]) else None
    else if a.StartCommand? then Some(Locks.Begin(a.t, false))
    else if a.StartUnit? then Some(Locks.Begin(a.t, true))
    else None
  }

  function ActStep(cfg: Config, w: World, a: Action): World {
    if !Allowed(w, a) then w
    else
      World(Step(cfg, w.sys, a),
            match LockMove(cfg, w.sys, a)
            case None => w.locks
            case Some(m) => Locks.Step(w.locks, m))
  }

  /** A command past its duplicate check asks for the lock of its aggregate. */
  function AcquireStep(w: World, t: nat): World {
    if t !in w.sys.threads || !w.sys.threads[t].Loading? then w
    else w.(locks := Locks.AcquireStep(w.locks, t, w.sys.threads[t].cmd.target))
  }

  /** The lock timeout fails the command; code inside an explicit unit may carry on. */
  function ExpireStep(cfg: Config, w: World, t: nat): World {
    if t !in w.sys.threads || !w.sys.threads[t].Loading? then w
    else if t !in w.locks.units || !w.locks.units[t].phase.Waiting? then w
    else
      World(Step(cfg, w.sys, if w.sys.threads[t].job.Implicit? then Abort(t) else FailCommand(t)), Locks.ExpireStep(w.locks, t))
  }

  function WorldStep(cfg: Config, w: World, m: Move): World {
    match m
    case Act(a) => ActStep(NoRetry(cfg), w, a)
    case Acquire(t) => AcquireStep(w, t)
    case Expire(t) => ExpireStep(NoRetry(cfg), w, t)
    case Settle(t) => w.(locks := Locks.SettleStep(w.locks, t))
  }

  function WorldAfter(cfg: Config, moves: seq<Move>): World {
    if moves == [] then World(Initial(NoRetry(cfg)), Locks.After([]))
    else WorldStep(cfg, WorldAfter(cfg, moves[..|moves| - 1]), moves[|moves| - 1])
  }

  // --- Both sides run by themselves ---

  /** One move is at most one step of the engine and one move at the locks. */
  lemma MoveBeneath(cfg: Config, w: World, m: Move) returns (a: Option<Action>, l: Option<Locks.Move>)
    ensures WorldStep(cfg, w, m).sys == match a case None => w.sys case Some(action) => Step(NoRetry(cfg), w.sys, action)
    ensures WorldStep(cfg, w, m).locks == match l case None => w.locks case Some(move) => Locks.Step(w.locks, move)
  {
    hide Step, LockMove, Allowed, Locks.AcquireStep, Locks.ExpireStep, Locks.SettleStep;
    a, l := None, None;
    match m
    case Act(action) =>
      if Allowed(w, action) {
        a, l := Some(action), LockMove(NoRetry(cfg), w.sys, action);
      }
    case Acquire(t) =>
      if t in w.sys.threads && w.sys.threads[t].Loading? {
        l := Some(Locks.Acquire(t, w.sys.threads[t].cmd.target));
      }
    case Expire(t) =>
      if t in w.sys.threads && w.sys.threads[t].Loading? && t in w.locks.units && w.locks.units[t].phase.Waiting? {
        a := Some(if w.sys.threads[t].job.Implicit? then Abort(t) else FailCommand(t));
        l := Some(Locks.Expire(t));
      }
    case Settle(t) => l := Some(Locks.Settle(t));
  }

  /**
   * Beneath every run under locks there is a schedule of the engine and a run of the locks:
   * every guarantee over either holds.
   */
  lemma {:induction false} RunsBeneath(cfg: Config, moves: seq<Move>) returns (schedule: seq<Action>, lockMoves: seq<Locks.Move>)
    ensures WorldAfter(cfg, moves).sys == After(NoRetry(cfg), schedule)
    ensures WorldAfter(cfg, moves).locks == Locks.After(lockMoves)
  {
    if moves == [] {
      schedule, lockMoves := [], [];
    } else {
      var front := moves[..|moves| - 1];
      schedule, lockMoves := RunsBeneath(cfg, front);
      var a, l := MoveBeneath(cfg, WorldAfter(cfg, front), moves[|moves| - 1]);
      hide WorldStep, Step, Locks.Step;
      if a.Some? {
        EngineProgress.AfterOne(NoRetry(cfg), schedule, a.value);
        schedule := schedule + [a.value];
      }
      if l.Some? {
        assert (lockMoves + [l.value])[..|lockMoves|] == lockMoves;
        lockMoves := lockMoves + [l.value];
      }
    }
  }

  // --- The link between threads and guarded units ---

  /** The batch sizes of a unit, by aggregate. */
  function SizesOf(works: seq<Work>): map<Key, nat> {
    if works == [] then map[]
    else SizesOf(works[..|works| - 1])[works[|works| - 1].batch.cmd.target := |works[|works| - 1].batch.events|]
  }

  /** One batch per aggregate, each decided on the length loaded under the lock. */
  ghost predicate Enlisted(works: seq<Work>, u: Locks.GuardedUnit) {
    && u.sizes == SizesOf(works)
    && (forall i, j :: 0 <= i < j < |works| ==> works[i].batch.cmd.target != works[j].batch.cmd.target)
    && (forall i :: 0 <= i < |works| ==>
          && works[i].batch.cmd.target in u.sizes && works[i].batch.cmd.target in u.loaded
          && u.loaded[works[i].batch.cmd.target] == works[i].batch.version)
  }

  ghost predicate Agree(th: Thread, u: Locks.GuardedUnit) {
    && !th.Relaying?
    && u.explicit == th.job.Explicit?
    && match th
       case Checking(_, works, _) => u.phase.Idle? && Enlisted(works, u)
       case Loading(_, works, cmd) =>
         && (u.phase.Idle? || ((u.phase == Locks.Waiting(cmd.target) || u.phase == Locks.Running(cmd.target)) && cmd.target !in u.sizes))
         && Enlisted(works, u)
       case Based(_, works, cmd, _) =>
         u.phase == Locks.Running(cmd.target) && cmd.target !in u.sizes && Enlisted(works, u)
       case Deciding(_, works, cmd, version, _) =>
         && u.phase == Locks.Deciding(cmd.target) && cmd.target !in u.sizes
         && cmd.target in u.loaded && u.loaded[cmd.target] == version
         && Enlisted(works, u)
       case Ready(_, works) => u.phase.Idle? && Enlisted(works, u)
       case Committed(_, _, _, _) => u.committed && (u.phase.Settling? || u.phase.Publishing?)
       case Ended(_, _) => u.phase.Settling? || u.phase.Publishing? || u.phase.Done?
  }

  /** A thread that runs commands has a guarded unit, and it has not ended in a conflict. */
  ghost predicate Paired(w: World, t: nat) {
    && (t in w.sys.threads && !w.sys.threads[t].Relaying? && !w.sys.threads[t].Ended? ==> t in w.locks.units)
    && (t in w.locks.units ==> t in w.sys.threads && Agree(w.sys.threads[t], w.locks.units[t]))
    && (t in w.sys.threads && w.sys.threads[t].Ended? ==> !w.sys.threads[t].result.ConcurrencyFailure?)
  }

  /** The lengths guarded by the locks are those of the stored streams. */
  ghost predicate SameLengths(w: World) {
    forall k: Key :: Locks.LengthAt(w.locks.lengths, k) == |Stream(w.sys.db.streams, k)|
  }

  ghost predicate WorldOk(cfg: Config, w: World) {
    && Inv(NoRetry(cfg), w.sys)
    && Locks.Guarded(w.locks)
    && SameLengths(w)
    && forall t: nat :: Paired(w, t)
  }

  // --- Frames ---

  /** A step changes only its own thread. */
  ghost predicate OnlyThread(s: Sys, s': Sys, t: nat) {
    forall x: nat :: x != t ==> (x in s'.threads <==> x in s.threads) && (x in s.threads ==> s'.threads[x] == s.threads[x])
  }

  ghost predicate OnlyUnit(l: Locks.System, l': Locks.System, t: nat) {
    forall x: nat :: x != t ==> (x in l'.units <==> x in l.units) && (x in l.units ==> l'.units[x] == l.units[x])
  }

  lemma EngineFrame(cfg: Config, s: Sys, a: Action)
    ensures !a.Purge? ==> OnlyThread(s, Step(cfg, s, a), a.t)
    ensures a.Purge? ==> Step(cfg, s, a).threads == s.threads
    ensures !a.CommitUnit? ==> Step(cfg, s, a).db.streams == s.db.streams
  {
    EngineHistory.ThreadsOf(cfg, s, a);
    StreamsKept(cfg, s, a);
    hide Step;
  }

  lemma StreamsKept(cfg: Config, s: Sys, a: Action)
    ensures !a.CommitUnit? ==> Step(cfg, s, a).db.streams == s.db.streams
  {
    hide Commit, LoadState, Enlist, Issue, Fresh, MarkByEventId, EventIds, BatchOf, Purged, UnitSnapshots, UnitEvents, Boxed, AfterCommit;
  }

  lemma LockFrame(l: Locks.System, m: Locks.Move)
    requires !m.Settle?
    ensures OnlyUnit(l, Locks.Step(l, m), m.t)
    ensures !m.Commit? ==> Locks.Step(l, m).lengths == l.lengths
  {
    hide Locks.Conflicts, Locks.Grown, Locks.LockAt, Locks.Enter;
  }

  lemma OthersPaired(w: World, w': World, t: nat)
    requires OnlyThread(w.sys, w'.sys, t) && OnlyUnit(w.locks, w'.locks, t)
    requires forall x: nat :: Paired(w, x)
    requires Paired(w', t)
    ensures forall x: nat :: Paired(w', x)
  {
    hide Agree;
    forall x: nat ensures Paired(w', x) {
      assert Paired(w, x);
    }
  }

  lemma SomeCompanion(cfg: Config, s: Sys, a: Action)
    ensures var m := LockMove(cfg, s, a); m.Some? ==> !a.Purge? && m.value.t == a.t && !m.value.Settle? && (m.value.Commit? ==> a.CommitUnit?)
  {
    hide Step;
  }

  // --- The mover's own thread and unit ---

  lemma StartPaired(cfg: Config, w: World, a: Action)
    requires (a.StartCommand? || a.StartUnit? || a.StartRelay?) && Paired(w, a.t)
    ensures Paired(ActStep(cfg, w, a), a.t)
  {
    if a.t in w.sys.threads {
      assert Step(cfg, w.sys, a) == w.sys;
    }
  }

  lemma DispatchPaired(cfg: Config, w: World, t: nat, cmd: Command)
    requires Paired(w, t)
    ensures Paired(ActStep(cfg, w, Engine.Dispatch(t, cmd)), t)
  {
    hide Enlisted;
  }

  lemma CheckPaired(cfg: Config, w: World, t: nat)
    requires Paired(w, t)
    ensures Paired(ActStep(cfg, w, CheckDuplicate(t)), t)
  {
    hide Enlisted;
  }

  lemma SnapshotLoadPaired(cfg: Config, w: World, t: nat)
    requires Paired(w, t)
    ensures Paired(ActStep(cfg, w, LoadSnapshot(t)), t)
  {
    hide Enlisted;
  }

  /** Loading sets a length no enlisted batch was decided on. */
  lemma LoadEnlisted(works: seq<Work>, u: Locks.GuardedUnit, u': Locks.GuardedUnit, k: Key, n: nat)
    requires Enlisted(works, u) && k !in u.sizes && u'.sizes == u.sizes && u'.loaded == u.loaded[k := n]
    ensures Enlisted(works, u')
  {
  }

  /** Whatever snapshot it starts from, a command loads the length of its stream. */
  lemma LoadedLength(cfg: Config, db: Database, k: Key, base: Option<Snapshot>)
    requires base.Some? ==> SnapshotValid(cfg, db.streams, k, base.value)
    ensures LoadState(cfg, db, k, base).1 == |Stream(db.streams, k)|
  {
    if base.Some? {
      EngineSteps.SnapshotTransparent(cfg, db, k, base.value);
    }
  }

  lemma LoadedVersion(cfg: Config, s: Sys, t: nat)
    requires Inv(cfg, s) && t in s.threads && s.threads[t].Based?
    ensures var th := s.threads[t];
      LoadState(cfg, s.db, th.cmd.target, th.base).1 == |Stream(s.db.streams, th.cmd.target)|
  {
    assert ThreadOk(cfg, s, t, s.threads[t]);
    hide Inv, LoadState;
    LoadedLength(cfg, s.db, s.threads[t].cmd.target, s.threads[t].base);
  }

  lemma LoadPaired(cfg: Config, w: World, t: nat)
    requires Inv(cfg, w.sys) && SameLengths(w) && Paired(w, t)
    ensures Paired(ActStep(cfg, w, LoadEvents(t)), t)
  {
    hide Inv, LoadState, Enlisted;
    if t in w.sys.threads && w.sys.threads[t].Based? {
      LoadedVersion(cfg, w.sys, t);
      var th, u, u' := w.sys.threads[t], w.locks.units[t], Locks.LoadStep(w.locks, t).units[t];
      LoadEnlisted(th.works, u, u', th.cmd.target, |Stream(w.sys.db.streams, th.cmd.target)|);
    }
  }

  /** One more batch, on an aggregate of its own. */
  lemma DecideEnlisted(works: seq<Work>, w: Work, u: Locks.GuardedUnit, u': Locks.GuardedUnit)
    requires Enlisted(works, u) && w.batch.cmd.target !in u.sizes
    requires w.batch.cmd.target in u.loaded && u.loaded[w.batch.cmd.target] == w.batch.version
    requires u'.loaded == u.loaded && u'.sizes == u.sizes[w.batch.cmd.target := |w.batch.events|]
    ensures Enlisted(works + [w], u')
  {
    SizesMore(works, w);
    hide SizesOf;
    var more := works + [w];
    assert more[|works|] == w && forall i :: 0 <= i < |works| ==> more[i] == works[i];
  }

  lemma SizesMore(works: seq<Work>, w: Work)
    ensures SizesOf(works + [w]) == SizesOf(works)[w.batch.cmd.target := |w.batch.events|]
  {
    assert (works + [w])[..|works|] == works;
  }

  lemma DecidePaired(cfg: Config, w: World, t: nat, raws: seq<RawEvent>, ids: seq<nat>, tickets: seq<nat>, take: bool)
    requires Paired(w, t)
    ensures Paired(ActStep(cfg, w, Engine.Decide(t, raws, ids, tickets, take)), t)
  {
    var w' := ActStep(cfg, w, Engine.Decide(t, raws, ids, tickets, take));
    if t in w.sys.threads && w.sys.threads[t].Deciding? {
      hide Agree;
      DecideShape(cfg, w.sys, t, raws, ids, tickets, take);
      hide Step, Enlist;
      DecideLocks(cfg, w, t, raws, ids, tickets, take);
      hide ActStep;
      DecideAgrees(w.sys.threads[t], w'.sys.threads[t], w.locks.units[t], w'.locks.units[t], raws);
    } else {
      hide Agree, Enlist, Boxed, Fresh, Issue;
    }
  }

  lemma DecideLocks(cfg: Config, w: World, t: nat, raws: seq<RawEvent>, ids: seq<nat>, tickets: seq<nat>, take: bool)
    requires t in w.sys.threads && w.sys.threads[t].Deciding?
    requires t in w.locks.units && w.locks.units[t].phase.Deciding?
    ensures var a := Engine.Decide(t, raws, ids, tickets, take);
      var w', th', u := ActStep(cfg, w, a), Step(cfg, w.sys, a).threads, w.locks.units[t];
      && w'.sys.threads == th' && t in w'.locks.units
      && (t in th' ==>
            w'.locks.units[t] ==
              if th'[t].Ready? then u.(phase := Locks.Idle, sizes := u.sizes[u.phase.k := |raws|])
              else if th'[t].Ended? then u.(phase := Locks.Settling)
              else u)
  {
    hide Step;
  }

  lemma DecideAgrees(th: Thread, th': Thread, u: Locks.GuardedUnit, u': Locks.GuardedUnit, raws: seq<RawEvent>)
    requires th.Deciding? && Agree(th, u)
    requires || (th' == th && u' == u)
             || (th' == Ended(th.job, Aborted) && u' == u.(phase := Locks.Settling))
             || (th'.Ready? && u' == u.(phase := Locks.Idle, sizes := u.sizes[u.phase.k := |raws|])
                 && th'.job == th.job && |th'.works| == |th.works| + 1 && th'.works[..|th.works|] == th.works
                 && var b := th'.works[|th.works|].batch;
                    b.cmd == th.cmd && b.version == th.version && |b.events| == |raws|)
    ensures Agree(th', u')
  {
    hide Enlisted;
    if th'.Ready? {
      var w := th'.works[|th.works|];
      assert th'.works == th.works + [w];
      DecideEnlisted(th.works, w, u, u');
    }
  }

  /** The handler's answer is enlisted, or fails the command, or is not one. */
  lemma DecideShape(cfg: Config, s: Sys, t: nat, raws: seq<RawEvent>, ids: seq<nat>, tickets: seq<nat>, take: bool)
    requires t in s.threads && s.threads[t].Deciding?
    ensures var s', th := Step(cfg, s, Engine.Decide(t, raws, ids, tickets, take)), s.threads[t];
      && t in s'.threads
      && (|| s'.threads[t] == th
          || s'.threads[t] == Ended(th.job, Aborted)
          || (|ids| == |raws|
              && s'.threads[t] == Ready(th.job, th.works + [Enlist(cfg, t, th, raws, ids, tickets, take)])
              && var b := Enlist(cfg, t, th, raws, ids, tickets, take).batch;
                 b.cmd == th.cmd && b.version == th.version && |b.events| == |raws|))
  {
    hide Issue, Fresh, Boxed, Replay;
  }

  lemma FailPaired(cfg: Config, w: World, t: nat)
    requires Paired(w, t)
    ensures Paired(ActStep(cfg, w, FailCommand(t)), t)
  {
    hide SizesOf;
    if t in w.locks.units && t in w.sys.threads && Allowed(w, FailCommand(t)) {
      FailAgrees(w.sys.threads[t], w.locks.units[t]);
    }
    hide Agree;
    if Allowed(w, FailCommand(t)) {
      FailShape(cfg, w, t);
    }
  }

  /** A command that fails leaves the unit idle and what it had enlisted as it was. */
  lemma FailAgrees(th: Thread, u: Locks.GuardedUnit)
    requires Agree(th, u) && !u.phase.Waiting?
    ensures !th.Relaying? && !th.Ended? && !th.Committed? && !th.Ready? && th.job.Explicit? ==>
      u.explicit && Agree(Ready(th.job, th.works), u.(phase := Locks.Idle)) && (u.phase.Idle? || u.phase.Running? || u.phase.Deciding?)
    ensures th.Ready? || th.Committed? || th.Ended? || th.job.Implicit? ==>
      !u.explicit || (!u.phase.Running? && !u.phase.Deciding?)
  {
    hide SizesOf;
  }

  lemma FailShape(cfg: Config, w: World, t: nat)
    requires Allowed(w, FailCommand(t))
    ensures var w' := ActStep(cfg, w, FailCommand(t));
      && (t in w'.sys.threads <==> t in w.sys.threads) && (t in w'.locks.units <==> t in w.locks.units)
      && (t in w.sys.threads ==>
            var th := w.sys.threads[t];
            w'.sys.threads[t] ==
            if !th.Relaying? && !th.Ended? && !th.Committed? && !th.Ready? && th.job.Explicit? then Ready(th.job, th.works) else th)
      && (t in w.locks.units && t in w.sys.threads ==>
            var u := w.locks.units[t];
            w'.locks.units[t] == if u.explicit && (u.phase.Running? || u.phase.Deciding?) then u.(phase := Locks.Idle) else u)
  {
  }

  lemma AbortPaired(cfg: Config, w: World, t: nat)
    requires Paired(w, t)
    ensures Paired(ActStep(cfg, w, Engine.Abort(t)), t)
  {
    hide Enlisted;
  }

  lemma AfterCommitPaired(cfg: Config, w: World, a: Action)
    requires (a.SaveSnapshot? || a.Publish? || a.MarkPublished?) && Paired(w, a.t)
    ensures Paired(ActStep(cfg, w, a), a.t)
  {
    hide Agree;
    CommittedShape(cfg, w, a);
    if a.t in w.sys.threads && w.sys.threads[a.t].Committed? && Allowed(w, a) {
      CommittedAgrees(w.sys.threads[a.t], ActStep(cfg, w, a).sys.threads[a.t], w.locks.units[a.t], ActStep(cfg, w, a).locks.units[a.t]);
    }
    hide ActStep;
  }

  /** After its commit a unit goes on publishing, or is done with it. */
  lemma CommittedShape(cfg: Config, w: World, a: Action)
    requires a.SaveSnapshot? || a.Publish? || a.MarkPublished?
    ensures var w', t := ActStep(cfg, w, a), a.t;
      && (t in w'.sys.threads <==> t in w.sys.threads) && (t in w'.locks.units <==> t in w.locks.units)
      && (t in w.sys.threads && !w.sys.threads[t].Committed? ==> w'.sys.threads[t] == w.sys.threads[t])
      && (t in w.sys.threads && w.sys.threads[t].Committed? ==> Onward(w.sys.threads[t], w'.sys.threads[t]))
      && (t in w.locks.units ==>
            || w'.locks.units[t] == w.locks.units[t]
            || (t in w.sys.threads && w.sys.threads[t].Committed? && w'.sys.threads[t].Ended?
                && w.locks.units[t].phase.Publishing? && w'.locks.units[t] == w.locks.units[t].(phase := Locks.Done)))
      && (!Allowed(w, a) ==> w' == w)
  {
    hide MarkByEventId, EventIds;
  }

  ghost predicate Onward(th: Thread, th': Thread)
    requires th.Committed?
  {
    (th'.Committed? && th'.job == th.job) || th' == Ended(th.job, Completed)
  }

  lemma CommittedAgrees(th: Thread, th': Thread, u: Locks.GuardedUnit, u': Locks.GuardedUnit)
    requires th.Committed? && Agree(th, u) && Onward(th, th')
    requires u' == u || (th'.Ended? && u' == u.(phase := Locks.Done))
    ensures Agree(th', u')
  {
    hide Enlisted;
  }

  lemma RelayPaired(cfg: Config, w: World, a: Action)
    requires a.RelayLoad? || a.RelayDispatch? || a.RelayMark? || a.RelaySkip?
    requires Paired(w, a.t)
    ensures Paired(ActStep(cfg, w, a), a.t)
  {
    hide Enlisted, BatchOf, MarkById;
  }

  lemma ExpirePaired(cfg: Config, w: World, t: nat)
    requires Paired(w, t)
    ensures Paired(ExpireStep(cfg, w, t), t)
  {
    hide Agree;
    if t in w.sys.threads && w.sys.threads[t].Loading? && t in w.locks.units && w.locks.units[t].phase.Waiting? {
      ExpireAgrees(w.sys.threads[t], w.locks.units[t]);
      hide Locks.LockAt;
    }
  }

  lemma ExpireAgrees(th: Thread, u: Locks.GuardedUnit)
    requires Agree(th, u) && th.Loading?
    ensures th.job.Implicit? ==> !u.explicit && Agree(Ended(th.job, Aborted), u.(phase := Locks.Settling))
    ensures th.job.Explicit? ==> u.explicit && Agree(Ready(th.job, th.works), u.(phase := Locks.Idle))
  {
    hide SizesOf;
  }

  /** A lock newly asked for is on an aggregate the unit has no batch for. */
  lemma FreshTarget(u: Locks.GuardedUnit, k: Key)
    requires Locks.UnitShape(u) && k !in u.targeted
    ensures k !in u.sizes
  {
  }

  lemma AcquirePaired(w: World, t: nat)
    requires Paired(w, t) && Locks.Guarded(w.locks)
    ensures Paired(AcquireStep(w, t), t)
  {
    if t in w.sys.threads && w.sys.threads[t].Loading? {
      assert Locks.UnitShape(w.locks.units[t]);
      hide Locks.Guarded, Locks.UnitShape, Agree;
      var th, u, u' := w.sys.threads[t], w.locks.units[t], AcquireStep(w, t).locks.units[t];
      if u.phase.Idle? && th.cmd.target !in u.targeted && (u.explicit || u.targeted == {}) {
        AcquireAgrees(th, u, u');
      }
    }
  }

  lemma AcquireAgrees(th: Thread, u: Locks.GuardedUnit, u': Locks.GuardedUnit)
    requires Agree(th, u) && th.Loading? && Locks.UnitShape(u) && th.cmd.target !in u.targeted
    requires u'.explicit == u.explicit && u'.sizes == u.sizes && u'.loaded == u.loaded
    requires u'.phase == Locks.Waiting(th.cmd.target) || u'.phase == Locks.Running(th.cmd.target)
    ensures Agree(th, u')
  {
    FreshTarget(u, th.cmd.target);
    hide Locks.UnitShape, SizesOf;
  }

  // --- The commit ---

  /** Every batch of a unit is decided on the whole of its own stream. */
  ghost predicate AllCurrent(streams: Streams, works: seq<Work>) {
    && (forall i, j :: 0 <= i < j < |works| ==> works[i].batch.cmd.target != works[j].batch.cmd.target)
    && (forall i :: 0 <= i < |works| ==>
          && works[i].batch.version == |Stream(streams, works[i].batch.cmd.target)|
          && |works[i].tickets| == |works[i].batch.events|)
  }

  function SizeFor(works: seq<Work>, k: Key): nat {
    if k in SizesOf(works) then SizesOf(works)[k] else 0
  }

  /** What a database holds after some batches of a unit: each stream longer by its own batch. */
  ghost predicate Lengthened(streams: Streams, works: seq<Work>, streams': Streams) {
    forall k: Key :: |Stream(streams', k)| == |Stream(streams, k)| + SizeFor(works, k)
  }

  lemma {:induction false} SizesKeys(works: seq<Work>, k: Key)
    ensures k in SizesOf(works) ==> exists i :: 0 <= i < |works| && works[i].batch.cmd.target == k
  {
    if works != [] && k in SizesOf(works) && k != works[|works| - 1].batch.cmd.target {
      SizesKeys(works[..|works| - 1], k);
      var i :| 0 <= i < |works| - 1 && works[..|works| - 1][i].batch.cmd.target == k;
      assert works[i].batch.cmd.target == k;
    }
  }

  /** The next batch of a unit finds its stream where the unit loaded it. */
  lemma NextIsCurrent(streams: Streams, works: seq<Work>, now: Streams)
    requires works != [] && AllCurrent(streams, works) && Lengthened(streams, works[..|works| - 1], now)
    ensures AllCurrent(streams, works[..|works| - 1])
    ensures var w := works[|works| - 1]; w.batch.version == |Stream(now, w.batch.cmd.target)|
  {
    var front, w := works[..|works| - 1], works[|works| - 1];
    SizesKeys(front, w.batch.cmd.target);
    hide Stream, SizesOf;
    assert |Stream(now, w.batch.cmd.target)| == |Stream(streams, w.batch.cmd.target)| + SizeFor(front, w.batch.cmd.target);
  }

  lemma NextLength(cfg: Config, streams: Streams, works: seq<Work>, d: Database)
    requires works != [] && AllCurrent(streams, works) && Lengthened(streams, works[..|works| - 1], d.streams)
    requires |d.views| == |cfg.strong| && |works[|works| - 1].tickets| == |works[|works| - 1].batch.events|
    ensures Lengthened(streams, works, EngineCommit.Applied(cfg, d, works[|works| - 1]).streams)
  {
    var front, w := works[..|works| - 1], works[|works| - 1];
    SizesKeys(front, w.batch.cmd.target);
    forall k: Key
      ensures |Stream(EngineCommit.Applied(cfg, d, w).streams, k)| == |Stream(streams, k)| + SizeFor(works, k)
    {
      EngineCommit.AppliedStream(cfg, d, w, k);
      assert |Stream(d.streams, k)| == |Stream(streams, k)| + SizeFor(front, k);
      hide Stream, EngineCommit.Applied;
    }
  }

  lemma AppliedViews(cfg: Config, d: Database, w: Work)
    requires |d.views| == |cfg.strong| && |w.tickets| == |w.batch.events|
    ensures |EngineCommit.Applied(cfg, d, w).views| == |cfg.strong|
  {
    EngineCommit.ViewsAfterLength(cfg, d.views, w.batch.events, |d.views|);
  }

  /** A unit all of whose batches are current is refused for a duplicate at most, and lengthens its own streams. */
  lemma {:induction false} CurrentUnitCommits(cfg: Config, db: Database, works: seq<Work>)
    requires |db.views| == |cfg.strong| && AllCurrent(db.streams, works)
    ensures !Commit(cfg, db, works).ConcurrencyError?
    ensures Commit(cfg, db, works).Ok? ==>
      var d := Commit(cfg, db, works).db; |d.views| == |cfg.strong| && Lengthened(db.streams, works, d.streams)
  {
    hide *;
    if works == [] {
      EmptyUnit(cfg, db);
    } else {
      var front, w := works[..|works| - 1], works[|works| - 1];
      CurrentFront(db.streams, works);
      CurrentUnitCommits(cfg, db, front);
      UnitSplits(cfg, db, works);
      if Commit(cfg, db, front).Ok? {
        var d := Commit(cfg, db, front).db;
        NextIsCurrent(db.streams, works, d.streams);
        EngineCommit.RunWork(cfg, d, w);
        NextLength(cfg, db.streams, works, d);
        AppliedViews(cfg, d, w);
      }
    }
  }

  lemma EmptyUnit(cfg: Config, db: Database)
    ensures Commit(cfg, db, []) == Ok(db) && Lengthened(db.streams, [], db.streams)
  {
  }

  lemma CurrentFront(streams: Streams, works: seq<Work>)
    requires works != [] && AllCurrent(streams, works)
    ensures AllCurrent(streams, works[..|works| - 1]) && |works[|works| - 1].tickets| == |works[|works| - 1].batch.events|
  {
  }

  lemma UnitSplits(cfg: Config, db: Database, works: seq<Work>)
    requires works != []
    ensures Commit(cfg, db, works) ==
      match Commit(cfg, db, works[..|works| - 1])
      case Ok(d) => Run(cfg, d, WorkOps(cfg, works[|works| - 1]))
      case failed => failed
  {
    EngineCommit.RunAppend(cfg, db, UnitOps(cfg, works[..|works| - 1]), WorkOps(cfg, works[|works| - 1]));
    hide Run, WorkOps;
  }

  /** Under its locks a unit ready to commit has only current batches. */
  lemma ReadyIsCurrent(cfg: Config, w: World, t: nat)
    requires WorldOk(cfg, w) && t in w.sys.threads && w.sys.threads[t].Ready?
    ensures |w.sys.db.views| == |cfg.strong| && AllCurrent(w.sys.db.streams, w.sys.threads[t].works)
  {
    EngineProgress.ViewsCounted(NoRetry(cfg), w.sys);
    TicketsMatch(NoRetry(cfg), w.sys, t);
    hide Inv;
    assert Paired(w, t);
    assert Locks.LoadsCurrent(w.locks.lengths, w.locks.units[t]);
    hide Locks.Guarded;
  }

  lemma TicketsMatch(cfg: Config, s: Sys, t: nat)
    requires Inv(cfg, s) && t in s.threads && s.threads[t].Ready?
    ensures forall i :: 0 <= i < |s.threads[t].works| ==> |s.threads[t].works[i].tickets| == |s.threads[t].works[i].batch.events|
  {
    assert ThreadOk(cfg, s, t, s.threads[t]);
    hide GoodDb, SavesOnce, SawPrefix, Enriched, SnapshotDue;
    assert forall i :: 0 <= i < |s.threads[t].works| ==> WorkOk(cfg, s.db.streams, s.issued, t, s.threads[t].works[i]);
  }

  /** The locks see no conflict either. */
  lemma NoLockConflict(w: World, t: nat)
    requires Locks.Guarded(w.locks) && t in w.locks.units && w.locks.units[t].phase.Idle?
    ensures !Locks.Conflicts(w.locks.lengths, w.locks.units[t])
  {
    assert Locks.LoadsCurrent(w.locks.lengths, w.locks.units[t]);
    hide Locks.Guarded;
  }

  lemma CommitKeeps(cfg: Config, w: World, t: nat)
    requires WorldOk(cfg, w)
    ensures Paired(ActStep(NoRetry(cfg), w, CommitUnit(t)), t) && SameLengths(ActStep(NoRetry(cfg), w, CommitUnit(t)))
  {
    assert Paired(w, t);
    if t in w.sys.threads && w.sys.threads[t].Ready? {
      ReadyIsCurrent(cfg, w, t);
      CurrentUnitCommits(NoRetry(cfg), w.sys.db, w.sys.threads[t].works);
      NoLockConflict(w, t);
      hide WorldOk, AllCurrent, Commit;
      if Commit(NoRetry(cfg), w.sys.db, w.sys.threads[t].works).Ok? {
        CommittedPair(NoRetry(cfg), w, t);
      } else {
        RefusedPair(NoRetry(cfg), w, t);
      }
    } else {
      hide Commit;
      IdlePair(NoRetry(cfg), w, t);
    }
  }

  lemma IdlePair(cfg: Config, w: World, t: nat)
    requires Paired(w, t) && (t !in w.sys.threads || !w.sys.threads[t].Ready?)
    ensures ActStep(cfg, w, CommitUnit(t)) == w
  {
  }

  lemma RefusedPair(cfg: Config, w: World, t: nat)
    requires Paired(w, t) && t in w.sys.threads && w.sys.threads[t].Ready? && SameLengths(w)
    requires Commit(cfg, w.sys.db, w.sys.threads[t].works).IdempotencyConflict?
    ensures Paired(ActStep(cfg, w, CommitUnit(t)), t) && SameLengths(ActStep(cfg, w, CommitUnit(t)))
  {
    hide Commit, Enlisted;
  }

  lemma CommittedPair(cfg: Config, w: World, t: nat)
    requires Paired(w, t) && t in w.sys.threads && w.sys.threads[t].Ready? && SameLengths(w)
    requires Commit(cfg, w.sys.db, w.sys.threads[t].works).Ok?
    requires Lengthened(w.sys.db.streams, w.sys.threads[t].works, Commit(cfg, w.sys.db, w.sys.threads[t].works).db.streams)
    requires !Locks.Conflicts(w.locks.lengths, w.locks.units[t])
    ensures Paired(ActStep(cfg, w, CommitUnit(t)), t) && SameLengths(ActStep(cfg, w, CommitUnit(t)))
  {
    hide Commit, Stream, SizesOf, UnitSnapshots, UnitEvents, Locks.Conflicts, Locks.Grown, SameLengths, Lengthened;
    var works := w.sys.threads[t].works;
    var w' := ActStep(cfg, w, CommitUnit(t));
    assert w'.locks.lengths == Locks.Grown(w.locks.lengths, SizesOf(works));
    assert w'.sys.db == Commit(cfg, w.sys.db, works).db;
    hide ActStep, Paired;
    GrownTogether(w, w', works);
  }

  lemma GrownTogether(w: World, w': World, works: seq<Work>)
    requires SameLengths(w) && Lengthened(w.sys.db.streams, works, w'.sys.db.streams)
    requires w'.locks.lengths == Locks.Grown(w.locks.lengths, SizesOf(works))
    ensures SameLengths(w')
  {
    hide Stream, SizesOf;
    forall k: Key ensures Locks.LengthAt(w'.locks.lengths, k) == |Stream(w'.sys.db.streams, k)| {
      assert |Stream(w'.sys.db.streams, k)| == |Stream(w.sys.db.streams, k)| + SizeFor(works, k);
    }
  }

  // --- Every move ---

  lemma ActPaired(cfg: Config, w: World, a: Action)
    requires Inv(cfg, w.sys) && SameLengths(w) && !a.Purge? && !a.CommitUnit? && Paired(w, a.t)
    ensures Paired(ActStep(cfg, w, a), a.t)
  {
    hide *;
    match a
    case StartCommand(_, _) => StartPaired(cfg, w, a);
    case StartUnit(_) => StartPaired(cfg, w, a);
    case StartRelay(_) => StartPaired(cfg, w, a);
    case Dispatch(t, cmd) => DispatchPaired(cfg, w, t, cmd);
    case CheckDuplicate(t) => CheckPaired(cfg, w, t);
    case LoadSnapshot(t) => SnapshotLoadPaired(cfg, w, t);
    case LoadEvents(t) => LoadPaired(cfg, w, t);
    case Decide(t, raws, ids, tickets, take) => DecidePaired(cfg, w, t, raws, ids, tickets, take);
    case FailCommand(t) => FailPaired(cfg, w, t);
    case SaveSnapshot(_, _) => AfterCommitPaired(cfg, w, a);
    case Publish(_) => AfterCommitPaired(cfg, w, a);
    case MarkPublished(_, _) => AfterCommitPaired(cfg, w, a);
    case RelayLoad(_, _) => RelayPaired(cfg, w, a);
    case RelayDispatch(_) => RelayPaired(cfg, w, a);
    case RelayMark(_) => RelayPaired(cfg, w, a);
    case RelaySkip(_) => RelayPaired(cfg, w, a);
    case Abort(t) => AbortPaired(cfg, w, t);
  }

  /** What an action leaves of every other thread and unit. */
  lemma ActFrame(cfg: Config, w: World, a: Action)
    ensures !a.Purge? ==> OnlyThread(w.sys, ActStep(cfg, w, a).sys, a.t) && OnlyUnit(w.locks, ActStep(cfg, w, a).locks, a.t)
    ensures a.Purge? ==> ActStep(cfg, w, a).sys.threads == w.sys.threads && ActStep(cfg, w, a).locks == w.locks
    ensures !a.CommitUnit? && SameLengths(w) ==> SameLengths(ActStep(cfg, w, a))
  {
    EngineFrame(cfg, w.sys, a);
    SomeCompanion(cfg, w.sys, a);
    var m := LockMove(cfg, w.sys, a);
    hide Step, LockMove, Allowed, Locks.Step, Stream, Locks.LengthAt;
    if m.Some? {
      LockFrame(w.locks, m.value);
    }
  }

  lemma ActKeepsPairs(cfg: Config, w: World, a: Action)
    requires WorldOk(cfg, w)
    ensures SameLengths(ActStep(NoRetry(cfg), w, a)) && forall t: nat :: Paired(ActStep(NoRetry(cfg), w, a), t)
  {
    var w' := ActStep(NoRetry(cfg), w, a);
    hide ActStep, Inv, Locks.Guarded, SameLengths, OnlyThread, OnlyUnit, NoRetry;
    ActFrame(NoRetry(cfg), w, a);
    if a.Purge? {
      hide WorldOk;
      forall t: nat ensures Paired(w', t) {
        assert Paired(w, t);
      }
    } else {
      if a.CommitUnit? {
        CommitKeeps(cfg, w, a.t);
      } else {
        ActPaired(NoRetry(cfg), w, a);
      }
      OthersPaired(w, w', a.t);
    }
  }

  lemma LockStepKeepsPairs(w: World, w': World, t: nat)
    requires SameLengths(w) && forall x: nat :: Paired(w, x)
    requires w'.sys.db.streams == w.sys.db.streams && w'.locks.lengths == w.locks.lengths
    requires OnlyThread(w.sys, w'.sys, t) && OnlyUnit(w.locks, w'.locks, t) && Paired(w', t)
    ensures SameLengths(w') && forall x: nat :: Paired(w', x)
  {
    hide Paired, OnlyThread, OnlyUnit;
    OthersPaired(w, w', t);
  }

  lemma AcquireKeepsPairs(cfg: Config, w: World, t: nat)
    requires WorldOk(cfg, w)
    ensures SameLengths(AcquireStep(w, t)) && forall x: nat :: Paired(AcquireStep(w, t), x)
  {
    AcquirePaired(w, t);
    var w' := AcquireStep(w, t);
    if t in w.sys.threads && w.sys.threads[t].Loading? {
      var k := w.sys.threads[t].cmd.target;
      LockFrame(w.locks, Locks.Acquire(t, k));
      assert w'.locks == Locks.Step(w.locks, Locks.Acquire(t, k));
      hide Paired, SameLengths, Inv, Locks.Guarded, OnlyUnit, Locks.Step, Locks.AcquireStep;
      LockStepKeepsPairs(w, w', t);
    }
  }

  lemma ExpireKeepsPairs(cfg: Config, w: World, t: nat)
    requires WorldOk(cfg, w)
    ensures SameLengths(ExpireStep(NoRetry(cfg), w, t)) && forall x: nat :: Paired(ExpireStep(NoRetry(cfg), w, t), x)
  {
    ExpirePaired(NoRetry(cfg), w, t);
    var w' := ExpireStep(NoRetry(cfg), w, t);
    if t in w.sys.threads && w.sys.threads[t].Loading? && t in w.locks.units && w.locks.units[t].phase.Waiting? {
      var a := if w.sys.threads[t].job.Implicit? then Abort(t) else FailCommand(t);
      EngineFrame(NoRetry(cfg), w.sys, a);
      LockFrame(w.locks, Locks.Expire(t));
      assert w'.locks == Locks.Step(w.locks, Locks.Expire(t));
      hide Paired, SameLengths, Inv, Locks.Guarded, OnlyUnit, OnlyThread, Locks.Step, Locks.ExpireStep, Step;
      LockStepKeepsPairs(w, w', t);
    }
  }

  /** What a release may do to a unit: release its next lock, or be done, or be let in. */
  ghost predicate Released(u: Locks.GuardedUnit, u': Locks.GuardedUnit) {
    || u' == u
    || (u.phase.Settling? && u' == u.(released := u.released + 1))
    || (u.phase.Settling? && u' == u.(phase := if u.committed then Locks.Publishing else Locks.Done))
    || (u.phase.Waiting? && u' == Locks.Enter(u, u.phase.k))
  }

  lemma SettleFrame(l: Locks.System, t: nat)
    requires Locks.Guarded(l)
    ensures var l' := Locks.SettleStep(l, t);
      && l'.lengths == l.lengths && l'.units.Keys == l.units.Keys
      && forall x :: x in l.units ==> Released(l.units[x], l'.units[x])
  {
    if t in l.units && l.units[t].phase.Settling? && l.units[t].released < |l.units[t].acquired| {
      var k := l.units[t].acquired[l.units[t].released];
      assert Locks.UnitShape(l.units[t]) && Locks.LockAgrees(l, k);
      hide *;
      Locks.ReleaseEffect(l, t, k);
      ReleasingFrame(l, Locks.SettleStep(l, t), t, k, Locker.Woken(Locks.LockAt(l, k).entry));
    } else {
      hide Locks.Guarded, Locks.LockAt, Locks.Held, Locks.Enter, Locker.Apply;
    }
  }

  lemma ReleasingFrame(l: Locks.System, l': Locks.System, t: nat, k: Key, woken: Option<nat>)
    requires Locks.Releasing(l, l', t, k, woken)
    ensures l'.lengths == l.lengths && l'.units.Keys == l.units.Keys
    ensures forall x :: x in l.units ==> Released(l.units[x], l'.units[x])
  {
    hide Locks.LockAt, Locks.Held, Locker.Apply, Locks.Enter, Locker.Woken;
  }

  lemma ReleasedAgrees(th: Thread, u: Locks.GuardedUnit, u': Locks.GuardedUnit)
    requires Agree(th, u) && Released(u, u')
    ensures Agree(th, u')
  {
    hide SizesOf;
  }

  lemma SettleKeepsPairs(cfg: Config, w: World, t: nat)
    requires WorldOk(cfg, w)
    ensures var w' := w.(locks := Locks.SettleStep(w.locks, t)); SameLengths(w') && forall x: nat :: Paired(w', x)
  {
    SettleFrame(w.locks, t);
    var w' := w.(locks := Locks.SettleStep(w.locks, t));
    hide Inv, Locks.Guarded, Locks.SettleStep, Stream, Locks.LengthAt, Agree, Released;
    forall x: nat ensures Paired(w', x) {
      assert Paired(w, x);
      if x in w.locks.units {
        ReleasedAgrees(w.sys.threads[x], w.locks.units[x], w'.locks.units[x]);
      }
    }
  }

  lemma StepKeeps(cfg: Config, w: World, m: Move)
    requires WorldOk(cfg, w)
    ensures WorldOk(cfg, WorldStep(cfg, w, m))
  {
    var w' := WorldStep(cfg, w, m);
    BothKept(cfg, w, m);
    PairsKept(cfg, w, m);
    hide WorldStep, Inv, Locks.Guarded, SameLengths, Paired;
  }

  lemma BothKept(cfg: Config, w: World, m: Move)
    requires WorldOk(cfg, w)
    ensures Inv(NoRetry(cfg), WorldStep(cfg, w, m).sys) && Locks.Guarded(WorldStep(cfg, w, m).locks)
  {
    hide WorldStep, Inv, Locks.Guarded, SameLengths, Paired, Step, Locks.Step;
    var a, l := MoveBeneath(cfg, w, m);
    if a.Some? {
      EngineSteps.StepKeepsInv(NoRetry(cfg), w.sys, a.value);
    }
    if l.Some? {
      Locks.StepGuarded(w.locks, l.value);
    }
  }

  lemma PairsKept(cfg: Config, w: World, m: Move)
    requires WorldOk(cfg, w)
    ensures SameLengths(WorldStep(cfg, w, m)) && forall t: nat :: Paired(WorldStep(cfg, w, m), t)
  {
    hide WorldOk, ActStep, AcquireStep, ExpireStep, SameLengths, Paired, Locks.SettleStep;
    match m
    case Act(a) => ActKeepsPairs(cfg, w, a);
    case Acquire(t) => AcquireKeepsPairs(cfg, w, t);
    case Expire(t) => ExpireKeepsPairs(cfg, w, t);
    case Settle(t) => SettleKeepsPairs(cfg, w, t);
  }

  /** What is kept by every run of the engine under locks. */
  lemma {:induction false} WorldInvariant(cfg: Config, moves: seq<Move>)
    ensures WorldOk(cfg, WorldAfter(cfg, moves))
  {
    if moves == [] {
      EngineSteps.InitialGood(NoRetry(cfg));
      Locks.AlwaysGuarded([]);
      hide Inv, Locks.Guarded;
    } else {
      WorldInvariant(cfg, moves[..|moves| - 1]);
      StepKeeps(cfg, WorldAfter(cfg, moves[..|moves| - 1]), moves[|moves| - 1]);
    }
  }

  /**
   * The pessimistic strategy needs no retries: in every run in which all loads and commits
   * are guarded by the locks, no command ever ends in a ConcurrencyError, a unit ready to
   * commit is refused for a duplicate at most, and it then appends to each stream exactly
   * the batch it decided on the whole of it.
   */
  lemma NoConcurrencyErrorUnderLocks(cfg: Config, moves: seq<Move>, t: nat)
    requires t in WorldAfter(cfg, moves).sys.threads
    ensures var w := WorldAfter(cfg, moves);
      var th := w.sys.threads[t];
      && (th.Ended? ==> !th.result.ConcurrencyFailure?)
      && (th.Ready? ==>
            var outcome := Commit(NoRetry(cfg), w.sys.db, th.works);
            && !outcome.ConcurrencyError?
            && (forall i :: 0 <= i < |th.works| ==> th.works[i].batch.version == |Stream(w.sys.db.streams, th.works[i].batch.cmd.target)|)
            && (outcome.Ok? ==> Lengthened(w.sys.db.streams, th.works, outcome.db.streams)))
  {
    WorldInvariant(cfg, moves);
    var w := WorldAfter(cfg, moves);
    assert Paired(w, t);
    hide WorldOk, WorldAfter, Commit, Lengthened, SizesOf;
    if w.sys.threads[t].Ready? {
      ReadyIsCurrent(cfg, w, t);
      CurrentUnitCommits(NoRetry(cfg), w.sys.db, w.sys.threads[t].works);
    }
  }

  /** From before its load until its unit commits or fails, a command's thread holds the aggregate's lock alone. */
  lemma LoadedUnderTheLock(cfg: Config, moves: seq<Move>, t: nat, k: Key)
    requires var w := WorldAfter(cfg, moves);
      && t in w.sys.threads
      && match w.sys.threads[t]
         case Based(_, _, cmd, _) => k == cmd.target
         case Deciding(_, _, cmd, _, _) => k == cmd.target
         case Ready(_, works) => exists i :: 0 <= i < |works| && works[i].batch.cmd.target == k
         case _ => false
    ensures Locks.LockAt(WorldAfter(cfg, moves).locks, k).inside == {t}
  {
    WorldInvariant(cfg, moves);
    var w := WorldAfter(cfg, moves);
    assert Paired(w, t);
    assert Locks.UnitShape(w.locks.units[t]);
    var schedule, lockMoves := RunsBeneath(cfg, moves);
    hide WorldOk, WorldAfter, SizesOf, Locks.LockAt;
    Locks.LockHeldUntilSettled(lockMoves, t, k);
  }
}
