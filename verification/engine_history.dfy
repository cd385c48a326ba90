/** What one step leaves of everything its thread does not own: for systems built over the engine. */
module EngineHistory {
  import opened Engine
  import opened EngineInvariant
  import EngineCommit

  /** The commands of the batches a thread saved, in commit order. */
  function OwnCommands(log: seq<Batch>, t: nat): seq<Command> {
    if log == [] then []
    else OwnCommands(log[..|log| - 1], t) + if log[|log| - 1].owner == t then [log[|log| - 1].cmd] else []
  }

  function CommandsOf(works: seq<Work>): (r: seq<Command>)
    ensures |r| == |works|
    ensures forall i :: 0 <= i < |r| ==> r[i] == works[i].batch.cmd
  {
    seq(|works|, i requires 0 <= i < |works| => works[i].batch.cmd)
  }

  lemma {:induction false} OwnCommandsAppend(log: seq<Batch>, more: seq<Batch>, t: nat)
    ensures OwnCommands(log + more, t) == OwnCommands(log, t) + OwnCommands(more, t)
  {
    if more == [] {
      assert log + more == log;
    } else {
      assert (log + more)[..|log + more| - 1] == log + more[..|more| - 1];
      OwnCommandsAppend(log, more[..|more| - 1], t);
    }
  }

  lemma {:induction false} OwnCommandsNone(log: seq<Batch>, t: nat)
    ensures OwnCommands(log, t) == [] <==> t !in AllOwners(log)
  {
    if log != [] {
      var front := log[..|log| - 1];
      OwnCommandsNone(front, t);
      assert log == front + [log[|log| - 1]];
      assert AllOwners(log) == AllOwners(front) + {log[|log| - 1].owner};
    }
  }

  /** The batches of one unit of work are all its own. */
  lemma {:induction false} OwnCommandsOfUnit(works: seq<Work>, owner: nat, t: nat)
    requires forall i :: 0 <= i < |works| ==> works[i].batch.owner == owner
    ensures OwnCommands(EngineCommit.UnitBatches(works), t) == if t == owner then CommandsOf(works) else []
  {
    if works != [] {
      var front := works[..|works| - 1];
      OwnCommandsOfUnit(front, owner, t);
      assert EngineCommit.UnitBatches(works)[..|works| - 1] == EngineCommit.UnitBatches(front);
      assert CommandsOf(works) == CommandsOf(front) + [works[|works| - 1].batch.cmd];
    }
  }

  /** A thread and its saves are as they were. */
  ghost predicate Untouched(s: Sys, s': Sys, t: nat) {
    && (t in s'.threads <==> t in s.threads)
    && (t in s.threads ==> s'.threads[t] == s.threads[t])
    && OwnCommands(s'.db.log, t) == OwnCommands(s.db.log, t)
  }

  /** A step touches only its own thread, and claims are never given up. */
  ghost predicate Moved(s: Sys, s': Sys, actor: nat) {
    && s.db.claims <= s'.db.claims
    && forall t: nat :: t != actor ==> Untouched(s, s', t)
  }

  lemma MovedRefl(s: Sys, actor: nat)
    ensures Moved(s, s, actor)
  {
  }

  function Actor(a: Action): nat {
    if a.Purge? then 0 else a.t
  }

  /** A step changes no thread but its own. */
  lemma ThreadsOf(cfg: Config, s: Sys, a: Action)
    ensures var s' := Step(cfg, s, a);
      s'.threads == s.threads || (!a.Purge? && a.t in s'.threads && s'.threads == s.threads[a.t := s'.threads[a.t]])
  {
    hide Commit, LoadState, Enlist, Issue, Fresh, MarkByEventId, EventIds, BatchOf, Purged, UnitSnapshots, UnitEvents, Boxed;
  }

  /** Every step but a commit leaves the history and the claims alone. */
  lemma QuietStepMoved(cfg: Config, s: Sys, a: Action)
    requires !a.CommitUnit?
    ensures Moved(s, Step(cfg, s, a), Actor(a))
    ensures Step(cfg, s, a).db.log == s.db.log && Step(cfg, s, a).db.claims == s.db.claims
  {
    hide Commit, LoadState, Enlist, Issue, Fresh, MarkByEventId, EventIds, BatchOf, Purged, UnitSnapshots, UnitEvents, OwnCommands, Boxed;
  }

  lemma PurgeTouchesNone(cfg: Config, s: Sys, a: Action, t: nat)
    requires a.Purge?
    ensures Untouched(s, Step(cfg, s, a), t) && Step(cfg, s, a).db.claims == s.db.claims
  {
  }

  lemma {:induction false} RunClaims(cfg: Config, db: Database, ops: seq<Op>)
    requires Run(cfg, db, ops).Ok?
    ensures db.claims <= Run(cfg, db, ops).db.claims
  {
    if ops != [] {
      RunClaims(cfg, db, ops[..|ops| - 1]);
    }
  }

  lemma CommitLog(cfg: Config, s: Sys, t: nat)
    requires Inv(cfg, s) && t in s.threads && s.threads[t].Ready? && Commit(cfg, s.db, s.threads[t].works).Ok?
    ensures Commit(cfg, s.db, s.threads[t].works).db.log == s.db.log + EngineCommit.UnitBatches(s.threads[t].works)
    ensures forall i :: 0 <= i < |s.threads[t].works| ==> s.threads[t].works[i].batch.owner == t
    ensures s.db.claims <= Commit(cfg, s.db, s.threads[t].works).db.claims
  {
    var works := s.threads[t].works;
    assert ThreadOk(cfg, s, t, s.threads[t]);
    EngineCommit.CommitGood(cfg, s.issued, s.dispatched, s.db, t, works);
    assert forall i :: 0 <= i < |works| ==> WorkOk(cfg, s.db.streams, s.issued, t, works[i]);
    RunClaims(cfg, s.db, UnitOps(cfg, works));
  }

  lemma OwnAfterUnit(log: seq<Batch>, works: seq<Work>, t: nat)
    requires forall i :: 0 <= i < |works| ==> works[i].batch.owner == t
    ensures forall x :: x != t ==> OwnCommands(log + EngineCommit.UnitBatches(works), x) == OwnCommands(log, x)
    ensures OwnCommands(log + EngineCommit.UnitBatches(works), t) == OwnCommands(log, t) + CommandsOf(works)
  {
    hide OwnCommands, CommandsOf;
    forall x: nat
      ensures OwnCommands(log + EngineCommit.UnitBatches(works), x) == OwnCommands(log, x) + if x == t then CommandsOf(works) else []
    {
      OwnCommandsAppend(log, EngineCommit.UnitBatches(works), x);
      OwnCommandsOfUnit(works, t, x);
    }
    forall x: nat ensures OwnCommands(log, x) + [] == OwnCommands(log, x) {
    }
  }

  /** A commit that succeeds appends exactly its unit's batches. */
  lemma CommitMoved(cfg: Config, s: Sys, t: nat)
    requires Inv(cfg, s) && t in s.threads && s.threads[t].Ready?
    ensures Moved(s, CommitStep(cfg, s, t), t)
    ensures OwnCommands(CommitStep(cfg, s, t).db.log, t) == OwnCommands(s.db.log, t) +
      if Commit(cfg, s.db, s.threads[t].works).Ok? then CommandsOf(s.threads[t].works) else []
  {
    var works := s.threads[t].works;
    hide *;
    CommitShape(cfg, s, t);
    if Commit(cfg, s.db, works).Ok? {
      CommitLog(cfg, s, t);
      OwnAfterUnit(s.db.log, works, t);
    } else {
      assert OwnCommands(s.db.log, t) + [] == OwnCommands(s.db.log, t);
    }
    MovedFrom(s, CommitStep(cfg, s, t), t);
  }

  lemma MovedFrom(s: Sys, s': Sys, actor: nat)
    requires actor in s'.threads && s'.threads == s.threads[actor := s'.threads[actor]]
    requires s.db.claims <= s'.db.claims
    requires forall t :: t != actor ==> OwnCommands(s'.db.log, t) == OwnCommands(s.db.log, t)
    ensures Moved(s, s', actor)
  {
    hide OwnCommands;
  }

  lemma CommitShape(cfg: Config, s: Sys, t: nat)
    requires t in s.threads && s.threads[t].Ready?
    ensures var s' := CommitStep(cfg, s, t);
      var outcome := Commit(cfg, s.db, s.threads[t].works);
      && t in s'.threads && s'.threads == s.threads[t := s'.threads[t]]
      && s'.db == if outcome.Ok? then outcome.db else s.db
  {
    hide Commit;
  }

  lemma StepMoved(cfg: Config, s: Sys, a: Action)
    requires Inv(cfg, s)
    ensures Moved(s, Step(cfg, s, a), Actor(a))
  {
    hide Inv, Moved, CommitStep;
    if !a.CommitUnit? {
      QuietStepMoved(cfg, s, a);
    } else if a.t in s.threads && s.threads[a.t].Ready? {
      CommitMoved(cfg, s, a.t);
    } else {
      MovedRefl(s, a.t);
      IdleCommit(cfg, s, a.t);
    }
  }

  lemma IdleCommit(cfg: Config, s: Sys, t: nat)
    requires t !in s.threads || !s.threads[t].Ready?
    ensures CommitStep(cfg, s, t) == s
  {
  }

  // --- What an execution with its own unit of work saves ---

  /** Such an execution keeps its command for good, and every batch it saved is that command's. */
  ghost predicate KeepsCommand(s: Sys, t: nat, cmd: Command) {
    && t in s.threads && IsImplicit(s.threads[t]) && s.threads[t].job.cmd == cmd
    && (OwnCommands(s.db.log, t) == [] || OwnCommands(s.db.log, t) == [cmd])
  }

  lemma JobKept(cfg: Config, s: Sys, a: Action, t: nat)
    requires t in s.threads && IsImplicit(s.threads[t])
    ensures var s' := Step(cfg, s, a);
      t in s'.threads && IsImplicit(s'.threads[t]) && s'.threads[t].job.cmd == s.threads[t].job.cmd
  {
    hide Commit, LoadState, Enlist, Issue, Fresh, MarkByEventId, EventIds, BatchOf, Purged, UnitSnapshots, UnitEvents, Boxed;
  }

  /** What a step does to the saves of a thread with its own unit of work. */
  lemma OwnKept(cfg: Config, s: Sys, a: Action, t: nat)
    requires Inv(cfg, s) && t in s.threads && IsImplicit(s.threads[t])
    ensures var own, own' := OwnCommands(s.db.log, t), OwnCommands(Step(cfg, s, a).db.log, t);
      own' == own || (own == [] && own' == [s.threads[t].job.cmd])
  {
    hide OwnCommands, Inv, CommitStep;
    if !a.CommitUnit? {
      hide Step;
      QuietStepMoved(cfg, s, a);
    } else if a.t == t && s.threads[t].Ready? {
      CommitMoved(cfg, s, t);
      OneBatch(cfg, s, t);
      assert [s.threads[t].job.cmd] == [] + [s.threads[t].job.cmd];
    } else if a.t == t {
      IdleCommit(cfg, s, t);
    } else {
      hide Step;
      StepMoved(cfg, s, a);
      assert Untouched(s, Step(cfg, s, a), t);
    }
  }

  lemma CommandKept(cfg: Config, s: Sys, a: Action, t: nat, cmd: Command)
    requires Inv(cfg, s) && KeepsCommand(s, t, cmd)
    ensures KeepsCommand(Step(cfg, s, a), t, cmd)
  {
    hide OwnCommands, Inv, Step;
    JobKept(cfg, s, a, t);
    OwnKept(cfg, s, a, t);
  }

  lemma OneBatch(cfg: Config, s: Sys, t: nat)
    requires Inv(cfg, s) && t in s.threads && s.threads[t].Ready? && IsImplicit(s.threads[t])
    ensures CommandsOf(s.threads[t].works) == [s.threads[t].job.cmd]
    ensures OwnCommands(s.db.log, t) == []
  {
    assert ThreadOk(cfg, s, t, s.threads[t]);
    OwnCommandsNone(s.db.log, t);
  }
}
