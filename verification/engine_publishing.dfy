/**
 * Units of work are all or nothing, told by the schedule alone: what a unit saves, and in
 * the end publishes, is everything its commands enlisted, in order.
 */
module EnginePublishing {
  import opened Types
  import opened Seqs
  import opened Engine
  import opened EngineInvariant
  import EngineSteps
  import EngineCommit
  import EngineHistory

  function OwnedBy(t: nat): Batch -> bool {
    (b: Batch) => b.owner == t
  }

  /** The batches a thread has saved, in commit order. */
  function OwnBatches(log: seq<Batch>, t: nat): seq<Batch> {
    Filter(OwnedBy(t), log)
  }

  /**
   * The batches thread `t` has enlisted in its unit of work: one for each answer of a command
   * handler that became part of it. A retry after a conflict begins again.
   */
  ghost function Enlisted(cfg: Config, schedule: seq<Action>, t: nat): seq<Batch> {
    if schedule == [] then []
    else
      var front := schedule[..|schedule| - 1];
      EnlistedNext(cfg, After(cfg, front), Enlisted(cfg, front, t), schedule[|schedule| - 1], t)
  }

  /** What one more action makes of it. */
  ghost function EnlistedNext(cfg: Config, s: Sys, before: seq<Batch>, a: Action, t: nat): seq<Batch> {
    var s' := Step(cfg, s, a);
    if a.Purge? || a.t != t || t !in s.threads || t !in s'.threads then before
    else if a.Decide? && s.threads[t].Deciding? && s'.threads[t].Ready? && |a.ids| == |a.raws| then
      before + [Batch(t, s.threads[t].cmd, s.threads[t].version,
                      Enrich(AggregateOf(cfg, s.threads[t].cmd.target), a.raws, s.threads[t].cmd.target, s.threads[t].version, a.ids))]
    else if a.CommitUnit? && s.threads[t].Ready? && s'.threads[t].Loading? then []
    else before
  }

  /** A thread and its saves, given what it has enlisted. */
  ghost predicate Kept(s: Sys, t: nat, enlisted: seq<Batch>) {
    var own := OwnBatches(s.db.log, t);
    if t !in s.threads then own == [] && enlisted == []
    else
      match s.threads[t]
      case Checking(_, works, _) => own == [] && EngineCommit.UnitBatches(works) == enlisted
      case Loading(_, works, _) => own == [] && EngineCommit.UnitBatches(works) == enlisted
      case Based(_, works, _, _) => own == [] && EngineCommit.UnitBatches(works) == enlisted
      case Deciding(_, works, _, _, _) => own == [] && EngineCommit.UnitBatches(works) == enlisted
      case Ready(_, works) => own == [] && EngineCommit.UnitBatches(works) == enlisted
      case Committed(_, _, events, next) => own == enlisted && events == LogEvents(enlisted)
      case Relaying(_, _) => own == [] && enlisted == []
      case Ended(_, result) =>
        && (own == enlisted || (own == [] && !result.Completed?))
        && (result.Skipped? || result.ConcurrencyFailure? || result.DuplicateFailure? ==> own == [])
        && (result.Completed? ==> forall e :: e in LogEvents(enlisted) ==> e in s.dispatched)
  }

  lemma UnitEventsAre(works: seq<Work>)
    ensures UnitEvents(works) == LogEvents(EngineCommit.UnitBatches(works))
  {
    if works != [] {
      UnitEventsAre(works[..|works| - 1]);
      assert EngineCommit.UnitBatches(works)[..|works| - 1] == EngineCommit.UnitBatches(works[..|works| - 1]);
    }
  }

  lemma OneMoreBatch(works: seq<Work>, w: Work)
    ensures EngineCommit.UnitBatches(works + [w]) == EngineCommit.UnitBatches(works) + [w.batch]
  {
  }

  /** A commit appends to the saves of its own thread only. */
  lemma OwnAfterCommit(log: seq<Batch>, works: seq<Work>, owner: nat, t: nat)
    requires forall i :: 0 <= i < |works| ==> works[i].batch.owner == owner
    ensures OwnBatches(log + EngineCommit.UnitBatches(works), t) ==
      OwnBatches(log, t) + if t == owner then EngineCommit.UnitBatches(works) else []
  {
    var more := EngineCommit.UnitBatches(works);
    FilterAppend(OwnedBy(t), log, more);
    if t == owner {
      FilterAll(OwnedBy(t), more);
    } else {
      FilterNone(OwnedBy(t), more);
    }
  }

  lemma NothingOwned(log: seq<Batch>, t: nat)
    requires t !in AllOwners(log)
    ensures OwnBatches(log, t) == []
  {
    FilterNone(OwnedBy(t), log);
  }

  /** A step by another thread leaves a thread's saves as they are. */
  lemma OthersKept(cfg: Config, s: Sys, a: Action, t: nat, enlisted: seq<Batch>)
    requires Inv(cfg, s) && Kept(s, t, enlisted) && (a.Purge? || a.t != t)
    ensures Kept(Step(cfg, s, a), t, enlisted)
  {
    hide *;
    OthersThread(cfg, s, a, t);
    OthersSaves(cfg, s, a, t);
    DispatchedGrows(cfg, s, a);
    KeptCarries(s, Step(cfg, s, a), t, enlisted);
  }

  lemma KeptCarries(s: Sys, s': Sys, t: nat, enlisted: seq<Batch>)
    requires Kept(s, t, enlisted) && s.dispatched <= s'.dispatched
    requires (t in s'.threads <==> t in s.threads) && (t in s.threads ==> s'.threads[t] == s.threads[t])
    requires OwnBatches(s'.db.log, t) == OwnBatches(s.db.log, t)
    ensures Kept(s', t, enlisted)
  {
    hide OwnBatches, LogEvents;
  }

  lemma OthersThread(cfg: Config, s: Sys, a: Action, t: nat)
    requires Inv(cfg, s) && (a.Purge? || a.t != t)
    ensures (t in Step(cfg, s, a).threads <==> t in s.threads) && (t in s.threads ==> Step(cfg, s, a).threads[t] == s.threads[t])
  {
    hide Inv, Step;
    if a.Purge? {
      EngineHistory.PurgeTouchesNone(cfg, s, a, t);
    } else {
      EngineHistory.StepMoved(cfg, s, a);
      assert EngineHistory.Untouched(s, Step(cfg, s, a), t);
    }
  }

  lemma OthersSaves(cfg: Config, s: Sys, a: Action, t: nat)
    requires Inv(cfg, s) && (a.Purge? || a.t != t)
    ensures OwnBatches(Step(cfg, s, a).db.log, t) == OwnBatches(s.db.log, t)
  {
    hide Inv, CommitStep, OwnBatches;
    if !a.CommitUnit? {
      hide Step;
      EngineHistory.QuietStepMoved(cfg, s, a);
    } else if a.t in s.threads && s.threads[a.t].Ready? {
      EngineHistory.CommitShape(cfg, s, a.t);
      if Commit(cfg, s.db, s.threads[a.t].works).Ok? {
        EngineHistory.CommitLog(cfg, s, a.t);
        hide Commit;
        OwnAfterCommit(s.db.log, s.threads[a.t].works, a.t, t);
        assert OwnBatches(s.db.log, t) + [] == OwnBatches(s.db.log, t);
      }
    } else {
      EngineHistory.IdleCommit(cfg, s, a.t);
    }
  }

  lemma DispatchedGrows(cfg: Config, s: Sys, a: Action)
    ensures s.dispatched <= Step(cfg, s, a).dispatched
  {
    hide Commit, LoadState, Enlist, Issue, Fresh, MarkByEventId, EventIds, BatchOf, Purged, UnitSnapshots, UnitEvents, Boxed;
  }

  // --- The thread's own steps ---

  lemma DecideKept(cfg: Config, s: Sys, a: Action, t: nat, enlisted: seq<Batch>)
    requires Kept(s, t, enlisted) && a.Decide? && a.t == t
    ensures Kept(Step(cfg, s, a), t, EnlistedNext(cfg, s, enlisted, a, t))
  {
    hide OwnBatches, LogEvents, EngineCommit.UnitBatches, Fresh, Issue, Boxed, Enrich;
    if t in s.threads && s.threads[t].Deciding? {
      if EngineSteps.Answered(cfg, s, t, a.raws, a.ids, a.tickets, a.takeSnapshot) {
        OneMoreBatch(s.threads[t].works, Enlist(cfg, t, s.threads[t], a.raws, a.ids, a.tickets, a.takeSnapshot));
      } else {
        EngineSteps.Unanswered(cfg, s, t, a.raws, a.ids, a.tickets, a.takeSnapshot);
      }
    }
  }

  lemma CommitKept(cfg: Config, s: Sys, a: Action, t: nat, enlisted: seq<Batch>)
    requires Inv(cfg, s) && Kept(s, t, enlisted) && a.CommitUnit? && a.t == t
    ensures Kept(Step(cfg, s, a), t, EnlistedNext(cfg, s, enlisted, a, t))
  {
    hide Inv, OwnBatches, LogEvents, EngineCommit.UnitBatches, UnitEvents, UnitSnapshots;
    if t in s.threads && s.threads[t].Ready? {
      var works := s.threads[t].works;
      if Commit(cfg, s.db, works).Ok? {
        EngineHistory.CommitLog(cfg, s, t);
        hide Commit;
        OwnAfterCommit(s.db.log, works, t, t);
        UnitEventsAre(works);
        assert [] + EngineCommit.UnitBatches(works) == EngineCommit.UnitBatches(works);
      } else {
        hide Commit;
        NothingEnlisted();
      }
    } else {
      EngineHistory.IdleCommit(cfg, s, t);
    }
  }

  lemma NothingEnlisted()
    ensures EngineCommit.UnitBatches([]) == []
  {
  }

  lemma StartKept(cfg: Config, s: Sys, a: Action, t: nat, enlisted: seq<Batch>)
    requires Kept(s, t, enlisted) && (a.StartCommand? || a.StartUnit? || a.StartRelay?) && a.t == t
    ensures Kept(Step(cfg, s, a), t, enlisted)
  {
    hide OwnBatches, LogEvents, EngineCommit.UnitBatches;
    NothingEnlisted();
  }

  /** Only an explicit unit has anything enlisted when a command is checked. */
  lemma NothingYet(cfg: Config, s: Sys, t: nat)
    requires Inv(cfg, s) && t in s.threads && s.threads[t].Checking? && s.threads[t].job.Implicit?
    ensures s.threads[t].works == []
  {
    assert ThreadOk(cfg, s, t, s.threads[t]);
    hide GoodDb, SavesOnce, OpenOk, Charged;
  }

  lemma CheckKept(cfg: Config, s: Sys, t: nat, enlisted: seq<Batch>)
    requires Inv(cfg, s) && Kept(s, t, enlisted)
    ensures Kept(Step(cfg, s, CheckDuplicate(t)), t, enlisted)
  {
    hide Inv, OwnBatches, LogEvents, EngineCommit.UnitBatches;
    if t in s.threads && s.threads[t].Checking? && s.threads[t].job.Implicit? {
      NothingYet(cfg, s, t);
      NothingEnlisted();
    }
  }

  lemma RunningKept(cfg: Config, s: Sys, a: Action, t: nat, enlisted: seq<Batch>)
    requires a.Dispatch? || a.LoadSnapshot? || a.LoadEvents? || a.FailCommand?
    requires Kept(s, t, enlisted) && a.t == t
    ensures Kept(Step(cfg, s, a), t, enlisted)
  {
    hide OwnBatches, LogEvents, EngineCommit.UnitBatches, LoadState;
  }

  /** What a committed thread has published so far. */
  lemma PublishedSoFar(cfg: Config, s: Sys, t: nat)
    requires Inv(cfg, s) && t in s.threads && s.threads[t].Committed?
    ensures var th := s.threads[t];
      th.next <= |th.events| && forall i :: 0 <= i < th.next ==> th.events[i] in s.dispatched
  {
    assert ThreadOk(cfg, s, t, s.threads[t]);
    hide GoodDb, SavesOnce, SnapshotValid, IsCommitted;
  }

  lemma PublishedKept(cfg: Config, s: Sys, a: Action, t: nat, enlisted: seq<Batch>)
    requires a.SaveSnapshot? || a.Publish? || a.MarkPublished?
    requires Inv(cfg, s) && Kept(s, t, enlisted) && a.t == t
    ensures Kept(Step(cfg, s, a), t, enlisted)
  {
    hide Inv, OwnBatches, LogEvents, EngineCommit.UnitBatches, MarkByEventId, EventIds;
    if t in s.threads && s.threads[t].Committed? {
      PublishedSoFar(cfg, s, t);
    }
  }

  lemma AbortKept(cfg: Config, s: Sys, t: nat, enlisted: seq<Batch>)
    requires Kept(s, t, enlisted)
    ensures Kept(Step(cfg, s, Abort(t)), t, enlisted)
  {
    hide OwnBatches, LogEvents, EngineCommit.UnitBatches;
  }

  lemma RelayKept(cfg: Config, s: Sys, a: Action, t: nat, enlisted: seq<Batch>)
    requires (a.RelayLoad? || a.RelayDispatch? || a.RelayMark? || a.RelaySkip?) && Kept(s, t, enlisted) && a.t == t
    ensures Kept(Step(cfg, s, a), t, enlisted)
  {
    hide OwnBatches, LogEvents, EngineCommit.UnitBatches, BatchOf, MarkById;
  }

  lemma OwnStepKept(cfg: Config, s: Sys, a: Action, t: nat, enlisted: seq<Batch>)
    requires Inv(cfg, s) && Kept(s, t, enlisted) && !a.Purge? && a.t == t
    ensures Kept(Step(cfg, s, a), t, EnlistedNext(cfg, s, enlisted, a, t))
  {
    hide Inv, Kept, Step, OwnBatches;
    match a
    case StartCommand(_, _) => StartKept(cfg, s, a, t, enlisted);
    case StartUnit(_) => StartKept(cfg, s, a, t, enlisted);
    case StartRelay(_) => StartKept(cfg, s, a, t, enlisted);
    case Dispatch(_, _) => RunningKept(cfg, s, a, t, enlisted);
    case CheckDuplicate(_) => CheckKept(cfg, s, t, enlisted);
    case LoadSnapshot(_) => RunningKept(cfg, s, a, t, enlisted);
    case LoadEvents(_) => RunningKept(cfg, s, a, t, enlisted);
    case FailCommand(_) => RunningKept(cfg, s, a, t, enlisted);
    case Decide(_, _, _, _, _) => DecideKept(cfg, s, a, t, enlisted);
    case CommitUnit(_) => CommitKept(cfg, s, a, t, enlisted);
    case SaveSnapshot(_, _) => PublishedKept(cfg, s, a, t, enlisted);
    case Publish(_) => PublishedKept(cfg, s, a, t, enlisted);
    case MarkPublished(_, _) => PublishedKept(cfg, s, a, t, enlisted);
    case Abort(_) => AbortKept(cfg, s, t, enlisted);
    case _ => RelayKept(cfg, s, a, t, enlisted);
  }

  lemma {:induction false} AlwaysKept(cfg: Config, schedule: seq<Action>, t: nat)
    ensures Kept(After(cfg, schedule), t, Enlisted(cfg, schedule, t))
  {
    if schedule != [] {
      var front, a := schedule[..|schedule| - 1], schedule[|schedule| - 1];
      AlwaysKept(cfg, front, t);
      EngineSteps.Invariant(cfg, front);
      var s, enlisted := After(cfg, front), Enlisted(cfg, front, t);
      hide Inv, Kept, Step;
      if a.Purge? || a.t != t {
        OthersKept(cfg, s, a, t, enlisted);
      } else {
        OwnStepKept(cfg, s, a, t, enlisted);
      }
    }
  }

  /**
   * All or nothing, and nothing forgotten: in every reachable state what a thread has saved
   * is either nothing or every batch its unit of work enlisted, in order; a thread that has
   * committed publishes exactly their events in order, and one whose caller was told it
   * completed has dispatched them all. A command skipped or refused has saved nothing.
   */
  lemma UnitSavesAndPublishesAllItEnlisted(cfg: Config, schedule: seq<Action>, t: nat)
    requires t in After(cfg, schedule).threads
    ensures var s := After(cfg, schedule);
      var own, enlisted := Filter(OwnedBy(t), s.db.log), Enlisted(cfg, schedule, t);
      && (own == [] || own == enlisted)
      && match s.threads[t] {
           case Committed(_, _, events, next) =>
             && own == enlisted && events == LogEvents(enlisted)
             && next <= |events| && forall i :: 0 <= i < next ==> events[i] in s.dispatched
           case Ended(_, result) =>
             && (result.Completed? ==> own == enlisted && forall e :: e in LogEvents(enlisted) ==> e in s.dispatched)
             && (result.Skipped? || result.ConcurrencyFailure? || result.DuplicateFailure? ==> own == [])
           case _ => own == []
         }
  {
    AlwaysKept(cfg, schedule, t);
    EngineSteps.Invariant(cfg, schedule);
    var s := After(cfg, schedule);
    hide Inv, After, Enlisted, LogEvents, Filter, EngineCommit.UnitBatches;
    if s.threads[t].Committed? {
      PublishedSoFar(cfg, s, t);
    }
  }

  /** A commit hands over exactly the snapshots its commands left, in order. */
  lemma {:induction false} SnapshotsHandedOver(works: seq<Work>, k: Key, snap: Snapshot)
    ensures (k, snap) in UnitSnapshots(works) <==>
      exists i :: 0 <= i < |works| && works[i].snapshot == Some(snap) && works[i].batch.cmd.target == k
  {
    if works != [] {
      var front := works[..|works| - 1];
      SnapshotsHandedOver(front, k, snap);
      assert forall i :: 0 <= i < |front| ==> front[i] == works[i];
    }
  }
}
