/**
 * The pessimistic strategy: a lock per aggregate, held from before the load until the unit
 * of work settles, over the FIFO locker. A unit names each aggregate at most once.
 */
module Pessimistic {
  import opened Types
  import opened Locker

  datatype Phase =
    | Idle
    | Waiting(k: Key)
    | Running(k: Key)
    | Deciding(k: Key)
    | Settling
    | Publishing
    | Done

  /**
   * A unit of work with its locks. `acquired` lists them in order, which is the order its
   * settlement hooks release them in; the first `released` of them are released. `loaded`
   * and `sizes` are the stream lengths seen and the batch sizes enlisted.
   */
  datatype GuardedUnit = GuardedUnit(
    explicit: bool,
    phase: Phase,
    targeted: set<Key>,
    acquired: seq<Key>,
    released: nat,
    loaded: map<Key, nat>,
    sizes: map<Key, nat>,
    committed: bool,
    conflicted: bool)

  datatype System = System(locks: map<Key, LockRun>, lengths: map<Key, nat>, units: map<nat, GuardedUnit>)

  function LockAt(s: System, k: Key): LockRun {
    if k in s.locks then s.locks[k] else Locker.Fresh
  }

  function LengthAt(lengths: map<Key, nat>, k: Key): nat {
    if k in lengths then lengths[k] else 0
  }

  datatype Move =
    | Begin(t: nat, explicit: bool)
    | Acquire(t: nat, k: Key)
    | Expire(t: nat)
    | Load(t: nat)
    | Decide(t: nat, size: nat)
    | Fail(t: nat)
    | Commit(t: nat)
    | Abort(t: nat)
    | Settle(t: nat)
    | Publish(t: nat)

  function Enter(u: GuardedUnit, k: Key): GuardedUnit {
    u.(phase := Running(k), acquired := u.acquired + [k])
  }

  function BeginStep(s: System, t: nat, explicit: bool): System {
    if t in s.units then s
    else s.(units := s.units[t := GuardedUnit(explicit, Idle, {}, [], 0, map[], map[], false, false)])
  }

  /** `acquire`: granted at once if the lock is free, queued otherwise. */
  function AcquireStep(s: System, t: nat, k: Key): System {
    if t !in s.units || s.units[t].phase != Idle || k in s.units[t].targeted then s
    else if !s.units[t].explicit && s.units[t].targeted != {} then s
    else
      var u := s.units[t].(targeted := s.units[t].targeted + {k});
      s.(locks := s.locks[k := Apply(LockAt(s, k), Arrive(t))],
         units := s.units[t := if LockAt(s, k).entry.locked then u.(phase := Waiting(k)) else Enter(u, k)])
  }

  /** The lock timeout: a LockTimeoutError, which only explicit code may survive. */
  function ExpireStep(s: System, t: nat): System {
    if t !in s.units || !s.units[t].phase.Waiting? then s
    else
      var k := s.units[t].phase.k;
      s.(locks := s.locks[k := Apply(LockAt(s, k), TimeOut(t))],
         units := s.units[t := s.units[t].(phase := if s.units[t].explicit then Idle else Settling)])
  }

  function LoadStep(s: System, t: nat): System {
    if t !in s.units || !s.units[t].phase.Running? then s
    else
      var k := s.units[t].phase.k;
      s.(units := s.units[t := s.units[t].(phase := Deciding(k), loaded := s.units[t].loaded[k := LengthAt(s.lengths, k)])])
  }

  function DecideStep(s: System, t: nat, size: nat): System {
    if t !in s.units || !s.units[t].phase.Deciding? then s
    else s.(units := s.units[t := s.units[t].(phase := Idle, sizes := s.units[t].sizes[s.units[t].phase.k := size])])
  }

  /** A command fails in code that carries on; its lock stays held. */
  function FailStep(s: System, t: nat): System {
    if t !in s.units || !s.units[t].explicit then s
    else if !s.units[t].phase.Running? && !s.units[t].phase.Deciding? then s
    else s.(units := s.units[t := s.units[t].(phase := Idle)])
  }

  /** Some enlisted non-empty batch no longer finds its stream at the loaded length. */
  predicate Conflicts(lengths: map<Key, nat>, u: GuardedUnit) {
    exists k :: k in u.sizes && k in u.loaded && u.sizes[k] > 0 && LengthAt(lengths, k) != u.loaded[k]
  }

  function Grown(lengths: map<Key, nat>, sizes: map<Key, nat>): map<Key, nat> {
    map k | k in lengths.Keys + sizes.Keys :: LengthAt(lengths, k) + if k in sizes then sizes[k] else 0
  }

  function CommitStep(s: System, t: nat): System {
    if t !in s.units || s.units[t].phase != Idle then s
    else
      var u := s.units[t];
      if Conflicts(s.lengths, u) then s.(units := s.units[t := u.(phase := Settling, conflicted := true)])
      else s.(lengths := Grown(s.lengths, u.sizes), units := s.units[t := u.(phase := Settling, committed := true)])
  }

  function AbortStep(s: System, t: nat): System {
    if t !in s.units then s
    else if s.units[t].phase != Idle && !s.units[t].phase.Running? && !s.units[t].phase.Deciding? then s
    else s.(units := s.units[t := s.units[t].(phase := Settling)])
  }

  /** The settlement hooks, one release at a time; a release may wake the next waiter. */
  function SettleStep(s: System, t: nat): System {
    if t !in s.units || s.units[t].phase != Settling then s
    else
      var u := s.units[t];
      if u.released >= |u.acquired| then
        s.(units := s.units[t := u.(phase := if u.committed then Publishing else Done)])
      else
        var k := u.acquired[u.released];
        var run := LockAt(s, k);
        var units := s.units[t := u.(released := u.released + 1)];
        var woken := if t in run.inside then Woken(run.entry) else None;
        s.(locks := s.locks[k := Apply(run, Leave(t))],
           units := if woken.Some? && woken.value in units then units[woken.value := Enter(units[woken.value], k)] else units)
  }

  function PublishStep(s: System, t: nat): System {
    if t !in s.units || s.units[t].phase != Publishing then s
    else s.(units := s.units[t := s.units[t].(phase := Done)])
  }

  function Step(s: System, m: Move): System {
    match m
    case Begin(t, explicit) => BeginStep(s, t, explicit)
    case Acquire(t, k) => AcquireStep(s, t, k)
    case Expire(t) => ExpireStep(s, t)
    case Load(t) => LoadStep(s, t)
    case Decide(t, size) => DecideStep(s, t, size)
    case Fail(t) => FailStep(s, t)
    case Commit(t) => CommitStep(s, t)
    case Abort(t) => AbortStep(s, t)
    case Settle(t) => SettleStep(s, t)
    case Publish(t) => PublishStep(s, t)
  }

  function After(moves: seq<Move>): System {
    if moves == [] then System(map[], map[], map[]) else Step(After(moves[..|moves| - 1]), moves[|moves| - 1])
  }

  // --- The invariant ---

  /** Not yet settling: all its locks are still held. */
  predicate Open(u: GuardedUnit) {
    u.phase == Idle || u.phase.Waiting? || u.phase.Running? || u.phase.Deciding?
  }

  ghost predicate UnitShape(u: GuardedUnit) {
    && (forall i, j :: 0 <= i < j < |u.acquired| ==> u.acquired[i] != u.acquired[j])
    && (forall i :: 0 <= i < |u.acquired| ==> u.acquired[i] in u.targeted)
    && u.released <= |u.acquired|
    && (Open(u) ==> u.released == 0)
    && (u.phase.Publishing? || u.phase.Done? ==> u.released == |u.acquired|)
    && (u.phase.Waiting? ==> u.phase.k in u.targeted && u.phase.k !in u.acquired)
    && (u.phase.Running? ==> u.phase.k in u.acquired)
    && (u.phase.Deciding? ==> u.phase.k in u.acquired && u.phase.k in u.loaded)
    && (forall k :: k in u.loaded ==> k in u.acquired)
    && (forall k :: k in u.sizes ==> k in u.loaded)
    && !u.conflicted
  }

  /** The locks a unit holds. */
  function Held(u: GuardedUnit): set<Key> {
    set i | u.released <= i < |u.acquired| :: u.acquired[i]
  }

  /** The key a unit is queued for. */
  predicate WaitsFor(u: GuardedUnit, k: Key) {
    u.phase == Waiting(k)
  }

  /** Locks and units agree on who holds and who waits. */
  ghost predicate LockAgrees(s: System, k: Key) {
    var run := LockAt(s, k);
    && LockOk(run)
    && (forall w :: w in run.arrivals ==> w in s.units && k in s.units[w].targeted)
    && (forall w :: w in run.inside <==> w in s.units && k in Held(s.units[w]))
    && (forall w :: w in run.entry.queue <==> w in s.units && WaitsFor(s.units[w], k))
  }

  /** An open unit's loaded lengths are current. */
  ghost predicate LoadsCurrent(lengths: map<Key, nat>, u: GuardedUnit) {
    Open(u) ==> forall k :: k in u.loaded ==> LengthAt(lengths, k) == u.loaded[k]
  }

  ghost predicate Guarded(s: System) {
    && (forall t :: t in s.units ==> UnitShape(s.units[t]) && LoadsCurrent(s.lengths, s.units[t]))
    && (forall k: Key :: LockAgrees(s, k))
  }

  /** Waiters and holders are different calls, each there once. */
  lemma LockFacts(r: LockRun)
    requires LockOk(r)
    ensures forall w, x :: w in r.inside && x in r.inside ==> w == x
    ensures forall w :: w in r.entry.queue ==> w in r.arrivals && w !in r.inside
    ensures forall w :: w in r.inside ==> w in r.arrivals
    ensures Distinct(r.entry.queue)
  {
    FilterDistinct(Patient(r.timedOut), r.arrivals);
    var line := r.grants + r.entry.queue;
    assert forall i :: 0 <= i < |r.grants| ==> line[i] == r.grants[i];
    assert forall i :: 0 <= i < |r.entry.queue| ==> line[|r.grants| + i] == r.entry.queue[i];
    assert forall w :: w in line ==> w in r.arrivals;
    if r.entry.locked {
      assert r.grants[|r.grants| - 1] in line;
    }
  }

  lemma {:induction false} WithoutElements(s: seq<Waiter>, w: Waiter)
    requires Distinct(s)
    ensures forall x :: x in Without(s, w) <==> x in s && x != w
  {
    if s != [] {
      WithoutElements(s[1..], w);
      assert forall i :: 0 <= i < |s[1..]| ==> s[1..][i] == s[i + 1] != s[0];
    }
  }

  lemma ArriveEffect(r: LockRun, w: Waiter)
    requires LockOk(r) && w !in r.arrivals
    ensures var r' := Apply(r, Arrive(w));
      && LockOk(r')
      && (forall x :: x in r'.arrivals <==> x in r.arrivals || x == w)
      && (forall x :: x in r'.inside <==> x in r.inside || (x == w && !r.entry.locked))
      && (forall x :: x in r'.entry.queue <==> x in r.entry.queue || (x == w && r.entry.locked))
  {
    ArriveOk(r, w);
  }

  lemma TimeOutEffect(r: LockRun, w: Waiter)
    requires LockOk(r) && w in r.entry.queue
    ensures var r' := Apply(r, TimeOut(w));
      && LockOk(r')
      && r'.arrivals == r.arrivals && r'.inside == r.inside
      && (forall x :: x in r'.entry.queue <==> x in r.entry.queue && x != w)
  {
    TimeOutOk(r, w);
    LockFacts(r);
    WithoutElements(r.entry.queue, w);
  }

  lemma LeaveEffect(r: LockRun, w: Waiter)
    requires LockOk(r) && w in r.inside
    ensures var r', woken := Apply(r, Leave(w)), Woken(r.entry);
      && LockOk(r')
      && r'.arrivals == r.arrivals
      && (forall x :: x in r.inside ==> x == w)
      && (forall x :: x in r'.inside <==> woken == Some(x))
      && (forall x :: x in r'.entry.queue <==> x in r.entry.queue && woken != Some(x))
      && (woken.Some? ==> woken.value in r.entry.queue && woken.value != w)
  {
    LeaveOk(r, w);
    LockFacts(r);
    if r.entry.queue != [] {
      assert r.entry.queue == [r.entry.queue[0]] + r.entry.queue[1..];
      assert forall i :: 0 < i < |r.entry.queue| ==> r.entry.queue[i] != r.entry.queue[0];
    }
  }

  /** Nothing about key `j` changed. */
  ghost predicate SameFor(s: System, s': System, j: Key) {
    && LockAt(s', j) == LockAt(s, j)
    && s'.units.Keys == s.units.Keys
    && forall x :: x in s.units ==>
         && (j in Held(s'.units[x]) <==> j in Held(s.units[x]))
         && (j in s.units[x].targeted ==> j in s'.units[x].targeted)
         && (WaitsFor(s'.units[x], j) <==> WaitsFor(s.units[x], j))
  }

  lemma SameForAgrees(s: System, s': System, j: Key)
    requires SameFor(s, s', j) && LockAgrees(s, j)
    ensures LockAgrees(s', j)
  {
    hide LockOk, Held, WaitsFor, LockAt;
  }

  /** A move by `t` that touches no lock and keeps what it holds and waits for. */
  lemma QuietMove(s: System, s': System, t: nat)
    requires Guarded(s) && s'.locks == s.locks && t in s.units
    requires t in s'.units && s'.units == s.units[t := s'.units[t]]
    requires var u, u' := s.units[t], s'.units[t];
      u'.acquired == u.acquired && u'.released == u.released && u'.targeted == u.targeted
      && !u.phase.Waiting? && !u'.phase.Waiting?
    requires UnitShape(s'.units[t]) && forall x :: x in s'.units ==> LoadsCurrent(s'.lengths, s'.units[x])
    ensures Guarded(s')
  {
    hide LockAgrees, UnitShape, LoadsCurrent;
    forall k: Key ensures LockAgrees(s', k) {
      assert Held(s'.units[t]) == Held(s.units[t]);
      assert SameFor(s, s', k);
      SameForAgrees(s, s', k);
    }
  }

  // Acquiring

  lemma EnterHeld(u: GuardedUnit, k: Key)
    requires UnitShape(u) && Open(u)
    ensures Held(Enter(u, k)) == Held(u) + {k}
  {
    assert forall i :: 0 <= i < |u.acquired| ==> Enter(u, k).acquired[i] == u.acquired[i];
    assert Enter(u, k).acquired[|u.acquired|] == k;
    forall j | j in Held(u) ensures j in Held(Enter(u, k)) {
      var i :| u.released <= i < |u.acquired| && u.acquired[i] == j;
      assert Enter(u, k).acquired[i] == j;
    }
  }

  /** What the acquiring unit holds and waits for afterwards. */
  lemma AcquireHeld(s: System, t: nat, k: Key)
    requires t in s.units && AcquireStep(s, t, k) != s && UnitShape(s.units[t])
    ensures var u, u', locked := s.units[t], AcquireStep(s, t, k).units[t], LockAt(s, k).entry.locked;
      && Held(u') == (if locked then Held(u) else Held(u) + {k})
      && (forall j :: WaitsFor(u', j) <==> locked && j == k)
      && u'.targeted == u.targeted + {k}
      && k !in Held(u)
  {
    EnterHeld(s.units[t], k);
    assert Held(Enter(s.units[t].(targeted := s.units[t].targeted + {k}), k)) == Held(Enter(s.units[t], k));
  }

  lemma AcquireAgrees(s: System, t: nat, k: Key)
    requires t in s.units && AcquireStep(s, t, k) != s
    requires UnitShape(s.units[t]) && LockAgrees(s, k)
    ensures LockAgrees(AcquireStep(s, t, k), k)
  {
    hide LockOk, Apply;
    var s' := AcquireStep(s, t, k);
    AcquireHeld(s, t, k);
    ArriveEffect(LockAt(s, k), t);
    assert LockAt(s', k) == Apply(LockAt(s, k), Arrive(t));
    assert s'.units == s.units[t := s'.units[t]];
    hide Held, UnitShape, WaitsFor, AcquireStep, LockAt;
  }

  lemma AcquireElsewhere(s: System, t: nat, k: Key, j: Key)
    requires t in s.units && AcquireStep(s, t, k) != s && UnitShape(s.units[t]) && j != k
    ensures SameFor(s, AcquireStep(s, t, k), j)
  {
    hide Apply;
    AcquireHeld(s, t, k);
    hide Held, UnitShape;
  }

  lemma AcquireShape(lengths: map<Key, nat>, u: GuardedUnit, u': GuardedUnit, k: Key)
    requires UnitShape(u) && LoadsCurrent(lengths, u) && u.phase == Idle && k !in u.targeted
    requires var asked := u.(targeted := u.targeted + {k}); u' == asked.(phase := Waiting(k)) || u' == Enter(asked, k)
    ensures UnitShape(u') && LoadsCurrent(lengths, u')
  {
  }

  lemma AcquireGuarded(s: System, t: nat, k: Key)
    requires Guarded(s)
    ensures Guarded(AcquireStep(s, t, k))
  {
    hide LockAgrees, UnitShape, LoadsCurrent;
    var s' := AcquireStep(s, t, k);
    if s' != s {
      AcquireShape(s.lengths, s.units[t], s'.units[t], k);
      AcquireAgrees(s, t, k);
      forall j: Key ensures LockAgrees(s', j) {
        if j != k {
          AcquireElsewhere(s, t, k, j);
          SameForAgrees(s, s', j);
        }
      }
    }
  }

  // Timing out

  lemma ExpireAgrees(s: System, t: nat, j: Key)
    requires t in s.units && s.units[t].phase.Waiting?
    requires LockAgrees(s, s.units[t].phase.k) && LockAgrees(s, j)
    ensures LockAgrees(ExpireStep(s, t), j)
  {
    hide LockOk, Apply;
    var s', k := ExpireStep(s, t), s.units[t].phase.k;
    assert Held(s'.units[t]) == Held(s.units[t]);
    hide Held;
    if j == k {
      TimeOutEffect(LockAt(s, k), t);
      assert LockAt(s', k) == Apply(LockAt(s, k), TimeOut(t));
    } else {
      assert SameFor(s, s', j);
      SameForAgrees(s, s', j);
    }
  }

  lemma ExpireShape(lengths: map<Key, nat>, u: GuardedUnit)
    requires UnitShape(u) && LoadsCurrent(lengths, u) && u.phase.Waiting?
    ensures var u' := u.(phase := if u.explicit then Idle else Settling); UnitShape(u') && LoadsCurrent(lengths, u')
  {
  }

  lemma ExpireGuarded(s: System, t: nat)
    requires Guarded(s)
    ensures Guarded(ExpireStep(s, t))
  {
    hide LockAgrees, UnitShape, LoadsCurrent;
    var s' := ExpireStep(s, t);
    if t in s.units && s.units[t].phase.Waiting? {
      ExpireShape(s.lengths, s.units[t]);
      forall j: Key ensures LockAgrees(s', j) {
        ExpireAgrees(s, t, j);
      }
    }
  }

  // Committing

  /** A unit holding a lock is its only holder. */
  lemma OneHolder(s: System, t: nat, x: nat, k: Key)
    requires LockAgrees(s, k) && t in s.units && x in s.units && k in Held(s.units[t]) && k in Held(s.units[x])
    ensures t == x
  {
    hide Held;
    LockFacts(LockAt(s, k));
  }

  lemma OpenHoldsLoaded(u: GuardedUnit, k: Key)
    requires UnitShape(u) && Open(u) && k in u.loaded
    ensures k in Held(u)
  {
    var i :| 0 <= i < |u.acquired| && u.acquired[i] == k;
  }

  /** Another open unit's loaded lengths survive a commit: the committer held none of its locks. */
  lemma CommitSparesOthers(s: System, t: nat, x: nat)
    requires Guarded(s) && t in s.units && x in s.units && x != t && s.units[t].phase == Idle
    ensures LoadsCurrent(Grown(s.lengths, s.units[t].sizes), s.units[x])
  {
    hide LockAgrees;
    var u, v := s.units[t], s.units[x];
    assert UnitShape(u) && UnitShape(v) && LoadsCurrent(s.lengths, v);
    if Open(v) {
      forall k | k in v.loaded ensures LengthAt(Grown(s.lengths, u.sizes), k) == v.loaded[k] {
        if k in u.sizes {
          OpenHoldsLoaded(u, k);
          OpenHoldsLoaded(v, k);
          OneHolder(s, t, x, k);
        }
      }
    }
  }

  lemma CommitGuarded(s: System, t: nat)
    requires Guarded(s)
    ensures Guarded(CommitStep(s, t))
  {
    hide LockAgrees;
    var s' := CommitStep(s, t);
    if t in s.units && s.units[t].phase == Idle {
      assert UnitShape(s.units[t]) && LoadsCurrent(s.lengths, s.units[t]);
      assert !Conflicts(s.lengths, s.units[t]);
      assert UnitShape(s'.units[t]) && LoadsCurrent(s'.lengths, s'.units[t]);
      hide UnitShape, LoadsCurrent;
      forall x | x in s'.units ensures LoadsCurrent(s'.lengths, s'.units[x]) {
        if x != t {
          CommitSparesOthers(s, t, x);
        }
      }
      QuietMove(s, s', t);
    }
  }

  // Releasing

  lemma ReleaseHeld(u: GuardedUnit)
    requires UnitShape(u) && u.released < |u.acquired|
    ensures Held(u.(released := u.released + 1)) == Held(u) - {u.acquired[u.released]}
    ensures u.acquired[u.released] in Held(u)
  {
    var u' := u.(released := u.released + 1);
    assert u.acquired[u.released] in Held(u);
    forall j | j in Held(u) && j != u.acquired[u.released] ensures j in Held(u') {
      var i :| u.released <= i < |u.acquired| && u.acquired[i] == j;
      assert u'.released <= i && u'.acquired[i] == j;
    }
  }

  lemma ReleaseShape(lengths: map<Key, nat>, u: GuardedUnit)
    requires UnitShape(u) && LoadsCurrent(lengths, u) && u.phase == Settling && u.released < |u.acquired|
    ensures UnitShape(u.(released := u.released + 1)) && LoadsCurrent(lengths, u.(released := u.released + 1))
  {
  }

  lemma EnterShape(lengths: map<Key, nat>, u: GuardedUnit, k: Key)
    requires UnitShape(u) && LoadsCurrent(lengths, u) && WaitsFor(u, k)
    ensures UnitShape(Enter(u, k)) && LoadsCurrent(lengths, Enter(u, k))
  {
  }

  /** A release by `t` of `k`, which lets `woken` in. */
  ghost predicate Releasing(s: System, s': System, t: nat, k: Key, woken: Option<Waiter>) {
    && t in s.units && s.units[t].phase == Settling && s.units[t].released < |s.units[t].acquired|
    && k == s.units[t].acquired[s.units[t].released]
    && t in LockAt(s, k).inside
    && woken == Woken(LockAt(s, k).entry)
    && (woken.Some? ==> woken.value != t && woken.value in s.units && WaitsFor(s.units[woken.value], k))
    && s'.lengths == s.lengths
    && s'.locks == s.locks[k := Apply(LockAt(s, k), Leave(t))]
    && var units := s.units[t := s.units[t].(released := s.units[t].released + 1)];
       s'.units == if woken.Some? then units[woken.value := Enter(s.units[woken.value], k)] else units
  }

  lemma ReleaseEffect(s: System, t: nat, k: Key)
    requires t in s.units && s.units[t].phase == Settling && s.units[t].released < |s.units[t].acquired|
    requires UnitShape(s.units[t]) && k == s.units[t].acquired[s.units[t].released] && LockAgrees(s, k)
    ensures Releasing(s, SettleStep(s, t), t, k, Woken(LockAt(s, k).entry))
  {
    ReleaseHeld(s.units[t]);
    LeaveEffect(LockAt(s, k), t);
    hide Held, LockOk, Apply;
  }

  lemma ReleaseAgreesHere(s: System, s': System, t: nat, k: Key, woken: Option<Waiter>)
    requires Releasing(s, s', t, k, woken) && LockAgrees(s, k)
    requires UnitShape(s.units[t]) && (woken.Some? ==> UnitShape(s.units[woken.value]))
    ensures LockAgrees(s', k)
  {
    hide LockOk, Apply, Held, UnitShape;
    LeaveEffect(LockAt(s, k), t);
    ReleaseHeld(s.units[t]);
    if woken.Some? {
      EnterHeld(s.units[woken.value], k);
    }
    assert LockAt(s', k) == Apply(LockAt(s, k), Leave(t));
    hide Woken;
  }

  lemma ReleaseElsewhere(s: System, s': System, t: nat, k: Key, woken: Option<Waiter>, j: Key)
    requires Releasing(s, s', t, k, woken) && j != k
    requires UnitShape(s.units[t]) && (woken.Some? ==> UnitShape(s.units[woken.value]))
    ensures SameFor(s, s', j)
  {
    hide Apply, LockOk, Held, UnitShape;
    ReleaseHeld(s.units[t]);
    if woken.Some? {
      EnterHeld(s.units[woken.value], k);
    }
  }

  lemma ReleaseGuarded(s: System, t: nat)
    requires Guarded(s) && t in s.units && s.units[t].phase == Settling && s.units[t].released < |s.units[t].acquired|
    ensures Guarded(SettleStep(s, t))
  {
    hide LockAgrees, UnitShape, LoadsCurrent;
    var s', k := SettleStep(s, t), s.units[t].acquired[s.units[t].released];
    var woken := Woken(LockAt(s, k).entry);
    ReleaseEffect(s, t, k);
    hide SettleStep;
    ReleaseShape(s.lengths, s.units[t]);
    if woken.Some? {
      EnterShape(s.lengths, s.units[woken.value], k);
    }
    ReleaseAgreesHere(s, s', t, k, woken);
    forall j: Key ensures LockAgrees(s', j) {
      if j != k {
        ReleaseElsewhere(s, s', t, k, woken, j);
        SameForAgrees(s, s', j);
      }
    }
  }

  lemma SettleGuarded(s: System, t: nat)
    requires Guarded(s)
    ensures Guarded(SettleStep(s, t))
  {
    hide LockAgrees;
    if t in s.units && s.units[t].phase == Settling {
      assert UnitShape(s.units[t]) && LoadsCurrent(s.lengths, s.units[t]);
      if s.units[t].released >= |s.units[t].acquired| {
        QuietMove(s, SettleStep(s, t), t);
      } else {
        ReleaseGuarded(s, t);
      }
    }
  }

  lemma StepGuarded(s: System, m: Move)
    requires Guarded(s)
    ensures Guarded(Step(s, m))
  {
    hide Guarded;
    match m
    case Begin(t, explicit) => BeginGuarded(s, t, explicit);
    case Acquire(t, k) => AcquireGuarded(s, t, k);
    case Expire(t) => ExpireGuarded(s, t);
    case Load(t) => LoadGuarded(s, t);
    case Commit(t) => CommitGuarded(s, t);
    case Settle(t) => SettleGuarded(s, t);
    case Decide(t, size) => DecideGuarded(s, t, size);
    case Fail(t) => FailGuarded(s, t);
    case Abort(t) => AbortGuarded(s, t);
    case Publish(t) => PublishGuarded(s, t);
  }

  /** A move by `t` that changes nothing but its own unit. */
  lemma LocalMove(s: System, t: nat, u': GuardedUnit)
    requires Guarded(s) && t in s.units && UnitShape(u') && LoadsCurrent(s.lengths, u')
    requires u'.acquired == s.units[t].acquired && u'.released == s.units[t].released
    requires u'.targeted == s.units[t].targeted && !s.units[t].phase.Waiting? && !u'.phase.Waiting?
    ensures Guarded(s.(units := s.units[t := u']))
  {
    hide LockAgrees, UnitShape, LoadsCurrent;
    QuietMove(s, s.(units := s.units[t := u']), t);
  }

  lemma LoadGuarded(s: System, t: nat)
    requires Guarded(s)
    ensures Guarded(LoadStep(s, t))
  {
    hide LockAgrees;
    if t in s.units && s.units[t].phase.Running? {
      assert UnitShape(s.units[t]) && LoadsCurrent(s.lengths, s.units[t]);
      LocalMove(s, t, LoadStep(s, t).units[t]);
    }
  }

  lemma DecideGuarded(s: System, t: nat, size: nat)
    requires Guarded(s)
    ensures Guarded(DecideStep(s, t, size))
  {
    hide LockAgrees;
    if t in s.units && s.units[t].phase.Deciding? {
      assert UnitShape(s.units[t]) && LoadsCurrent(s.lengths, s.units[t]);
      LocalMove(s, t, DecideStep(s, t, size).units[t]);
    }
  }

  lemma FailGuarded(s: System, t: nat)
    requires Guarded(s)
    ensures Guarded(FailStep(s, t))
  {
    hide LockAgrees;
    if FailStep(s, t) != s {
      assert UnitShape(s.units[t]) && LoadsCurrent(s.lengths, s.units[t]);
      LocalMove(s, t, FailStep(s, t).units[t]);
    }
  }

  lemma AbortGuarded(s: System, t: nat)
    requires Guarded(s)
    ensures Guarded(AbortStep(s, t))
  {
    hide LockAgrees;
    if AbortStep(s, t) != s {
      assert UnitShape(s.units[t]) && LoadsCurrent(s.lengths, s.units[t]);
      LocalMove(s, t, AbortStep(s, t).units[t]);
    }
  }

  lemma PublishGuarded(s: System, t: nat)
    requires Guarded(s)
    ensures Guarded(PublishStep(s, t))
  {
    hide LockAgrees;
    if t in s.units && s.units[t].phase == Publishing {
      assert UnitShape(s.units[t]) && LoadsCurrent(s.lengths, s.units[t]);
      LocalMove(s, t, PublishStep(s, t).units[t]);
    }
  }

  lemma BeginGuarded(s: System, t: nat, explicit: bool)
    requires Guarded(s)
    ensures Guarded(BeginStep(s, t, explicit))
  {
    hide LockAgrees;
    forall k: Key ensures LockAgrees(BeginStep(s, t, explicit), k) {
      BeginAgrees(s, t, explicit, k);
    }
  }

  lemma BeginAgrees(s: System, t: nat, explicit: bool, k: Key)
    requires LockAgrees(s, k)
    ensures LockAgrees(BeginStep(s, t, explicit), k)
  {
    hide LockOk;
    LockFacts(LockAt(s, k));
    var s' := BeginStep(s, t, explicit);
    if t !in s.units {
      assert Held(s'.units[t]) == {};
    }
    hide Held;
  }

  lemma {:induction false} AlwaysGuarded(moves: seq<Move>)
    ensures Guarded(After(moves))
  {
    if moves != [] {
      AlwaysGuarded(moves[..|moves| - 1]);
      StepGuarded(After(moves[..|moves| - 1]), moves[|moves| - 1]);
    } else {
      forall k: Key ensures LockAgrees(After([]), k) {
      }
    }
  }

  /**
   * When every writer uses the strategy and no unit targets an aggregate twice, no
   * ConcurrencyError is reachable, in any schedule: a commit never finds a stream past the
   * length its unit loaded.
   */
  lemma NoConflictUnderLocks(moves: seq<Move>, t: nat)
    requires t in After(moves).units
    ensures var s := After(moves);
      && !s.units[t].conflicted
      && (s.units[t].phase == Idle ==> !Conflicts(s.lengths, s.units[t]))
  {
    AlwaysGuarded(moves);
    var s := After(moves);
    assert UnitShape(s.units[t]) && LoadsCurrent(s.lengths, s.units[t]);
  }

  /**
   * The lock protocol: while a unit is open it holds every lock it acquired, alone; when
   * it publishes or is done it has released each exactly once; and it is never left in
   * the locker's queue once it stopped waiting.
   */
  lemma {:induction false} LockHeldUntilSettled(moves: seq<Move>, t: nat, k: Key)
    requires t in After(moves).units && k in After(moves).units[t].acquired
    ensures var s := After(moves);
      var u := s.units[t];
      && (Open(u) ==> LockAt(s, k).inside == {t})
      && (u.phase.Publishing? || u.phase.Done? ==> u.released == |u.acquired| && t !in LockAt(s, k).inside)
      && (t in LockAt(s, k).entry.queue ==> u.phase == Waiting(k))
      && (forall i, j :: 0 <= i < j < |u.acquired| ==> u.acquired[i] != u.acquired[j])
  {
    AlwaysGuarded(moves);
    var s := After(moves);
    var u := s.units[t];
    assert UnitShape(u) && LockAgrees(s, k);
    var inside := LockAt(s, k).inside;
    LockFacts(LockAt(s, k));
    if Open(u) {
      var i :| 0 <= i < |u.acquired| && u.acquired[i] == k;
      assert k in Held(u);
      assert inside == {t};
    }
  }

  // --- The same aggregate twice in one unit ---

  /** What happens at one lock while its holder does not let go. */
  function Played(run: LockRun, acts: seq<Act>): LockRun {
    if acts == [] then run else Apply(Played(run, acts[..|acts| - 1]), acts[|acts| - 1])
  }

  lemma {:induction false} HeldThroughout(run: LockRun, holder: nat, second: nat, acts: seq<Act>)
    requires LockOk(run) && run.inside == {holder} && second in run.entry.queue && second !in run.grants
    requires Leave(holder) !in acts
    ensures var after := Played(run, acts);
      && LockOk(after) && after.inside == {holder} && second !in after.grants
      && (second in after.entry.queue || second in after.timedOut)
  {
    if acts != [] {
      var front, last := acts[..|acts| - 1], acts[|acts| - 1];
      HeldThroughout(run, holder, second, front);
      ApplyKeepsLockOk(Played(run, front), last);
      assert last in acts;
      hide LockOk;
      HolderStays(Played(run, front), holder, second, last);
    }
  }

  /** Nothing but the holder's own release grants the lock to anyone else. */
  lemma HolderStays(r: LockRun, holder: nat, second: nat, act: Act)
    requires LockOk(r) && r.inside == {holder} && act != Leave(holder)
    requires second !in r.grants && (second in r.entry.queue || second in r.timedOut)
    ensures var r' := Apply(r, act);
      && r'.inside == {holder} && second !in r'.grants
      && (second in r'.entry.queue || second in r'.timedOut)
  {
    LockFacts(r);
    match act
    case Arrive(w) =>
    case Leave(w) =>
    case TimeOut(w) => WithoutElements(r.entry.queue, w);
  }

  /**
   * Why a unit must not target an aggregate twice: in every reachable state, a second
   * acquisition of a lock its own unit holds waits for that unit to settle, which waits for
   * it. Whatever else happens at the lock, it is never granted; only its timer ends it.
   */
  lemma {:induction false} SecondAcquireBlocksOnItself(moves: seq<Move>, t: nat, k: Key, second: nat, later: seq<Act>)
    requires var s := After(moves);
      t in s.units && Open(s.units[t]) && k in s.units[t].acquired && second !in LockAt(s, k).arrivals
    requires Leave(t) !in later
    ensures var r := Played(Apply(LockAt(After(moves), k), Arrive(second)), later);
      && r.inside == {t} && second !in r.grants
      && (second in r.entry.queue || second in r.timedOut)
  {
    LockHeldUntilSettled(moves, t, k);
    AlwaysGuarded(moves);
    var run := LockAt(After(moves), k);
    assert LockAgrees(After(moves), k);
    LockFacts(run);
    ArriveEffect(run, second);
    ApplyKeepsLockOk(run, Arrive(second));
    var queued := Apply(run, Arrive(second));
    LockFacts(queued);
    QueuedOnly(run, second);
    HeldThroughout(queued, t, second, later);
  }

  lemma QueuedOnly(run: LockRun, second: nat)
    requires LockOk(run) && run.entry.locked && second !in run.arrivals
    ensures var r := Apply(run, Arrive(second)); r.inside == run.inside && second in r.entry.queue && second !in r.grants
  {
    var line := run.grants + run.entry.queue;
    assert second !in line;
    assert forall i :: 0 <= i < |run.grants| ==> run.grants[i] == line[i];
    var queue := run.entry.queue + [second];
    assert queue[|run.entry.queue|] == second;
  }
}
