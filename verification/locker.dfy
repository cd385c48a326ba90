/** The in-memory aggregate locker: a FIFO queue of waiters per key, with timeouts. */
module Locker {
  import opened Types
  import opened Seqs

  /** One call of `acquire`, by identity. */
  type Waiter = nat

  datatype LockEntry = LockEntry(locked: bool, queue: seq<Waiter>)

  datatype Settlement = Granted | TimedOut

  function Without(queue: seq<Waiter>, w: Waiter): seq<Waiter> {
    if queue == [] then [] else if queue[0] == w then queue[1..] else [queue[0]] + Without(queue[1..], w)
  }

  function Acquired(e: LockEntry, w: Waiter): LockEntry {
    if !e.locked then LockEntry(true, e.queue) else LockEntry(true, e.queue + [w])
  }

  /** Ownership passes to the first waiter, if there is one. */
  function Released(e: LockEntry): LockEntry {
    if !e.locked then e
    else if e.queue != [] then LockEntry(true, e.queue[1..])
    else LockEntry(false, [])
  }

  /** Who a release wakes. */
  function Woken(e: LockEntry): Option<Waiter> {
    if e.locked && e.queue != [] then Some(e.queue[0]) else None
  }

  /** The position of the first `w`, or the length if there is none. */
  method IndexOf(queue: seq<Waiter>, w: Waiter) returns (idx: nat)
    ensures idx <= |queue| && w !in queue[..idx]
    ensures idx < |queue| ==> queue[idx] == w
    ensures idx < |queue| <==> w in queue
  {
    idx := 0;
    while idx < |queue| && queue[idx] != w
      invariant 0 <= idx <= |queue| && w !in queue[..idx]
    {
      idx := idx + 1;
    }
  }

  lemma {:induction false} WithoutAt(queue: seq<Waiter>, idx: nat)
    requires idx < |queue| && queue[idx] !in queue[..idx]
    ensures Without(queue, queue[idx]) == queue[..idx] + queue[idx + 1..]
    decreases idx
  {
    if idx > 0 {
      assert queue[0] in queue[..idx];
      assert queue[1..][..idx - 1] == queue[1..idx] && queue[1..][idx - 1] == queue[idx];
      assert forall x :: x in queue[1..idx] ==> x in queue[..idx];
      WithoutAt(queue[1..], idx - 1);
    }
  }

  class InMemoryAggregateLocker {
    var locks: map<Key, LockEntry>
    /** How each waiter's promise was settled. */
    var settled: map<Waiter, Settlement>

    constructor ()
      ensures locks == map[] && settled == map[]
    {
      locks, settled := map[], map[];
    }

    function EntryOf(k: Key): LockEntry
      reads this
    {
      if k in locks then locks[k] else LockEntry(false, [])
    }

    method Acquire(k: Key, w: Waiter)
      modifies this
      ensures locks == old(locks)[k := Acquired(old(EntryOf(k)), w)]
      ensures settled == if old(EntryOf(k)).locked then old(settled) else old(settled)[w := Granted]
    {
      var entry := if k in locks then locks[k] else LockEntry(false, []);
      if !entry.locked {
        locks := locks[k := entry.(locked := true)];
        settled := settled[w := Granted];
        return;
      }
      locks := locks[k := entry.(queue := entry.queue + [w])];
    }

    /** The timer of a queued waiter fires. */
    method Expire(k: Key, w: Waiter)
      modifies this
      ensures locks == if w in old(EntryOf(k)).queue
                       then old(locks)[k := LockEntry(old(EntryOf(k)).locked, Without(old(EntryOf(k)).queue, w))]
                       else old(locks)
      ensures settled == if w in old(EntryOf(k)).queue then old(settled)[w := TimedOut] else old(settled)
    {
      if k !in locks {
        return;
      }
      var queue := locks[k].queue;
      var idx := IndexOf(queue, w);
      if idx < |queue| {
        WithoutAt(queue, idx);
        locks := locks[k := locks[k].(queue := queue[..idx] + queue[idx + 1..])];
        settled := settled[w := TimedOut];
      }
    }

    method Release(k: Key)
      modifies this
      ensures EntryOf(k) == Released(old(EntryOf(k)))
      ensures forall j :: j != k ==> EntryOf(j) == old(EntryOf(j))
      ensures settled == match Woken(old(EntryOf(k)))
                         case None => old(settled)
                         case Some(w) => old(settled)[w := Granted]
    {
      if k !in locks || !locks[k].locked {
        return;
      }
      var entry := locks[k];
      if |entry.queue| > 0 {
        var next := entry.queue[0];
        locks := locks[k := entry.(queue := entry.queue[1..])];
        settled := settled[next := Granted];
      } else {
        locks := locks[k := LockEntry(false, [])];
      }
    }
  }

  // --- One key under any schedule of acquires, releases and timers ---

  datatype Act = Arrive(w: Waiter) | Leave(w: Waiter) | TimeOut(w: Waiter)

  /**
   * The lock with its history: who arrived, who was granted it, whose timer fired, and who
   * holds it, in the sense of having been granted it and not having released it yet.
   */
  datatype LockRun = LockRun(
    entry: LockEntry,
    arrivals: seq<Waiter>,
    grants: seq<Waiter>,
    timedOut: set<Waiter>,
    inside: set<Waiter>)

  function WokenSeq(e: LockEntry): seq<Waiter> {
    match Woken(e)
    case None => []
    case Some(w) => [w]
  }

  function WokenSet(e: LockEntry): set<Waiter> {
    match Woken(e)
    case None => {}
    case Some(w) => {w}
  }

  /** A `release` call, whoever makes it: the locker does not check ownership. */
  function AnyRelease(r: LockRun, w: Waiter): LockRun {
    LockRun(Released(r.entry), r.arrivals, r.grants + WokenSeq(r.entry), r.timedOut, (r.inside - {w}) + WokenSet(r.entry))
  }

  /** One action. Each call arrives once; only a holder releases, and only once. */
  function Apply(r: LockRun, a: Act): LockRun {
    match a
    case Arrive(w) =>
      if w in r.arrivals then r
      else if r.entry.locked then r.(entry := Acquired(r.entry, w), arrivals := r.arrivals + [w])
      else LockRun(Acquired(r.entry, w), r.arrivals + [w], r.grants + [w], r.timedOut, r.inside + {w})
    case Leave(w) => if w in r.inside then AnyRelease(r, w) else r
    case TimeOut(w) =>
      if w !in r.entry.queue then r
      else r.(entry := r.entry.(queue := Without(r.entry.queue, w)), timedOut := r.timedOut + {w})
  }

  const Fresh: LockRun := LockRun(LockEntry(false, []), [], [], {}, {})

  function Play(acts: seq<Act>): LockRun {
    if acts == [] then Fresh else Apply(Play(acts[..|acts| - 1]), acts[|acts| - 1])
  }

  function Patient(timedOut: set<Waiter>): Waiter -> bool {
    (w: Waiter) => w !in timedOut
  }

  predicate Distinct(s: seq<Waiter>) {
    forall i, j :: 0 <= i < j < |s| ==> s[i] != s[j]
  }

  /**
   * Grants, then the queue, are the arrivals that did not time out, in arrival order; and
   * a locked key has exactly one holder, the last one granted.
   */
  ghost predicate LockOk(r: LockRun) {
    && Distinct(r.arrivals)
    && (forall w :: w in r.timedOut ==> w in r.arrivals)
    && r.grants + r.entry.queue == Filter(Patient(r.timedOut), r.arrivals)
    && (r.entry.queue != [] ==> r.entry.locked)
    && (r.entry.locked ==> r.grants != [] && r.inside == {r.grants[|r.grants| - 1]})
    && (!r.entry.locked ==> r.inside == {})
  }

  lemma {:induction false} FilterDistinct(p: Waiter -> bool, s: seq<Waiter>)
    requires Distinct(s)
    ensures Distinct(Filter(p, s))
  {
    if s != [] {
      FilterDistinct(p, s[1..]);
      forall x | x in Filter(p, s[1..]) ensures x != s[0] {
        var i :| 0 <= i < |s[1..]| && s[1..][i] == x;
        assert s[i + 1] == x;
      }
    }
  }

  lemma {:induction false} WithoutSplit(a: seq<Waiter>, b: seq<Waiter>, w: Waiter)
    requires w !in a
    ensures Without(a + b, w) == a + Without(b, w)
  {
    if a == [] {
      assert a + b == b;
    } else {
      assert (a + b)[1..] == a[1..] + b;
      WithoutSplit(a[1..], b, w);
    }
  }

  /** Timing one more waiter out takes it, and nothing else, out of the line. */
  lemma {:induction false} FilterOneMore(timedOut: set<Waiter>, w: Waiter, s: seq<Waiter>)
    requires Distinct(s)
    ensures Filter(Patient(timedOut + {w}), s) == Without(Filter(Patient(timedOut), s), w)
  {
    if s != [] {
      FilterOneMore(timedOut, w, s[1..]);
      if s[0] == w {
        assert forall i :: 0 <= i < |s[1..]| ==> s[1..][i] == s[i + 1] != s[0];
        WithoutAbsent(Filter(Patient(timedOut), s[1..]), w);
      }
    }
  }

  lemma {:induction false} WithoutAbsent(s: seq<Waiter>, w: Waiter)
    requires w !in s
    ensures Without(s, w) == s
  {
    if s != [] {
      WithoutAbsent(s[1..], w);
    }
  }

  lemma ArriveOk(r: LockRun, w: Waiter)
    requires LockOk(r) && w !in r.arrivals
    ensures LockOk(Apply(r, Arrive(w)))
  {
    FilterAppend(Patient(r.timedOut), r.arrivals, [w]);
    assert Filter(Patient(r.timedOut), [w]) == [w];
  }

  lemma LeaveOk(r: LockRun, w: Waiter)
    requires LockOk(r) && w in r.inside
    ensures LockOk(Apply(r, Leave(w)))
  {
    assert r.inside == {w};
    if r.entry.queue != [] {
      assert r.grants + [r.entry.queue[0]] + r.entry.queue[1..] == r.grants + r.entry.queue;
    } else {
      assert r.grants + [] == r.grants;
    }
  }

  lemma TimeOutOk(r: LockRun, w: Waiter)
    requires LockOk(r) && w in r.entry.queue
    ensures LockOk(Apply(r, TimeOut(w)))
  {
    var line := r.grants + r.entry.queue;
    FilterDistinct(Patient(r.timedOut), r.arrivals);
    FilterOneMore(r.timedOut, w, r.arrivals);
    var i :| 0 <= i < |r.entry.queue| && r.entry.queue[i] == w;
    assert line[|r.grants| + i] == w && w in line;
    assert forall j :: 0 <= j < |r.grants| ==> line[j] == r.grants[j];
    WithoutSplit(r.grants, r.entry.queue, w);
  }

  /** Arriving, leaving and timing out all keep the lock in order. */
  lemma ApplyKeepsLockOk(r: LockRun, a: Act)
    requires LockOk(r)
    ensures LockOk(Apply(r, a))
  {
    hide LockOk;
    match a
    case Arrive(w) =>
      if w !in r.arrivals {
        ArriveOk(r, w);
      }
    case Leave(w) =>
      if w in r.inside {
        LeaveOk(r, w);
      }
    case TimeOut(w) =>
      if w in r.entry.queue {
        TimeOutOk(r, w);
      }
  }

  lemma {:induction false} PlayOk(acts: seq<Act>)
    ensures LockOk(Play(acts))
  {
    if acts != [] {
      PlayOk(acts[..|acts| - 1]);
      ApplyKeepsLockOk(Play(acts[..|acts| - 1]), acts[|acts| - 1]);
    }
  }

  /**
   * For every schedule in which each call arrives once and only holders release: at most
   * one holder; grants in arrival order among those who did not time out; each call settled
   * at most once, never both granted and timed out; and a free lock has nobody waiting.
   */
  lemma LockerCorrect(acts: seq<Act>)
    ensures var r := Play(acts);
      && |r.inside| <= 1
      && (r.entry.locked <==> |r.inside| == 1)
      && r.grants <= Filter(Patient(r.timedOut), r.arrivals)
      && Distinct(r.grants)
      && (forall w :: w in r.grants ==> w !in r.timedOut)
      && (!r.entry.locked ==> forall w :: w in r.arrivals ==> w in r.grants || w in r.timedOut)
  {
    PlayOk(acts);
    var r := Play(acts);
    var line := Filter(Patient(r.timedOut), r.arrivals);
    FilterDistinct(Patient(r.timedOut), r.arrivals);
    assert forall i :: 0 <= i < |r.grants| ==> r.grants[i] == line[i];
    forall w | w in r.grants ensures w !in r.timedOut {
      var i :| 0 <= i < |r.grants| && r.grants[i] == w;
      assert line[i] in line;
    }
    if !r.entry.locked {
      assert line == r.grants;
    }
  }

  /**
   * The locker does not check who releases: from any good state, a release of a held lock
   * by anyone but its holder lets a second holder in, at once or on the next arrival.
   */
  lemma StrayReleaseBreaksExclusion(r: LockRun, stranger: Waiter, next: Waiter)
    requires LockOk(r) && r.entry.locked && stranger !in r.inside
    requires next !in r.arrivals
    ensures |Apply(AnyRelease(r, stranger), Arrive(next)).inside| >= 2
  {
    var holder := r.grants[|r.grants| - 1];
    FilterDistinct(Patient(r.timedOut), r.arrivals);
    var line := r.grants + r.entry.queue;
    assert line[|r.grants| - 1] == holder;
    assert holder in line && holder in r.arrivals;
    assert r.inside - {stranger} == {holder};
    var second := if r.entry.queue != [] then r.entry.queue[0] else next;
    if r.entry.queue != [] {
      assert line[|r.grants|] == second;
    }
    var after := Apply(AnyRelease(r, stranger), Arrive(next)).inside;
    assert after == {holder, second};
  }
}
