/** The per-key mutex in front of a database lock: waiters race for the key when it is freed. */
module KeyedMutex {
  import opened Types

  /** A call of `lock`: about to look at the key, awaiting a holder's promise, holding, or done. */
  datatype Call = Looking | Awaiting(turn: nat) | Holding | Gone

  /** One key: the promise of its holder, if any, how many were made, those resolved, and the calls. */
  datatype Mutex = Mutex(pending: Option<nat>, turns: nat, resolved: set<nat>, calls: map<nat, Call>, holders: seq<nat>)

  datatype Act = Lock(c: nat) | Look(c: nat) | Wake(c: nat) | Unlock(c: nat)

  function With(m: Mutex, c: nat, call: Call): Mutex {
    m.(calls := m.calls[c := call])
  }

  /** One turn of the event loop; `holders` lists who got the key, in order. */
  function Step(m: Mutex, a: Act): Mutex {
    match a
    case Lock(c) => if c in m.calls then m else With(m, c, Looking)
    case Look(c) =>
      if c !in m.calls || m.calls[c] != Looking then m
      else if m.pending.Some? then With(m, c, Awaiting(m.pending.value))
      else With(m, c, Holding).(pending := Some(m.turns), turns := m.turns + 1, holders := m.holders + [c])
    case Wake(c) =>
      if c in m.calls && m.calls[c].Awaiting? && m.calls[c].turn in m.resolved then With(m, c, Looking) else m
    case Unlock(c) =>
      if c !in m.calls || m.calls[c] != Holding || m.pending.None? then m
      else With(m, c, Gone).(pending := None, resolved := m.resolved + {m.pending.value})
  }

  function After(acts: seq<Act>): Mutex {
    if acts == [] then Mutex(None, 0, {}, map[], []) else Step(After(acts[..|acts| - 1]), acts[|acts| - 1])
  }

  ghost predicate Inv(m: Mutex) {
    && (forall c, d :: c in m.calls && d in m.calls && m.calls[c] == Holding && m.calls[d] == Holding ==> c == d)
    && (m.pending.Some? <==> exists c :: c in m.calls && m.calls[c] == Holding)
    && (forall c :: c in m.calls && m.calls[c].Awaiting? ==> m.calls[c].turn in m.resolved || m.pending == Some(m.calls[c].turn))
    && (m.pending.Some? ==> m.pending.value !in m.resolved && m.pending.value < m.turns)
    && (forall n :: n in m.resolved ==> n < m.turns)
  }

  lemma StepKeepsInv(m: Mutex, a: Act)
    requires Inv(m)
    ensures Inv(Step(m, a))
  {
    var m' := Step(m, a);
    if m' != m {
      assert forall c :: c in m'.calls && c != a.c ==> c in m.calls && m'.calls[c] == m.calls[c];
      if m'.pending.Some? {
        if m.pending.Some? {
          var h :| h in m.calls && m.calls[h] == Holding;
          assert m'.calls[h] == Holding;
        } else {
          assert m'.calls[a.c] == Holding;
        }
      }
    }
  }

  lemma {:induction false} AlwaysInv(acts: seq<Act>)
    ensures Inv(After(acts))
  {
    if acts != [] {
      AlwaysInv(acts[..|acts| - 1]);
      StepKeepsInv(After(acts[..|acts| - 1]), acts[|acts| - 1]);
    }
  }

  /**
   * In every schedule in which only holders unlock: at most one call holds the key, and
   * when none does every waiting call can wake, so no wake-up is lost.
   */
  lemma ExclusiveWithoutLostWakeups(acts: seq<Act>)
    ensures var m := After(acts);
      && (forall c, d :: c in m.calls && d in m.calls && m.calls[c] == Holding && m.calls[d] == Holding ==> c == d)
      && (m.pending.None? ==> forall c :: c in m.calls && m.calls[c].Awaiting? ==> Step(m, Wake(c)).calls[c] == Looking)
  {
    AlwaysInv(acts);
  }

  /**
   * It is not a queue: when the key is free, a call that arrives now gets it before one
   * that waits, and the waiter wakes only to wait again.
   */
  lemma LateArrivalOvertakes(acts: seq<Act>, waiter: nat, late: nat)
    requires var m := After(acts);
      m.pending.None? && waiter in m.calls && m.calls[waiter].Awaiting? && late !in m.calls
    ensures var m := After(acts);
      var taken := Step(Step(m, Lock(late)), Look(late));
      var woken := Step(Step(taken, Wake(waiter)), Look(waiter));
      && woken.holders == m.holders + [late]
      && woken.calls[late] == Holding
      && woken.calls[waiter] == Awaiting(m.turns)
  {
    AlwaysInv(acts);
  }
}
