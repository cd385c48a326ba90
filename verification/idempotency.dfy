/** The in-memory idempotency store: claims that expire, forgotten lazily. */
module Idempotency {
  import opened Types

  type CommandId = string

  /** When each command was processed. */
  type Records = map<CommandId, int>

  predicate Expired(ttl: Option<nat>, stamp: int, now: int) {
    ttl.Some? && now - stamp > ttl.value
  }

  /** The records that count at a moment. */
  function Live(ttl: Option<nat>, records: Records, now: int): Records {
    map id | id in records && !Expired(ttl, records[id], now) :: records[id]
  }

  /** The records a sweep keeps: younger than `age`. */
  function Swept(records: Records, age: nat, now: int): Records {
    map id | id in records && records[id] > now - age :: records[id]
  }

  class InMemoryIdempotencyStore {
    const ttl: Option<nat>
    var store: Records

    constructor (ttl: Option<nat>)
      ensures this.ttl == ttl && store == map[]
    {
      this.ttl, store := ttl, map[];
    }

    /** Lazy expiry: an expired record is dropped when looked at, which no later look can tell. */
    method GetLiveRecord(id: CommandId, now: int) returns (stamp: Option<int>)
      modifies this
      ensures stamp == if id in Live(ttl, old(store), now) then Some(old(store)[id]) else None
      ensures store == if stamp.None? then old(store) - {id} else old(store)
      ensures forall later :: later >= now ==> Live(ttl, store, later) == Live(ttl, old(store), later)
    {
      if id !in store {
        assert store - {id} == store;
        return None;
      }
      var found := store[id];
      if Expired(ttl, found, now) {
        store := store - {id};
        forall later | later >= now ensures Live(ttl, store, later) == Live(ttl, old(store), later) {
          assert Expired(ttl, found, later);
        }
        return None;
      }
      return Some(found);
    }

    method Exists(id: CommandId, now: int) returns (found: bool)
      modifies this
      ensures found <==> id in Live(ttl, old(store), now)
      ensures store == if found then old(store) else old(store) - {id}
      ensures forall later :: later >= now ==> Live(ttl, store, later) == Live(ttl, old(store), later)
    {
      var stamp := GetLiveRecord(id, now);
      found := stamp.Some?;
    }

    /** Claims a command; false is an IdempotencyConflictError. */
    method Save(id: CommandId, stamp: int, now: int) returns (saved: bool)
      modifies this
      ensures saved <==> id !in Live(ttl, old(store), now)
      ensures store == if saved then old(store)[id := stamp] else old(store)
    {
      var live := GetLiveRecord(id, now);
      if live.Some? {
        return false;
      }
      store := store[id := stamp];
      return true;
    }

    method Remove(id: CommandId)
      modifies this
      ensures store == old(store) - {id}
    {
      store := store - {id};
    }

    method RemoveExpired(age: nat, now: int)
      modifies this
      ensures store == Swept(old(store), age, now)
    {
      var cutoff := now - age;
      var left := store.Keys;
      while left != {}
        invariant left <= old(store).Keys
        invariant store == map id | id in old(store) && (id in left || old(store)[id] > cutoff) :: old(store)[id]
        decreases left
      {
        var id :| id in left;
        if store[id] <= cutoff {
          store := store - {id};
        }
        left := left - {id};
      }
    }
  }

  // --- Runs ---

  datatype Call = Look(id: CommandId, now: int) | Claim(id: CommandId, stamp: int, now: int) | Sweep(age: nat, now: int)

  /** The records, the claims granted so far, and the latest time seen. */
  datatype Store = Store(records: Records, granted: seq<(CommandId, int, int)>)

  function Step(ttl: Option<nat>, s: Store, c: Call): Store {
    match c
    case Look(id, now) => if id in Live(ttl, s.records, now) then s else s.(records := s.records - {id})
    case Claim(id, stamp, now) =>
      if id in Live(ttl, s.records, now) then s
      else Store(s.records[id := stamp], s.granted + [(id, stamp, now)])
    case Sweep(age, now) => s.(records := Swept(s.records, age, now))
  }

  function After(ttl: Option<nat>, calls: seq<Call>): Store {
    if calls == [] then Store(map[], []) else Step(ttl, After(ttl, calls[..|calls| - 1]), calls[|calls| - 1])
  }

  /** Time does not run backwards, and a record is not stamped in the future. */
  ghost predicate Timed(calls: seq<Call>) {
    && (forall i, j :: 0 <= i < j < |calls| ==> calls[i].now <= calls[j].now)
    && (forall i :: 0 <= i < |calls| && calls[i].Claim? ==> calls[i].stamp <= calls[i].now)
  }

  /** Records are kept for at least `window`: by lazy expiry and by every sweep. */
  ghost predicate KeptFor(ttl: Option<nat>, calls: seq<Call>, window: nat) {
    && (ttl.Some? ==> ttl.value >= window)
    && (forall i :: 0 <= i < |calls| && calls[i].Sweep? ==> calls[i].age >= window)
  }

  /** A granted claim younger than the window is still on record, under a stamp no older. */
  ghost predicate Remembered(s: Store, window: nat, now: int) {
    forall i :: 0 <= i < |s.granted| ==>
      now - s.granted[i].1 < window ==> s.granted[i].0 in s.records && s.records[s.granted[i].0] == s.granted[i].1
  }

  ghost predicate Apart(s: Store, window: nat) {
    forall i, j :: 0 <= i < j < |s.granted| && s.granted[i].0 == s.granted[j].0 ==>
      s.granted[j].2 - s.granted[i].1 >= window
  }

  lemma StepKeeps(ttl: Option<nat>, s: Store, c: Call, window: nat, before: int)
    requires Remembered(s, window, before) && Apart(s, window) && before <= c.now
    requires ttl.Some? ==> ttl.value >= window
    requires c.Sweep? ==> c.age >= window
    requires c.Claim? ==> c.stamp <= c.now
    ensures Remembered(Step(ttl, s, c), window, c.now) && Apart(Step(ttl, s, c), window)
  {
    assert Remembered(s, window, c.now);
  }

  lemma {:induction false} GrantsApart(ttl: Option<nat>, calls: seq<Call>, window: nat)
    requires Timed(calls) && KeptFor(ttl, calls, window)
    ensures Apart(After(ttl, calls), window)
    ensures calls != [] ==> Remembered(After(ttl, calls), window, calls[|calls| - 1].now)
  {
    if calls != [] {
      var front, last := calls[..|calls| - 1], calls[|calls| - 1];
      GrantsApart(ttl, front, window);
      var before := if front == [] then last.now else front[|front| - 1].now;
      StepKeeps(ttl, After(ttl, front), last, window, before);
    }
  }

  /**
   * Within the time records are kept a command is granted once: of two granted claims of
   * one id, the later is made at least `window` after the earlier was stamped.
   */
  lemma OneGrantPerWindow(ttl: Option<nat>, calls: seq<Call>, window: nat, i: nat, j: nat)
    requires Timed(calls) && KeptFor(ttl, calls, window)
    requires i < j < |After(ttl, calls).granted| && After(ttl, calls).granted[i].0 == After(ttl, calls).granted[j].0
    ensures After(ttl, calls).granted[j].2 - After(ttl, calls).granted[i].1 >= window
  {
    GrantsApart(ttl, calls, window);
  }

  /** Without a lifetime and without sweeps, each command id is granted at most once, ever. */
  lemma NoExpiryGrantsOnce(calls: seq<Call>, i: nat, j: nat)
    requires Timed(calls) && forall n :: 0 <= n < |calls| ==> !calls[n].Sweep?
    requires i < j < |After(None, calls).granted|
    ensures After(None, calls).granted[i].0 != After(None, calls).granted[j].0
  {
    var granted := After(None, calls).granted;
    if granted[i].0 == granted[j].0 {
      var gap := granted[j].2 - granted[i].1;
      OneGrantPerWindow(None, calls, 0, i, j);
      OneGrantPerWindow(None, calls, gap + 1, i, j);
    }
  }

  /**
   * Lazy expiry and a sweep with the same lifetime differ on the boundary: the sweep
   * forgets a record that still counts exactly when its age equals the lifetime.
   */
  lemma SweepForgetsLiveIff(records: Records, age: nat, now: int)
    ensures Live(Some(age), Swept(records, age, now), now) == Live(Some(age), records, now)
       <==> forall id :: id in records ==> now - records[id] != age
  {
    var live, left := Live(Some(age), records, now), Live(Some(age), Swept(records, age, now), now);
    if live == left {
      forall id | id in records ensures now - records[id] != age {
        assert id in live <==> id in left;
      }
    }
  }
}
