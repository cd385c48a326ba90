/**
 * Event stores: the in-memory one, which compares stream lengths, and the SQL one, whose
 * version check is a unique index on (aggregate, sequence number).
 */
module EventStore {
  import opened Types
  import opened Seqs
  import Hashing

  type Streams = map<Key, seq<Event>>

  function Stream(streams: Streams, k: Key): seq<Event> {
    if k in streams then streams[k] else []
  }

  /** `slice(after)`: everything past position `after`, nothing if there is no such position. */
  function Drop(events: seq<Event>, after: nat): seq<Event> {
    if after <= |events| then events[after..] else []
  }

  /** Append under a version check; `None` is a ConcurrencyError. An empty batch is not checked. */
  function Append(streams: Streams, k: Key, events: seq<Event>, expected: nat): Option<Streams> {
    if events == [] then Some(streams)
    else if |Stream(streams, k)| != expected then None
    else Some(streams[k := Stream(streams, k) + events])
  }

  /** All streams one after the other, in the given order of keys. */
  function ReadAll(streams: Streams, order: seq<Key>): seq<Event> {
    if order == [] then []
    else ReadAll(streams, order[..|order| - 1]) + Stream(streams, order[|order| - 1])
  }

  /** Yields the events of one stream after what was yielded before. */
  method AppendAll(before: seq<Event>, events: seq<Event>) returns (log: seq<Event>)
    ensures log == before + events
  {
    log := before;
    for j := 0 to |events|
      invariant log == before + events[..j]
    {
      log := log + [events[j]];
    }
    assert events[..|events|] == events;
  }

  class InMemoryEventStore {
    var store: Streams
    /** The keys in the order the map received them. */
    var order: seq<Key>

    ghost predicate Valid()
      reads this
    {
      && (forall k :: k in order <==> k in store)
      && (forall i, j :: 0 <= i < j < |order| ==> order[i] != order[j])
    }

    constructor ()
      ensures Valid() && store == map[]
    {
      store, order := map[], [];
    }

    method Load(k: Key) returns (events: seq<Event>)
      ensures events == Stream(store, k)
    {
      events := if k in store then store[k] else [];
    }

    method LoadAfterVersion(k: Key, after: nat) returns (events: seq<Event>)
      ensures events == Drop(Stream(store, k), after)
    {
      var all := if k in store then store[k] else [];
      events := if after <= |all| then all[after..] else [];
    }

    method Save(k: Key, events: seq<Event>, expected: nat) returns (saved: bool)
      requires Valid()
      modifies this
      ensures Valid() && old(order) <= order
      ensures saved <==> Append(old(store), k, events, expected).Some?
      ensures store == if saved then Append(old(store), k, events, expected).value else old(store)
    {
      if events == [] {
        return true;
      }
      var existing := if k in store then store[k] else [];
      if |existing| != expected {
        return false;
      }
      if k !in store {
        order := order + [k];
      }
      store := store[k := existing + events];
      return true;
    }

    /**
     * The event reader: the selected streams in map order, each in stored order. A cursor
     * is not supported: `None` is the error.
     */
    method Read(aggregateName: Option<string>, cursor: bool) returns (r: Option<seq<Event>>)
      requires Valid()
      ensures r == if cursor then None else Some(ReadAll(store, Filter(Selected(aggregateName), order)))
    {
      if cursor {
        return None;
      }
      hide ReadAll, Filter, Hashing.KeyOf;
      var log: seq<Event> := [];
      ReadNone(store, aggregateName, order);
      for i := 0 to |order|
        invariant log == ReadAll(store, Filter(Selected(aggregateName), order[..i]))
      {
        SelectNext(store, aggregateName, order, i);
        if aggregateName.Some? && !(aggregateName.value + ":" <= Hashing.KeyOf(order[i].name, order[i].id)) {
          continue;
        }
        log := AppendAll(log, store[order[i]]);
      }
      assert order[..|order|] == order;
      return Some(log);
    }
  }

  /** The reader's filter compares string keys with the prefix `name:`. */
  function Selected(aggregateName: Option<string>): Key -> bool {
    (k: Key) => aggregateName.None? || aggregateName.value + ":" <= Hashing.KeyOf(k.name, k.id)
  }

  lemma ReadNone(streams: Streams, aggregateName: Option<string>, order: seq<Key>)
    ensures ReadAll(streams, Filter(Selected(aggregateName), order[..0])) == []
  {
    assert order[..0] == [];
  }

  /** One more key in map order: its stream is read if it is selected. */
  lemma SelectNext(streams: Streams, aggregateName: Option<string>, order: seq<Key>, i: nat)
    requires i < |order|
    ensures ReadAll(streams, Filter(Selected(aggregateName), order[..i + 1]))
         == ReadAll(streams, Filter(Selected(aggregateName), order[..i]))
          + if Selected(aggregateName)(order[i]) then Stream(streams, order[i]) else []
  {
    var before := Filter(Selected(aggregateName), order[..i]);
    assert order[..i + 1] == order[..i] + [order[i]];
    FilterAppend(Selected(aggregateName), order[..i], [order[i]]);
    OneSelected(aggregateName, order[i]);
    hide Filter, Selected;
    if Selected(aggregateName)(order[i]) {
      ReadAllStep(streams, before, order[i]);
    } else {
      assert before + [] == before;
    }
  }

  lemma OneSelected(aggregateName: Option<string>, k: Key)
    ensures Filter(Selected(aggregateName), [k]) == if Selected(aggregateName)(k) then [k] else []
  {
    if Selected(aggregateName)(k) {
      FilterAll(Selected(aggregateName), [k]);
    } else {
      FilterNone(Selected(aggregateName), [k]);
    }
  }

  lemma ReadAllStep(streams: Streams, order: seq<Key>, k: Key)
    ensures ReadAll(streams, order + [k]) == ReadAll(streams, order) + Stream(streams, k)
  {
    assert (order + [k])[..|order|] == order;
  }

  /**
   * The string key of `k` reads on as `name:` although `k` has another name: the name read
   * is the longer one and its rest begins the id, or it is the shorter one and `k.name`
   * goes on past a colon.
   */
  predicate Misread(name: string, k: Key) {
    || name + ":" <= k.name
    || (k.name + ":" <= name && name[|k.name| + 1..] + ":" <= k.id)
  }

  /**
   * The filter is meant to select the aggregates of one name. It does so for every key but
   * those misread; a misread key is selected and has another name.
   */
  lemma FilterSelectsByNameIff(name: string, k: Key)
    ensures (Selected(Some(name))(k) <==> k.name == name) <==> !Misread(name, k)
    ensures Misread(name, k) ==> Selected(Some(name))(k) && k.name != name
  {
    hide Selected;
    if |name| < |k.name| {
      ShorterNameRead(name, k);
    } else if |name| == |k.name| {
      SameLengthRead(name, k);
    } else {
      LongerNameRead(name, k);
    }
  }

  lemma ShorterNameRead(name: string, k: Key)
    requires |name| < |k.name|
    ensures Selected(Some(name))(k) <==> name + ":" <= k.name
  {
    var key := Hashing.KeyOf(k.name, k.id);
    assert key[..|name| + 1] == k.name[..|name| + 1];
  }

  lemma SameLengthRead(name: string, k: Key)
    requires |name| == |k.name|
    ensures Selected(Some(name))(k) <==> k.name == name
  {
    var key := Hashing.KeyOf(k.name, k.id);
    assert key[..|name|] == k.name && key[..|name| + 1] == k.name + ":";
    assert (name + ":")[..|name|] == name;
  }

  lemma LongerNameRead(name: string, k: Key)
    requires |name| > |k.name|
    ensures Selected(Some(name))(k) <==> k.name + ":" <= name && name[|k.name| + 1..] + ":" <= k.id
  {
    var n := |k.name| + 1;
    var key := Hashing.KeyOf(k.name, k.id);
    assert key[..n] == k.name + ":" && key[n..] == k.id;
    assert (name + ":")[..n] == name[..n] && (name + ":")[n..] == name[n..] + ":";
    assert name + ":" == name[..n] + (name[n..] + ":");
    assert key == key[..n] + key[n..];
  }

  /** With names free of colons, whatever the ids, no key is misread. */
  lemma ColonFreeNamesAreNotMisread(name: string, k: Key)
    requires ':' !in name && ':' !in k.name
    ensures !Misread(name, k)
  {
    assert (name + ":")[|name|] == ':' && (k.name + ":")[|k.name|] == ':';
  }

  /** Reading "a" also yields the aggregates named "a:b", whatever their ids. */
  lemma ShorterNameMisreads(id: string)
    ensures Selected(Some("a"))(Key("a:b", id))
  {
    assert Misread("a", Key("a:b", id));
    FilterSelectsByNameIff("a", Key("a:b", id));
  }

  /** Reading "a:b" also yields the aggregates named "a" whose ids begin with "b:". */
  lemma LongerNameMisreads(rest: string)
    ensures Selected(Some("a:b"))(Key("a", "b:" + rest))
  {
    assert "a:b"[2..] + ":" == "b:" && "a" + ":" == "a:b"[..2];
    assert Misread("a:b", Key("a", "b:" + rest));
    FilterSelectsByNameIff("a:b", Key("a", "b:" + rest));
  }

  // --- The unique-index store ---

  type Rows = map<(Key, nat), Event>

  /** The rows a `createMany` would insert. */
  function RowsFor(k: Key, events: seq<Event>, expected: nat): (r: Rows)
    ensures forall n: nat :: (k, n) in r <==> expected < n <= expected + |events|
    ensures forall n: nat :: (k, n) in r ==> r[(k, n)] == events[n - expected - 1]
    ensures forall row :: row in r ==> row.0 == k
  {
    map n: nat | expected < n <= expected + |events| :: (k, n) := events[n - expected - 1]
  }

  /** `createMany` under a unique index: all rows or, on any duplicate, none. */
  function Insert(rows: Rows, k: Key, events: seq<Event>, expected: nat): Option<Rows> {
    if events == [] then Some(rows)
    else if exists n: nat | expected < n <= expected + |events| :: (k, n) in rows then None
    else Some(rows + RowsFor(k, events, expected))
  }

  ghost function Numbers(rows: Rows, k: Key, after: nat): set<nat> {
    set row | row in rows.Keys && row.0 == k && row.1 > after :: row.1
  }

  /** A finite set of numbers in ascending order. */
  ghost function Ascending(s: set<nat>): (r: seq<nat>)
    ensures forall n :: n in r <==> n in s
  {
    if s == {} then []
    else
      [Least(s)] + Ascending(s - {Least(s)})
  }

  ghost function Least(s: set<nat>): (least: nat)
    requires s != {}
    ensures least in s && forall n :: n in s ==> least <= n
  {
    var x :| x in s;
    var rest := s - {x};
    assert forall n :: n in s ==> n == x || n in rest;
    if rest == {} then x
    else if x <= Least(rest) then x else Least(rest)
  }

  /** `findMany` with `sequenceNumber > after`, ordered by sequence number. */
  ghost function Select(rows: Rows, k: Key, after: nat): seq<Event> {
    var ns := Ascending(Numbers(rows, k, after));
    seq(|ns|, i requires 0 <= i < |ns| =>
      assert ns[i] in ns; assert ns[i] in Numbers(rows, k, after); rows[(k, ns[i])])
  }

  lemma {:induction false} AscendingRange(lo: nat, hi: nat, s: set<nat>)
    requires lo <= hi && forall n :: n in s <==> lo < n <= hi
    ensures Ascending(s) == seq(hi - lo, i requires 0 <= i < hi - lo => lo + 1 + i)
    decreases hi - lo
  {
    hide *;
    if lo < hi {
      var rest := s - {lo + 1};
      assert lo + 1 in s;
      AscendingStep(s, lo + 1);
      AscendingRange(lo + 1, hi, rest);
      var numbers := seq(hi - lo, i requires 0 <= i < hi - lo => lo + 1 + i);
      assert numbers == [lo + 1] + Ascending(rest);
    } else {
      AscendingNone(s);
    }
  }

  lemma AscendingNone(s: set<nat>)
    requires forall n :: n !in s
    ensures Ascending(s) == []
  {
    assert s == {};
  }

  lemma AscendingStep(s: set<nat>, least: nat)
    requires least in s && forall n :: n in s ==> least <= n
    ensures Ascending(s) == [least] + Ascending(s - {least})
  {
    assert Least(s) == least;
  }

  /** One row of one stream, in both stores. */
  ghost predicate RowAgrees(rows: Rows, streams: Streams, j: Key, n: nat) {
    && ((j, n) in rows <==> 1 <= n <= |Stream(streams, j)|)
    && ((j, n) in rows ==> rows[(j, n)] == Stream(streams, j)[n - 1])
  }

  /** The rows of each stream are numbered exactly 1 to n and hold its events in order. */
  ghost predicate Refines(rows: Rows, streams: Streams) {
    forall k: Key, n: nat :: RowAgrees(rows, streams, k, n)
  }

  /** Reading rows past a sequence number is dropping that many events. */
  lemma SelectIsDrop(rows: Rows, streams: Streams, k: Key, after: nat)
    requires Refines(rows, streams)
    ensures Select(rows, k, after) == Drop(Stream(streams, k), after)
  {
    var n := |Stream(streams, k)|;
    forall x: nat ensures x in Numbers(rows, k, after) <==> after < x <= n {
      assert RowAgrees(rows, streams, k, x);
      if after < x <= n {
        assert (k, x) in rows.Keys;
      }
    }
    if after <= n {
      AscendingRange(after, n, Numbers(rows, k, after));
      forall i | 0 <= i < n - after ensures Select(rows, k, after)[i] == Stream(streams, k)[after..][i] {
        assert Ascending(Numbers(rows, k, after))[i] == after + 1 + i;
        assert RowAgrees(rows, streams, k, after + 1 + i);
      }
    } else {
      assert Numbers(rows, k, after) == {};
    }
  }

  /**
   * A non-empty batch: the unique index and the length check give the same verdict
   * exactly when the expected version is not beyond the stream.
   */
  lemma VerdictsAgreeIff(rows: Rows, streams: Streams, k: Key, events: seq<Event>, expected: nat)
    requires Refines(rows, streams) && events != []
    ensures (Insert(rows, k, events, expected).Some? <==> Append(streams, k, events, expected).Some?)
            <==> expected <= |Stream(streams, k)|
  {
    var n := |Stream(streams, k)|;
    forall x: nat ensures (k, x) in rows <==> 1 <= x <= n {
      assert RowAgrees(rows, streams, k, x);
    }
    if expected < n {
      assert (k, expected + 1) in rows;
    }
  }

  lemma InsertedRefines(rows: Rows, streams: Streams, k: Key, events: seq<Event>)
    requires Refines(rows, streams)
    ensures Refines(rows + RowsFor(k, events, |Stream(streams, k)|), streams[k := Stream(streams, k) + events])
  {
    var streams' := streams[k := Stream(streams, k) + events];
    forall j: Key, n: nat ensures RowAgrees(rows + RowsFor(k, events, |Stream(streams, k)|), streams', j, n) {
      assert RowAgrees(rows, streams, j, n);
      InsertedRow(rows, streams, k, events, j, n);
    }
    hide RowsFor, Stream;
  }

  lemma InsertedRow(rows: Rows, streams: Streams, k: Key, events: seq<Event>, j: Key, n: nat)
    requires RowAgrees(rows, streams, j, n)
    ensures RowAgrees(rows + RowsFor(k, events, |Stream(streams, k)|), streams[k := Stream(streams, k) + events], j, n)
  {
    var added := RowsFor(k, events, |Stream(streams, k)|);
    assert (j, n) in added <==> j == k && |Stream(streams, k)| < n <= |Stream(streams, k)| + |events|;
  }

  /** An agreed save keeps the two stores in step. */
  lemma SaveKeepsRefinement(rows: Rows, streams: Streams, k: Key, events: seq<Event>, expected: nat)
    requires Refines(rows, streams) && expected <= |Stream(streams, k)|
    ensures Insert(rows, k, events, expected).Some? <==> Append(streams, k, events, expected).Some?
    ensures Append(streams, k, events, expected).Some? ==>
      Refines(Insert(rows, k, events, expected).value, Append(streams, k, events, expected).value)
  {
    if events != [] {
      VerdictsAgreeIff(rows, streams, k, events, expected);
      if Append(streams, k, events, expected).Some? {
        InsertedRefines(rows, streams, k, events);
      }
    }
  }

  // --- Runs: clients load, later save at the version they loaded ---

  datatype Call = Load(client: nat, key: Key) | Save(client: nat, events: seq<Event>)
  datatype Reply = LoadedEvents(events: seq<Event>) | Saved | Conflict | Ignored
  /** What each client last loaded: a key and the stream length it saw. */
  type Sessions = map<nat, (Key, nat)>

  datatype MemoryRun = MemoryRun(streams: Streams, sessions: Sessions, replies: seq<Reply>)
  datatype SqlRun = SqlRun(rows: Rows, sessions: Sessions, replies: seq<Reply>)

  function RunInMemory(calls: seq<Call>): MemoryRun {
    if calls == [] then MemoryRun(map[], map[], [])
    else
      var s := RunInMemory(calls[..|calls| - 1]);
      match calls[|calls| - 1]
      case Load(c, k) =>
        var events := Stream(s.streams, k);
        MemoryRun(s.streams, s.sessions[c := (k, |events|)], s.replies + [LoadedEvents(events)])
      case Save(c, events) =>
        if c !in s.sessions then s.(replies := s.replies + [Ignored])
        else
          match Append(s.streams, s.sessions[c].0, events, s.sessions[c].1)
          case None => s.(replies := s.replies + [Conflict])
          case Some(streams) => s.(streams := streams, replies := s.replies + [Saved])
  }

  ghost function RunOnSql(calls: seq<Call>): SqlRun {
    if calls == [] then SqlRun(map[], map[], [])
    else
      var s := RunOnSql(calls[..|calls| - 1]);
      match calls[|calls| - 1]
      case Load(c, k) =>
        var events := Select(s.rows, k, 0);
        SqlRun(s.rows, s.sessions[c := (k, |events|)], s.replies + [LoadedEvents(events)])
      case Save(c, events) =>
        if c !in s.sessions then s.(replies := s.replies + [Ignored])
        else
          match Insert(s.rows, s.sessions[c].0, events, s.sessions[c].1)
          case None => s.(replies := s.replies + [Conflict])
          case Some(rows) => s.(rows := rows, replies := s.replies + [Saved])
  }

  /**
   * In every interleaving of loads and saves by any number of clients the two stores
   * answer alike, rows stay numbered 1 to n, and no client holds a version beyond its stream.
   */
  lemma {:induction false} UniqueIndexRefinesLengthCheck(calls: seq<Call>)
    ensures var m, q := RunInMemory(calls), RunOnSql(calls);
      && q.replies == m.replies
      && q.sessions == m.sessions
      && Refines(q.rows, m.streams)
      && forall c :: c in m.sessions ==> m.sessions[c].1 <= |Stream(m.streams, m.sessions[c].0)|
  {
    if calls != [] {
      var front := calls[..|calls| - 1];
      UniqueIndexRefinesLengthCheck(front);
      var m, q := RunInMemory(front), RunOnSql(front);
      match calls[|calls| - 1]
      case Load(_, k) =>
        SelectIsDrop(q.rows, m.streams, k, 0);
      case Save(c, events) =>
        if c in m.sessions {
          SaveKeepsRefinement(q.rows, m.streams, m.sessions[c].0, events, m.sessions[c].1);
        }
    }
  }
}

/**
 * Versioned documents: aggregate states and saga states, saved by compare-and-set on a
 * version that starts at 1.
 */
module VersionedStore {
  import opened Types

  datatype Versioned<S> = Versioned(state: S, version: nat)

  function VersionOf<K, S>(table: map<K, Versioned<S>>, k: K): nat {
    if k in table then table[k].version else 0
  }

  /** Every stored document is at version 1 or later. */
  predicate Numbered<K, S>(table: map<K, Versioned<S>>) {
    forall k :: k in table ==> table[k].version >= 1
  }

  /** Replace the document if the version is the expected one; `None` is a ConcurrencyError. */
  function CompareAndSet<K, S>(table: map<K, Versioned<S>>, k: K, state: S, expected: nat): Option<map<K, Versioned<S>>> {
    if VersionOf(table, k) != expected then None
    else Some(table[k := Versioned(state, expected + 1)])
  }

  class InMemoryVersionedStore<K(==), S> {
    var store: map<K, Versioned<S>>

    constructor ()
      ensures store == map[]
    {
      store := map[];
    }

    method Load(k: K) returns (found: Option<Versioned<S>>)
      ensures found == if k in store then Some(store[k]) else None
    {
      found := if k in store then Some(store[k]) else None;
    }

    method Save(k: K, state: S, expected: nat) returns (saved: bool)
      requires Numbered(store)
      modifies this
      ensures Numbered(store)
      ensures saved <==> CompareAndSet(old(store), k, state, expected).Some?
      ensures store == if saved then CompareAndSet(old(store), k, state, expected).value else old(store)
    {
      var actual := if k in store then store[k].version else 0;
      if actual != expected {
        return false;
      }
      store := store[k := Versioned(state, expected + 1)];
      return true;
    }
  }

  /** The SQL store: insert when version 0 is expected, otherwise update where the version matches. */
  class SqlVersionedStore<K(==), S> {
    var rows: map<K, Versioned<S>>

    constructor ()
      ensures rows == map[]
    {
      rows := map[];
    }

    /** `create`: false on a unique violation. */
    method Create(k: K, row: Versioned<S>) returns (created: bool)
      modifies this
      ensures created <==> k !in old(rows)
      ensures rows == if created then old(rows)[k := row] else old(rows)
    {
      created := k !in rows;
      if created {
        rows := rows[k := row];
      }
    }

    /** `updateMany ... where version = expected`: the number of rows changed. */
    method UpdateWhere(k: K, expected: nat, row: Versioned<S>) returns (count: nat)
      modifies this
      ensures count == if k in old(rows) && old(rows)[k].version == expected then 1 else 0
      ensures rows == if count == 1 then old(rows)[k := row] else old(rows)
    {
      count := 0;
      if k in rows && rows[k].version == expected {
        rows := rows[k := row];
        count := 1;
      }
    }

    /** The two-branch save is the same compare-and-set as the in-memory store's. */
    method Save(k: K, state: S, expected: nat) returns (saved: bool)
      requires Numbered(rows)
      modifies this
      ensures Numbered(rows)
      ensures saved <==> CompareAndSet(old(rows), k, state, expected).Some?
      ensures rows == if saved then CompareAndSet(old(rows), k, state, expected).value else old(rows)
    {
      if expected == 0 {
        saved := Create(k, Versioned(state, 1));
      } else {
        var count := UpdateWhere(k, expected, Versioned(state, expected + 1));
        saved := count != 0;
      }
    }
  }
}
