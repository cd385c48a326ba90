/** The outbox store and the relay that drains it. */
module Outbox {
  import opened Types
  import opened Seqs

  datatype OutboxEntry = OutboxEntry(id: nat, event: Event, createdAt: int, published: bool)

  type Entries = seq<OutboxEntry>

  /** Entry ids are the keys of a map. */
  predicate DistinctIds(entries: Entries) {
    forall i, j :: 0 <= i < j < |entries| ==> entries[i].id != entries[j].id
  }

  /** A map `set`: replace the entry with this id where it stands, or append. */
  function Put(entries: Entries, e: OutboxEntry): (r: Entries)
    requires DistinctIds(entries)
    ensures DistinctIds(r)
    ensures forall x :: x in r <==> x == e || (x in entries && x.id != e.id)
    ensures (forall x :: x in entries ==> x.id != e.id) ==> r == entries + [e]
    ensures (exists x :: x in entries && x.id == e.id) ==>
      |r| == |entries| && forall i :: 0 <= i < |r| ==> r[i] == if entries[i].id == e.id then e else entries[i]
  {
    if i :| 0 <= i < |entries| && entries[i].id == e.id then
      var r := entries[i := e];
      assert forall j :: 0 <= j < |entries| && j != i ==> r[j] == entries[j];
      assert r[i] == e;
      r
    else entries + [e]
  }

  function PutAll(entries: Entries, added: Entries): (r: Entries)
    requires DistinctIds(entries)
    ensures DistinctIds(r)
  {
    if added == [] then entries else Put(PutAll(entries, added[..|added| - 1]), added[|added| - 1])
  }

  /** New entries, with ids of their own, go to the end in order. */
  lemma {:induction false} PutNew(entries: Entries, added: Entries)
    requires DistinctIds(entries + added)
    ensures DistinctIds(entries) && PutAll(entries, added) == entries + added
  {
    assert forall i :: 0 <= i < |entries| ==> (entries + added)[i] == entries[i];
    if added == [] {
      assert entries + added == entries;
    } else {
      var front, last := added[..|added| - 1], added[|added| - 1];
      var all := entries + added;
      assert forall i :: 0 <= i < |entries + front| ==> (entries + front)[i] == all[i];
      assert all[|all| - 1] == last;
      PutNew(entries, front);
      forall x | x in entries + front ensures x.id != last.id {
        var i :| 0 <= i < |entries + front| && (entries + front)[i] == x;
        assert all[i] == x;
      }
      assert entries + added == entries + front + [last];
    }
  }

  const IsUnpublished: OutboxEntry -> bool := (e: OutboxEntry) => !e.published

  function NotIn(ids: set<nat>): OutboxEntry -> bool {
    (e: OutboxEntry) => e.id !in ids
  }

  // --- Oldest first ---

  function Insert(e: OutboxEntry, s: Entries): Entries {
    if s == [] || e.createdAt <= s[0].createdAt then [e] + s else [s[0]] + Insert(e, s[1..])
  }

  /** The stable sort by creation time. */
  function ByCreation(s: Entries): Entries {
    if s == [] then [] else Insert(s[0], ByCreation(s[1..]))
  }

  predicate Oldest(s: Entries) {
    forall i, j :: 0 <= i < j < |s| ==> s[i].createdAt <= s[j].createdAt
  }

  lemma {:induction false} InsertPermutes(e: OutboxEntry, s: Entries)
    ensures multiset(Insert(e, s)) == multiset{e} + multiset(s)
    ensures forall x :: x in Insert(e, s) <==> x == e || x in s
  {
    if s != [] && e.createdAt > s[0].createdAt {
      InsertPermutes(e, s[1..]);
      assert s == [s[0]] + s[1..];
    }
  }

  lemma {:induction false} InsertSorts(e: OutboxEntry, s: Entries)
    requires Oldest(s)
    ensures Oldest(Insert(e, s))
  {
    if s != [] && e.createdAt > s[0].createdAt {
      InsertSorts(e, s[1..]);
      InsertPermutes(e, s[1..]);
      var rest := Insert(e, s[1..]);
      forall i | 0 <= i < |rest| ensures s[0].createdAt <= rest[i].createdAt {
        assert rest[i] in rest;
      }
    }
  }

  lemma {:induction false} ByCreationSorts(s: Entries)
    ensures Oldest(ByCreation(s)) && multiset(ByCreation(s)) == multiset(s)
  {
    if s != [] {
      ByCreationSorts(s[1..]);
      InsertSorts(s[0], ByCreation(s[1..]));
      InsertPermutes(s[0], ByCreation(s[1..]));
      assert s == [s[0]] + s[1..];
      hide Insert, Oldest;
    }
  }

  lemma {:induction false} FilterInsert(p: OutboxEntry -> bool, e: OutboxEntry, s: Entries)
    requires Oldest(s)
    ensures Filter(p, Insert(e, s)) == if p(e) then Insert(e, Filter(p, s)) else Filter(p, s)
  {
    if s != [] {
      if e.createdAt > s[0].createdAt {
        FilterInsert(p, e, s[1..]);
      } else {
        var kept := Filter(p, s);
        if kept != [] {
          assert kept[0] in kept;
          var i :| 0 <= i < |s| && s[i] == kept[0];
        }
      }
    }
  }

  lemma {:induction false} FilterByCreation(p: OutboxEntry -> bool, s: Entries)
    ensures Filter(p, ByCreation(s)) == ByCreation(Filter(p, s))
  {
    if s != [] {
      ByCreationSorts(s[1..]);
      FilterInsert(p, s[0], ByCreation(s[1..]));
      FilterByCreation(p, s[1..]);
    }
  }

  /** The unpublished entries, oldest first: what a poll reads from. */
  function Waiting(entries: Entries): Entries {
    ByCreation(Filter(IsUnpublished, entries))
  }

  // --- Ties ---

  function CreatedAt(t: int): OutboxEntry -> bool {
    (e: OutboxEntry) => e.createdAt == t
  }

  function UnpublishedAt(t: int): OutboxEntry -> bool {
    (e: OutboxEntry) => !e.published && e.createdAt == t
  }

  /** Entries of one time are left as they stand. */
  lemma {:induction false} SortedTiesStay(s: Entries, t: int)
    requires forall e :: e in s ==> e.createdAt == t
    ensures ByCreation(s) == s
  {
    if s != [] {
      SortedTiesStay(s[1..], t);
    }
  }

  /** The sort is stable: entries of one time wait in the order in which they are stored. */
  lemma TiesKeepStoredOrder(entries: Entries, t: int)
    ensures Filter(CreatedAt(t), Waiting(entries)) == Filter(UnpublishedAt(t), entries)
  {
    var unpublished := Filter(IsUnpublished, entries);
    FilterByCreation(CreatedAt(t), unpublished);
    SortedTiesStay(Filter(CreatedAt(t), unpublished), t);
    FilterBoth(CreatedAt(t), IsUnpublished, UnpublishedAt(t), entries);
  }

  /** Two unpublished entries of one time: the one stored first waits before the other. */
  lemma StoredFirstWaitsFirst(entries: Entries, i: nat, j: nat) returns (a: nat, b: nat)
    requires i < j < |entries| && !entries[i].published && !entries[j].published
    requires entries[i].createdAt == entries[j].createdAt
    ensures a < b < |Waiting(entries)| && Waiting(entries)[a] == entries[i] && Waiting(entries)[b] == entries[j]
  {
    var t := entries[i].createdAt;
    FilterKeepsOrder(UnpublishedAt(t), entries, i, j);
    TiesKeepStoredOrder(entries, t);
    hide Waiting, Filter;
    var kept := Filter(UnpublishedAt(t), entries);
    var x, y :| 0 <= x < y < |kept| && kept[x] == entries[i] && kept[y] == entries[j];
    a, b := FilterOrderWas(CreatedAt(t), Waiting(entries), x, y);
  }

  /** Of the entries of one time, the first stored are in the batch, in that order. */
  ghost predicate TiesInOrder(batch: Entries, entries: Entries) {
    forall t: int :: Filter(CreatedAt(t), batch) <= Filter(UnpublishedAt(t), entries)
  }

  lemma BatchKeepsTies(entries: Entries, n: nat)
    ensures TiesInOrder(Take(Waiting(entries), n), entries)
  {
    hide Waiting, Filter;
    var waiting := Waiting(entries);
    var batch := Take(waiting, n);
    forall t: int ensures Filter(CreatedAt(t), batch) <= Filter(UnpublishedAt(t), entries) {
      TiesKeepStoredOrder(entries, t);
      assert waiting == batch + waiting[|batch|..];
      FilterAppend(CreatedAt(t), batch, waiting[|batch|..]);
    }
  }

  function Take(s: Entries, n: nat): Entries {
    if n <= |s| then s[..n] else s
  }

  function Marked(entries: Entries, ids: set<nat>): (r: Entries)
    ensures |r| == |entries|
    ensures forall i :: 0 <= i < |r| ==> r[i] == entries[i].(published := entries[i].published || entries[i].id in ids)
  {
    seq(|entries|, i requires 0 <= i < |entries| =>
      entries[i].(published := entries[i].published || entries[i].id in ids))
  }

  lemma {:induction false} MarkedUnpublished(entries: Entries, ids: set<nat>)
    ensures Filter(IsUnpublished, Marked(entries, ids)) == Filter(NotIn(ids), Filter(IsUnpublished, entries))
  {
    if entries != [] {
      MarkedUnpublished(entries[1..], ids);
      assert Marked(entries, ids)[1..] == Marked(entries[1..], ids);
    }
  }

  /** Marking removes exactly the marked entries from the waiting list and keeps the order. */
  lemma MarkingWaiting(entries: Entries, ids: set<nat>)
    ensures Waiting(Marked(entries, ids)) == Filter(NotIn(ids), Waiting(entries))
  {
    MarkedUnpublished(entries, ids);
    FilterByCreation(NotIn(ids), Filter(IsUnpublished, entries));
  }

  /** What a deletion leaves: unpublished entries, and published ones not old enough. */
  function KeptFrom(olderThan: Option<int>): OutboxEntry -> bool {
    (e: OutboxEntry) => !(e.published && (olderThan.None? || e.createdAt < olderThan.value))
  }

  lemma {:induction false} DistinctFilter(p: OutboxEntry -> bool, s: Entries)
    requires DistinctIds(s)
    ensures DistinctIds(Filter(p, s))
  {
    if s != [] {
      DistinctFilter(p, s[1..]);
      forall e | e in Filter(p, s[1..]) ensures e.id != s[0].id {
        var i :| 0 <= i < |s[1..]| && s[1..][i] == e;
        assert s[i + 1] == e;
      }
    }
  }

  /** A deletion leaves what waits as it waited. */
  lemma KeptWaiting(entries: Entries, olderThan: Option<int>)
    requires DistinctIds(entries)
    ensures DistinctIds(Filter(KeptFrom(olderThan), entries))
    ensures Waiting(Filter(KeptFrom(olderThan), entries)) == Waiting(entries)
  {
    DistinctFilter(KeptFrom(olderThan), entries);
    FilterWithin(IsUnpublished, KeptFrom(olderThan), entries);
  }

  class InMemoryOutboxStore {
    var entries: Entries

    constructor ()
      ensures entries == []
    {
      entries := [];
    }

    method Save(added: Entries)
      requires DistinctIds(entries)
      modifies this
      ensures DistinctIds(entries) && entries == PutAll(old(entries), added)
      ensures DistinctIds(old(entries) + added) ==> entries == old(entries) + added
    {
      for i := 0 to |added|
        invariant DistinctIds(entries) && entries == PutAll(old(entries), added[..i])
      {
        assert added[..i + 1][..i] == added[..i];
        entries := Put(entries, added[i]);
      }
      assert added[..|added|] == added;
      if DistinctIds(old(entries) + added) {
        PutNew(old(entries), added);
      }
    }

    method LoadUnpublished(batchSize: nat) returns (batch: Entries)
      ensures batch == Take(Waiting(entries), batchSize)
      ensures batch <= Waiting(entries) && |batch| == if batchSize <= |Waiting(entries)| then batchSize else |Waiting(entries)|
      ensures Oldest(Waiting(entries)) && multiset(Waiting(entries)) == multiset(Filter(IsUnpublished, entries))
      ensures TiesInOrder(batch, entries)
    {
      BatchKeepsTies(entries, batchSize);
      ByCreationSorts(Filter(IsUnpublished, entries));
      hide Oldest, TiesInOrder;
      var unpublished: Entries := [];
      for i := 0 to |entries|
        invariant unpublished == Filter(IsUnpublished, entries[..i])
      {
        assert entries[..i + 1] == entries[..i] + [entries[i]];
        FilterAppend(IsUnpublished, entries[..i], [entries[i]]);
        if !entries[i].published {
          unpublished := unpublished + [entries[i]];
        }
      }
      assert entries[..|entries|] == entries;
      var sorted := ByCreation(unpublished);
      batch := if batchSize <= |sorted| then sorted[..batchSize] else sorted;
    }

    method MarkPublished(ids: seq<nat>)
      modifies this
      ensures entries == Marked(old(entries), set id | id in ids)
    {
      for i := 0 to |ids|
        invariant entries == Marked(old(entries), set id | id in ids[..i])
      {
        assert ids[..i + 1] == ids[..i] + [ids[i]];
        var now, id := entries, ids[i];
        entries := seq(|now|, j requires 0 <= j < |now| => if now[j].id == id then now[j].(published := true) else now[j]);
      }
      assert ids[..|ids|] == ids;
    }

    method MarkPublishedByEventIds(eventIds: seq<nat>)
      modifies this
      ensures |entries| == |old(entries)|
      ensures forall i :: 0 <= i < |entries| ==> entries[i] == old(entries)[i].(published :=
        old(entries)[i].published || old(entries)[i].event.metadata.eventId in eventIds)
    {
      var i := 0;
      while i < |entries|
        invariant 0 <= i <= |entries| == |old(entries)|
        invariant forall j :: 0 <= j < i ==> entries[j] == old(entries)[j].(published :=
          old(entries)[j].published || old(entries)[j].event.metadata.eventId in eventIds)
        invariant forall j :: i <= j < |entries| ==> entries[j] == old(entries)[j]
      {
        if !entries[i].published && entries[i].event.metadata.eventId in eventIds {
          entries := entries[i := entries[i].(published := true)];
        }
        i := i + 1;
      }
    }

    /** Drops published entries, those created before `olderThan` if it is given; the rest stand as they stood. */
    method DeletePublished(olderThan: Option<int>)
      requires DistinctIds(entries)
      modifies this
      ensures DistinctIds(entries) && entries == Filter(KeptFrom(olderThan), old(entries))
      ensures Waiting(entries) == Waiting(old(entries))
      ensures forall x :: x in entries <==>
        x in old(entries) && !(x.published && (olderThan.None? || x.createdAt < olderThan.value))
    {
      ghost var before := entries;
      var kept: Entries := [];
      hide DistinctIds, Waiting;
      for i := 0 to |entries|
        invariant entries == before
        invariant kept == Filter(KeptFrom(olderThan), before[..i])
      {
        assert before[..i + 1] == before[..i] + [before[i]];
        FilterAppend(KeptFrom(olderThan), before[..i], [before[i]]);
        if !(entries[i].published && (olderThan.None? || entries[i].createdAt < olderThan.value)) {
          kept := kept + [entries[i]];
        }
      }
      assert before[..|before|] == before;
      KeptWaiting(before, olderThan);
      entries := kept;
    }
  }
}

module OutboxRelaying {
  import opened Types
  import opened Seqs
  import opened Outbox

  /** A bus whose `dispatch` rejects for a fixed set of entries and resolves for the others. */
  class Bus {
    var delivered: seq<Event>

    constructor ()
      ensures delivered == []
    {
      delivered := [];
    }
  }

  function Good(fails: set<nat>): OutboxEntry -> bool {
    (e: OutboxEntry) => e.id !in fails
  }

  function Failing(fails: set<nat>): OutboxEntry -> bool {
    (e: OutboxEntry) => e.id in fails
  }

  function GoodIds(batch: Entries, fails: set<nat>): set<nat> {
    set e | e in batch && e.id !in fails :: e.id
  }

  function EventsOf(batch: Entries): seq<Event> {
    seq(|batch|, i requires 0 <= i < |batch| => batch[i].event)
  }

  /** One poll: the dispatchable entries of the first batch leave the waiting list. */
  function Round(waiting: Entries, fails: set<nat>, n: nat): Entries {
    if waiting == [] || n == 0 then waiting
    else if waiting[0].id in fails then [waiting[0]] + Round(waiting[1..], fails, n - 1)
    else Round(waiting[1..], fails, n - 1)
  }

  /**
   * What draining leaves: every failing entry, and every other entry that has `budget` or
   * more failing ones before it, since those fill each batch.
   */
  function Remaining(waiting: Entries, fails: set<nat>, budget: nat): Entries {
    if waiting == [] || budget == 0 then waiting
    else if waiting[0].id in fails then [waiting[0]] + Remaining(waiting[1..], fails, budget - 1)
    else Remaining(waiting[1..], fails, budget)
  }

  lemma {:induction false} RoundKeepsRemaining(waiting: Entries, fails: set<nat>, n: nat, budget: nat)
    requires n <= budget
    ensures Remaining(Round(waiting, fails, n), fails, budget) == Remaining(waiting, fails, budget)
    decreases waiting
  {
    if waiting != [] && n > 0 {
      if waiting[0].id in fails {
        RoundKeepsRemaining(waiting[1..], fails, n - 1, budget - 1);
        assert Round(waiting, fails, n)[1..] == Round(waiting[1..], fails, n - 1);
      } else {
        RoundKeepsRemaining(waiting[1..], fails, n - 1, budget);
      }
    }
  }

  lemma {:induction false} StuckRemains(waiting: Entries, fails: set<nat>, budget: nat)
    requires forall e :: e in Take(waiting, budget) ==> e.id in fails
    ensures Remaining(waiting, fails, budget) == waiting == Round(waiting, fails, budget)
    decreases waiting
  {
    if waiting != [] && budget > 0 {
      assert waiting[0] in Take(waiting, budget);
      forall e | e in Take(waiting[1..], budget - 1) ensures e.id in fails {
        assert e in Take(waiting, budget);
      }
      StuckRemains(waiting[1..], fails, budget - 1);
    }
  }

  /** Draining leaves exactly the failing entries iff no other entry has a whole batch of them before it. */
  lemma {:induction false} LeavesExactlyFailingIff(waiting: Entries, fails: set<nat>, batchSize: nat)
    ensures Remaining(waiting, fails, batchSize) == Filter(Failing(fails), waiting)
      <==> forall i :: 0 <= i < |waiting| && waiting[i].id !in fails ==> |Filter(Failing(fails), waiting[..i])| < batchSize
    decreases waiting
  {
    if waiting != [] {
      var rest := waiting[1..];
      forall i | 0 < i < |waiting|
        ensures |Filter(Failing(fails), waiting[..i])|
             == |Filter(Failing(fails), rest[..i - 1])| + if waiting[0].id in fails then 1 else 0
      {
        assert waiting[..i][1..] == rest[..i - 1];
      }
      assert forall i :: 0 <= i < |rest| ==> rest[i] == waiting[i + 1];
      if batchSize == 0 {
        AllKeptIff(waiting, fails);
      } else {
        LeavesExactlyFailingIff(rest, fails, if waiting[0].id in fails then batchSize - 1 else batchSize);
        var left, failing := Remaining(waiting, fails, batchSize), Filter(Failing(fails), waiting);
        if waiting[0].id in fails {
          assert left[1..] == Remaining(rest, fails, batchSize - 1) && failing[1..] == Filter(Failing(fails), rest);
        }
        assert waiting[..0] == [];
        assert (forall i :: 0 <= i < |waiting| && waiting[i].id !in fails ==> |Filter(Failing(fails), waiting[..i])| < batchSize)
          <==> (forall i :: 0 <= i < |rest| && rest[i].id !in fails ==>
            |Filter(Failing(fails), rest[..i])| < if waiting[0].id in fails then batchSize - 1 else batchSize) by {
          assert forall i :: 0 < i < |waiting| ==> rest[i - 1] == waiting[i];
        }
      }
    }
  }

  lemma {:induction false} AllKeptIff(waiting: Entries, fails: set<nat>)
    ensures waiting == Filter(Failing(fails), waiting) <==> forall i :: 0 <= i < |waiting| ==> waiting[i].id in fails
  {
    if waiting == Filter(Failing(fails), waiting) {
      assert forall i :: 0 <= i < |waiting| ==> waiting[i] in Filter(Failing(fails), waiting);
    } else if forall i :: 0 <= i < |waiting| ==> waiting[i].id in fails {
      FilterAll(Failing(fails), waiting);
    }
  }

  /** Fewer failing entries than a batch holds is enough. */
  lemma {:induction false} FewFailuresDrainTheRest(waiting: Entries, fails: set<nat>, batchSize: nat)
    requires |Filter(Failing(fails), waiting)| < batchSize
    ensures Remaining(waiting, fails, batchSize) == Filter(Failing(fails), waiting)
  {
    forall i | 0 <= i < |waiting| ensures |Filter(Failing(fails), waiting[..i])| < batchSize {
      assert waiting == waiting[..i] + waiting[i..];
      FilterAppend(Failing(fails), waiting[..i], waiting[i..]);
    }
    LeavesExactlyFailingIff(waiting, fails, batchSize);
  }

  /** The first entry of a batch is good or not, and the others do not share its id. */
  lemma FirstOfBatch(waiting: Entries, fails: set<nat>, n: nat)
    requires DistinctIds(waiting) && waiting != [] && n > 0
    ensures waiting[0].id in GoodIds(Take(waiting, n), fails) <==> waiting[0].id !in fails
    ensures forall e :: e in waiting[1..] ==>
      (e.id in GoodIds(Take(waiting, n), fails) <==> e.id in GoodIds(Take(waiting[1..], n - 1), fails))
  {
    var rest := waiting[1..];
    assert Take(waiting, n) == [waiting[0]] + Take(rest, n - 1);
    assert waiting[0] in Take(waiting, n);
    forall e | e in rest ensures e.id != waiting[0].id {
      var i :| 0 <= i < |rest| && rest[i] == e;
      assert waiting[0].id != waiting[i + 1].id;
    }
  }

  /** Marking the good entries of the first batch is one round. */
  lemma {:induction false} RoundIsFilter(waiting: Entries, fails: set<nat>, n: nat)
    requires DistinctIds(waiting)
    ensures Filter(NotIn(GoodIds(Take(waiting, n), fails)), waiting) == Round(waiting, fails, n)
    decreases waiting
  {
    hide *;
    var ids := GoodIds(Take(waiting, n), fails);
    if waiting == [] || n == 0 {
      EmptyRound(waiting, fails, n);
    } else {
      var rest := waiting[1..];
      var ids' := GoodIds(Take(rest, n - 1), fails);
      DistinctTail(waiting);
      RoundIsFilter(rest, fails, n - 1);
      FirstOfBatch(waiting, fails, n);
      SameFilterIds(ids, ids', rest);
      FirstKept(waiting, fails, n, ids);
    }
  }

  lemma DistinctTail(s: Entries)
    requires DistinctIds(s) && s != []
    ensures DistinctIds(s[1..])
  {
  }

  lemma EmptyRound(waiting: Entries, fails: set<nat>, n: nat)
    requires waiting == [] || n == 0
    ensures Filter(NotIn(GoodIds(Take(waiting, n), fails)), waiting) == Round(waiting, fails, n)
  {
    assert GoodIds(Take(waiting, n), fails) == {};
    FilterAll(NotIn({}), waiting);
  }

  lemma SameFilterIds(ids: set<nat>, ids': set<nat>, s: Entries)
    requires forall e :: e in s ==> (e.id in ids <==> e.id in ids')
    ensures Filter(NotIn(ids), s) == Filter(NotIn(ids'), s)
  {
    SameFilter(NotIn(ids), NotIn(ids'), s);
  }

  lemma FirstKept(waiting: Entries, fails: set<nat>, n: nat, ids: set<nat>)
    requires waiting != [] && n > 0 && (waiting[0].id in ids <==> waiting[0].id !in fails)
    requires Filter(NotIn(ids), waiting[1..]) == Round(waiting[1..], fails, n - 1)
    ensures Filter(NotIn(ids), waiting) == Round(waiting, fails, n)
  {
  }

  lemma {:induction false} SameFilter(p: OutboxEntry -> bool, q: OutboxEntry -> bool, s: Entries)
    requires forall e :: e in s ==> p(e) == q(e)
    ensures Filter(p, s) == Filter(q, s)
  {
    if s != [] {
      SameFilter(p, q, s[1..]);
    }
  }

  lemma {:induction false} RoundShrinks(waiting: Entries, fails: set<nat>, n: nat)
    ensures |Round(waiting, fails, n)| + |Filter(Good(fails), Take(waiting, n))| == |waiting|
    decreases waiting
  {
    if waiting != [] && n > 0 {
      RoundShrinks(waiting[1..], fails, n - 1);
      assert Take(waiting, n)[1..] == Take(waiting[1..], n - 1);
    } else {
      assert Take(waiting, n) == [];
    }
  }

  lemma FirstOfRound(waiting: Entries, fails: set<nat>, n: nat)
    requires waiting != [] && n > 0
    ensures var sent, left := Filter(Good(fails), Take(waiting, n)), Round(waiting, fails, n);
      var sent', left' := Filter(Good(fails), Take(waiting[1..], n - 1)), Round(waiting[1..], fails, n - 1);
      if waiting[0].id in fails then sent == sent' && left == [waiting[0]] + left'
      else sent == [waiting[0]] + sent' && left == left'
  {
    assert Take(waiting, n) == [waiting[0]] + Take(waiting[1..], n - 1);
  }

  /** `a` and `b` together are the entries of `whole`, each as often. */
  ghost predicate Parts(a: Entries, b: Entries, whole: Entries) {
    multiset(a) + multiset(b) == multiset(whole)
  }

  lemma PartsCons(x: OutboxEntry, a: Entries, b: Entries, rest: Entries)
    requires Parts(a, b, rest)
    ensures Parts([x] + a, b, [x] + rest) && Parts(a, [x] + b, [x] + rest)
  {
    assert multiset([x] + a) == multiset{x} + multiset(a);
    assert multiset([x] + b) == multiset{x} + multiset(b);
    assert multiset([x] + rest) == multiset{x} + multiset(rest);
  }

  lemma PartsMore(sent: Entries, round: Entries, left: Entries, before: Entries, start: Entries)
    requires Parts(sent, before, start) && Parts(round, left, before)
    ensures Parts(sent + round, left, start) && EventsOf(sent + round) == EventsOf(sent) + EventsOf(round)
  {
    assert multiset(sent + round) == multiset(sent) + multiset(round);
  }

  lemma NoRound(waiting: Entries, fails: set<nat>, n: nat)
    requires waiting == [] || n == 0
    ensures Parts(Filter(Good(fails), Take(waiting, n)), Round(waiting, fails, n), waiting)
  {
    assert Take(waiting, n) == [];
  }

  /** What a round dispatches and what it leaves are together what was waiting. */
  lemma {:induction false} RoundParts(waiting: Entries, fails: set<nat>, n: nat)
    ensures Parts(Filter(Good(fails), Take(waiting, n)), Round(waiting, fails, n), waiting)
    decreases |waiting|
  {
    hide *;
    if waiting != [] && n > 0 {
      RoundParts(waiting[1..], fails, n - 1);
      FirstOfRound(waiting, fails, n);
      PartsCons(waiting[0], Filter(Good(fails), Take(waiting[1..], n - 1)), Round(waiting[1..], fails, n - 1), waiting[1..]);
      assert waiting == [waiting[0]] + waiting[1..];
    } else {
      NoRound(waiting, fails, n);
    }
  }

  lemma NothingGood(waiting: Entries, fails: set<nat>, n: nat)
    requires Filter(Good(fails), Take(waiting, n)) == []
    ensures forall e :: e in Take(waiting, n) ==> e.id in fails
  {
    var batch := Take(waiting, n);
    assert forall e :: e in batch ==> (e in Filter(Good(fails), batch) <==> e.id !in fails);
  }

  lemma {:induction false} DistinctInsert(e: OutboxEntry, s: Entries)
    requires DistinctIds(s) && forall x :: x in s ==> x.id != e.id
    ensures DistinctIds(Insert(e, s)) && forall x :: x in Insert(e, s) <==> x == e || x in s
  {
    if s != [] && e.createdAt > s[0].createdAt {
      DistinctInsert(e, s[1..]);
      forall x | x in Insert(e, s[1..]) ensures x.id != s[0].id {
        if x != e {
          var i :| 0 <= i < |s[1..]| && s[1..][i] == x;
          assert s[i + 1] == x;
        }
      }
    }
  }

  lemma {:induction false} DistinctByCreation(s: Entries)
    requires DistinctIds(s)
    ensures DistinctIds(ByCreation(s)) && forall x :: x in ByCreation(s) <==> x in s
  {
    if s != [] {
      DistinctByCreation(s[1..]);
      assert s == [s[0]] + s[1..];
      forall x | x in s[1..] ensures x.id != s[0].id {
        var i :| 0 <= i < |s[1..]| && s[1..][i] == x;
        assert s[i + 1] == x;
      }
      DistinctInsert(s[0], ByCreation(s[1..]));
    }
  }

  lemma WaitingDistinct(entries: Entries)
    requires DistinctIds(entries)
    ensures DistinctIds(Waiting(entries))
  {
    DistinctFilter(IsUnpublished, entries);
    DistinctByCreation(Filter(IsUnpublished, entries));
  }

  /** Marking what a poll dispatched is one round on the waiting list. */
  lemma PollIsRound(entries: Entries, fails: set<nat>, n: nat)
    requires DistinctIds(entries)
    ensures Waiting(Marked(entries, GoodIds(Take(Waiting(entries), n), fails))) == Round(Waiting(entries), fails, n)
  {
    WaitingDistinct(entries);
    MarkingWaiting(entries, GoodIds(Take(Waiting(entries), n), fails));
    RoundIsFilter(Waiting(entries), fails, n);
  }

  lemma MarkOneMore(entries: Entries, ids: set<nat>, id: nat)
    ensures Marked(Marked(entries, ids), {id}) == Marked(entries, ids + {id})
  {
  }

  lemma OneMoreGood(batch: Entries, fails: set<nat>, i: nat)
    requires i < |batch|
    ensures GoodIds(batch[..i + 1], fails) == GoodIds(batch[..i], fails) + if batch[i].id in fails then {} else {batch[i].id}
    ensures Filter(Good(fails), batch[..i + 1])
         == Filter(Good(fails), batch[..i]) + if batch[i].id in fails then [] else [batch[i]]
  {
    assert batch[..i + 1] == batch[..i] + [batch[i]];
    FilterAppend(Good(fails), batch[..i], [batch[i]]);
  }

  lemma DispatchNone(batch: Entries, fails: set<nat>)
    ensures Filter(Good(fails), batch[..0]) == [] && GoodIds(batch[..0], fails) == {} && EventsOf([]) == []
  {
  }

  lemma EventsOneMore(sent: Entries, entry: OutboxEntry)
    ensures EventsOf(sent + [entry]) == EventsOf(sent) + [entry.event]
  {
  }

  class OutboxRelay {
    const store: InMemoryOutboxStore
    const bus: Bus
    const batchSize: nat
    var polling: bool
    var processing: bool
    var drained: bool

    constructor (store: InMemoryOutboxStore, bus: Bus, batchSize: nat)
      ensures this.store == store && this.bus == bus && this.batchSize == batchSize
      ensures !polling && !processing && !drained
    {
      this.store, this.bus, this.batchSize := store, bus, batchSize;
      polling, processing, drained := false, false, false;
    }

    /**
     * One poll: dispatch the oldest batch, marking each entry whose dispatch resolves. A
     * poll already in flight makes it a no-op.
     */
    method ProcessOnce(fails: set<nat>) returns (dispatched: nat)
      requires DistinctIds(store.entries)
      modifies this`processing, store, bus
      ensures processing == old(processing) && DistinctIds(store.entries)
      ensures old(processing) ==> dispatched == 0 && store.entries == old(store.entries) && bus.delivered == old(bus.delivered)
      ensures !old(processing) ==>
        var batch := Take(Waiting(old(store.entries)), batchSize);
        var sent := Filter(Good(fails), batch);
        && TiesInOrder(batch, old(store.entries))
        && dispatched == |sent|
        && bus.delivered == old(bus.delivered) + EventsOf(sent)
        && store.entries == Marked(old(store.entries), GoodIds(batch, fails))
        && Waiting(store.entries) == Round(Waiting(old(store.entries)), fails, batchSize)
    {
      if processing {
        return 0;
      }
      processing := true;
      var entries := store.LoadUnpublished(batchSize);
      PollIsRound(store.entries, fails, batchSize);
      dispatched := DispatchAll(entries, fails);
      processing := false;
    }

    /** Dispatches each entry in turn and marks it published if the dispatch resolves. */
    method DispatchAll(batch: Entries, fails: set<nat>) returns (dispatched: nat)
      modifies store, bus
      ensures dispatched == |Filter(Good(fails), batch)|
      ensures bus.delivered == old(bus.delivered) + EventsOf(Filter(Good(fails), batch))
      ensures store.entries == Marked(old(store.entries), GoodIds(batch, fails))
    {
      ghost var before := store.entries;
      assert Marked(before, {}) == before;
      DispatchNone(batch, fails);
      hide Marked, GoodIds, Filter;
      dispatched := 0;
      for i := 0 to |batch|
        invariant dispatched == |Filter(Good(fails), batch[..i])|
        invariant bus.delivered == old(bus.delivered) + EventsOf(Filter(Good(fails), batch[..i]))
        invariant store.entries == Marked(before, GoodIds(batch[..i], fails))
      {
        var entry := batch[i];
        OneMoreGood(batch, fails, i);
        if entry.id !in fails {
          EventsOneMore(Filter(Good(fails), batch[..i]), entry);
          MarkOneMore(before, GoodIds(batch[..i], fails), entry.id);
          bus.delivered := bus.delivered + [entry.event];
          store.MarkPublished([entry.id]);
          assert (set id | id in [entry.id]) == {entry.id};
          dispatched := dispatched + 1;
        }
      }
      assert batch[..|batch|] == batch;
    }

    /**
     * Stops polling and polls until a round dispatches nothing. It terminates, leaves
     * unpublished exactly `Remaining` of what was waiting, and has delivered exactly the
     * entries that no longer wait, `sent`, each once.
     */
    method Drain(fails: set<nat>) returns (ghost sent: Entries)
      requires DistinctIds(store.entries) && !processing
      modifies this, store, bus
      ensures drained && DistinctIds(store.entries)
      ensures old(drained) ==> store.entries == old(store.entries) && sent == []
      ensures !old(drained) ==>
        && !polling
        && Waiting(store.entries) == Remaining(Waiting(old(store.entries)), fails, batchSize)
      ensures bus.delivered == old(bus.delivered) + EventsOf(sent)
      ensures Parts(sent, Waiting(store.entries), Waiting(old(store.entries)))
    {
      sent := [];
      assert EventsOf([]) == [];
      if drained {
        return;
      }
      drained := true;
      polling := false;
      ghost var start, delivered := Waiting(store.entries), bus.delivered;
      var processed;
      processed, sent := PollRound(fails, start, delivered, []);
      while processed > 0
        invariant drained && !polling && !processing && OnTheWay(fails, start, delivered, sent)
        invariant processed == 0 ==> Waiting(store.entries) == Remaining(start, fails, batchSize)
        decreases |Waiting(store.entries)| + if processed > 0 then 1 else 0
      {
        processed, sent := PollRound(fails, start, delivered, sent);
      }
    }

    /** Part of a drain is done: `sent` is delivered and the rest waits, with the same end ahead. */
    ghost predicate OnTheWay(fails: set<nat>, start: Entries, delivered: seq<Event>, sent: Entries)
      reads this, store, bus
    {
      && DistinctIds(store.entries)
      && Remaining(Waiting(store.entries), fails, batchSize) == Remaining(start, fails, batchSize)
      && bus.delivered == delivered + EventsOf(sent)
      && Parts(sent, Waiting(store.entries), start)
    }

    /** A poll keeps what draining will leave, and one that dispatches nothing has reached it. */
    method PollRound(fails: set<nat>, ghost start: Entries, ghost delivered: seq<Event>, ghost sent: Entries)
      returns (processed: nat, ghost sent': Entries)
      requires !processing && OnTheWay(fails, start, delivered, sent)
      modifies this`processing, store, bus
      ensures !processing && OnTheWay(fails, start, delivered, sent')
      ensures processed == 0 ==> Waiting(store.entries) == Remaining(start, fails, batchSize)
      ensures |Waiting(store.entries)| + processed == |Waiting(old(store.entries))|
    {
      hide Waiting, Filter, EventsOf, Round, Take, Parts, Remaining, Marked, DistinctIds, GoodIds;
      ghost var waiting := Waiting(store.entries);
      ghost var round := Filter(Good(fails), Take(waiting, batchSize));
      processed := ProcessOnce(fails);
      RoundKeepsRemaining(waiting, fails, batchSize, batchSize);
      RoundShrinks(waiting, fails, batchSize);
      RoundParts(waiting, fails, batchSize);
      PartsMore(sent, round, Waiting(store.entries), waiting, start);
      sent' := sent + round;
      if processed == 0 {
        NothingGood(waiting, fails, batchSize);
        StuckRemains(waiting, fails, batchSize);
      }
    }
  }
}
