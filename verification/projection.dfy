/**
 * Projections: views reduced from events, live or by replay
 * (`packages/engine/src/domain.ts`, `packages/engine/src/projection-rebuild.ts`).
 */
module Projections {
  import opened Types
  import opened Seqs

  /** `None` is an id extractor that returned null or undefined. */
  type ViewId = Option<string>
  type ViewMap = map<ViewId, View>

  /** A reducer returns the next view, or `None` for the `DeleteView` sentinel. */
  datatype Handler = Handler(id: Event -> ViewId, reduce: (Event, View) -> Option<View>)

  datatype Projection = Projection(initial: View, on: map<EventName, Handler>)

  function Lookup(views: ViewMap, id: ViewId): Option<View> {
    if id in views then Some(views[id]) else None
  }

  /** One reducer call on the view stored for an id, if any. */
  function Reduce(p: Projection, e: Event, current: Option<View>): Option<View>
    requires e.name in p.on
  {
    p.on[e.name].reduce(e, if current.Some? then current.value else p.initial)
  }

  function Store(views: ViewMap, id: ViewId, next: Option<View>): (r: ViewMap)
    ensures Lookup(r, id) == next
    ensures forall other :: other != id ==> Lookup(r, other) == Lookup(views, other)
  {
    match next
    case None => map other | other in views && other != id :: views[other]
    case Some(v) => views[id := v]
  }

  /** Load, reduce, then save or delete: what one delivered event does to the view store. */
  function Deliver(p: Projection, views: ViewMap, e: Event): ViewMap {
    if e.name !in p.on then views
    else
      var id := p.on[e.name].id(e);
      Store(views, id, Reduce(p, e, Lookup(views, id)))
  }

  /** The view a handler is shown: the stored one, or the initial one if none is stored. */
  function Shown(p: Projection, views: ViewMap, id: ViewId): View {
    if id in views then views[id] else p.initial
  }

  /**
   * One delivery, by its handler: a reducer that answers with the delete sentinel leaves no
   * view under the id, any other answer is stored there, and no other view changes.
   */
  lemma DeliverySavesOrDeletes(p: Projection, views: ViewMap, e: Event)
    requires e.name in p.on
    ensures var id, after := p.on[e.name].id(e), Deliver(p, views, e);
      && match p.on[e.name].reduce(e, Shown(p, views, id)) {
           case None => id !in after
           case Some(w) => id in after && after[id] == w
         }
      && (forall other :: other != id ==> (other in after <==> other in views) && (other in views ==> after[other] == views[other]))
  {
    var id, after := p.on[e.name].id(e), Deliver(p, views, e);
    assert Lookup(after, id) == p.on[e.name].reduce(e, Shown(p, views, id));
    forall other | other != id ensures Lookup(after, other) == Lookup(views, other) {
    }
  }

  /** The view store after delivering `events` in order. */
  function Project(p: Projection, views: ViewMap, events: seq<Event>): ViewMap {
    if events == [] then views
    else Deliver(p, Project(p, views, events[..|events| - 1]), events[|events| - 1])
  }

  lemma {:induction false} ProjectAppend(p: Projection, views: ViewMap, a: seq<Event>, b: seq<Event>)
    ensures Project(p, views, a + b) == Project(p, Project(p, views, a), b)
  {
    if b == [] {
      assert a + b == a;
    } else {
      var front := b[..|b| - 1];
      assert (a + b)[..|a + b| - 1] == a + front;
      ProjectAppend(p, views, a, front);
    }
  }

  // --- What a view is: the fold of the events routed to it, and of nothing else ---

  predicate Routed(p: Projection, id: ViewId, e: Event) {
    e.name in p.on && p.on[e.name].id(e) == id
  }

  function RoutedTo(p: Projection, id: ViewId): Event -> bool {
    (e: Event) => Routed(p, id, e)
  }

  function OfStream(k: Key): Event -> bool {
    (e: Event) => e.metadata.aggregate == k
  }

  predicate Handled(p: Projection, e: Event) {
    e.name in p.on
  }

  function HandledBy(p: Projection): Event -> bool {
    (e: Event) => Handled(p, e)
  }

  /** Events a projection does not handle leave its store alone. */
  lemma {:induction false} ProjectHandled(p: Projection, views: ViewMap, events: seq<Event>)
    ensures Project(p, views, events) == Project(p, views, Filter(HandledBy(p), events))
  {
    hide *;
    if events == [] {
      NothingHandled(p, views);
    } else {
      var front, last := events[..|events| - 1], events[|events| - 1];
      ProjectHandled(p, views, front);
      assert events == front + [last];
      FilterAppend(HandledBy(p), front, [last]);
      HandledAlone(p, Project(p, views, front), last);
      ProjectStep(p, views, front, last);
      var kept := Filter(HandledBy(p), front);
      ProjectStep(p, views, kept, last);
      assert kept + [] == kept;
    }
  }

  lemma NothingHandled(p: Projection, views: ViewMap)
    ensures Filter(HandledBy(p), []) == [] && Project(p, views, []) == views
  {
  }

  lemma ProjectStep(p: Projection, views: ViewMap, front: seq<Event>, last: Event)
    ensures Project(p, views, front + [last]) == Deliver(p, Project(p, views, front), last)
  {
    assert (front + [last])[..|front|] == front;
  }

  lemma HandledAlone(p: Projection, views: ViewMap, e: Event)
    ensures Filter(HandledBy(p), [e]) == [e] || (Filter(HandledBy(p), [e]) == [] && Deliver(p, views, e) == views)
    ensures !Handled(p, e) ==> Deliver(p, views, e) == views
  {
    if Handled(p, e) {
      FilterAll(HandledBy(p), [e]);
    } else {
      FilterNone(HandledBy(p), [e]);
    }
  }

  /** The reference meaning of one view: its own events reduced in order. */
  function ViewFold(p: Projection, events: seq<Event>): Option<View>
    requires forall e :: e in events ==> e.name in p.on
  {
    if events == [] then None
    else
      assert events[|events| - 1] in events;
      Reduce(p, events[|events| - 1], ViewFold(p, events[..|events| - 1]))
  }

  // --- The same, told without the fold ---

  /**
   * A reducer that answers `deletes` events with the delete sentinel and records every
   * other event on top of what the view had recorded.
   */
  ghost predicate RecordsEvents(p: Projection, history: View -> seq<Event>, deletes: Event -> bool) {
    && history(p.initial) == []
    && forall e: Event, v: View :: e.name in p.on ==>
         var next := p.on[e.name].reduce(e, v);
         && (next.None? <==> deletes(e))
         && (next.Some? ==> history(next.value) == history(v) + [e])
  }

  const NoEvent: Event -> bool := (e: Event) => false

  /** The events after the last deletion. */
  function SinceDeletion(deletes: Event -> bool, events: seq<Event>): seq<Event> {
    if events == [] || deletes(events[|events| - 1]) then []
    else SinceDeletion(deletes, events[..|events| - 1]) + [events[|events| - 1]]
  }

  /** `SinceDeletion` is the longest ending without a deletion. */
  lemma {:induction false} SinceDeletionIs(deletes: Event -> bool, events: seq<Event>)
    ensures var since := SinceDeletion(deletes, events);
      var n := |events| - |since|;
      && 0 <= n && since == events[n..]
      && (n > 0 ==> deletes(events[n - 1]))
      && forall e :: e in since ==> !deletes(e)
  {
    if events != [] && !deletes(events[|events| - 1]) {
      SinceDeletionIs(deletes, events[..|events| - 1]);
    }
  }

  /** The view is absent exactly if nothing came after the last deletion, and otherwise has recorded just that. */
  ghost predicate Shows(history: View -> seq<Event>, deletes: Event -> bool, view: Option<View>, routed: seq<Event>) {
    && (view.None? <==> routed == [] || deletes(routed[|routed| - 1]))
    && (view.Some? ==> history(view.value) == SinceDeletion(deletes, routed))
  }

  lemma {:induction false} FoldShows(p: Projection, history: View -> seq<Event>, deletes: Event -> bool, routed: seq<Event>)
    requires RecordsEvents(p, history, deletes) && forall e :: e in routed ==> e.name in p.on
    ensures Shows(history, deletes, ViewFold(p, routed), routed)
  {
    if routed != [] {
      var front, last := routed[..|routed| - 1], routed[|routed| - 1];
      FoldShows(p, history, deletes, front);
      assert last in routed;
      var before := ViewFold(p, front);
      assert (if before.Some? then history(before.value) else history(p.initial)) == SinceDeletion(deletes, front);
    }
  }

  /**
   * Each stored view is the fold of its own events; a view with no events is absent. For a
   * reducer that records events and deletes on some, the view is absent exactly if its last
   * event deletes, and otherwise has recorded its events since the last deletion.
   */
  lemma ViewIsFoldOfItsEvents(p: Projection, events: seq<Event>, id: ViewId)
    ensures Lookup(Project(p, map[], events), id) == ViewFold(p, Filter(RoutedTo(p, id), events))
    ensures forall history, deletes :: RecordsEvents(p, history, deletes) ==>
      Shows(history, deletes, Lookup(Project(p, map[], events), id), Filter(RoutedTo(p, id), events))
  {
    StoredIsFold(p, events, id);
    hide RecordsEvents, Shows, Project, ViewFold;
    var routed := Filter(RoutedTo(p, id), events);
    forall history, deletes | RecordsEvents(p, history, deletes) ensures Shows(history, deletes, ViewFold(p, routed), routed) {
      FoldShows(p, history, deletes, routed);
    }
  }

  lemma {:induction false} StoredIsFold(p: Projection, events: seq<Event>, id: ViewId)
    ensures Lookup(Project(p, map[], events), id) == ViewFold(p, Filter(RoutedTo(p, id), events))
  {
    if events != [] {
      var front, last := events[..|events| - 1], events[|events| - 1];
      StoredIsFold(p, front, id);
      assert events == front + [last];
      FilterAppend(RoutedTo(p, id), front, [last]);
      var kept := Filter(RoutedTo(p, id), front);
      if Routed(p, id, last) {
        assert Filter(RoutedTo(p, id), [last]) == [last] + Filter(RoutedTo(p, id), []) == [last];
        assert (kept + [last])[..|kept|] == kept;
      } else {
        assert Filter(RoutedTo(p, id), [last]) == Filter(RoutedTo(p, id), []) == [];
        assert kept + [] == kept;
      }
    }
  }

  /** Every view is fed by one stream: `feed` names it. */
  ghost predicate SingleFeed(p: Projection, feed: ViewId -> Key, events: seq<Event>) {
    forall e :: e in events && e.name in p.on ==> feed(p.on[e.name].id(e)) == e.metadata.aggregate
  }

  /** Two deliveries of the same streams, each stream in its own order. */
  ghost predicate SameStreams(a: seq<Event>, b: seq<Event>) {
    forall k: Key :: Filter(OfStream(k), a) == Filter(OfStream(k), b)
  }

  /**
   * When each view is fed by one stream, only per-stream order matters: two deliveries
   * that agree on every stream leave the same view store, deletions and re-creations
   * included.
   */
  lemma DeliveryOrderIrrelevant(p: Projection, feed: ViewId -> Key, a: seq<Event>, b: seq<Event>)
    requires SingleFeed(p, feed, a) && SingleFeed(p, feed, b) && SameStreams(a, b)
    ensures Project(p, map[], a) == Project(p, map[], b)
  {
    var va, vb := Project(p, map[], a), Project(p, map[], b);
    forall id ensures Lookup(va, id) == Lookup(vb, id) {
      ViewIsFoldOfItsEvents(p, a, id);
      ViewIsFoldOfItsEvents(p, b, id);
      FilterWithin(RoutedTo(p, id), OfStream(feed(id)), a);
      FilterWithin(RoutedTo(p, id), OfStream(feed(id)), b);
    }
    assert forall id :: id in va ==> Lookup(va, id).Some?;
    assert forall id :: id in vb ==> Lookup(vb, id).Some?;
    assert forall id :: id in va <==> id in vb;
    assert forall id :: id in va ==> va[id] == Lookup(va, id).value == Lookup(vb, id).value == vb[id];
  }

  /** With two streams feeding one view, delivery order can show: the feed condition is needed. */
  lemma SharedViewDependsOnOrder(initial: View, x: View, y: View, e: Event, f: Event)
    returns (p: Projection)
    requires x != y && e.metadata.aggregate != f.metadata.aggregate && e.name == f.name
    ensures SameStreams([e, f], [f, e])
    ensures Project(p, map[], [e, f]) != Project(p, map[], [f, e])
  {
    var last := Handler((ev: Event) => None, (ev: Event, v: View) => Some(if ev == e then x else y));
    p := Projection(initial, map[e.name := last]);
    forall k: Key ensures Filter(OfStream(k), [e, f]) == Filter(OfStream(k), [f, e]) {
      FilterAppend(OfStream(k), [e], [f]);
      FilterAppend(OfStream(k), [f], [e]);
      assert [e] + [f] == [e, f] && [f] + [e] == [f, e];
      assert Filter(OfStream(k), []) == [];
    }
    ProjectAppend(p, map[], [e], [f]);
    ProjectAppend(p, map[], [f], [e]);
    assert [e] + [f] == [e, f] && [f] + [e] == [f, e];
    assert Lookup(Project(p, map[], [e, f]), None) == Some(y);
    assert Lookup(Project(p, map[], [f, e]), None) == Some(x);
  }
}

/** Rebuilding a projection by replaying the event log into an emptied view store. */
module ProjectionRebuild {
  import opened Types
  import opened Seqs
  import opened Upcaster
  import opened Projections

  /** A listener registered on the event bus, by identity. */
  type Listener = nat

  datatype RebuildResult =
    | Rebuilt(eventsRead: nat, eventsApplied: nat, viewsDeleted: nat)
    | MissingViewId(name: EventName)
    | CannotDetach

  /** The upcaster map of each aggregate, by aggregate name. */
  type AggregateUpcasters = map<string, UpcasterMap>

  function UpcastOne(e: Event, upcasters: AggregateUpcasters): Event
  {
    if e.metadata.aggregate.name in upcasters then Upcast(e, upcasters[e.metadata.aggregate.name]) else e
  }

  function UpcastLog(log: seq<Event>, upcasters: AggregateUpcasters): (r: seq<Event>)
    ensures |r| == |log|
    ensures forall i :: 0 <= i < |r| ==> r[i] == UpcastOne(log[i], upcasters)
  {
    seq(|log|, i requires 0 <= i < |log| => UpcastOne(log[i], upcasters))
  }

  /** The projection handles `e` but its extractor yields no view id. */
  predicate Unroutable(p: Projection, e: Event) {
    Routed(p, None, e)
  }

  ghost predicate AllRoutable(p: Projection, events: seq<Event>) {
    forall i :: 0 <= i < |events| ==> !Unroutable(p, events[i])
  }

  /** Every event the projection handles is given a view id by its extractor. */
  ghost predicate HasViewIds(p: Projection, events: seq<Event>) {
    forall i :: 0 <= i < |events| && events[i].name in p.on ==> p.on[events[i].name].id(events[i]) != None
  }

  lemma RoutableIff(p: Projection, events: seq<Event>)
    ensures AllRoutable(p, events) <==> HasViewIds(p, events)
  {
    if AllRoutable(p, events) {
      forall i | 0 <= i < |events| && events[i].name in p.on ensures p.on[events[i].name].id(events[i]) != None {
        assert !Unroutable(p, events[i]);
      }
    }
  }

  /** Replay stopped at event `n`, the first handled event without a view id. */
  ghost predicate FailsAt(p: Projection, events: seq<Event>, n: nat, name: EventName, views: ViewMap) {
    && n < |events|
    && Unroutable(p, events[n])
    && AllRoutable(p, events[..n])
    && name == events[n].name
    && views == Project(p, map[], events[..n])
  }

  /** How many deliveries of `events` hit the `DeleteView` sentinel. */
  function Deletions(p: Projection, events: seq<Event>): nat {
    if events == [] then 0
    else
      var front, last := events[..|events| - 1], events[|events| - 1];
      var id := if Handled(p, last) then p.on[last.name].id(last) else None;
      Deletions(p, front) +
      if Handled(p, last) && Reduce(p, last, Lookup(Project(p, map[], front), id)).None? then 1 else 0
  }

  /** Delivery `n` has a handler that, shown what is stored by then, answers with the delete sentinel. */
  ghost predicate DeletesAt(p: Projection, events: seq<Event>, n: nat)
    requires n < |events|
  {
    Handled(p, events[n]) &&
    p.on[events[n].name].reduce(events[n], Shown(p, Project(p, map[], events[..n]), p.on[events[n].name].id(events[n]))).None?
  }

  ghost function DeletingPositions(p: Projection, events: seq<Event>): set<nat> {
    set n: nat | n < |events| && DeletesAt(p, events, n)
  }

  lemma {:induction false} DeletionsCounted(p: Projection, events: seq<Event>)
    ensures Deletions(p, events) == |DeletingPositions(p, events)|
  {
    if events != [] {
      var n := |events| - 1;
      DeletionsCounted(p, events[..n]);
      LastDeletes(p, events);
      hide DeletesAt, Deletions;
      PositionsSplit(p, events);
    }
  }

  lemma PositionsSplit(p: Projection, events: seq<Event>)
    requires events != []
    ensures |DeletingPositions(p, events)| ==
      |DeletingPositions(p, events[..|events| - 1])| + if DeletesAt(p, events, |events| - 1) then 1 else 0
  {
    var n := |events| - 1;
    var front := events[..n];
    forall m: nat | m < n ensures DeletesAt(p, events, m) <==> DeletesAt(p, front, m) {
      assert front[..m] == events[..m];
    }
    hide DeletesAt;
    var last := if DeletesAt(p, events, n) then {n} else {};
    assert DeletingPositions(p, events) == DeletingPositions(p, front) + last;
  }

  lemma LastDeletes(p: Projection, events: seq<Event>)
    requires events != []
    ensures Deletions(p, events) == Deletions(p, events[..|events| - 1]) + if DeletesAt(p, events, |events| - 1) then 1 else 0
  {
    hide Project;
  }

  function Deleting(p: Projection, deletes: Event -> bool): Event -> bool {
    (e: Event) => Handled(p, e) && deletes(e)
  }

  /** For a recording reducer the deletions are the deleting events it handles. */
  lemma {:induction false} DeletionsRecorded(p: Projection, history: View -> seq<Event>, deletes: Event -> bool, events: seq<Event>)
    requires RecordsEvents(p, history, deletes)
    ensures Deletions(p, events) == |Filter(Deleting(p, deletes), events)|
  {
    if events != [] {
      var front, last := events[..|events| - 1], events[|events| - 1];
      DeletionsRecorded(p, history, deletes, front);
      LastDeletes(p, events);
      hide Deletions, Project;
      if Handled(p, last) {
        var id := p.on[last.name].id(last);
        var view := Shown(p, Project(p, map[], events[..|front|]), id);
        assert p.on[last.name].reduce(last, view).None? <==> deletes(last);
      }
      assert DeletesAt(p, events, |front|) <==> Deleting(p, deletes)(last);
      hide RecordsEvents, DeletesAt;
      assert events == front + [last];
      FilterAppend(Deleting(p, deletes), front, [last]);
      if Deleting(p, deletes)(last) {
        FilterAll(Deleting(p, deletes), [last]);
      } else {
        FilterNone(Deleting(p, deletes), [last]);
      }
    }
  }

  /** The subscriptions of one projection: event name and bound handler. */
  type Subscriptions = seq<(EventName, Listener)>

  type Listeners = map<EventName, multiset<Listener>>

  function On(listeners: Listeners, name: EventName): multiset<Listener> {
    if name in listeners then listeners[name] else multiset{}
  }

  /** The listeners `subs` holds for one event name. */
  function For(subs: Subscriptions, name: EventName): multiset<Listener> {
    if subs == [] then multiset{}
    else For(subs[..|subs| - 1], name) +
         if subs[|subs| - 1].0 == name then multiset{subs[|subs| - 1].1} else multiset{}
  }

  function IsSub(name: EventName, l: Listener): ((EventName, Listener)) -> bool {
    (s: (EventName, Listener)) => s == (name, l)
  }

  /** `For` counts each listener as often as it is subscribed. */
  lemma {:induction false} ForCounts(subs: Subscriptions, name: EventName, l: Listener)
    ensures For(subs, name)[l] == |Filter(IsSub(name, l), subs)|
  {
    if subs != [] {
      var front, last := subs[..|subs| - 1], subs[|subs| - 1];
      ForCounts(front, name, l);
      assert subs == front + [last];
      FilterAppend(IsSub(name, l), front, [last]);
      if last == (name, l) {
        FilterAll(IsSub(name, l), [last]);
      } else {
        FilterNone(IsSub(name, l), [last]);
      }
    }
  }

  /** Listeners `now` are those of `before` without the listeners of `subs`, name by name. */
  ghost predicate Detached(before: Listeners, now: Listeners, subs: Subscriptions) {
    forall n :: On(now, n) == On(before, n) - For(subs, n)
  }

  ghost predicate Attached(before: Listeners, now: Listeners, subs: Subscriptions) {
    forall n :: On(now, n) == On(before, n) + For(subs, n)
  }

  lemma ForNext(subs: Subscriptions, sub: (EventName, Listener), n: EventName)
    ensures For(subs + [sub], n) == For(subs, n) + if sub.0 == n then multiset{sub.1} else multiset{}
  {
    assert (subs + [sub])[..|subs|] == subs;
  }

  lemma MinusSum<T>(a: multiset<T>, b: multiset<T>, c: multiset<T>)
    ensures a - b - c == a - (b + c) && a + b + c == a + (b + c)
  {
  }

  lemma DetachedNext(before: Listeners, now: Listeners, subs: Subscriptions, sub: (EventName, Listener))
    requires Detached(before, now, subs)
    ensures Detached(before, now[sub.0 := On(now, sub.0) - multiset{sub.1}], subs + [sub])
  {
    hide For;
    var next := now[sub.0 := On(now, sub.0) - multiset{sub.1}];
    forall n ensures On(next, n) == On(before, n) - For(subs + [sub], n) {
      ForNext(subs, sub, n);
      MinusSum(On(before, n), For(subs, n), if sub.0 == n then multiset{sub.1} else multiset{});
      OneName(now, next, sub, n);
    }
  }

  /** A changed entry changes what is on one name only. */
  lemma OneName(now: Listeners, next: Listeners, sub: (EventName, Listener), n: EventName)
    requires sub.0 in next && next == now[sub.0 := next[sub.0]]
    ensures On(next, n) == if n == sub.0 then next[n] else On(now, n)
  {
  }

  lemma AttachedNext(before: Listeners, now: Listeners, subs: Subscriptions, sub: (EventName, Listener))
    requires Attached(before, now, subs)
    ensures Attached(before, now[sub.0 := On(now, sub.0) + multiset{sub.1}], subs + [sub])
  {
    hide For;
    var next := now[sub.0 := On(now, sub.0) + multiset{sub.1}];
    forall n ensures On(next, n) == On(before, n) + For(subs + [sub], n) {
      ForNext(subs, sub, n);
      MinusSum(On(before, n), For(subs, n), if sub.0 == n then multiset{sub.1} else multiset{});
      OneName(now, next, sub, n);
    }
  }

  lemma DetachedCounts(before: Listeners, now: Listeners, subs: Subscriptions)
    requires Detached(before, now, subs)
    ensures forall name, l ::
      var n := |Filter(IsSub(name, l), subs)|;
      On(now, name)[l] == if On(before, name)[l] >= n then On(before, name)[l] - n else 0
  {
    hide For, Filter, On;
    forall name, l ensures For(subs, name)[l] == |Filter(IsSub(name, l), subs)| {
      ForCounts(subs, name, l);
    }
  }

  lemma AttachedCounts(before: Listeners, now: Listeners, subs: Subscriptions)
    requires Attached(before, now, subs)
    ensures forall name, l :: On(now, name)[l] == On(before, name)[l] + |Filter(IsSub(name, l), subs)|
  {
    hide For, Filter, On;
    forall name, l ensures For(subs, name)[l] == |Filter(IsSub(name, l), subs)| {
      ForCounts(subs, name, l);
    }
  }

  lemma NoneDetached(before: Listeners)
    ensures Detached(before, before, []) && Attached(before, before, [])
  {
  }

  /** Every view is what a recording reducer would show for the events routed to it. */
  ghost predicate AllShow(p: Projection, views: ViewMap, events: seq<Event>) {
    forall history, deletes, id: ViewId :: RecordsEvents(p, history, deletes) ==>
      Shows(history, deletes, Lookup(views, id), Filter(RoutedTo(p, id), events))
  }

  lemma EveryViewShows(p: Projection, events: seq<Event>)
    ensures AllShow(p, Project(p, map[], events), events)
  {
    hide RecordsEvents, Shows, Project, Filter;
    forall history, deletes, id: ViewId | RecordsEvents(p, history, deletes)
      ensures Shows(history, deletes, Lookup(Project(p, map[], events), id), Filter(RoutedTo(p, id), events))
    {
      ViewIsFoldOfItsEvents(p, events, id);
    }
  }

  lemma ReplayStart(p: Projection, events: seq<Event>)
    ensures Project(p, map[], events[..0]) == map[] && Filter(HandledBy(p), events[..0]) == []
    ensures Deletions(p, events[..0]) == 0 && AllRoutable(p, events[..0])
  {
    assert events[..0] == [];
  }

  /** What one more replayed event adds to each of the things the replay tracks. */
  lemma ReplayStep(p: Projection, events: seq<Event>, n: nat)
    requires n < |events|
    ensures var before, e := Project(p, map[], events[..n]), events[n];
      var id := if Handled(p, e) then p.on[e.name].id(e) else None;
      var next := if Handled(p, e) then Reduce(p, e, Lookup(before, id)) else None;
      && Project(p, map[], events[..n + 1]) == (if Handled(p, e) then Store(before, id, next) else before)
      && |Filter(HandledBy(p), events[..n + 1])| == |Filter(HandledBy(p), events[..n])| + (if Handled(p, e) then 1 else 0)
      && Deletions(p, events[..n + 1]) == Deletions(p, events[..n]) + (if Handled(p, e) && next.None? then 1 else 0)
    ensures AllRoutable(p, events[..n + 1]) <==> AllRoutable(p, events[..n]) && !Unroutable(p, events[n])
    ensures AllRoutable(p, events) ==> !Unroutable(p, events[n])
  {
    assert events[..n + 1][..n] == events[..n];
    assert events[..n + 1] == events[..n] + [events[n]];
    FilterAppend(HandledBy(p), events[..n], [events[n]]);
  }

  class Runtime {
    var views: ViewMap
    var listeners: Listeners

    constructor ()
      ensures views == map[] && listeners == map[]
    {
      views, listeners := map[], map[];
    }

    method Detach(subs: Subscriptions)
      modifies this`listeners
      ensures Detached(old(listeners), listeners, subs)
      ensures forall name, l ::
        var n := |Filter(IsSub(name, l), subs)|;
        On(listeners, name)[l] == if On(old(listeners), name)[l] >= n then On(old(listeners), name)[l] - n else 0
    {
      hide *;
      NoneDetached(listeners);
      for k := 0 to |subs|
        invariant Detached(old(listeners), listeners, subs[..k])
      {
        DetachedNext(old(listeners), listeners, subs[..k], subs[k]);
        assert subs[..k + 1] == subs[..k] + [subs[k]];
        listeners := listeners[subs[k].0 := On(listeners, subs[k].0) - multiset{subs[k].1}];
      }
      assert subs[..|subs|] == subs;
      DetachedCounts(old(listeners), listeners, subs);
    }

    method Attach(subs: Subscriptions)
      modifies this`listeners
      ensures Attached(old(listeners), listeners, subs)
      ensures forall name, l :: On(listeners, name)[l] == On(old(listeners), name)[l] + |Filter(IsSub(name, l), subs)|
    {
      hide *;
      NoneDetached(listeners);
      for k := 0 to |subs|
        invariant Attached(old(listeners), listeners, subs[..k])
      {
        AttachedNext(old(listeners), listeners, subs[..k], subs[k]);
        assert subs[..k + 1] == subs[..k] + [subs[k]];
        listeners := listeners[subs[k].0 := On(listeners, subs[k].0) + multiset{subs[k].1}];
      }
      assert subs[..|subs|] == subs;
      AttachedCounts(old(listeners), listeners, subs);
    }

    /**
     * Replays `log` into the emptied view store. It stops at the first handled event
     * whose view id is null, keeping what was applied before it.
     */
    method Replay(p: Projection, log: seq<Event>, upcasters: AggregateUpcasters) returns (r: RebuildResult)
      modifies this`views
      ensures r.Rebuilt? <==> AllRoutable(p, UpcastLog(log, upcasters))
      ensures r.Rebuilt? <==> HasViewIds(p, UpcastLog(log, upcasters))
      ensures r.Rebuilt? ==>
        var events := UpcastLog(log, upcasters);
        && views == Project(p, map[], events)
        && r == Rebuilt(|log|, |Filter(HandledBy(p), events)|, Deletions(p, events))
        && r.viewsDeleted <= r.eventsApplied <= r.eventsRead
        && r.viewsDeleted == |DeletingPositions(p, events)|
        && AllShow(p, views, events)
      ensures !r.Rebuilt? ==>
        && r.MissingViewId?
        && exists n :: 0 <= n < |log| && FailsAt(p, UpcastLog(log, upcasters), n, r.name, views)
    {
      ghost var events := UpcastLog(log, upcasters);
      RoutableIff(p, events);
      ReplayStart(p, events);
      hide Project, Filter, Deletions, AllRoutable, Store, Reduce;
      views := map[];
      var eventsRead, eventsApplied, viewsDeleted := 0, 0, 0;
      while eventsRead < |log|
        invariant 0 <= eventsRead <= |log|
        invariant views == Project(p, map[], events[..eventsRead])
        invariant eventsApplied == |Filter(HandledBy(p), events[..eventsRead])|
        invariant viewsDeleted == Deletions(p, events[..eventsRead])
        invariant viewsDeleted <= eventsApplied <= eventsRead
        invariant AllRoutable(p, events[..eventsRead])
      {
        ghost var n := eventsRead;
        var event := UpcastOne(log[eventsRead], upcasters);
        ReplayStep(p, events, n);
        eventsRead := eventsRead + 1;
        if event.name !in p.on {
          continue;
        }
        var viewId := p.on[event.name].id(event);
        if viewId == None {
          assert FailsAt(p, events, n, event.name, views);
          return MissingViewId(event.name);
        }
        var current := Lookup(views, viewId);
        var next := Reduce(p, event, current);
        if next == None {
          viewsDeleted := viewsDeleted + 1;
        }
        views := Store(views, viewId, next);
        eventsApplied := eventsApplied + 1;
      }
      assert events[..|log|] == events;
      DeletionsCounted(p, events);
      EveryViewShows(p, events);
      return Rebuilt(eventsRead, eventsApplied, viewsDeleted);
    }

    /**
     * The whole rebuild: detach, truncate and replay, re-attach on every path. A bus that
     * cannot detach stops it before anything is touched.
     */
    method Rebuild(p: Projection, log: seq<Event>, upcasters: AggregateUpcasters,
                   subs: Subscriptions, busHasOff: bool) returns (r: RebuildResult)
      requires forall n :: For(subs, n) <= On(listeners, n)
      modifies this
      ensures forall n :: On(listeners, n) == On(old(listeners), n)
      ensures r.CannotDetach? <==> !busHasOff && subs != []
      ensures r.CannotDetach? ==> views == old(views)
      ensures r.Rebuilt? ==> views == Project(p, map[], UpcastLog(log, upcasters)) && AllShow(p, views, UpcastLog(log, upcasters))
      ensures !r.CannotDetach? ==> (r.Rebuilt? <==> HasViewIds(p, UpcastLog(log, upcasters)))
    {
      if busHasOff {
        Detach(subs);
      } else if subs != [] {
        return CannotDetach;
      }
      r := Replay(p, log, upcasters);
      if busHasOff {
        Attach(subs);
      }
    }
  }
}
