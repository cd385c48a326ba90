/**
 * A rebuild of one event-driven projection while the engine goes on: commands commit and
 * publish, relays dispatch, and the rebuild detaches its listeners, empties the view store,
 * reads the log event by event, and attaches them again
 * (`packages/engine/src/projection-rebuild.ts`).
 */
module RacingRebuild {
  import opened Types
  import opened Seqs
  import opened Projections
  import Rebuilding = ProjectionRebuild
  import opened EventStore
  import opened Engine
  import opened EngineInvariant
  import EngineSteps
  import EngineHistory
  import EngineTheorems
  import EngineProgress

  /**
   * Where the rebuild is. `from` is the log when the reader was asked for it, `read` what
   * it has yielded; `mark` counts the dispatches made before the listeners were back.
   */
  datatype Phase =
    | Live
    | Detached
    | Reading(from: Streams, read: seq<Event>)
    | Rebuilt(from: Streams, read: seq<Event>, mark: nat)
    | Failed

  /** `bus` is every dispatch so far, in order and with repeats; `views` the projection's store. */
  datatype World = World(sys: Sys, bus: seq<Event>, views: ViewMap, phase: Phase)

  datatype Move =
    | Beside(a: Action)
    | Detach
    | Truncate
    | ReadNext(k: Key)
    | Attach
    | Fail

  /** What one step of the engine dispatches. */
  function Sent(s: Sys, a: Action): seq<Event> {
    match a
    case Publish(t) =>
      if t in s.threads && s.threads[t].Committed? && s.threads[t].snapshots == [] && s.threads[t].next < |s.threads[t].events|
      then [s.threads[t].events[s.threads[t].next]] else []
    case RelayDispatch(t) =>
      if t in s.threads && s.threads[t].Relaying? && s.threads[t].batch != [] then [s.threads[t].batch[0].1] else []
    case _ => []
  }

  predicate Listening(w: World) {
    w.phase.Live? || w.phase.Rebuilt? || w.phase.Failed?
  }

  function BesideStep(cfg: Config, p: Projection, w: World, a: Action): World {
    var sent := Sent(w.sys, a);
    World(Step(cfg, w.sys, a), w.bus + sent, if Listening(w) then Project(p, w.views, sent) else w.views, w.phase)
  }

  /** How many events of a stream have been read. */
  function ReadOf(read: seq<Event>, k: Key): nat {
    |Filter(OfStream(k), read)|
  }

  /**
   * The reader yields each stream in order, in any interleaving of streams and up to its
   * end at the time. A handled event without a view id stops the rebuild.
   */
  function ReadStep(p: Projection, upcasters: Rebuilding.AggregateUpcasters, w: World, k: Key): World {
    if !w.phase.Reading? || ReadOf(w.phase.read, k) >= |Stream(w.sys.db.streams, k)| then w
    else
      var e := Rebuilding.UpcastOne(Stream(w.sys.db.streams, k)[ReadOf(w.phase.read, k)], upcasters);
      if Rebuilding.Unroutable(p, e) then w.(phase := Failed)
      else w.(views := Deliver(p, w.views, e), phase := Reading(w.phase.from, w.phase.read + [e]))
  }

  /** The reader yields at least what was in the log when it was asked. */
  predicate ReadEnough(from: Streams, read: seq<Event>) {
    forall k :: k in from ==> ReadOf(read, k) >= |from[k]|
  }

  function AttachStep(w: World): World {
    if w.phase.Reading? && ReadEnough(w.phase.from, w.phase.read)
    then w.(phase := Rebuilt(w.phase.from, w.phase.read, |w.bus|)) else w
  }

  function WorldStep(cfg: Config, p: Projection, upcasters: Rebuilding.AggregateUpcasters, w: World, m: Move): World {
    match m
    case Beside(a) => BesideStep(cfg, p, w, a)
    case Detach => if Listening(w) then w.(phase := Detached) else w
    case Truncate => if w.phase.Detached? then w.(views := map[], phase := Reading(w.sys.db.streams, [])) else w
    case ReadNext(k) => ReadStep(p, upcasters, w, k)
    case Attach => AttachStep(w)
    case Fail => if Listening(w) then w else w.(phase := Failed)
  }

  function WorldAfter(cfg: Config, p: Projection, upcasters: Rebuilding.AggregateUpcasters, moves: seq<Move>): World {
    if moves == [] then World(Initial(cfg), [], map[], Live)
    else WorldStep(cfg, p, upcasters, WorldAfter(cfg, p, upcasters, moves[..|moves| - 1]), moves[|moves| - 1])
  }

  /** The engine's part of a run. */
  function Trace(moves: seq<Move>): seq<Action> {
    if moves == [] then []
    else Trace(moves[..|moves| - 1]) + if moves[|moves| - 1].Beside? then [moves[|moves| - 1].a] else []
  }

  lemma {:induction false} EngineTrace(cfg: Config, p: Projection, upcasters: Rebuilding.AggregateUpcasters, moves: seq<Move>)
    ensures WorldAfter(cfg, p, upcasters, moves).sys == After(cfg, Trace(moves))
  {
    if moves != [] {
      var front, m := moves[..|moves| - 1], moves[|moves| - 1];
      EngineTrace(cfg, p, upcasters, front);
      hide Step;
      if m.Beside? {
        EngineProgress.AfterOne(cfg, Trace(front), m.a);
      } else {
        assert Trace(moves) == Trace(front);
      }
    }
  }

  // --- What every run keeps ---

  /** Each stream has been read from its beginning, in order. */
  ghost predicate ReadInOrder(streams: Streams, read: seq<Event>) {
    forall k: Key :: Filter(OfStream(k), read) <= Stream(streams, k)
  }

  /** The bus carried exactly the dispatched events. */
  ghost predicate BusOk(w: World) {
    forall e :: e in w.bus <==> e in w.sys.dispatched
  }

  ghost predicate PhaseOk(p: Projection, w: World) {
    match w.phase
    case Live => w.views == Project(p, map[], w.bus)
    case Detached => true
    case Reading(from, read) =>
      && w.views == Project(p, map[], read)
      && ReadInOrder(w.sys.db.streams, read)
      && Extends(from, w.sys.db.streams)
    case Rebuilt(from, read, mark) =>
      && mark <= |w.bus|
      && w.views == Project(p, map[], read + w.bus[mark..])
      && ReadInOrder(w.sys.db.streams, read)
      && Extends(from, w.sys.db.streams)
      && ReadEnough(from, read)
    case Failed => true
  }

  ghost predicate WorldOk(cfg: Config, p: Projection, w: World) {
    Inv(cfg, w.sys) && BusOk(w) && PhaseOk(p, w)
  }

  /** A step of the engine dispatches what it adds to the dispatched events. */
  lemma SentIsDispatched(cfg: Config, s: Sys, a: Action)
    ensures forall e :: e in Step(cfg, s, a).dispatched <==> e in s.dispatched || e in Sent(s, a)
  {
    hide Commit, LoadState, Enlist, Issue, Fresh, MarkByEventId, EventIds, BatchOf, Purged, UnitSnapshots, UnitEvents, Boxed;
  }

  /** Streams only grow. */
  lemma StreamsGrow(cfg: Config, s: Sys, a: Action)
    requires Inv(cfg, s)
    ensures Extends(s.db.streams, Step(cfg, s, a).db.streams)
  {
    hide *;
    EngineSteps.StepKeepsInv(cfg, s, a);
    StreamsAreLogged(cfg, s);
    StreamsAreLogged(cfg, Step(cfg, s, a));
    LogGrows(cfg, s, a);
    GrownLog(s.db, Step(cfg, s, a).db);
  }

  lemma StreamsAreLogged(cfg: Config, s: Sys)
    requires Inv(cfg, s)
    ensures forall k: Key :: Stream(s.db.streams, k) == LogStream(s.db.log, k)
  {
    assert StreamsOk(cfg, s.db);
  }

  lemma LogGrows(cfg: Config, s: Sys, a: Action)
    requires Inv(cfg, s)
    ensures s.db.log <= Step(cfg, s, a).db.log
  {
    hide Inv, CommitStep;
    if !a.CommitUnit? {
      EngineHistory.QuietStepMoved(cfg, s, a);
    } else if a.t in s.threads && s.threads[a.t].Ready? {
      EngineHistory.CommitShape(cfg, s, a.t);
      if Commit(cfg, s.db, s.threads[a.t].works).Ok? {
        EngineHistory.CommitLog(cfg, s, a.t);
      }
    } else {
      EngineHistory.IdleCommit(cfg, s, a.t);
    }
  }

  lemma GrownLog(db: Database, db': Database)
    requires db.log <= db'.log
    requires forall k: Key :: Stream(db.streams, k) == LogStream(db.log, k) && Stream(db'.streams, k) == LogStream(db'.log, k)
    ensures Extends(db.streams, db'.streams)
  {
    forall k: Key ensures Stream(db.streams, k) <= Stream(db'.streams, k) {
      LogStreamGrows(db.log, db'.log, k);
    }
  }

  lemma {:induction false} LogStreamGrows(log: seq<Batch>, more: seq<Batch>, k: Key)
    requires log <= more
    ensures LogStream(log, k) <= LogStream(more, k)
  {
    if |log| < |more| {
      LogStreamGrows(log, more[..|more| - 1], k);
    } else {
      assert log == more;
    }
  }

  lemma ReadStays(a: Streams, b: Streams, from: Streams, read: seq<Event>)
    requires Extends(a, b)
    ensures ReadInOrder(a, read) ==> ReadInOrder(b, read)
    ensures Extends(from, a) ==> Extends(from, b)
  {
    hide Filter, Stream;
    forall k: Key ensures Stream(a, k) <= Stream(b, k) {
    }
  }

  lemma BesideKeeps(cfg: Config, p: Projection, w: World, a: Action)
    requires WorldOk(cfg, p, w)
    ensures WorldOk(cfg, p, BesideStep(cfg, p, w, a))
  {
    hide Inv, Step, Sent, Project, ReadInOrder, Extends, ReadEnough;
    EngineSteps.StepKeepsInv(cfg, w.sys, a);
    SentIsDispatched(cfg, w.sys, a);
    StreamsGrow(cfg, w.sys, a);
    var sent, w' := Sent(w.sys, a), BesideStep(cfg, p, w, a);
    match w.phase
    case Live => ProjectAppend(p, map[], w.bus, sent);
    case Reading(from, read) => ReadStays(w.sys.db.streams, w'.sys.db.streams, from, read);
    case Rebuilt(from, read, mark) =>
      ReadStays(w.sys.db.streams, w'.sys.db.streams, from, read);
      ProjectAppend(p, map[], read + w.bus[mark..], sent);
      assert read + w'.bus[mark..] == read + w.bus[mark..] + sent;
    case _ =>
  }

  /** One more event read, stream by stream. */
  lemma ReadOne(streams: Streams, read: seq<Event>, k: Key)
    requires ReadInOrder(streams, read) && ReadOf(read, k) < |Stream(streams, k)|
    requires Stream(streams, k)[ReadOf(read, k)].metadata.aggregate == k
    ensures ReadInOrder(streams, read + [Stream(streams, k)[ReadOf(read, k)]])
    ensures forall j: Key :: ReadOf(read + [Stream(streams, k)[ReadOf(read, k)]], j) == ReadOf(read, j) + if j == k then 1 else 0
  {
    var e := Stream(streams, k)[ReadOf(read, k)];
    forall j: Key
      ensures Filter(OfStream(j), read + [e]) == Filter(OfStream(j), read) + if j == k then [e] else []
    {
      FilterAppend(OfStream(j), read, [e]);
      if j == k {
        FilterAll(OfStream(j), [e]);
      } else {
        FilterNone(OfStream(j), [e]);
      }
    }
    hide Filter;
  }

  /** Stored events belong to their streams and are written under the current definitions. */
  lemma StoredAreCurrent(cfg: Config, upcasters: Rebuilding.AggregateUpcasters, s: Sys, k: Key, i: nat)
    requires Inv(cfg, s) && EngineTheorems.UpcastersOf(cfg, upcasters) && i < |Stream(s.db.streams, k)|
    ensures var e := Stream(s.db.streams, k)[i];
      e.metadata.aggregate == k && IsCommitted(s.db.streams, e) && Rebuilding.UpcastOne(e, upcasters) == e
  {
    assert StreamsOk(cfg, s.db);
    assert Enriched(AggregateOf(cfg, k), k, 0, Stream(s.db.streams, k));
    hide *;
    EnrichedIsCurrent(cfg, upcasters, s.db.streams, k, i);
  }

  lemma EnrichedIsCurrent(cfg: Config, upcasters: Rebuilding.AggregateUpcasters, streams: Streams, k: Key, i: nat)
    requires Enriched(AggregateOf(cfg, k), k, 0, Stream(streams, k)) && EngineTheorems.UpcastersOf(cfg, upcasters)
    requires i < |Stream(streams, k)|
    ensures var e := Stream(streams, k)[i];
      e.metadata.aggregate == k && IsCommitted(streams, e) && Rebuilding.UpcastOne(e, upcasters) == e
  {
    hide Stream;
  }

  lemma ReadKeeps(cfg: Config, p: Projection, upcasters: Rebuilding.AggregateUpcasters, w: World, k: Key)
    requires WorldOk(cfg, p, w) && EngineTheorems.UpcastersOf(cfg, upcasters)
    ensures WorldOk(cfg, p, ReadStep(p, upcasters, w, k))
  {
    hide Inv, Project, ReadInOrder, Extends, ReadOf, Deliver, Rebuilding.UpcastOne;
    if w.phase.Reading? && ReadOf(w.phase.read, k) < |Stream(w.sys.db.streams, k)| {
      var streams, read := w.sys.db.streams, w.phase.read;
      StoredAreCurrent(cfg, upcasters, w.sys, k, ReadOf(read, k));
      ReadOne(streams, read, k);
      ProjectStep(p, map[], read, Stream(streams, k)[ReadOf(read, k)]);
    }
  }

  lemma RebuildMoveKeeps(cfg: Config, p: Projection, w: World)
    requires WorldOk(cfg, p, w)
    ensures w.phase.Detached? ==> WorldOk(cfg, p, w.(views := map[], phase := Reading(w.sys.db.streams, [])))
    ensures WorldOk(cfg, p, AttachStep(w))
    ensures WorldOk(cfg, p, w.(phase := Failed)) && WorldOk(cfg, p, w.(phase := Detached))
  {
    hide Inv;
    if w.phase.Reading? {
      assert w.phase.read + w.bus[|w.bus|..] == w.phase.read;
    }
  }

  /** What is kept by every run of the engine with a rebuild in it. */
  lemma {:induction false} WorldInvariant(cfg: Config, p: Projection, upcasters: Rebuilding.AggregateUpcasters, moves: seq<Move>)
    requires EngineTheorems.UpcastersOf(cfg, upcasters)
    ensures WorldOk(cfg, p, WorldAfter(cfg, p, upcasters, moves))
  {
    if moves == [] {
      EngineSteps.InitialGood(cfg);
      hide Inv;
    } else {
      var front := moves[..|moves| - 1];
      WorldInvariant(cfg, p, upcasters, front);
      var w := WorldAfter(cfg, p, upcasters, front);
      hide WorldOk, BesideStep, ReadStep, AttachStep, Listening, EngineTheorems.UpcastersOf;
      match moves[|moves| - 1]
      case Beside(a) => BesideKeeps(cfg, p, w, a);
      case ReadNext(k) => ReadKeeps(cfg, p, upcasters, w, k);
      case _ => RebuildMoveKeeps(cfg, p, w);
    }
  }

  // --- When the rebuilt store is the live one ---

  /**
   * View by view, what the rebuild read is what had been dispatched when the listeners came
   * back: the condition under which nothing is missed and nothing applied twice.
   */
  ghost predicate CaughtUp(p: Projection, w: World)
    requires w.phase.Rebuilt?
  {
    w.phase.mark <= |w.bus| &&
    forall id: ViewId :: Filter(RoutedTo(p, id), w.phase.read) == Filter(RoutedTo(p, id), w.bus[..w.phase.mark])
  }

  /** A projection that forgets nothing: `history` recovers the events a view was reduced from. */
  ghost predicate ForgetsNothing(p: Projection, history: View -> seq<Event>) {
    RecordsEvents(p, history, NoEvent)
  }

  function HistoryOf(history: View -> seq<Event>, view: Option<View>): seq<Event> {
    match view
    case None => []
    case Some(v) => history(v)
  }

  lemma {:induction false} RecordedFold(p: Projection, history: View -> seq<Event>, events: seq<Event>)
    requires ForgetsNothing(p, history) && forall e :: e in events ==> e.name in p.on
    ensures HistoryOf(history, ViewFold(p, events)) == events
  {
    if events != [] {
      var front, last := events[..|events| - 1], events[|events| - 1];
      RecordedFold(p, history, front);
      assert last in events && events == front + [last];
    }
  }

  /** The view store is determined by, and for a recording projection determines, the events of each view. */
  lemma SameStoreIff(p: Projection, a: seq<Event>, b: seq<Event>)
    ensures (forall id: ViewId :: Filter(RoutedTo(p, id), a) == Filter(RoutedTo(p, id), b)) ==>
      Project(p, map[], a) == Project(p, map[], b)
    ensures forall history, id: ViewId :: ForgetsNothing(p, history) && Project(p, map[], a) == Project(p, map[], b) ==>
      Filter(RoutedTo(p, id), a) == Filter(RoutedTo(p, id), b)
  {
    hide ForgetsNothing, Filter, Project, RoutedTo, ViewFold;
    var va, vb := Project(p, map[], a), Project(p, map[], b);
    if forall id: ViewId :: Filter(RoutedTo(p, id), a) == Filter(RoutedTo(p, id), b) {
      forall id: ViewId ensures Lookup(va, id) == Lookup(vb, id) {
        RoutedAreHandled(p, id, a);
        RoutedAreHandled(p, id, b);
        ViewIsFoldOfItsEvents(p, a, id);
        ViewIsFoldOfItsEvents(p, b, id);
      }
      SameLookups(va, vb);
    }
    forall history, id: ViewId | ForgetsNothing(p, history) && va == vb
      ensures Filter(RoutedTo(p, id), a) == Filter(RoutedTo(p, id), b)
    {
      RoutedAreHandled(p, id, a);
      RoutedAreHandled(p, id, b);
      ViewIsFoldOfItsEvents(p, a, id);
      ViewIsFoldOfItsEvents(p, b, id);
      RecordedFold(p, history, Filter(RoutedTo(p, id), a));
      RecordedFold(p, history, Filter(RoutedTo(p, id), b));
    }
  }

  lemma RoutedAreHandled(p: Projection, id: ViewId, events: seq<Event>)
    ensures forall e :: e in Filter(RoutedTo(p, id), events) ==> e.name in p.on
  {
  }

  lemma SameLookups(a: ViewMap, b: ViewMap)
    requires forall id: ViewId :: Lookup(a, id) == Lookup(b, id)
    ensures a == b
  {
    assert forall id :: id in a ==> Lookup(a, id).Some? && Lookup(a, id) == Lookup(b, id);
    assert forall id :: id in b ==> Lookup(b, id).Some? && Lookup(a, id) == Lookup(b, id);
  }

  /**
   * After a rebuild, whatever raced with it and for as long as the engine goes on: the view
   * store is the one a listener that had never been detached would have, if the rebuild had
   * read, view by view, what had been dispatched when the listeners came back; and for a
   * projection that forgets nothing only then.
   */
  lemma RebuiltEqualsLiveIff(cfg: Config, p: Projection, upcasters: Rebuilding.AggregateUpcasters, moves: seq<Move>)
    requires EngineTheorems.UpcastersOf(cfg, upcasters)
    requires WorldAfter(cfg, p, upcasters, moves).phase.Rebuilt?
    ensures var w := WorldAfter(cfg, p, upcasters, moves);
      && (CaughtUp(p, w) ==> w.views == Project(p, map[], w.bus))
      && (forall history :: ForgetsNothing(p, history) && w.views == Project(p, map[], w.bus) ==> CaughtUp(p, w))
  {
    WorldInvariant(cfg, p, upcasters, moves);
    var w := WorldAfter(cfg, p, upcasters, moves);
    assert PhaseOk(p, w);
    hide *;
    CaughtUpIff(p, w);
  }

  lemma CaughtUpIff(p: Projection, w: World)
    requires w.phase.Rebuilt? && PhaseOk(p, w)
    ensures CaughtUp(p, w) ==> w.views == Project(p, map[], w.bus)
    ensures forall history :: ForgetsNothing(p, history) && w.views == Project(p, map[], w.bus) ==> CaughtUp(p, w)
  {
    var read, mark := w.phase.read, w.phase.mark;
    var before, since := w.bus[..mark], w.bus[mark..];
    assert w.bus == before + since;
    hide ForgetsNothing, Filter, Project, RoutedTo, ReadInOrder, Extends, ReadEnough;
    SameStoreIff(p, read + since, before + since);
    forall id: ViewId
      ensures Filter(RoutedTo(p, id), read + since) == Filter(RoutedTo(p, id), before + since)
         <==> Filter(RoutedTo(p, id), read) == Filter(RoutedTo(p, id), before)
    {
      FilterAppend(RoutedTo(p, id), read, since);
      FilterAppend(RoutedTo(p, id), before, since);
      SameEnding(Filter(RoutedTo(p, id), read), Filter(RoutedTo(p, id), before), Filter(RoutedTo(p, id), since));
    }
  }

  lemma SameEnding<T>(a: seq<T>, b: seq<T>, ending: seq<T>)
    ensures a + ending == b + ending <==> a == b
  {
    if a + ending == b + ending {
      assert a == (a + ending)[..|a|] && b == (b + ending)[..|b|];
    }
  }

  // --- Per stream, when dispatches kept commit order ---

  /** Each stream's events were dispatched once each, in order, from its beginning. */
  ghost predicate SentInOrder(streams: Streams, sent: seq<Event>) {
    forall k: Key :: Filter(OfStream(k), sent) <= Stream(streams, k)
  }

  /** No handled event lies between two positions of a stream, whichever is first. */
  ghost predicate NoneBetween(p: Projection, stream: seq<Event>, m: nat, n: nat) {
    forall i :: 0 <= i < |stream| && (m <= i < n || n <= i < m) ==> !Handled(p, stream[i])
  }

  /** The events of one view are those of its stream. */
  lemma RoutedOfStream(p: Projection, feed: ViewId -> Key, id: ViewId, events: seq<Event>, stream: seq<Event>)
    requires SingleFeed(p, feed, events) && Filter(OfStream(feed(id)), events) <= stream
    ensures Filter(RoutedTo(p, id), events) == Filter(RoutedTo(p, id), stream[..|Filter(OfStream(feed(id)), events)|])
  {
    FilterWithin(RoutedTo(p, id), OfStream(feed(id)), events);
    var kept := Filter(OfStream(feed(id)), events);
    assert stream[..|kept|] == kept;
  }

  lemma PrefixesDiffer(p: Projection, id: ViewId, stream: seq<Event>, m: nat, n: nat)
    requires m <= n <= |stream|
    ensures Filter(RoutedTo(p, id), stream[..m]) == Filter(RoutedTo(p, id), stream[..n])
       <==> forall i :: m <= i < n ==> !Routed(p, id, stream[i])
  {
    var routed, more := RoutedTo(p, id), stream[m..n];
    assert stream[..n] == stream[..m] + more;
    FilterAppend(routed, stream[..m], more);
    RoutedBetween(p, id, stream, m, n);
    hide Filter, Routed, RoutedTo;
    if Filter(routed, more) == [] {
      assert Filter(routed, stream[..m]) + [] == Filter(routed, stream[..m]);
    }
  }

  lemma RoutedBetween(p: Projection, id: ViewId, stream: seq<Event>, m: nat, n: nat)
    requires m <= n <= |stream|
    ensures Filter(RoutedTo(p, id), stream[m..n]) == [] <==> forall i :: m <= i < n ==> !Routed(p, id, stream[i])
  {
    var kept := Filter(RoutedTo(p, id), stream[m..n]);
    forall i | m <= i < n ensures Routed(p, id, stream[i]) ==> stream[i] in kept {
      assert stream[m..n][i - m] == stream[i];
    }
    if kept != [] {
      assert kept[0] in stream[m..n];
      var j :| 0 <= j < n - m && stream[m..n][j] == kept[0];
      assert kept[0] in kept;
      assert Routed(p, id, stream[m + j]);
    }
  }

  /**
   * With single feeds and dispatches in commit order, the condition is a comparison of two
   * positions in each stream when the listeners come back: how far the rebuild has read and
   * how far the bus has got. Handled events past the first and before the second are lost;
   * those past the second and before the first are applied twice.
   */
  lemma CaughtUpPositions(p: Projection, feed: ViewId -> Key, w: World)
    requires w.phase.Rebuilt? && w.phase.mark <= |w.bus|
    requires ReadInOrder(w.sys.db.streams, w.phase.read) && SentInOrder(w.sys.db.streams, w.bus[..w.phase.mark])
    requires SingleFeed(p, feed, w.phase.read) && SingleFeed(p, feed, w.bus[..w.phase.mark])
    requires forall k: Key, e :: e in Stream(w.sys.db.streams, k) && Handled(p, e) ==> feed(p.on[e.name].id(e)) == k
    ensures CaughtUp(p, w) <==> forall k: Key ::
      NoneBetween(p, Stream(w.sys.db.streams, k), ReadOf(w.phase.read, k), ReadOf(w.bus[..w.phase.mark], k))
  {
    var streams, read, sent := w.sys.db.streams, w.phase.read, w.bus[..w.phase.mark];
    forall id: ViewId
      ensures Filter(RoutedTo(p, id), read) == Filter(RoutedTo(p, id), sent)
         <==> NoneRouted(p, id, Stream(streams, feed(id)), ReadOf(read, feed(id)), ReadOf(sent, feed(id)))
    {
      OneViewPositions(p, feed, id, streams, read, sent);
    }
    hide *;
    NoneBetweenByView(p, feed, streams, read, sent);
    CaughtUpIs(p, w);
  }

  lemma CaughtUpIs(p: Projection, w: World)
    requires w.phase.Rebuilt? && w.phase.mark <= |w.bus|
    ensures CaughtUp(p, w) <==>
      forall id: ViewId :: Filter(RoutedTo(p, id), w.phase.read) == Filter(RoutedTo(p, id), w.bus[..w.phase.mark])
  {
  }

  ghost predicate NoneRouted(p: Projection, id: ViewId, stream: seq<Event>, m: nat, n: nat) {
    forall i :: 0 <= i < |stream| && (m <= i < n || n <= i < m) ==> !Routed(p, id, stream[i])
  }

  lemma OneViewPositions(p: Projection, feed: ViewId -> Key, id: ViewId, streams: Streams, read: seq<Event>, sent: seq<Event>)
    requires ReadInOrder(streams, read) && SentInOrder(streams, sent) && SingleFeed(p, feed, read) && SingleFeed(p, feed, sent)
    ensures Filter(RoutedTo(p, id), read) == Filter(RoutedTo(p, id), sent)
       <==> NoneRouted(p, id, Stream(streams, feed(id)), ReadOf(read, feed(id)), ReadOf(sent, feed(id)))
  {
    var k := feed(id);
    var stream, m, n := Stream(streams, k), ReadOf(read, k), ReadOf(sent, k);
    assert Filter(OfStream(k), read) <= stream && Filter(OfStream(k), sent) <= stream;
    hide Filter, SingleFeed, Routed;
    RoutedOfStream(p, feed, id, read, stream);
    RoutedOfStream(p, feed, id, sent, stream);
    if m <= n {
      PrefixesDiffer(p, id, stream, m, n);
    } else {
      PrefixesDiffer(p, id, stream, n, m);
    }
  }

  lemma NotHandled(p: Projection, stream: seq<Event>, m: nat, n: nat, i: nat)
    requires i < |stream| && (m <= i < n || n <= i < m)
    requires Handled(p, stream[i]) ==> NoneRouted(p, p.on[stream[i].name].id(stream[i]), stream, m, n)
    ensures !Handled(p, stream[i])
  {
  }

  /** A handled event is routed to a view of its stream. */
  lemma NoneBetweenByView(p: Projection, feed: ViewId -> Key, streams: Streams, read: seq<Event>, sent: seq<Event>)
    requires forall k: Key, e :: e in Stream(streams, k) && Handled(p, e) ==> feed(p.on[e.name].id(e)) == k
    ensures (forall k: Key :: NoneBetween(p, Stream(streams, k), ReadOf(read, k), ReadOf(sent, k)))
       <==> (forall id: ViewId :: NoneRouted(p, id, Stream(streams, feed(id)), ReadOf(read, feed(id)), ReadOf(sent, feed(id))))
  {
    hide ReadOf, Stream, SingleFeed;
    if forall id: ViewId :: NoneRouted(p, id, Stream(streams, feed(id)), ReadOf(read, feed(id)), ReadOf(sent, feed(id))) {
      forall k: Key ensures NoneBetween(p, Stream(streams, k), ReadOf(read, k), ReadOf(sent, k)) {
        var stream, m, n := Stream(streams, k), ReadOf(read, k), ReadOf(sent, k);
        forall i | 0 <= i < |stream| && (m <= i < n || n <= i < m) ensures !Handled(p, stream[i]) {
          assert Handled(p, stream[i]) ==> feed(p.on[stream[i].name].id(stream[i])) == k;
          NotHandled(p, stream, m, n, i);
        }
      }
    }
    if forall k: Key :: NoneBetween(p, Stream(streams, k), ReadOf(read, k), ReadOf(sent, k)) {
      forall id: ViewId
        ensures NoneRouted(p, id, Stream(streams, feed(id)), ReadOf(read, feed(id)), ReadOf(sent, feed(id)))
      {
        assert NoneBetween(p, Stream(streams, feed(id)), ReadOf(read, feed(id)), ReadOf(sent, feed(id)));
      }
    }
  }

  /**
   * The same over every run: where each view has one stream and what was dispatched before
   * the listeners came back kept commit order, the rebuilt store is the live one if in every
   * stream the rebuild and the bus had got equally far, up to events the projection does not
   * handle; and for a projection that forgets nothing only then.
   */
  lemma RebuiltEqualsLivePositions(cfg: Config, p: Projection, upcasters: Rebuilding.AggregateUpcasters, moves: seq<Move>,
                                   feed: ViewId -> Key)
    requires EngineTheorems.UpcastersOf(cfg, upcasters)
    requires var w := WorldAfter(cfg, p, upcasters, moves);
      && w.phase.Rebuilt? && w.phase.mark <= |w.bus|
      && SingleFeed(p, feed, LogEvents(w.sys.db.log))
      && SentInOrder(w.sys.db.streams, w.bus[..w.phase.mark])
    ensures var w := WorldAfter(cfg, p, upcasters, moves);
      var level := forall k: Key ::
        NoneBetween(p, Stream(w.sys.db.streams, k), ReadOf(w.phase.read, k), ReadOf(w.bus[..w.phase.mark], k));
      && (level ==> w.views == Project(p, map[], w.bus))
      && (forall history :: ForgetsNothing(p, history) && w.views == Project(p, map[], w.bus) ==> level)
  {
    WorldInvariant(cfg, p, upcasters, moves);
    RebuiltEqualsLiveIff(cfg, p, upcasters, moves);
    var w := WorldAfter(cfg, p, upcasters, moves);
    assert PhaseOk(p, w) && StreamsOk(cfg, w.sys.db);
    hide *;
    PhaseReads(p, w);
    FeedEverywhere(cfg, p, feed, w);
    CaughtUpPositions(p, feed, w);
  }

  lemma PhaseReads(p: Projection, w: World)
    requires w.phase.Rebuilt? && PhaseOk(p, w)
    ensures ReadInOrder(w.sys.db.streams, w.phase.read)
  {
  }

  /** What is stored, read and dispatched is in the log, so the feed names its stream. */
  lemma FeedEverywhere(cfg: Config, p: Projection, feed: ViewId -> Key, w: World)
    requires StreamsOk(cfg, w.sys.db) && SingleFeed(p, feed, LogEvents(w.sys.db.log))
    requires w.phase.Rebuilt? && w.phase.mark <= |w.bus|
    requires ReadInOrder(w.sys.db.streams, w.phase.read) && SentInOrder(w.sys.db.streams, w.bus[..w.phase.mark])
    ensures forall k: Key, e :: e in Stream(w.sys.db.streams, k) && Handled(p, e) ==> feed(p.on[e.name].id(e)) == k
    ensures SingleFeed(p, feed, w.phase.read) && SingleFeed(p, feed, w.bus[..w.phase.mark])
  {
    var streams, log := w.sys.db.streams, w.sys.db.log;
    EngineTheorems.StreamEventsOwn(cfg, w.sys.db);
    forall k: Key, e | e in Stream(streams, k) ensures e in LogEvents(log) && e.metadata.aggregate == k {
      EngineTheorems.LogEventsOfStream(cfg, log, k);
      assert e in LogStream(log, k);
    }
    hide StreamsOk;
    FromStreams(streams, w.phase.read);
    FromStreams(streams, w.bus[..w.phase.mark]);
    hide LogEvents, Stream;
  }

  /** Events taken from their streams in order are in them. */
  lemma FromStreams(streams: Streams, events: seq<Event>)
    requires forall k: Key :: Filter(OfStream(k), events) <= Stream(streams, k)
    ensures forall e :: e in events ==> e in Stream(streams, e.metadata.aggregate)
  {
    forall e | e in events ensures e in Stream(streams, e.metadata.aggregate) {
      var k := e.metadata.aggregate;
      assert e in Filter(OfStream(k), events);
      assert Filter(OfStream(k), events) <= Stream(streams, k);
    }
  }

  // --- An event lost, and an event applied twice ---

  /** Steps of the engine as moves. */
  function Lift(actions: seq<Action>): (r: seq<Move>)
    ensures |r| == |actions|
  {
    seq(|actions|, i requires 0 <= i < |actions| => Beside(actions[i]))
  }

  predicate Silent(a: Action) {
    !a.Publish? && !a.RelayDispatch?
  }

  lemma AfterMove(cfg: Config, p: Projection, upcasters: Rebuilding.AggregateUpcasters, moves: seq<Move>, m: Move)
    ensures WorldAfter(cfg, p, upcasters, moves + [m]) == WorldStep(cfg, p, upcasters, WorldAfter(cfg, p, upcasters, moves), m)
    ensures Trace(moves + [m]) == Trace(moves) + if m.Beside? then [m.a] else []
  {
    assert (moves + [m])[..|moves|] == moves;
  }

  /** Steps that dispatch nothing move only the engine. */
  lemma {:induction false} SilentRun(cfg: Config, p: Projection, upcasters: Rebuilding.AggregateUpcasters, moves: seq<Move>,
                                     actions: seq<Action>)
    requires forall i :: 0 <= i < |actions| ==> Silent(actions[i])
    ensures Trace(moves + Lift(actions)) == Trace(moves) + actions
    ensures OnlyEngineMoved(WorldAfter(cfg, p, upcasters, moves), WorldAfter(cfg, p, upcasters, moves + Lift(actions)))
  {
    hide *;
    if actions == [] {
      NothingLifted();
      assert moves + Lift(actions) == moves;
      assert Trace(moves) + [] == Trace(moves);
      SameRest(WorldAfter(cfg, p, upcasters, moves));
    } else {
      var front, last := actions[..|actions| - 1], actions[|actions| - 1];
      assert actions == front + [last];
      SilentRun(cfg, p, upcasters, moves, front);
      LiftMore(moves, front, last);
      AfterMove(cfg, p, upcasters, moves + Lift(front), Beside(last));
      SilentStep(cfg, p, upcasters, WorldAfter(cfg, p, upcasters, moves), WorldAfter(cfg, p, upcasters, moves + Lift(front)), last);
      assert Trace(moves) + front + [last] == Trace(moves) + actions;
    }
  }

  ghost predicate OnlyEngineMoved(w: World, w': World) {
    w'.bus == w.bus && w'.views == w.views && w'.phase == w.phase
  }

  lemma NothingLifted()
    ensures Lift([]) == []
  {
  }

  lemma SameRest(w: World)
    ensures OnlyEngineMoved(w, w)
  {
  }

  lemma LiftMore(moves: seq<Move>, front: seq<Action>, last: Action)
    ensures moves + Lift(front + [last]) == moves + Lift(front) + [Beside(last)]
  {
  }

  lemma SilentStep(cfg: Config, p: Projection, upcasters: Rebuilding.AggregateUpcasters, w: World, w': World, a: Action)
    requires Silent(a) && OnlyEngineMoved(w, w')
    ensures OnlyEngineMoved(w, WorldStep(cfg, p, upcasters, w', Beside(a)))
  {
    hide Step;
    assert Sent(w'.sys, a) == [];
  }

  /** A command the engine will execute if nothing disturbs it, with at least one event. */
  ghost predicate WillCommit(cfg: Config, s: Sys, t: nat, cmd: Command, raws: seq<RawEvent>, ids: seq<nat>, tickets: seq<nat>) {
    && t !in s.threads && raws != []
    && (cfg.idempotent && cmd.id.Some? ==> cmd.id.value !in s.db.claims)
    && EngineProgress.MayAnswer(cfg, s, cmd, raws, ids, tickets)
    && Quiet(cfg, NewEvents(cfg, s, cmd, raws, ids), |cfg.strong|)
  }

  function NewEvents(cfg: Config, s: Sys, cmd: Command, raws: seq<RawEvent>, ids: seq<nat>): seq<Event>
    requires |ids| == |raws|
  {
    Enrich(AggregateOf(cfg, cmd.target), raws, cmd.target, |Stream(s.db.streams, cmd.target)|, ids)
  }

  /** Its events are committed and not yet published; the rebuild is where it was. */
  lemma CommitsBeside(cfg: Config, p: Projection, upcasters: Rebuilding.AggregateUpcasters, moves: seq<Move>,
                      t: nat, cmd: Command, raws: seq<RawEvent>, ids: seq<nat>, tickets: seq<nat>)
    requires WillCommit(cfg, WorldAfter(cfg, p, upcasters, moves).sys, t, cmd, raws, ids, tickets)
    ensures var w := WorldAfter(cfg, p, upcasters, moves);
      var w' := WorldAfter(cfg, p, upcasters, moves + Lift(EngineProgress.Alone(t, cmd, raws, ids, tickets)));
      var events := NewEvents(cfg, w.sys, cmd, raws, ids);
      && OnlyEngineMoved(w, w')
      && t in w'.sys.threads && w'.sys.threads[t] == Committed(Implicit(cmd, 0), [], events, 0)
      && Stream(w'.sys.db.streams, cmd.target) == Stream(w.sys.db.streams, cmd.target) + events
  {
    var alone := EngineProgress.Alone(t, cmd, raws, ids, tickets);
    hide Trace, Quiet, EngineProgress.MayAnswer, Lift, Enrich, Stream, OnlyEngineMoved, WorldAfter, After;
    EngineTrace(cfg, p, upcasters, moves);
    EngineTrace(cfg, p, upcasters, moves + Lift(alone));
    SilentRun(cfg, p, upcasters, moves, alone);
    EngineProgress.UndisturbedCommandCommits(cfg, Trace(moves), t, cmd, raws, ids, tickets);
  }

  /** What has been read or dispatched is committed. */
  lemma SeenIsCommitted(cfg: Config, p: Projection, w: World, e: Event)
    requires WorldOk(cfg, p, w) && w.phase.Reading?
    ensures e in w.phase.read || e in w.bus ==> IsCommitted(w.sys.db.streams, e)
  {
    assert DeliveryOk(cfg, w.sys.dispatched, w.sys.db) && StreamsOk(cfg, w.sys.db);
    var streams := w.sys.db.streams;
    hide StreamsOk, Filter, IsCommitted;
    assert ReadInOrder(streams, w.phase.read);
    if e in w.phase.read {
      FromStreams(streams, w.phase.read);
      StoredIsCommitted(cfg, w.sys.db, e.metadata.aggregate, e);
    }
  }

  lemma StoredIsCommitted(cfg: Config, db: Database, k: Key, e: Event)
    requires StreamsOk(cfg, db) && e in Stream(db.streams, k)
    ensures IsCommitted(db.streams, e)
  {
    assert Enriched(AggregateOf(cfg, k), k, 0, Stream(db.streams, k));
  }

  /** An event of one of the two sequences only, if handled, keeps the rebuild from being caught up. */
  lemma OneSided(p: Projection, w: World, e: Event)
    requires w.phase.Rebuilt? && w.phase.mark <= |w.bus| && Handled(p, e)
    requires e in w.phase.read <==> e !in w.bus[..w.phase.mark]
    ensures !CaughtUp(p, w)
  {
    var id := p.on[e.name].id(e);
    var read, sent := Filter(RoutedTo(p, id), w.phase.read), Filter(RoutedTo(p, id), w.bus[..w.phase.mark]);
    assert e in read <==> e !in sent;
  }

  /** The run that loses an event: it is committed and published after its stream was read, before the listeners are back. */
  function Losing(t: nat, cmd: Command, raws: seq<RawEvent>, ids: seq<nat>, tickets: seq<nat>): seq<Move> {
    Lift(EngineProgress.Alone(t, cmd, raws, ids, tickets)) + [Beside(Publish(t))] + [Attach]
  }

  /** The run that applies one twice: it is committed and read, and published once the listeners are back. */
  function Doubling(t: nat, cmd: Command, raws: seq<RawEvent>, ids: seq<nat>, tickets: seq<nat>): seq<Move> {
    Lift(EngineProgress.Alone(t, cmd, raws, ids, tickets)) + [ReadNext(cmd.target)] + [Attach] + [Beside(Publish(t))]
  }

  /** Where the command's first event stands once it is committed: stored, unread, not dispatched. */
  ghost predicate Unseen(w: World, t: nat, k: Key, e: Event) {
    && t in w.sys.threads && w.sys.threads[t].Committed? && w.sys.threads[t].snapshots == []
    && w.sys.threads[t].next < |w.sys.threads[t].events| && w.sys.threads[t].events[w.sys.threads[t].next] == e
    && e in Stream(w.sys.db.streams, k) && w.phase.Reading? && e !in w.phase.read && e !in w.bus
  }

  lemma CommittedUnseen(cfg: Config, p: Projection, upcasters: Rebuilding.AggregateUpcasters, moves: seq<Move>,
                        t: nat, cmd: Command, raws: seq<RawEvent>, ids: seq<nat>, tickets: seq<nat>)
    requires EngineTheorems.UpcastersOf(cfg, upcasters)
    requires var w := WorldAfter(cfg, p, upcasters, moves);
      w.phase.Reading? && WillCommit(cfg, w.sys, t, cmd, raws, ids, tickets)
    ensures var w := WorldAfter(cfg, p, upcasters, moves);
      var w' := WorldAfter(cfg, p, upcasters, moves + Lift(EngineProgress.Alone(t, cmd, raws, ids, tickets)));
      && |ids| == |raws| && raws != [] && |NewEvents(cfg, w.sys, cmd, raws, ids)| == |raws|
      && var first := NewEvents(cfg, w.sys, cmd, raws, ids)[0];
      && w'.phase == w.phase && first.name == raws[0].name && first.metadata.aggregate == cmd.target
      && Unseen(w', t, cmd.target, first)
      && |Stream(w'.sys.db.streams, cmd.target)| > |Stream(w.sys.db.streams, cmd.target)|
      && Stream(w'.sys.db.streams, cmd.target)[|Stream(w.sys.db.streams, cmd.target)|] == first
  {
    var w := WorldAfter(cfg, p, upcasters, moves);
    WorldInvariant(cfg, p, upcasters, moves);
    CommitsBeside(cfg, p, upcasters, moves, t, cmd, raws, ids, tickets);
    FirstIsNew(cfg, w.sys, cmd, raws, ids);
    SeenIsCommitted(cfg, p, w, NewEvents(cfg, w.sys, cmd, raws, ids)[0]);
    hide WorldAfter, NewEvents, IsCommitted, WorldOk, EngineTheorems.UpcastersOf, Quiet, EngineProgress.MayAnswer, Stream, Lift;
  }

  /** Published while detached, then attached: the event is dispatched, stored and never read. */
  lemma PublishThenAttach(cfg: Config, p: Projection, upcasters: Rebuilding.AggregateUpcasters, moves: seq<Move>, t: nat, k: Key, e: Event)
    requires var w := WorldAfter(cfg, p, upcasters, moves);
      Unseen(w, t, k, e) && ReadEnough(w.phase.from, w.phase.read)
    ensures var w := WorldAfter(cfg, p, upcasters, moves + [Beside(Publish(t))] + [Attach]);
      && w.phase.Rebuilt? && w.phase.mark == |w.bus|
      && e in w.bus && e in Stream(w.sys.db.streams, k) && e !in w.phase.read
  {
    var w := WorldAfter(cfg, p, upcasters, moves);
    var w1 := WorldStep(cfg, p, upcasters, w, Beside(Publish(t)));
    hide WorldAfter, ReadEnough;
    AfterMove(cfg, p, upcasters, moves, Beside(Publish(t)));
    AfterMove(cfg, p, upcasters, moves + [Beside(Publish(t))], Attach);
    PublishWhileReading(cfg, p, upcasters, w, t);
    hide WorldStep;
    AttachNow(cfg, p, upcasters, w1);
  }

  /**
   * From every reachable state in which a rebuild has read what it must, a command can
   * commit and publish before the listeners are back. Its event is then in the log and was
   * dispatched, but the rebuilt store is not the live one, for any projection that handles
   * it and forgets nothing.
   */
  lemma EventLostToRebuild(cfg: Config, p: Projection, upcasters: Rebuilding.AggregateUpcasters, moves: seq<Move>,
                           t: nat, cmd: Command, raws: seq<RawEvent>, ids: seq<nat>, tickets: seq<nat>)
    requires EngineTheorems.UpcastersOf(cfg, upcasters)
    requires var w := WorldAfter(cfg, p, upcasters, moves);
      && w.phase.Reading? && ReadEnough(w.phase.from, w.phase.read)
      && WillCommit(cfg, w.sys, t, cmd, raws, ids, tickets) && raws[0].name in p.on
    ensures var w := WorldAfter(cfg, p, upcasters, moves + Losing(t, cmd, raws, ids, tickets));
      && w.phase.Rebuilt?
      && (exists e :: e in w.bus && e in Stream(w.sys.db.streams, cmd.target) && e !in w.phase.read && Handled(p, e))
      && (forall history :: ForgetsNothing(p, history) ==> w.views != Project(p, map[], w.bus))
  {
    var committed := moves + Lift(EngineProgress.Alone(t, cmd, raws, ids, tickets));
    var e := NewEvents(cfg, WorldAfter(cfg, p, upcasters, moves).sys, cmd, raws, ids)[0];
    var last := committed + [Beside(Publish(t))] + [Attach];
    assert moves + Losing(t, cmd, raws, ids, tickets) == last;
    hide *;
    CommittedUnseen(cfg, p, upcasters, moves, t, cmd, raws, ids, tickets);
    PublishThenAttach(cfg, p, upcasters, committed, t, cmd.target, e);
    var w := WorldAfter(cfg, p, upcasters, last);
    assert w.bus[..|w.bus|] == w.bus;
    OneSided(p, w, e);
    RebuiltEqualsLiveIff(cfg, p, upcasters, last);
  }

  lemma FirstIsNew(cfg: Config, s: Sys, cmd: Command, raws: seq<RawEvent>, ids: seq<nat>)
    requires raws != [] && |ids| == |raws|
    ensures var events := NewEvents(cfg, s, cmd, raws, ids);
      |events| == |raws| && events[0].name == raws[0].name && events[0].metadata.aggregate == cmd.target
      && !IsCommitted(s.db.streams, events[0])
  {
  }

  lemma PublishWhileReading(cfg: Config, p: Projection, upcasters: Rebuilding.AggregateUpcasters, w: World, t: nat)
    requires t in w.sys.threads && w.sys.threads[t].Committed? && w.sys.threads[t].snapshots == []
    requires w.sys.threads[t].next < |w.sys.threads[t].events| && (w.phase.Reading? || w.phase.Rebuilt?)
    ensures var w' := WorldStep(cfg, p, upcasters, w, Beside(Publish(t)));
      w'.phase == w.phase && w'.sys.db == w.sys.db && w'.bus == w.bus + [w.sys.threads[t].events[w.sys.threads[t].next]]
  {
  }

  lemma AttachNow(cfg: Config, p: Projection, upcasters: Rebuilding.AggregateUpcasters, w: World)
    requires w.phase.Reading? && ReadEnough(w.phase.from, w.phase.read)
    ensures WorldStep(cfg, p, upcasters, w, Attach) == w.(phase := Rebuilt(w.phase.from, w.phase.read, |w.bus|))
  {
  }

  /** Reading the next event of a stream, when it can be routed. */
  lemma ReadsNext(cfg: Config, p: Projection, upcasters: Rebuilding.AggregateUpcasters, w: World, k: Key)
    requires WorldOk(cfg, p, w) && EngineTheorems.UpcastersOf(cfg, upcasters) && w.phase.Reading?
    requires ReadOf(w.phase.read, k) < |Stream(w.sys.db.streams, k)|
    requires !Rebuilding.Unroutable(p, Stream(w.sys.db.streams, k)[ReadOf(w.phase.read, k)])
    ensures var w' := WorldStep(cfg, p, upcasters, w, ReadNext(k));
      && w'.phase == Reading(w.phase.from, w.phase.read + [Stream(w.sys.db.streams, k)[ReadOf(w.phase.read, k)]])
      && w'.sys == w.sys && w'.bus == w.bus
      && (ReadEnough(w.phase.from, w.phase.read) ==> ReadEnough(w'.phase.from, w'.phase.read))
  {
    hide Inv, Project, Extends, Deliver, Rebuilding.UpcastOne, ReadOf, ReadInOrder;
    StoredAreCurrent(cfg, upcasters, w.sys, k, ReadOf(w.phase.read, k));
    ReadOne(w.sys.db.streams, w.phase.read, k);
  }

  /** Read, then attached, then published: the event is read, and dispatched only afterwards. */
  lemma AttachThenPublish(cfg: Config, p: Projection, upcasters: Rebuilding.AggregateUpcasters, moves: seq<Move>, t: nat, k: Key, e: Event)
    requires EngineTheorems.UpcastersOf(cfg, upcasters)
    requires var w := WorldAfter(cfg, p, upcasters, moves);
      && Unseen(w, t, k, e) && ReadEnough(w.phase.from, w.phase.read) && !Rebuilding.Unroutable(p, e)
      && ReadOf(w.phase.read, k) < |Stream(w.sys.db.streams, k)| && Stream(w.sys.db.streams, k)[ReadOf(w.phase.read, k)] == e
    ensures var w := WorldAfter(cfg, p, upcasters, moves + [ReadNext(k)] + [Attach] + [Beside(Publish(t))]);
      && w.phase.Rebuilt? && w.phase.mark < |w.bus|
      && e in w.phase.read && e !in w.bus[..w.phase.mark] && e in w.bus[w.phase.mark..]
  {
    WorldInvariant(cfg, p, upcasters, moves);
    var w := WorldAfter(cfg, p, upcasters, moves);
    ReadsNext(cfg, p, upcasters, w, k);
    var w1 := WorldStep(cfg, p, upcasters, w, ReadNext(k));
    var w2 := WorldStep(cfg, p, upcasters, w1, Attach);
    var w3 := WorldStep(cfg, p, upcasters, w2, Beside(Publish(t)));
    hide WorldAfter, ReadEnough, ReadOf, WorldOk, Rebuilding.Unroutable, Stream, EngineTheorems.UpcastersOf;
    AfterMove(cfg, p, upcasters, moves, ReadNext(k));
    AfterMove(cfg, p, upcasters, moves + [ReadNext(k)], Attach);
    AfterMove(cfg, p, upcasters, moves + [ReadNext(k)] + [Attach], Beside(Publish(t)));
    hide WorldStep;
    AttachNow(cfg, p, upcasters, w1);
    PublishWhileReading(cfg, p, upcasters, w2, t);
    assert w3.bus == w.bus + [e];
  }

  /**
   * From every reachable state in which a rebuild has read what it must and is at the end of
   * a stream, a command on that stream can commit, be read, and publish once the listeners
   * are back: its event is applied twice.
   */
  lemma EventAppliedTwice(cfg: Config, p: Projection, upcasters: Rebuilding.AggregateUpcasters, moves: seq<Move>,
                          t: nat, cmd: Command, raws: seq<RawEvent>, ids: seq<nat>, tickets: seq<nat>)
    requires EngineTheorems.UpcastersOf(cfg, upcasters)
    requires var w := WorldAfter(cfg, p, upcasters, moves);
      && w.phase.Reading? && ReadEnough(w.phase.from, w.phase.read)
      && ReadOf(w.phase.read, cmd.target) == |Stream(w.sys.db.streams, cmd.target)|
      && WillCommit(cfg, w.sys, t, cmd, raws, ids, tickets) && raws[0].name in p.on
      && !Rebuilding.Unroutable(p, NewEvents(cfg, w.sys, cmd, raws, ids)[0])
    ensures var w := WorldAfter(cfg, p, upcasters, moves + Doubling(t, cmd, raws, ids, tickets));
      && w.phase.Rebuilt? && w.phase.mark <= |w.bus|
      && (exists e :: e in w.phase.read && e in w.bus[w.phase.mark..] && e !in w.bus[..w.phase.mark] && Handled(p, e))
      && (forall history :: ForgetsNothing(p, history) ==> w.views != Project(p, map[], w.bus))
  {
    var committed := moves + Lift(EngineProgress.Alone(t, cmd, raws, ids, tickets));
    var e := NewEvents(cfg, WorldAfter(cfg, p, upcasters, moves).sys, cmd, raws, ids)[0];
    var last := committed + [ReadNext(cmd.target)] + [Attach] + [Beside(Publish(t))];
    assert moves + Doubling(t, cmd, raws, ids, tickets) == last;
    hide *;
    CommittedUnseen(cfg, p, upcasters, moves, t, cmd, raws, ids, tickets);
    AttachThenPublish(cfg, p, upcasters, committed, t, cmd.target, e);
    OneSided(p, WorldAfter(cfg, p, upcasters, last), e);
    RebuiltEqualsLiveIff(cfg, p, upcasters, last);
  }

  // --- Halting writes ---

  /** While only the engine moves, what a finished rebuild read, and what came before it was back, stay as they are. */
  lemma {:induction false} StaysRebuilt(cfg: Config, p: Projection, upcasters: Rebuilding.AggregateUpcasters, moves: seq<Move>,
                                        actions: seq<Action>)
    requires WorldAfter(cfg, p, upcasters, moves).phase.Rebuilt?
    ensures var w, w' := WorldAfter(cfg, p, upcasters, moves), WorldAfter(cfg, p, upcasters, moves + Lift(actions));
      w'.phase == w.phase && w.bus <= w'.bus
  {
    hide *;
    if actions == [] {
      NothingLifted();
      assert moves + Lift(actions) == moves;
    } else {
      var front, last := actions[..|actions| - 1], actions[|actions| - 1];
      assert actions == front + [last];
      StaysRebuilt(cfg, p, upcasters, moves, front);
      LiftMore(moves, front, last);
      AfterMove(cfg, p, upcasters, moves + Lift(front), Beside(last));
      BesideOnly(cfg, p, upcasters, WorldAfter(cfg, p, upcasters, moves + Lift(front)), last);
    }
  }

  lemma BesideOnly(cfg: Config, p: Projection, upcasters: Rebuilding.AggregateUpcasters, w: World, a: Action)
    ensures var w' := WorldStep(cfg, p, upcasters, w, Beside(a)); w'.phase == w.phase && w.bus <= w'.bus
  {
    hide Step, Sent;
  }

  /** Every handled event of the log has been dispatched. */
  ghost predicate Drained(p: Projection, streams: Streams, bus: seq<Event>) {
    forall k: Key, i :: ReadOf(bus, k) <= i < |Stream(streams, k)| ==> !Handled(p, Stream(streams, k)[i])
  }

  /** A rebuild that has read all there is has caught up with a bus exactly when the bus has carried all there is. */
  lemma AllReadIff(p: Projection, feed: ViewId -> Key, w: World)
    requires w.phase.Rebuilt? && w.phase.mark <= |w.bus|
    requires ReadInOrder(w.sys.db.streams, w.phase.read) && SentInOrder(w.sys.db.streams, w.bus[..w.phase.mark])
    requires forall k: Key :: ReadOf(w.phase.read, k) == |Stream(w.sys.db.streams, k)|
    requires SingleFeed(p, feed, w.phase.read) && SingleFeed(p, feed, w.bus[..w.phase.mark])
    requires forall k: Key, e :: e in Stream(w.sys.db.streams, k) && Handled(p, e) ==> feed(p.on[e.name].id(e)) == k
    ensures CaughtUp(p, w) <==> Drained(p, w.sys.db.streams, w.bus[..w.phase.mark])
  {
    hide *;
    CaughtUpPositions(p, feed, w);
    DrainedIff(p, w.sys.db.streams, w.phase.read, w.bus[..w.phase.mark]);
  }

  lemma DrainedIff(p: Projection, streams: Streams, read: seq<Event>, sent: seq<Event>)
    requires forall k: Key :: ReadOf(read, k) == |Stream(streams, k)|
    ensures Drained(p, streams, sent) <==>
      forall k: Key :: NoneBetween(p, Stream(streams, k), ReadOf(read, k), ReadOf(sent, k))
  {
    hide ReadOf, Stream, Handled;
    if forall k: Key :: NoneBetween(p, Stream(streams, k), ReadOf(read, k), ReadOf(sent, k)) {
      forall k: Key, i | ReadOf(sent, k) <= i < |Stream(streams, k)| ensures !Handled(p, Stream(streams, k)[i]) {
        assert NoneBetween(p, Stream(streams, k), ReadOf(read, k), ReadOf(sent, k));
      }
    }
  }

  /** With writes halted since the reader was asked, what it must read is all there is. */
  lemma HaltedReadsAll(w: World)
    requires w.phase.Reading? && ReadInOrder(w.sys.db.streams, w.phase.read) && ReadEnough(w.phase.from, w.phase.read)
    requires forall k: Key :: Stream(w.sys.db.streams, k) == Stream(w.phase.from, k)
    ensures forall k: Key :: ReadOf(w.phase.read, k) == |Stream(w.sys.db.streams, k)|
  {
    forall k: Key ensures ReadOf(w.phase.read, k) == |Stream(w.sys.db.streams, k)| {
      assert Filter(OfStream(k), w.phase.read) <= Stream(w.sys.db.streams, k);
      hide Filter;
      assert k in w.phase.from ==> ReadOf(w.phase.read, k) >= |w.phase.from[k]|;
    }
  }

  /**
   * The documentation asks callers to halt writes during a rebuild. That is enough if and
   * only if the bus has carried every handled event of the log, too, by the time the
   * listeners are back: an event still waiting to be dispatched then is read by the rebuild
   * and applied again when it is dispatched. The condition settles every later state.
   */
  lemma HaltedRebuildEqualsLiveIff(cfg: Config, p: Projection, upcasters: Rebuilding.AggregateUpcasters, moves: seq<Move>,
                                   feed: ViewId -> Key, later: seq<Action>)
    requires EngineTheorems.UpcastersOf(cfg, upcasters)
    requires var w := WorldAfter(cfg, p, upcasters, moves);
      && w.phase.Reading? && ReadEnough(w.phase.from, w.phase.read)
      && (forall k: Key :: Stream(w.sys.db.streams, k) == Stream(w.phase.from, k))
      && SingleFeed(p, feed, LogEvents(w.sys.db.log)) && SentInOrder(w.sys.db.streams, w.bus)
    ensures var w := WorldAfter(cfg, p, upcasters, moves);
      var w' := WorldAfter(cfg, p, upcasters, moves + [Attach] + Lift(later));
      && w'.phase.Rebuilt?
      && (Drained(p, w.sys.db.streams, w.bus) ==> w'.views == Project(p, map[], w'.bus))
      && (forall history :: ForgetsNothing(p, history) && w'.views == Project(p, map[], w'.bus) ==> Drained(p, w.sys.db.streams, w.bus))
  {
    hide *;
    WorldInvariant(cfg, p, upcasters, moves);
    var w := WorldAfter(cfg, p, upcasters, moves);
    ReadingFacts(cfg, p, w);
    HaltedReadsAll(w);
    AfterMove(cfg, p, upcasters, moves, Attach);
    AttachNow(cfg, p, upcasters, w);
    var w1 := WorldAfter(cfg, p, upcasters, moves + [Attach]);
    assert w1.bus[..w1.phase.mark] == w.bus;
    FeedEverywhere(cfg, p, feed, w1);
    AllReadIff(p, feed, w1);
    StaysRebuilt(cfg, p, upcasters, moves + [Attach], later);
    var w2 := WorldAfter(cfg, p, upcasters, moves + [Attach] + Lift(later));
    CaughtUpStays(p, w1, w2);
    RebuiltEqualsLiveIff(cfg, p, upcasters, moves + [Attach] + Lift(later));
  }

  lemma ReadingFacts(cfg: Config, p: Projection, w: World)
    requires w.phase.Reading? && WorldOk(cfg, p, w)
    ensures ReadInOrder(w.sys.db.streams, w.phase.read) && StreamsOk(cfg, w.sys.db)
  {
    hide StreamsOk, ReadInOrder, Project;
  }

  lemma CaughtUpStays(p: Projection, w: World, w': World)
    requires w.phase.Rebuilt? && w'.phase == w.phase && w.phase.mark <= |w.bus| && w.bus <= w'.bus
    ensures CaughtUp(p, w') <==> CaughtUp(p, w)
  {
    assert w'.bus[..w.phase.mark] == w.bus[..w.phase.mark];
  }
}
