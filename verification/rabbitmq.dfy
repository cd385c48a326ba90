/** The RabbitMQ consumer: deliveries of one aggregate are chained, others run freely. */
module RabbitConsumer {
  import opened BrokerHandlers
  import opened Types

  type AggregateId = string

  datatype Status = Pending | Running | Finished | Cleaned

  /** A delivery: its aggregate, if any, and the delivery whose promise it chained onto. */
  datatype Task = Task(aggregate: Option<AggregateId>, prior: Option<nat>, status: Status)

  /** Deliveries by arrival, and the chain map: the last delivery chained per aggregate. */
  datatype Consumer = Consumer(tasks: seq<Task>, chains: map<AggregateId, nat>)

  datatype Event = Arrive(aggregate: Option<AggregateId>) | Start(i: nat) | Finish(i: nat) | CleanUp(i: nat)

  predicate Done(t: Task) {
    t.status.Finished? || t.status.Cleaned?
  }

  function ArriveStep(c: Consumer, aggregate: Option<AggregateId>): Consumer {
    match aggregate
    case None => c.(tasks := c.tasks + [Task(None, None, Pending)])
    case Some(a) =>
      var prior := if a in c.chains then Some(c.chains[a]) else None;
      Consumer(c.tasks + [Task(Some(a), prior, Pending)], c.chains[a := |c.tasks|])
  }

  /** Processing begins once the promise it chained onto has resolved; processing never rejects. */
  predicate CanStart(c: Consumer, i: nat) {
    && i < |c.tasks| && c.tasks[i].status.Pending?
    && (c.tasks[i].prior.Some? ==> c.tasks[i].prior.value < |c.tasks| && Done(c.tasks[c.tasks[i].prior.value]))
  }

  function SetStatus(c: Consumer, i: nat, status: Status): Consumer
    requires i < |c.tasks|
  {
    c.(tasks := c.tasks[i := c.tasks[i].(status := status)])
  }

  /** After its processing a delivery removes the chain entry, if that is still its own. */
  function CleanUpStep(c: Consumer, i: nat): Consumer {
    if i >= |c.tasks| || !c.tasks[i].status.Finished? || c.tasks[i].aggregate.None? then c
    else
      var a := c.tasks[i].aggregate.value;
      var cleaned := SetStatus(c, i, Cleaned);
      if a in c.chains && c.chains[a] == i then cleaned.(chains := c.chains - {a}) else cleaned
  }

  function Step(c: Consumer, e: Event): Consumer {
    match e
    case Arrive(aggregate) => ArriveStep(c, aggregate)
    case Start(i) => if CanStart(c, i) then SetStatus(c, i, Running) else c
    case Finish(i) => if i < |c.tasks| && c.tasks[i].status.Running? then SetStatus(c, i, Finished) else c
    case CleanUp(i) => CleanUpStep(c, i)
  }

  function After(events: seq<Event>): Consumer {
    if events == [] then Consumer([], map[]) else Step(After(events[..|events| - 1]), events[|events| - 1])
  }

  predicate Same(c: Consumer, i: nat, j: nat)
    requires i < |c.tasks| && j < |c.tasks|
  {
    c.tasks[i].aggregate.Some? && c.tasks[i].aggregate == c.tasks[j].aggregate
  }

  ghost predicate InOrder(c: Consumer) {
    forall i: nat, j: nat :: i < j < |c.tasks| && Same(c, i, j) && !c.tasks[j].status.Pending? ==> Done(c.tasks[i])
  }

  /** A delivery waits for the one just before it in its aggregate, unless all before it are done. */
  ghost predicate Chained(c: Consumer) {
    forall j: nat :: j < |c.tasks| ==>
      && (c.tasks[j].prior.Some? ==>
            && c.tasks[j].prior.value < j && Same(c, c.tasks[j].prior.value, j)
            && forall i: nat :: c.tasks[j].prior.value < i < j ==> !Same(c, i, j))
      && (c.tasks[j].prior.None? ==> forall i: nat :: i < j && Same(c, i, j) ==> Done(c.tasks[i]))
  }

  /** The chain entry is the last delivery of its aggregate; with no entry all of them are done. */
  ghost predicate ChainsLast(c: Consumer) {
    && (forall a :: a in c.chains ==>
          && c.chains[a] < |c.tasks| && c.tasks[c.chains[a]].aggregate == Some(a)
          && !c.tasks[c.chains[a]].status.Cleaned?
          && forall i: nat :: c.chains[a] < i < |c.tasks| ==> c.tasks[i].aggregate != Some(a))
    && (forall i: nat :: i < |c.tasks| && c.tasks[i].aggregate.Some? && c.tasks[i].aggregate.value !in c.chains ==> Done(c.tasks[i]))
  }

  ghost predicate Inv(c: Consumer) {
    InOrder(c) && Chained(c) && ChainsLast(c)
  }

  /** Only the first unfinished delivery of an aggregate can start. */
  lemma StartsFirst(c: Consumer, j: nat)
    requires Inv(c) && CanStart(c, j)
    ensures forall i: nat :: i < j && Same(c, i, j) ==> Done(c.tasks[i])
  {
    forall i: nat | i < j && Same(c, i, j) ensures Done(c.tasks[i]) {
      if c.tasks[j].prior.Some? {
        var p := c.tasks[j].prior.value;
        assert Same(c, p, j);
        if i < p {
          assert Same(c, i, p);
        }
      }
    }
  }

  /** `c'` has the deliveries of `c` and maybe more, none of which has become less done. */
  ghost predicate Grows(c: Consumer, c': Consumer) {
    && |c.tasks| <= |c'.tasks|
    && (forall j: nat :: j < |c.tasks| ==>
          && c'.tasks[j].aggregate == c.tasks[j].aggregate && c'.tasks[j].prior == c.tasks[j].prior
          && (Done(c.tasks[j]) ==> Done(c'.tasks[j])))
  }

  lemma ChainedKept(c: Consumer, c': Consumer, j: nat)
    requires Grows(c, c') && Chained(c) && j < |c.tasks|
    ensures c'.tasks[j].prior.Some? ==>
      && c'.tasks[j].prior.value < j && Same(c', c'.tasks[j].prior.value, j)
      && forall i: nat :: c'.tasks[j].prior.value < i < j ==> !Same(c', i, j)
    ensures c'.tasks[j].prior.None? ==> forall i: nat :: i < j && Same(c', i, j) ==> Done(c'.tasks[i])
  {
    forall i: nat | i < j ensures Same(c', i, j) == Same(c, i, j) {
    }
  }

  lemma StatusKeepsInv(c: Consumer, i: nat, status: Status)
    requires Inv(c) && i < |c.tasks| && !Done(c.tasks[i]) && !status.Pending? && !status.Cleaned?
    requires forall j: nat :: j < i && Same(c, j, i) ==> Done(c.tasks[j])
    ensures Inv(SetStatus(c, i, status))
  {
    var c' := SetStatus(c, i, status);
    assert Grows(c, c');
    forall j: nat | j < |c'.tasks| {
      ChainedKept(c, c', j);
    }
    forall j: nat, k: nat | j < k < |c'.tasks| && Same(c', j, k) && !c'.tasks[k].status.Pending?
      ensures Done(c'.tasks[j])
    {
      assert Same(c, j, k);
    }
  }

  /** The newcomer chains onto the last delivery of its aggregate that may still be unfinished. */
  lemma ArriveChained(c: Consumer, aggregate: Option<AggregateId>)
    requires Chained(c) && ChainsLast(c)
    ensures Chained(ArriveStep(c, aggregate))
  {
    var c' := ArriveStep(c, aggregate);
    assert Grows(c, c');
    forall j: nat | j < |c.tasks| {
      ChainedKept(c, c', j);
    }
    assert forall i: nat :: i < |c.tasks| ==> (Same(c', i, |c.tasks|) <==> aggregate.Some? && c.tasks[i].aggregate == aggregate);
  }

  lemma ArriveInOrder(c: Consumer, aggregate: Option<AggregateId>)
    requires InOrder(c)
    ensures InOrder(ArriveStep(c, aggregate))
  {
    var c' := ArriveStep(c, aggregate);
    forall j: nat, k: nat | j < k < |c'.tasks| && Same(c', j, k) && !c'.tasks[k].status.Pending?
      ensures Done(c'.tasks[j])
    {
      assert Same(c, j, k);
    }
  }

  lemma ArriveChainsLast(c: Consumer, aggregate: Option<AggregateId>)
    requires ChainsLast(c)
    ensures ChainsLast(ArriveStep(c, aggregate))
  {
    var c' := ArriveStep(c, aggregate);
    assert forall i: nat :: i < |c.tasks| ==> c'.tasks[i] == c.tasks[i];
  }

  lemma ArriveKeepsInv(c: Consumer, aggregate: Option<AggregateId>)
    requires Inv(c)
    ensures Inv(ArriveStep(c, aggregate))
  {
    hide InOrder, Chained, ChainsLast;
    ArriveInOrder(c, aggregate);
    ArriveChained(c, aggregate);
    ArriveChainsLast(c, aggregate);
  }

  lemma CleanUpKeepsInv(c: Consumer, i: nat)
    requires Inv(c)
    ensures Inv(CleanUpStep(c, i))
  {
    var c' := CleanUpStep(c, i);
    if c' != c {
      assert Grows(c, c');
      forall j: nat | j < |c'.tasks| {
        ChainedKept(c, c', j);
      }
      forall j: nat, k: nat | j < k < |c'.tasks| && Same(c', j, k) && !c'.tasks[k].status.Pending?
        ensures Done(c'.tasks[j])
      {
        assert Same(c, j, k);
      }
      CleanUpKeepsChains(c, i);
    }
  }

  /** The entries that stay are still the last deliveries of their aggregates. */
  lemma CleanUpKeepsEntries(c: Consumer, i: nat)
    requires ChainsLast(c) && CleanUpStep(c, i) != c
    ensures var c' := CleanUpStep(c, i);
      forall a :: a in c'.chains ==>
        && c'.chains[a] < |c'.tasks| && c'.tasks[c'.chains[a]].aggregate == Some(a)
        && !c'.tasks[c'.chains[a]].status.Cleaned?
        && forall j: nat :: c'.chains[a] < j < |c'.tasks| ==> c'.tasks[j].aggregate != Some(a)
  {
  }

  lemma CleanUpKeepsChains(c: Consumer, i: nat)
    requires Inv(c) && CleanUpStep(c, i) != c
    ensures ChainsLast(CleanUpStep(c, i))
  {
    var c' := CleanUpStep(c, i);
    CleanUpKeepsEntries(c, i);
    hide Chained;
    forall j: nat | j < |c'.tasks| && c'.tasks[j].aggregate.Some? && c'.tasks[j].aggregate.value !in c'.chains
      ensures Done(c'.tasks[j])
    {
      if c.tasks[j].aggregate.value in c.chains && j < i {
        assert Same(c, j, i);
      }
    }
  }

  lemma {:induction false} Invariant(events: seq<Event>)
    ensures Inv(After(events))
  {
    if events != [] {
      var c := After(events[..|events| - 1]);
      Invariant(events[..|events| - 1]);
      hide Inv;
      match events[|events| - 1]
      case Arrive(aggregate) => ArriveKeepsInv(c, aggregate);
      case Start(i) =>
        if CanStart(c, i) {
          StartKeepsInv(c, i);
        }
      case Finish(i) =>
        if i < |c.tasks| && c.tasks[i].status.Running? {
          FinishKeepsInv(c, i);
        }
      case CleanUp(i) => CleanUpKeepsInv(c, i);
    }
  }

  lemma StartKeepsInv(c: Consumer, i: nat)
    requires Inv(c) && CanStart(c, i)
    ensures Inv(SetStatus(c, i, Running))
  {
    StartsFirst(c, i);
    StatusKeepsInv(c, i, Running);
  }

  lemma FinishKeepsInv(c: Consumer, i: nat)
    requires Inv(c) && i < |c.tasks| && c.tasks[i].status.Running?
    ensures Inv(SetStatus(c, i, Finished))
  {
    assert forall j: nat :: j < i && Same(c, j, i) ==> Done(c.tasks[j]);
    StatusKeepsInv(c, i, Finished);
  }

  /**
   * For every interleaving of arrivals, starts and completions: two deliveries of one
   * aggregate are never processed at once, and the later one starts only after the
   * earlier one finished.
   */
  lemma SerialisedPerAggregate(events: seq<Event>, i: nat, j: nat)
    requires i < j < |After(events).tasks| && Same(After(events), i, j)
    ensures var c := After(events);
      && !(c.tasks[i].status.Running? && c.tasks[j].status.Running?)
      && (!c.tasks[j].status.Pending? ==> Done(c.tasks[i]))
  {
    Invariant(events);
  }

  /** A delivery can start exactly when every earlier one of its own aggregate is done: no other aggregate holds it up. */
  lemma OtherAggregatesIndependent(events: seq<Event>, j: nat)
    requires j < |After(events).tasks| && After(events).tasks[j].status.Pending?
    ensures var c := After(events);
      CanStart(c, j) <==> forall i: nat :: i < j && Same(c, i, j) ==> Done(c.tasks[i])
  {
    Invariant(events);
    var c := After(events);
    if CanStart(c, j) {
      StartsFirst(c, j);
    }
  }

  /** A waiting delivery never waits on nothing: one of its aggregate, itself or an earlier one, is running or can start. */
  lemma {:induction false} NoDeadlock(events: seq<Event>, j: nat) returns (i: nat)
    requires j < |After(events).tasks| && After(events).tasks[j].status.Pending?
    ensures var c := After(events);
      && i <= j && (i == j || Same(c, i, j))
      && (c.tasks[i].status.Running? || CanStart(c, i))
    decreases j
  {
    Invariant(events);
    var c := After(events);
    if CanStart(c, j) {
      i := j;
    } else {
      var p := c.tasks[j].prior.value;
      assert Same(c, p, j);
      if c.tasks[p].status.Running? {
        i := p;
      } else {
        i := NoDeadlock(events, p);
      }
    }
  }

  /**
   * The chain map does not leak and does not forget: once every delivery has cleaned up it
   * is empty, and while a delivery of an aggregate is unprocessed the aggregate has an entry.
   */
  lemma ChainsDrain(events: seq<Event>)
    ensures var c := After(events);
      && ((forall i :: 0 <= i < |c.tasks| && c.tasks[i].aggregate.Some? ==> c.tasks[i].status.Cleaned?) ==> c.chains == map[])
      && (forall i: nat :: i < |c.tasks| && c.tasks[i].aggregate.Some? && !Done(c.tasks[i]) ==> c.tasks[i].aggregate.value in c.chains)
  {
    Invariant(events);
    var c := After(events);
    if c.chains.Keys != {} {
      var a :| a in c.chains.Keys;
      assert !c.tasks[c.chains[a]].status.Cleaned?;
    }
  }

  // --- One delivery: the retry cap, the handlers, ack or requeue ---

  datatype Verdict = Acked | Requeued | DeadLettered

  class Deliveries {
    var counts: map<string, nat>

    constructor ()
      ensures counts == map[]
    {
      counts := map[];
    }

    function CountOf(key: string): nat
      reads this
    {
      if key in counts then counts[key] else 0
    }

    /** Runs the handlers; true means it throws. A message that does not parse is skipped. */
    method HandleMessage(parses: bool, results: seq<HandlerResult>) returns (throws: bool)
      ensures throws <==> parses && exists i :: 0 <= i < |results| && results[i] == Rejected
    {
      if !parses {
        return false;
      }
      throws := false;
      for i := 0 to |results|
        invariant throws <==> exists j :: 0 <= j < i && results[j] == Rejected
      {
        if results[i] == Rejected {
          throws := true;
        }
      }
    }

    /**
     * Without a cap a failing message is requeued for ever. With one, the cap is checked
     * before the handlers run, so a message reaches them at most `maxRetries` times.
     */
    method Process(key: string, maxRetries: Option<nat>, parses: bool, results: seq<HandlerResult>) returns (v: Verdict)
      modifies this
      ensures v == if maxRetries.Some? && old(CountOf(key)) >= maxRetries.value then DeadLettered
                   else if parses && exists i :: 0 <= i < |results| && results[i] == Rejected then Requeued
                   else Acked
      ensures maxRetries.None? ==> counts == old(counts)
      ensures maxRetries.Some? ==> CountOf(key) == if v.Requeued? then old(CountOf(key)) + 1 else 0
      ensures forall k :: k != key ==> CountOf(k) == old(CountOf(k))
    {
      if maxRetries.Some? {
        var count := CountOf(key) + 1;
        counts := counts[key := count];
        if count > maxRetries.value {
          counts := counts - {key};
          return DeadLettered;
        }
      }
      var throws := HandleMessage(parses, results);
      if throws {
        return Requeued;
      }
      if maxRetries.Some? {
        counts := counts - {key};
      }
      return Acked;
    }

    /** A message a handler of which always rejects is requeued exactly `maxRetries` times and then dead-lettered. */
    method DeliverUntilSettled(key: string, maxRetries: nat, results: seq<HandlerResult>) returns (requeues: nat)
      requires CountOf(key) == 0 && exists i :: 0 <= i < |results| && results[i] == Rejected
      modifies this
      ensures requeues == maxRetries && CountOf(key) == 0
    {
      requeues := 0;
      var v := Process(key, Some(maxRetries), true, results);
      while v != DeadLettered
        invariant v.Requeued? ==> CountOf(key) == requeues + 1 <= maxRetries
        invariant v.DeadLettered? ==> requeues == maxRetries && CountOf(key) == 0
        invariant !v.Acked?
        decreases maxRetries - requeues, v.Requeued?
      {
        requeues := requeues + 1;
        v := Process(key, Some(maxRetries), true, results);
      }
    }
  }
}
