/**
 * The Kafka consumer as a redelivery state machine over one partition: a throw restarts
 * the fetch from the last committed offset.
 */
module KafkaConsumer {
  import opened BrokerHandlers

  /** A message: no value, a value that does not parse, or an event for the handlers. */
  datatype Message = Empty | Unparseable | Parsed

  /** How one delivery goes: each handler's result, and whether parking and committing succeed. */
  datatype Attempt = Attempt(results: seq<HandlerResult>, dlqOk: bool, commitOk: bool)

  /**
   * `counts` is the in-memory delivery count by offset; `dlq` the offsets parked, in order;
   * `handled` the offsets some delivery of which was taken as handled; `failures` how many
   * deliveries of each offset were taken as failed.
   */
  datatype Partition = Partition(
    position: nat,
    committed: nat,
    counts: map<nat, nat>,
    dlq: seq<nat>,
    handled: set<nat>,
    failures: map<nat, nat>)

  function CountAt(counts: map<nat, nat>, offset: nat): nat {
    if offset in counts then counts[offset] else 0
  }

  /** `_handleMessage`: the new state, and whether it throws. */
  function Handle(maxRetries: nat, p: Partition, offset: nat, m: Message, a: Attempt): (Partition, bool) {
    if m.Unparseable? then (if a.dlqOk then p.(dlq := p.dlq + [offset]) else p, false)
    else if AllSucceeded(a.results) then (p.(handled := p.handled + {offset}), false)
    else
      var attempt := CountAt(p.counts, offset) + 1;
      var failed := p.(counts := p.counts[offset := attempt],
                       failures := p.failures[offset := CountAt(p.failures, offset) + 1]);
      if attempt <= maxRetries || !a.dlqOk then (failed, true)
      else (failed.(dlq := p.dlq + [offset], counts := p.counts - {offset}), false)
  }

  /** `eachMessage` at the current position. */
  function Deliver(maxRetries: nat, log: seq<Message>, p: Partition, a: Attempt): Partition {
    if p.position >= |log| then p
    else if log[p.position].Empty? then p.(position := p.position + 1)
    else
      var handled := Handle(maxRetries, p, p.position, log[p.position], a);
      var q := handled.0;
      if handled.1 || !a.commitOk then q.(position := p.committed)
      else q.(position := p.position + 1, committed := p.position + 1, counts := q.counts - {p.position})
  }

  class Consumer {
    const log: seq<Message>
    const maxRetries: nat
    var position: nat
    var committed: nat
    var deliveryCounts: map<nat, nat>
    var dlq: seq<nat>
    var handled: set<nat>
    var failures: map<nat, nat>

    constructor (log: seq<Message>, maxRetries: nat)
      ensures this.log == log && this.maxRetries == maxRetries && State() == Partition(0, 0, map[], [], {}, map[])
    {
      this.log, this.maxRetries := log, maxRetries;
      position, committed, deliveryCounts := 0, 0, map[];
      dlq, handled, failures := [], {}, map[];
    }

    function State(): Partition
      reads this
    {
      Partition(position, committed, deliveryCounts, dlq, handled, failures)
    }

    /** Runs the handlers' results past the retry cap; true means it throws. */
    method HandleMessage(offset: nat, m: Message, a: Attempt) returns (throws: bool)
      requires !m.Empty?
      modifies this`deliveryCounts, this`dlq, this`handled, this`failures
      ensures (State(), throws) == Handle(maxRetries, old(State()), offset, m, a)
      ensures throws <==>
        && m.Parsed? && (exists i :: 0 <= i < |a.results| && a.results[i] == Rejected)
        && (CountAt(old(deliveryCounts), offset) < maxRetries || !a.dlqOk)
      ensures throws ==> deliveryCounts == old(deliveryCounts)[offset := CountAt(old(deliveryCounts), offset) + 1]
      ensures dlq == old(dlq) +
        if a.dlqOk && !throws && (m.Unparseable? || exists i :: 0 <= i < |a.results| && a.results[i] == Rejected)
        then [offset] else []
    {
      if m.Unparseable? {
        if a.dlqOk {
          dlq := dlq + [offset];
        }
        return false;
      }
      var rejected := false;
      for i := 0 to |a.results|
        invariant rejected <==> !AllSucceeded(a.results[..i])
      {
        if a.results[i] == Rejected {
          rejected := true;
        }
      }
      assert a.results[..|a.results|] == a.results;
      if !rejected {
        handled := handled + {offset};
        return false;
      }
      var attempt := CountAt(deliveryCounts, offset) + 1;
      var before := deliveryCounts;
      deliveryCounts := deliveryCounts[offset := attempt];
      failures := failures[offset := CountAt(failures, offset) + 1];
      if attempt <= maxRetries {
        return true;
      }
      if !a.dlqOk {
        return true;
      }
      dlq := dlq + [offset];
      deliveryCounts := deliveryCounts - {offset};
      assert deliveryCounts == before - {offset};
      return false;
    }

    method EachMessage(a: Attempt)
      modifies this
      ensures State() == Deliver(maxRetries, log, old(State()), a)
      ensures old(position) < |log| && log[old(position)].Parsed? ==>
        if (exists i :: 0 <= i < |a.results| && a.results[i] == Rejected)
             && (CountAt(old(deliveryCounts), old(position)) < maxRetries || !a.dlqOk)
        then committed == old(committed) && position == old(committed) && dlq == old(dlq)
        else if a.commitOk then committed == position == old(position) + 1
        else committed == position == old(committed)
      ensures old(position) < |log| && log[old(position)].Empty? ==>
        position == old(position) + 1 && committed == old(committed) && dlq == old(dlq)
      ensures old(position) < |log| && log[old(position)].Unparseable? ==>
        && committed == position == (if a.commitOk then old(position) + 1 else old(committed))
        && dlq == old(dlq) + if a.dlqOk then [old(position)] else []
    {
      if position >= |log| {
        return;
      }
      if log[position].Empty? {
        position := position + 1;
        return;
      }
      var offset := position;
      var throws := HandleMessage(offset, log[offset], a);
      if throws || !a.commitOk {
        position := committed;
        return;
      }
      committed := offset + 1;
      deliveryCounts := deliveryCounts - {offset};
      position := offset + 1;
    }
  }

  // --- Runs ---

  /** A delivery, or the process restarting: counts are lost and the fetch resumes. */
  datatype Happening = Delivery(attempt: Attempt) | Restart

  function Happen(maxRetries: nat, log: seq<Message>, p: Partition, h: Happening): Partition {
    match h
    case Delivery(a) => Deliver(maxRetries, log, p, a)
    case Restart => p.(position := p.committed, counts := map[])
  }

  function After(maxRetries: nat, log: seq<Message>, run: seq<Happening>): Partition {
    if run == [] then Partition(0, 0, map[], [], {}, map[])
    else Happen(maxRetries, log, After(maxRetries, log, run[..|run| - 1]), run[|run| - 1])
  }

  predicate Accounted(log: seq<Message>, p: Partition, offset: nat)
    requires offset < |log|
  {
    !log[offset].Parsed? || offset in p.handled || offset in p.dlq
  }

  /** Everything before the position or the committed offset is accounted for. */
  ghost predicate Safe(log: seq<Message>, p: Partition) {
    && p.committed <= p.position <= |log|
    && (forall o :: 0 <= o < p.position ==> Accounted(log, p, o))
  }

  lemma HappenKeepsSafe(maxRetries: nat, log: seq<Message>, p: Partition, h: Happening)
    requires Safe(log, p)
    ensures Safe(log, Happen(maxRetries, log, p, h))
  {
    var q := Happen(maxRetries, log, p, h);
    forall o | 0 <= o < q.position ensures Accounted(log, q, o) {
      if o < p.position {
        assert Accounted(log, p, o);
      }
    }
  }

  lemma {:induction false} AlwaysSafe(maxRetries: nat, log: seq<Message>, run: seq<Happening>)
    ensures Safe(log, After(maxRetries, log, run))
  {
    if run != [] {
      AlwaysSafe(maxRetries, log, run[..|run| - 1]);
      HappenKeepsSafe(maxRetries, log, After(maxRetries, log, run[..|run| - 1]), run[|run| - 1]);
    }
  }

  // --- What the run itself says of an offset ---

  /** The `i`-th happening delivers the message at `offset`. */
  ghost predicate DeliveredAt(maxRetries: nat, log: seq<Message>, run: seq<Happening>, i: nat, offset: nat) {
    i < |run| && run[i].Delivery? && After(maxRetries, log, run[..i]).position == offset
  }

  /** Some handler of a delivery rejects with a reason. */
  ghost predicate HasRejection(h: Happening) {
    h.Delivery? && exists j :: 0 <= j < |h.attempt.results| && h.attempt.results[j] == Rejected
  }

  /** How many deliveries of an offset had a handler that rejected. */
  ghost function FailedDeliveries(maxRetries: nat, log: seq<Message>, run: seq<Happening>, offset: nat): nat {
    |FailedAt(maxRetries, log, run, offset)|
  }

  ghost function FailedAt(maxRetries: nat, log: seq<Message>, run: seq<Happening>, offset: nat): set<nat> {
    set i: nat | i < |run| && DeliveredAt(maxRetries, log, run, i, offset) && HasRejection(run[i])
  }

  lemma DeliveredBefore(maxRetries: nat, log: seq<Message>, run: seq<Happening>, i: nat, offset: nat)
    requires i < |run| - 1
    ensures DeliveredAt(maxRetries, log, run, i, offset) <==> DeliveredAt(maxRetries, log, run[..|run| - 1], i, offset)
  {
    assert run[..|run| - 1][..i] == run[..i];
  }

  /** One happening counts a failed delivery of an offset exactly if it delivers it to a handler that rejects. */
  lemma FailureCounted(maxRetries: nat, log: seq<Message>, p: Partition, h: Happening, o: nat)
    requires o < |log| && log[o].Parsed?
    ensures CountAt(Happen(maxRetries, log, p, h).failures, o) ==
      CountAt(p.failures, o) + if h.Delivery? && p.position == o && HasRejection(h) then 1 else 0
  {
  }

  lemma FailedNext(maxRetries: nat, log: seq<Message>, run: seq<Happening>, o: nat)
    requires run != []
    ensures |FailedAt(maxRetries, log, run, o)| == |FailedAt(maxRetries, log, run[..|run| - 1], o)| +
      if DeliveredAt(maxRetries, log, run, |run| - 1, o) && HasRejection(run[|run| - 1]) then 1 else 0
  {
    hide DeliveredAt, HasRejection;
    var n := |run| - 1;
    var before := FailedAt(maxRetries, log, run[..n], o);
    var now := if DeliveredAt(maxRetries, log, run, n, o) && HasRejection(run[n]) then {n} else {};
    forall i: nat ensures i in FailedAt(maxRetries, log, run, o) <==> i in before + now {
      if i < n {
        DeliveredBefore(maxRetries, log, run, i, o);
      }
    }
    assert FailedAt(maxRetries, log, run, o) == before + now;
  }

  lemma {:induction false} FailuresAreDeliveries(maxRetries: nat, log: seq<Message>, run: seq<Happening>, o: nat)
    requires o < |log| && log[o].Parsed?
    ensures CountAt(After(maxRetries, log, run).failures, o) == FailedDeliveries(maxRetries, log, run, o)
  {
    if run != [] {
      var n := |run| - 1;
      FailuresAreDeliveries(maxRetries, log, run[..n], o);
      FailureCounted(maxRetries, log, After(maxRetries, log, run[..n]), run[n], o);
      FailedNext(maxRetries, log, run, o);
      hide Happen, HasRejection, FailedAt;
    }
  }

  /** An offset taken as handled was so by a delivery of the run. */
  lemma {:induction false} HandledByDelivery(maxRetries: nat, log: seq<Message>, run: seq<Happening>, o: nat) returns (i: nat)
    requires o < |log| && log[o].Parsed? && o in After(maxRetries, log, run).handled
    ensures DeliveredAt(maxRetries, log, run, i, o) && !HasRejection(run[i])
  {
    var n := |run| - 1;
    var front := run[..n];
    if o in After(maxRetries, log, front).handled {
      i := HandledByDelivery(maxRetries, log, front, o);
      DeliveredBefore(maxRetries, log, run, i, o);
    } else {
      i := n;
    }
  }

  /** An unparseable message behind the position was delivered, and parked unless parking failed. */
  lemma {:induction false} UnparseableByDelivery(maxRetries: nat, log: seq<Message>, run: seq<Happening>, o: nat)
    requires o < |log| && log[o].Unparseable? && o < After(maxRetries, log, run).position && o !in After(maxRetries, log, run).dlq
    ensures exists i: nat :: DeliveredAt(maxRetries, log, run, i, o) && !run[i].attempt.dlqOk
    decreases run
  {
    var n := |run| - 1;
    var front := run[..n];
    var p := After(maxRetries, log, front);
    AlwaysSafe(maxRetries, log, front);
    if o < p.position {
      DlqGrows(maxRetries, log, p, run[n]);
      UnparseableByDelivery(maxRetries, log, front, o);
      var i: nat :| DeliveredAt(maxRetries, log, front, i, o) && !front[i].attempt.dlqOk;
      DeliveredBefore(maxRetries, log, run, i, o);
    } else {
      assert p.position == o;
      assert DeliveredAt(maxRetries, log, run, n, o);
      PassedUnparked(maxRetries, log, p, run[n], o);
    }
  }

  lemma DlqGrows(maxRetries: nat, log: seq<Message>, p: Partition, h: Happening)
    ensures p.dlq <= Happen(maxRetries, log, p, h).dlq
  {
  }

  lemma PassedUnparked(maxRetries: nat, log: seq<Message>, p: Partition, h: Happening, o: nat)
    requires p.position == o < |log| && log[o].Unparseable? && Safe(log, p)
    requires o < Happen(maxRetries, log, p, h).position && o !in Happen(maxRetries, log, p, h).dlq
    ensures h.Delivery? && !h.attempt.dlqOk
  {
    var parked := p.dlq + [o];
    assert parked[|p.dlq|] == o;
  }

  /**
   * At least once: in every run, with any failures, restarts and lost commits, an offset is
   * committed past an event only if the event is in the dead-letter topic, or the run has a
   * delivery of it in which no handler rejected with a reason; and past a value that does
   * not parse only if it is in the dead-letter topic or parking it failed.
   */
  lemma AtLeastOnce(maxRetries: nat, log: seq<Message>, run: seq<Happening>, offset: nat)
    requires offset < After(maxRetries, log, run).committed
    ensures offset < |log|
    ensures log[offset].Parsed? ==>
      || offset in After(maxRetries, log, run).dlq
      || exists i: nat :: DeliveredAt(maxRetries, log, run, i, offset)
           && forall j :: 0 <= j < |run[i].attempt.results| ==> run[i].attempt.results[j] != Rejected
    ensures log[offset].Unparseable? ==>
      || offset in After(maxRetries, log, run).dlq
      || exists i: nat :: DeliveredAt(maxRetries, log, run, i, offset) && !run[i].attempt.dlqOk
  {
    AlwaysSafe(maxRetries, log, run);
    var p := After(maxRetries, log, run);
    assert Accounted(log, p, offset);
    if log[offset].Parsed? && offset !in p.dlq {
      var i := HandledByDelivery(maxRetries, log, run, offset);
    }
    if log[offset].Unparseable? && offset !in p.dlq {
      UnparseableByDelivery(maxRetries, log, run, offset);
    }
  }

  /** No handler ever rejects without a reason. */
  ghost predicate Reasoned(run: seq<Happening>) {
    forall i, j :: 0 <= i < |run| && run[i].Delivery? && 0 <= j < |run[i].attempt.results| ==>
      run[i].attempt.results[j] != RejectedUndefined
  }

  /** Then an event passed and not parked had a delivery every handler of which succeeded. */
  lemma ReasonedAtLeastOnce(maxRetries: nat, log: seq<Message>, run: seq<Happening>, offset: nat)
    requires Reasoned(run) && offset < After(maxRetries, log, run).committed
    ensures offset < |log|
    ensures log[offset].Parsed? && offset !in After(maxRetries, log, run).dlq ==>
      exists i: nat :: DeliveredAt(maxRetries, log, run, i, offset)
        && forall j :: 0 <= j < |run[i].attempt.results| ==> run[i].attempt.results[j] == Fulfilled
  {
    AtLeastOnce(maxRetries, log, run, offset);
    if log[offset].Parsed? && offset !in After(maxRetries, log, run).dlq {
      var i: nat :| DeliveredAt(maxRetries, log, run, i, offset)
           && forall j :: 0 <= j < |run[i].attempt.results| ==> run[i].attempt.results[j] != Rejected;
      assert run[i].Delivery?;
    }
  }

  /** A handler that rejects without a reason loses the event: one delivery commits past it. */
  lemma UndefinedRejectionLosesEvent(maxRetries: nat)
    ensures var p := After(maxRetries, [Parsed], [Delivery(Attempt([RejectedUndefined], true, true))]);
      p.committed == 1 && 0 !in p.dlq
  {
    assert After(maxRetries, [Parsed], []) == Partition(0, 0, map[], [], {}, map[]);
    assert [Delivery(Attempt([RejectedUndefined], true, true))][..0] == [];
  }

  /** Parking and committing succeed and the process stays up. */
  ghost predicate Clean(run: seq<Happening>) {
    forall i :: 0 <= i < |run| ==> run[i].Delivery? && run[i].attempt.dlqOk && run[i].attempt.commitOk
  }

  /** The delivery count of an uncommitted offset is its number of failed deliveries; past the cap lies the dead-letter topic. */
  ghost predicate CountedAt(maxRetries: nat, log: seq<Message>, p: Partition, o: nat) {
    if o >= p.committed then CountAt(p.counts, o) == CountAt(p.failures, o) <= maxRetries && o !in p.dlq
    else if o < |log| && log[o].Parsed? && o in p.dlq then CountAt(p.failures, o) == maxRetries + 1
    else CountAt(p.failures, o) <= maxRetries
  }

  ghost predicate Counted(maxRetries: nat, log: seq<Message>, p: Partition) {
    && Safe(log, p)
    && (forall o: nat :: CountedAt(maxRetries, log, p, o))
    && (forall i, j :: 0 <= i < j < |p.dlq| ==> p.dlq[i] != p.dlq[j])
  }

  lemma CleanDeliveryCounts(maxRetries: nat, log: seq<Message>, p: Partition, a: Attempt)
    requires Counted(maxRetries, log, p) && a.dlqOk && a.commitOk
    ensures Counted(maxRetries, log, Deliver(maxRetries, log, p, a))
  {
    HappenKeepsSafe(maxRetries, log, p, Delivery(a));
    var q := Deliver(maxRetries, log, p, a);
    assert CountedAt(maxRetries, log, p, p.position);
    forall o: nat ensures CountedAt(maxRetries, log, q, o) {
      CleanDeliveryAt(maxRetries, log, p, a, o);
    }
    CleanDeliveryParks(maxRetries, log, p, a);
    hide Deliver, Safe, CountedAt;
  }

  lemma CleanDeliveryParks(maxRetries: nat, log: seq<Message>, p: Partition, a: Attempt)
    requires Safe(log, p) && CountedAt(maxRetries, log, p, p.position) && forall i, j :: 0 <= i < j < |p.dlq| ==> p.dlq[i] != p.dlq[j]
    ensures var q := Deliver(maxRetries, log, p, a); forall i, j :: 0 <= i < j < |q.dlq| ==> q.dlq[i] != q.dlq[j]
  {
  }

  lemma CleanDeliveryAt(maxRetries: nat, log: seq<Message>, p: Partition, a: Attempt, o: nat)
    requires Safe(log, p) && CountedAt(maxRetries, log, p, p.position) && CountedAt(maxRetries, log, p, o) && a.dlqOk && a.commitOk
    ensures CountedAt(maxRetries, log, Deliver(maxRetries, log, p, a), o)
  {
  }

  lemma {:induction false} CleanRunsCount(maxRetries: nat, log: seq<Message>, run: seq<Happening>)
    requires Clean(run)
    ensures Counted(maxRetries, log, After(maxRetries, log, run))
  {
    if run != [] {
      var last := run[|run| - 1];
      CleanRunsCount(maxRetries, log, run[..|run| - 1]);
      CleanDeliveryCounts(maxRetries, log, After(maxRetries, log, run[..|run| - 1]), last.attempt);
    }
  }

  /**
   * Bounded poison: in a clean run a message is parked exactly when its handlers have failed
   * `maxRetries + 1` times, and then once; no message ever fails more often.
   */
  lemma ParkedAfterExactlyTheCap(maxRetries: nat, log: seq<Message>, run: seq<Happening>, offset: nat)
    requires Clean(run) && offset < |log| && log[offset].Parsed?
    ensures var p, failed := After(maxRetries, log, run), FailedDeliveries(maxRetries, log, run, offset);
      && (offset in p.dlq <==> failed == maxRetries + 1)
      && (offset in p.dlq ==> offset < p.committed)
      && failed <= maxRetries + 1
      && (forall i, j :: 0 <= i < j < |p.dlq| ==> p.dlq[i] != p.dlq[j])
  {
    FailuresAreDeliveries(maxRetries, log, run, offset);
    hide FailedDeliveries;
    CleanRunsCount(maxRetries, log, run);
    assert CountedAt(maxRetries, log, After(maxRetries, log, run), offset);
  }

  // --- Progress, whatever the handlers do ---

  /** The failed deliveries still to come, at most, of offsets from `from` on. */
  function Allowance(maxRetries: nat, counts: map<nat, nat>, from: nat, end: nat): nat
    requires from <= end
    decreases end - from
  {
    if from == end then 0
    else
      Allowance(maxRetries, counts, from + 1, end) +
      if CountAt(counts, from) <= maxRetries then maxRetries + 1 - CountAt(counts, from) else 0
  }

  lemma OneMore(a: nat, b: nat)
    ensures a * (b + 1) == a * b + a
  {
  }

  lemma {:induction false} AllowanceBound(maxRetries: nat, counts: map<nat, nat>, from: nat, end: nat)
    requires from <= end
    ensures Allowance(maxRetries, counts, from, end) <= (maxRetries + 1) * (end - from)
    decreases end - from
  {
    if from < end {
      AllowanceBound(maxRetries, counts, from + 1, end);
      OneMore(maxRetries + 1, end - from - 1);
    }
  }

  /** Offsets before the first or counts no lower leave no more. */
  lemma {:induction false} AllowanceLess(maxRetries: nat, counts: map<nat, nat>, counts': map<nat, nat>, from: nat, end: nat)
    requires from <= end && forall o :: from <= o < end ==> CountAt(counts, o) <= CountAt(counts', o)
    ensures Allowance(maxRetries, counts', from, end) <= Allowance(maxRetries, counts, from, end)
    decreases end - from
  {
    if from < end {
      AllowanceLess(maxRetries, counts, counts', from + 1, end);
    }
  }

  /** Somewhere in the range a count rose from within the cap, or the range lost an offset within the cap. */
  lemma {:induction false} AllowanceDrops(maxRetries: nat, counts: map<nat, nat>, counts': map<nat, nat>, from: nat, o: nat, end: nat)
    requires from <= o < end && forall x :: from <= x < end ==> CountAt(counts, x) <= CountAt(counts', x)
    requires CountAt(counts, o) <= maxRetries && CountAt(counts, o) < CountAt(counts', o)
    ensures Allowance(maxRetries, counts', from, end) < Allowance(maxRetries, counts, from, end)
    decreases end - from
  {
    if from < o {
      AllowanceDrops(maxRetries, counts, counts', from + 1, o, end);
    } else {
      AllowanceLess(maxRetries, counts, counts', from + 1, end);
    }
  }

  lemma {:induction false} AllowanceAfter(maxRetries: nat, counts: map<nat, nat>, counts': map<nat, nat>, from: nat, o: nat, end: nat)
    requires from <= o < end && forall x :: o < x < end ==> CountAt(counts, x) == CountAt(counts', x)
    requires CountAt(counts, o) <= maxRetries
    ensures Allowance(maxRetries, counts', o + 1, end) < Allowance(maxRetries, counts, from, end)
    decreases end - from
  {
    if from < o {
      AllowanceAfter(maxRetries, counts, counts', from + 1, o, end);
    } else {
      AllowanceLess(maxRetries, counts, counts', o + 1, end);
    }
  }

  /** What bounds the deliveries still to come: failures left, each of which may cost a whole pass, then the pass under way. */
  function Budget(maxRetries: nat, log: seq<Message>, p: Partition): nat
    requires p.committed <= p.position <= |log|
  {
    Allowance(maxRetries, p.counts, p.committed, |log|) * (|log| + 1) + (|log| - p.position)
  }

  lemma PassPaid(before: nat, after: nat, passes: nat, left: nat, left': nat)
    requires after < before && left' < passes
    ensures after * passes + left' < before * passes + left
  {
    assert (after + 1) * passes <= before * passes;
  }

  /** A delivery passes a message without a value, fails it once more within the cap, or commits past it. */
  lemma DeliveryCases(maxRetries: nat, log: seq<Message>, p: Partition, a: Attempt)
    requires Safe(log, p) && CountedAt(maxRetries, log, p, p.position) && a.dlqOk && a.commitOk && p.position < |log|
    ensures var q := Deliver(maxRetries, log, p, a);
      && p.committed <= p.position && q.committed <= q.position <= |log| && CountAt(p.counts, p.position) <= maxRetries
      && if log[p.position].Empty? then q.committed == p.committed && q.counts == p.counts && q.position == p.position + 1
         else if q.committed == p.committed then
           && q.position == p.committed && CountAt(q.counts, p.position) == CountAt(p.counts, p.position) + 1
           && forall o :: o != p.position ==> CountAt(q.counts, o) == CountAt(p.counts, o)
         else
           && q.committed == q.position == p.position + 1
           && forall o :: o != p.position ==> CountAt(q.counts, o) == CountAt(p.counts, o)
  {
    hide Counted;
  }

  lemma DeliverySpends(maxRetries: nat, log: seq<Message>, p: Partition, a: Attempt)
    requires Counted(maxRetries, log, p) && a.dlqOk && a.commitOk && p.position < |log|
    ensures Safe(log, Deliver(maxRetries, log, p, a))
    ensures Budget(maxRetries, log, Deliver(maxRetries, log, p, a)) < Budget(maxRetries, log, p)
  {
    var q, n := Deliver(maxRetries, log, p, a), |log|;
    HappenKeepsSafe(maxRetries, log, p, Delivery(a));
    assert CountedAt(maxRetries, log, p, p.position);
    DeliveryCases(maxRetries, log, p, a);
    hide Deliver, Safe, Counted, CountedAt, Allowance;
    if !log[p.position].Empty? {
      var before, after := Allowance(maxRetries, p.counts, p.committed, n), Allowance(maxRetries, q.counts, q.committed, n);
      if q.committed == p.committed {
        AllowanceDrops(maxRetries, p.counts, q.counts, p.committed, p.position, n);
      } else {
        AllowanceAfter(maxRetries, p.counts, q.counts, p.committed, p.position, n);
      }
      PassPaid(before, after, n + 1, n - p.position, n - q.position);
    }
  }

  /** Nothing but empty messages lies between what is committed and the position. */
  ghost predicate GapEmpty(log: seq<Message>, p: Partition) {
    p.position <= |log| && forall o :: p.committed <= o < p.position ==> log[o].Empty?
  }

  lemma {:induction false} BudgetSpent(maxRetries: nat, log: seq<Message>, run: seq<Happening>)
    requires Clean(run)
    ensures var p := After(maxRetries, log, run);
      && Counted(maxRetries, log, p) && GapEmpty(log, p)
      && (p.position == |log| || Budget(maxRetries, log, p) + |run| <= (maxRetries + 1) * |log| * (|log| + 1) + |log|)
  {
    CleanRunsCount(maxRetries, log, run);
    if run == [] {
      AllowanceBound(maxRetries, map[], 0, |log|);
      PassesBound(Allowance(maxRetries, map[], 0, |log|), (maxRetries + 1) * |log|, |log| + 1);
    } else {
      var front, last := run[..|run| - 1], run[|run| - 1];
      BudgetSpent(maxRetries, log, front);
      var p := After(maxRetries, log, front);
      hide Counted, Budget;
      if p.position < |log| {
        DeliverySpends(maxRetries, log, p, last.attempt);
      }
    }
  }

  lemma PassesBound(a: nat, b: nat, c: nat)
    requires a <= b
    ensures a * c <= b * c
  {
  }

  /**
   * Progress: a clean run with enough deliveries gets through the whole log, and commits
   * past every message with a value, whatever the handlers do: nothing blocks what follows.
   */
  lemma CleanRunsFinish(maxRetries: nat, log: seq<Message>, run: seq<Happening>, offset: nat)
    requires Clean(run) && |run| > (maxRetries + 1) * |log| * (|log| + 1) + |log|
    requires offset < |log| && !log[offset].Empty?
    ensures var p := After(maxRetries, log, run); p.position == |log| && offset < p.committed
  {
    BudgetSpent(maxRetries, log, run);
    var p := After(maxRetries, log, run);
    assert Safe(log, p);
    hide Budget;
  }

  // --- A message that always fails does not block the ones behind it ---

  function FailingClean(): Attempt {
    Attempt([Rejected], true, true)
  }

  /** `n` deliveries in a row, every handler of which fails. */
  function RunFrom(maxRetries: nat, log: seq<Message>, p: Partition, n: nat): Partition
    decreases n
  {
    if n == 0 then p else RunFrom(maxRetries, log, Deliver(maxRetries, log, p, FailingClean()), n - 1)
  }

  /** With empty messages up to offset `o`, as many deliveries move the position there. */
  lemma {:induction false} SkipEmpty(maxRetries: nat, log: seq<Message>, p: Partition, o: nat)
    requires p.position <= o < |log| && forall i :: p.position <= i < o ==> log[i].Empty?
    ensures RunFrom(maxRetries, log, p, o - p.position) == p.(position := o)
    decreases o - p.position
  {
    if p.position < o {
      SkipEmpty(maxRetries, log, p.(position := p.position + 1), o);
    }
  }

  lemma {:induction false} RunFromAdd(maxRetries: nat, log: seq<Message>, p: Partition, a: nat, b: nat)
    ensures RunFrom(maxRetries, log, p, a + b) == RunFrom(maxRetries, log, RunFrom(maxRetries, log, p, a), b)
    decreases a
  {
    if a > 0 {
      RunFromAdd(maxRetries, log, Deliver(maxRetries, log, p, FailingClean()), a - 1, b);
    }
  }

  /**
   * Progress past poison: a first uncommitted event whose handlers always fail is parked,
   * and the offset committed past it, after finitely many deliveries.
   */
  lemma {:induction false} PoisonIsPassed(maxRetries: nat, log: seq<Message>, p: Partition, o: nat) returns (n: nat)
    requires p.committed <= p.position <= o < |log| && log[o].Parsed?
    requires forall i :: p.committed <= i < o ==> log[i].Empty?
    ensures var q := RunFrom(maxRetries, log, p, n); q.committed == q.position == o + 1 && o in q.dlq
    decreases if CountAt(p.counts, o) <= maxRetries then maxRetries + 1 - CountAt(p.counts, o) else 0
  {
    var skip := o - p.position;
    SkipEmpty(maxRetries, log, p, o);
    RunFromAdd(maxRetries, log, p, skip, 1);
    var there := p.(position := o);
    var q := Deliver(maxRetries, log, there, FailingClean());
    assert [Rejected][0] == Rejected;
    assert RunFrom(maxRetries, log, there, 1) == RunFrom(maxRetries, log, q, 0) == q;
    if CountAt(p.counts, o) + 1 > maxRetries {
      assert q.dlq[|p.dlq|] == o;
      n := skip + 1;
    } else {
      var rest := PoisonIsPassed(maxRetries, log, q, o);
      RunFromAdd(maxRetries, log, p, skip + 1, rest);
      n := skip + 1 + rest;
    }
  }
}
