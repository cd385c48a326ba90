/** Values shared by every component: events, aggregates, outcomes. */
module Types {

  datatype Option<+T> = None | Some(value: T)

  // User-supplied data is uninterpreted: nothing below looks inside it.
  type Payload(==, !new)
  type State(!new)
  type View(!new)

  type EventName = string

  /** A schema version: 1 for the first, one more for each upcaster step. */
  type Version = n: nat | n >= 1 witness 1

  /** An aggregate instance: the pair behind the string `name:id`. */
  datatype Key = Key(name: string, id: string)

  /**
   * The metadata the engine attaches to an event. `version` is the schema version,
   * absent when the aggregate had no upcasters; `sequenceNumber` is the 1-based
   * position of the event in its stream.
   */
  datatype Metadata = Metadata(eventId: nat, version: Option<Version>, aggregate: Key, sequenceNumber: nat)

  datatype Event = Event(name: EventName, payload: Payload, metadata: Metadata)

  /** What a command handler returns: an event without metadata. */
  datatype RawEvent = RawEvent(name: EventName, payload: Payload)

  function Raw(e: Event): RawEvent {
    RawEvent(e.name, e.payload)
  }

  function Raws(events: seq<Event>): (r: seq<RawEvent>)
    ensures |r| == |events|
    ensures forall i :: 0 <= i < |r| ==> r[i] == Raw(events[i])
  {
    seq(|events|, i requires 0 <= i < |events| => Raw(events[i]))
  }
}

/** What a message consumer sees of its handlers. */
module BrokerHandlers {
  /** A handler's promise resolves, or rejects with a reason, or with no reason at all (`undefined`). */
  datatype HandlerResult = Fulfilled | Rejected | RejectedUndefined

  /** The first rejection is looked for by its reason, so one without a reason goes unnoticed. */
  predicate AllSucceeded(results: seq<HandlerResult>) {
    forall i :: 0 <= i < |results| ==> results[i] != Rejected
  }
}

/** Sequence facts used throughout. */
module Seqs {

  function Filter<T(!new)>(p: T -> bool, s: seq<T>): (r: seq<T>)
    ensures forall x :: x in r <==> x in s && p(x)
  {
    if s == [] then []
    else if p(s[0]) then [s[0]] + Filter(p, s[1..])
    else Filter(p, s[1..])
  }

  lemma {:induction false} FilterAppend<T(!new)>(p: T -> bool, a: seq<T>, b: seq<T>)
    ensures Filter(p, a + b) == Filter(p, a) + Filter(p, b)
  {
    if a == [] {
      assert a + b == b;
    } else {
      assert (a + b)[1..] == a[1..] + b;
      FilterAppend(p, a[1..], b);
    }
  }

  lemma {:induction false} FilterAll<T(!new)>(p: T -> bool, s: seq<T>)
    requires forall x :: x in s ==> p(x)
    ensures Filter(p, s) == s
  {
    if s != [] {
      FilterAll(p, s[1..]);
    }
  }

  lemma {:induction false} FilterNone<T(!new)>(p: T -> bool, s: seq<T>)
    requires forall x :: x in s ==> !p(x)
    ensures Filter(p, s) == []
  {
    if s != [] {
      FilterNone(p, s[1..]);
    }
  }

  /** Keeping the `p`s among the `q`s is keeping the `p`s, when every `p` is a `q`. */
  lemma {:induction false} FilterWithin<T(!new)>(p: T -> bool, q: T -> bool, s: seq<T>)
    requires forall x :: x in s && p(x) ==> q(x)
    ensures Filter(p, Filter(q, s)) == Filter(p, s)
  {
    if s != [] {
      FilterWithin(p, q, s[1..]);
    }
  }

  /** Filtering twice is filtering by both. */
  lemma {:induction false} FilterBoth<T(!new)>(p: T -> bool, q: T -> bool, both: T -> bool, s: seq<T>)
    requires forall x :: x in s ==> (both(x) <==> p(x) && q(x))
    ensures Filter(p, Filter(q, s)) == Filter(both, s)
  {
    if s != [] {
      FilterBoth(p, q, both, s[1..]);
    }
  }

  /** What is kept keeps its order. */
  lemma FilterKeepsOrder<T(!new)>(p: T -> bool, s: seq<T>, i: nat, j: nat)
    requires i < j < |s| && p(s[i]) && p(s[j])
    ensures exists a, b :: 0 <= a < b < |Filter(p, s)| && Filter(p, s)[a] == s[i] && Filter(p, s)[b] == s[j]
  {
    var left, right := s[..j], s[j..];
    assert s == left + right;
    FilterAppend(p, left, right);
    var kept, more := Filter(p, left), Filter(p, right);
    assert left[i] == s[i] && right[0] == s[j];
    assert s[i] in kept && s[j] in more;
    var a :| 0 <= a < |kept| && kept[a] == s[i];
    var b :| 0 <= b < |more| && more[b] == s[j];
    assert (kept + more)[a] == s[i] && (kept + more)[|kept| + b] == s[j];
  }

  /** What is kept had its order before. */
  lemma {:induction false} FilterOrderWas<T(!new)>(p: T -> bool, s: seq<T>, a: nat, b: nat) returns (i: nat, j: nat)
    requires a < b < |Filter(p, s)|
    ensures i < j < |s| && s[i] == Filter(p, s)[a] && s[j] == Filter(p, s)[b]
  {
    var rest := s[1..];
    if !p(s[0]) {
      i, j := FilterOrderWas(p, rest, a, b);
      i, j := i + 1, j + 1;
    } else if a == 0 {
      assert Filter(p, s)[b] in Filter(p, rest);
      j :| 0 <= j < |rest| && rest[j] == Filter(p, s)[b];
      i, j := 0, j + 1;
    } else {
      i, j := FilterOrderWas(p, rest, a - 1, b - 1);
      i, j := i + 1, j + 1;
    }
  }
}
