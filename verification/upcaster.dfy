/** Schema evolution: upcaster chains (`packages/core/src/edd/upcaster.ts`). */
module Upcaster {
  import opened Types

  type Transform = Payload -> Payload
  type Chain = seq<Transform>

  /** Chains by event name. An event that never changed has no entry. */
  type UpcasterMap = map<EventName, Chain>

  function ChainFor(upcasters: UpcasterMap, name: EventName): Chain {
    if name in upcasters then upcasters[name] else []
  }

  /** The steps applied left to right: the meaning of a chain. */
  function ApplySteps(steps: Chain, payload: Payload): Payload {
    if steps == [] then payload else ApplySteps(steps[1..], steps[0](payload))
  }

  /** The version an event was stored at: absent means 1. */
  function StoredVersion(e: Event): Version {
    match e.metadata.version
    case None => 1
    case Some(v) => v
  }

  function CurrentEventVersion(name: EventName, upcasters: UpcasterMap): Version {
    |ChainFor(upcasters, name)| + 1
  }

  function Upcast(e: Event, upcasters: UpcasterMap): Event
  {
    var chain := ChainFor(upcasters, e.name);
    if StoredVersion(e) >= |chain| + 1 then e
    else e.(payload := ApplySteps(chain[StoredVersion(e) - 1..], e.payload))
  }

  function UpcastAll(events: seq<Event>, upcasters: UpcasterMap): (r: seq<Event>)
    ensures |r| == |events|
    ensures forall i :: 0 <= i < |r| ==> r[i] == Upcast(events[i], upcasters)
  {
    seq(|events|, i requires 0 <= i < |events| => Upcast(events[i], upcasters))
  }

  /** The loop of `upcastEvent`, proved to apply exactly the steps past the stored version. */
  method UpcastEvent(event: Event, upcasters: UpcasterMap) returns (r: Event)
    ensures r == Upcast(event, upcasters)
    ensures r.name == event.name && r.metadata == event.metadata
  {
    var chain := ChainFor(upcasters, event.name);
    if chain == [] {
      return event;
    }
    var storedVersion := StoredVersion(event);
    var currentVersion := |chain| + 1;
    if storedVersion >= currentVersion {
      return event;
    }
    var payload := event.payload;
    var i := storedVersion - 1;
    while i < |chain|
      invariant storedVersion - 1 <= i <= |chain|
      invariant ApplySteps(chain[i..], payload) == ApplySteps(chain[storedVersion - 1..], event.payload)
    {
      assert chain[i..][0] == chain[i] && chain[i..][1..] == chain[i + 1..];
      payload := chain[i](payload);
      i := i + 1;
    }
    return event.(payload := payload);
  }

  lemma {:induction false} ApplyStepsAppend(a: Chain, b: Chain, p: Payload)
    ensures ApplySteps(a + b, p) == ApplySteps(b, ApplySteps(a, p))
  {
    if a == [] {
      assert a + b == b;
    } else {
      assert (a + b)[0] == a[0] && (a + b)[1..] == a[1..] + b;
      ApplyStepsAppend(a[1..], b, a[0](p));
    }
  }

  /** The upcasters an aggregate is deployed with, if any. */
  type Deployment = Option<UpcasterMap>

  function Upcasters(d: Deployment): UpcasterMap {
    match d
    case None => map[]
    case Some(upcasters) => upcasters
  }

  /** The version tag a deployment gives new events: none unless it has upcasters. */
  function VersionTag(d: Deployment, name: EventName): Option<Version> {
    match d
    case None => None
    case Some(upcasters) => Some(CurrentEventVersion(name, upcasters))
  }

  /** Loading upcasts only under a deployment that has upcasters. */
  function Loaded(e: Event, d: Deployment): Event {
    match d
    case None => e
    case Some(upcasters) => Upcast(e, upcasters)
  }

  /** The raw events a deployment's load yields. */
  function LoadedRaws(events: seq<Event>, d: Deployment): (r: seq<RawEvent>)
    ensures |r| == |events|
    ensures forall i :: 0 <= i < |r| ==> r[i] == RawEvent(events[i].name, Loaded(events[i], d).payload)
  {
    seq(|events|, i requires 0 <= i < |events| => RawEvent(events[i].name, Loaded(events[i], d).payload))
  }

  /** `later` only adds to the chains of `earlier`, as an aggregate's first upcasters do. */
  ghost predicate OnlyAdds(earlier: Deployment, later: Deployment) {
    forall name: EventName :: ChainFor(Upcasters(earlier), name) <= ChainFor(Upcasters(later), name)
  }

  /** A deployment history: each deployment only adds to the one before. */
  ghost predicate History(deployments: seq<Deployment>) {
    forall i :: 0 <= i < |deployments| - 1 ==> OnlyAdds(deployments[i], deployments[i + 1])
  }

  lemma {:induction false} OnlyAddsAcross(deployments: seq<Deployment>, i: nat, j: nat)
    requires History(deployments) && i <= j < |deployments|
    ensures OnlyAdds(deployments[i], deployments[j])
    decreases j - i
  {
    if i < j {
      OnlyAddsAcross(deployments, i + 1, j);
    }
  }

  /** The event carries the tag the engine gives it under a deployment. */
  predicate WrittenUnder(e: Event, d: Deployment) {
    e.metadata.version == VersionTag(d, e.name)
  }

  /**
   * Over any history of deployments, an event written under deployment `i` and loaded
   * under deployment `j` goes through exactly the steps added between the two, each once
   * and in order: none is dropped, repeated or reordered. Deployments before the first
   * upcaster count, whose events carry no version.
   */
  lemma LoadAppliesAddedSteps(deployments: seq<Deployment>, i: nat, j: nat, e: Event) returns (added: Chain)
    requires History(deployments) && i <= j < |deployments|
    requires WrittenUnder(e, deployments[i])
    ensures ChainFor(Upcasters(deployments[j]), e.name) == ChainFor(Upcasters(deployments[i]), e.name) + added
    ensures Loaded(e, deployments[j]) == e.(payload := ApplySteps(added, e.payload))
  {
    OnlyAddsAcross(deployments, i, j);
    var before := ChainFor(Upcasters(deployments[i]), e.name);
    assert before <= ChainFor(Upcasters(deployments[j]), e.name);
    added := ChainFor(Upcasters(deployments[j]), e.name)[|before|..];
    assert (before + added)[|before|..] == added;
  }

  /** The steps a later deployment has added to the chain of an event name. */
  function AddedSteps(earlier: Deployment, later: Deployment, name: EventName): Chain {
    var before, now := ChainFor(Upcasters(earlier), name), ChainFor(Upcasters(later), name);
    if |before| <= |now| then now[|before|..] else []
  }

  /** The same for two deployments: written under one, loaded under the other. */
  lemma LoadAddsSteps(earlier: Deployment, later: Deployment, e: Event)
    requires OnlyAdds(earlier, later) && WrittenUnder(e, earlier)
    ensures Loaded(e, later) == e.(payload := ApplySteps(AddedSteps(earlier, later, e.name), e.payload))
  {
    var added := LoadAppliesAddedSteps([earlier, later], 0, 1, e);
    var before := ChainFor(Upcasters(earlier), e.name);
    assert (before + added)[|before|..] == added;
  }

  /** `e` rewritten as the engine would store it under a deployment, after being upcast. */
  function Restamp(e: Event, d: Deployment): Event {
    Loaded(e, d).(metadata := e.metadata.(version := VersionTag(d, e.name)))
  }

  /**
   * Upcasting composes across versions: stopping at an intermediate deployment and
   * recording its version gives the same payload as going all the way.
   */
  lemma UpcastComposes(e: Event, middle: Deployment, last: Deployment)
    requires OnlyAdds(middle, last)
    requires StoredVersion(e) <= CurrentEventVersion(e.name, Upcasters(middle))
    ensures Loaded(Restamp(e, middle), last).payload == Loaded(e, last).payload
  {
    var m, l := ChainFor(Upcasters(middle), e.name), ChainFor(Upcasters(last), e.name);
    var from := StoredVersion(e) - 1;
    assert m <= l;
    assert l[from..] == m[from..] + l[|m|..];
    ApplyStepsAppend(m[from..], l[|m|..], e.payload);
  }

  /** `e` was written under the current definition or a later one. */
  predicate UpToDate(e: Event, upcasters: UpcasterMap) {
    StoredVersion(e) >= CurrentEventVersion(e.name, upcasters)
  }

  /** Events written under the current definition, or tagged beyond it, are left alone. */
  lemma CurrentEventsAreFixedPoints(events: seq<Event>, upcasters: UpcasterMap)
    requires forall e :: e in events ==> UpToDate(e, upcasters)
    ensures UpcastAll(events, upcasters) == events
  {
    forall i | 0 <= i < |events| ensures UpcastAll(events, upcasters)[i] == events[i] {
      assert events[i] in events;
    }
  }

  /** The steps an event has not been through: none if it is up to date. */
  function MissingSteps(e: Event, upcasters: UpcasterMap): Chain {
    if UpToDate(e, upcasters) then [] else ChainFor(upcasters, e.name)[StoredVersion(e) - 1..]
  }

  /**
   * `upcastEvent` leaves `metadata.version` as stored, so a second pass runs the same
   * steps again: it changes nothing exactly when those steps fix the first result. An event
   * that was up to date is safe to pass twice; for any other a caller must know its steps.
   */
  lemma SecondPassReappliesSteps(e: Event, upcasters: UpcasterMap)
    ensures var steps, once := MissingSteps(e, upcasters), Upcast(e, upcasters);
      && once == e.(payload := ApplySteps(steps, e.payload))
      && Upcast(once, upcasters).payload == ApplySteps(steps + steps, e.payload)
      && (Upcast(once, upcasters) == once <==> UpToDate(e, upcasters) || ApplySteps(steps, once.payload) == once.payload)
  {
    var steps := MissingSteps(e, upcasters);
    ApplyStepsAppend(steps, steps, e.payload);
  }

  /** A first-version event under a one-step chain. */
  lemma OneStepUpcast(e: Event, upcasters: UpcasterMap, step: Transform)
    requires e.metadata.version == Some(1) && e.name in upcasters && upcasters[e.name] == [step]
    ensures Upcast(e, upcasters) == e.(payload := step(e.payload))
  {
    assert ChainFor(upcasters, e.name)[0..] == [step];
    assert [step][1..] == [];
    assert ApplySteps([step], e.payload) == ApplySteps([], step(e.payload));
  }

  /** A one-step chain on which upcasting is not idempotent, for any two distinct payloads. */
  lemma UpcastIsNotIdempotent(name: EventName, key: Key, p: Payload, q: Payload) returns (e: Event, upcasters: UpcasterMap)
    requires p != q
    ensures Upcast(Upcast(e, upcasters), upcasters) != Upcast(e, upcasters)
  {
    hide *;
    e := Event(name, p, Metadata(0, Some(1), key, 1));
    var swap: Transform := x => if x == p then q else p;
    upcasters := map[name := [swap]];
    OneStepUpcast(e, upcasters, swap);
    OneStepUpcast(Upcast(e, upcasters), upcasters, swap);
  }
}
