/** How an attempt is run: the optimistic retry loop, and the hooks a settled unit of work runs. */
module Strategies {

  /** How one attempt ends. */
  datatype Outcome<T> = Succeeded(value: T) | Conflict | Failed(error: string)

  /**
   * The optimistic strategy, over what the successive attempts would do: it returns the
   * first that is not a conflict, or the conflict of attempt `maxRetries + 1`; attempts
   * after that one are never made.
   */
  method Execute<T>(maxRetries: nat, outcomes: nat -> Outcome<T>) returns (result: Outcome<T>, attempts: nat)
    ensures 1 <= attempts <= maxRetries + 1 && result == outcomes(attempts - 1)
    ensures forall i :: 0 <= i < attempts - 1 ==> outcomes(i).Conflict?
    ensures result.Conflict? <==> forall i :: 0 <= i <= maxRetries ==> outcomes(i).Conflict?
  {
    var i := 0;
    while i <= maxRetries
      invariant 0 <= i <= maxRetries
      invariant forall j :: 0 <= j < i ==> outcomes(j).Conflict?
      decreases maxRetries - i
    {
      result := outcomes(i);
      if result.Conflict? && i < maxRetries {
        i := i + 1;
        continue;
      }
      attempts := i + 1;
      return;
    }
    assert false;
  }
}

/** Completion hooks: run once per unit of work, after it has settled. */
module CompletionHooks {

  /** `throws` says which hooks fail when run. */
  datatype Hook = Hook(name: nat, throws: bool)

  datatype Hooks = Hooks(onCommitted: seq<Hook>, onSettled: seq<Hook>)

  type UnitId = nat

  /** The hooks actually run out of those due: a hook that throws is the last. */
  function RunOf(due: seq<Hook>): seq<Hook> {
    if due == [] then []
    else if due[0].throws then [due[0]]
    else [due[0]] + RunOf(due[1..])
  }

  function Registered(registry: map<UnitId, Hooks>, uow: UnitId): Hooks {
    if uow in registry then registry[uow] else Hooks([], [])
  }

  function Due(h: Hooks, committed: bool): seq<Hook> {
    (if committed then h.onCommitted else []) + h.onSettled
  }

  predicate AnyThrows(hooks: seq<Hook>) {
    exists i :: 0 <= i < |hooks| && hooks[i].throws
  }

  lemma QuietTail(due: seq<Hook>)
    requires !AnyThrows(due) && due != []
    ensures !due[0].throws && !AnyThrows(due[1..])
  {
    assert forall i :: 0 <= i < |due[1..]| ==> due[1..][i] == due[i + 1];
  }

  lemma {:induction false} RunOfQuiet(due: seq<Hook>)
    requires !AnyThrows(due)
    ensures RunOf(due) == due
  {
    hide AnyThrows;
    if due != [] {
      QuietTail(due);
      RunOfQuiet(due[1..]);
    }
  }

  /** What is due after hooks that do not throw is run after them. */
  lemma {:induction false} RunOfAppend(a: seq<Hook>, b: seq<Hook>)
    requires !AnyThrows(a)
    ensures RunOf(a + b) == a + RunOf(b)
  {
    if a == [] {
      assert a + b == b;
    } else {
      assert forall i :: 0 <= i < |a[1..]| ==> a[1..][i] == a[i + 1];
      assert (a + b)[1..] == a[1..] + b;
      RunOfAppend(a[1..], b);
      assert [a[0]] + (a[1..] + RunOf(b)) == a + RunOf(b);
    }
  }

  /** What is due after a hook that throws is not run. */
  lemma RunOfThrowing(a: seq<Hook>, b: seq<Hook>, i: nat)
    requires i < |a| && a[i].throws && !AnyThrows(a[..i])
    ensures RunOf(a + b) == a[..i + 1]
  {
    assert a + b == a[..i] + (a[i..] + b);
    RunOfAppend(a[..i], a[i..] + b);
    assert RunOf(a[i..] + b) == [a[i]];
  }

  /** The second hooks run only if none of the first throws. */
  lemma RunOfSplit(a: seq<Hook>, b: seq<Hook>)
    ensures RunOf(a + b) == if AnyThrows(a) then RunOf(a) else RunOf(a) + RunOf(b)
  {
    if AnyThrows(a) {
      var i := FirstThrowing(a);
      RunOfThrowing(a, b, i);
      RunOfThrowing(a, [], i);
      assert a + [] == a;
    } else {
      RunOfAppend(a, b);
      RunOfQuiet(a);
    }
  }

  lemma AnyThrowsSplit(a: seq<Hook>, b: seq<Hook>)
    ensures AnyThrows(a + b) <==> AnyThrows(a) || AnyThrows(b)
  {
    if AnyThrows(a) {
      var i :| 0 <= i < |a| && a[i].throws;
      assert (a + b)[i].throws;
    }
    if AnyThrows(b) {
      var i :| 0 <= i < |b| && b[i].throws;
      assert (a + b)[|a| + i].throws;
    }
  }

  lemma DueSplit(h: Hooks, committed: bool)
    ensures RunOf(Due(h, committed)) ==
      if !committed then RunOf(h.onSettled)
      else if AnyThrows(h.onCommitted) then RunOf(h.onCommitted)
      else RunOf(h.onCommitted) + RunOf(h.onSettled)
    ensures AnyThrows(Due(h, committed)) <==> (committed && AnyThrows(h.onCommitted)) || AnyThrows(h.onSettled)
  {
    hide RunOf, AnyThrows;
    if committed {
      RunOfSplit(h.onCommitted, h.onSettled);
      AnyThrowsSplit(h.onCommitted, h.onSettled);
    } else {
      assert [] + h.onSettled == h.onSettled;
    }
  }

  lemma NothingDue(committed: bool)
    ensures RunOf(Due(Hooks([], []), committed)) == [] && !AnyThrows(Due(Hooks([], []), committed))
  {
  }

  /** Of the hooks `due`, those up to the first that throws were run, in order, and no others. */
  ghost predicate RunUpToThrow(due: seq<Hook>, before: seq<Hook>, after: seq<Hook>, threw: bool) {
    exists n :: 0 <= n <= |due| && after == before + due[..n]
      && (forall i :: 0 <= i < n - 1 ==> !due[i].throws)
      && (threw <==> n > 0 && due[n - 1].throws)
      && (!threw ==> n == |due|)
  }

  lemma DueRun(h: Hooks, committed: bool)
    ensures Due(h, committed) == if committed then h.onCommitted + h.onSettled else h.onSettled
  {
    assert [] + h.onSettled == h.onSettled;
  }

  lemma UpToThrow(before: seq<Hook>, due: seq<Hook>)
    ensures RunUpToThrow(due, before, before + RunOf(due), AnyThrows(due))
  {
    if AnyThrows(due) {
      var i := FirstThrowing(due);
      RunOfThrowing(due, [], i);
      assert due + [] == due;
      forall j | 0 <= j < i ensures !due[j].throws {
        assert due[..i][j] == due[j];
      }
      assert RunOf(due) == due[..i + 1];
    } else {
      RunOfQuiet(due);
      assert due[..|due|] == due;
    }
  }

  class Registry {
    var registry: map<UnitId, Hooks>
    /** Every hook run, in order. */
    var ran: seq<Hook>

    constructor ()
      ensures registry == map[] && ran == []
    {
      registry, ran := map[], [];
    }

    method OnCommitted(uow: UnitId, hook: Hook)
      modifies this`registry
      ensures registry == old(registry)[uow :=
        Hooks(Registered(old(registry), uow).onCommitted + [hook], Registered(old(registry), uow).onSettled)]
    {
      var h := Registered(registry, uow);
      registry := registry[uow := h.(onCommitted := h.onCommitted + [hook])];
    }

    method OnSettled(uow: UnitId, hook: Hook)
      modifies this`registry
      ensures registry == old(registry)[uow :=
        Hooks(Registered(old(registry), uow).onCommitted, Registered(old(registry), uow).onSettled + [hook])]
    {
      var h := Registered(registry, uow);
      registry := registry[uow := h.(onSettled := h.onSettled + [hook])];
    }

    /** Runs hooks in order up to the first that throws. */
    method RunAll(hooks: seq<Hook>) returns (threw: bool)
      modifies this`ran
      ensures threw <==> AnyThrows(hooks)
      ensures ran == old(ran) + RunOf(hooks)
    {
      for i := 0 to |hooks|
        invariant ran == old(ran) + hooks[..i]
        invariant !AnyThrows(hooks[..i])
      {
        ran := ran + [hooks[i]];
        assert hooks[..i + 1] == hooks[..i] + [hooks[i]];
        AnyThrowsSplit(hooks[..i], [hooks[i]]);
        if hooks[i].throws {
          RunOfThrowing(hooks, [], i);
          assert hooks + [] == hooks;
          return true;
        }
        assert !AnyThrows([hooks[i]]);
      }
      assert hooks[..|hooks|] == hooks;
      RunOfQuiet(hooks);
      return false;
    }

    /** The registration is cleared before anything runs, so no hook can run twice. */
    method RunCompletionHooks(uow: UnitId, committed: bool) returns (threw: bool)
      modifies this
      ensures registry == old(registry) - {uow}
      ensures ran == old(ran) + RunOf(Due(Registered(old(registry), uow), committed))
      ensures threw <==> AnyThrows(Due(Registered(old(registry), uow), committed))
      ensures var h := Registered(old(registry), uow);
        RunUpToThrow(if committed then h.onCommitted + h.onSettled else h.onSettled, old(ran), ran, threw)
    {
      DueRun(Registered(registry, uow), committed);
      UpToThrow(ran, Due(Registered(registry, uow), committed));
      hide RunOf, AnyThrows, Due;
      if uow !in registry {
        NothingDue(committed);
        assert registry - {uow} == registry;
        return false;
      }
      var hooks := registry[uow];
      registry := registry - {uow};
      threw := RunHooks(hooks, committed);
    }

    method RunHooks(hooks: Hooks, committed: bool) returns (threw: bool)
      modifies this`ran
      ensures ran == old(ran) + RunOf(Due(hooks, committed))
      ensures threw <==> AnyThrows(Due(hooks, committed))
    {
      DueSplit(hooks, committed);
      hide RunOf, AnyThrows, Due;
      if committed {
        threw := RunAll(hooks.onCommitted);
        if threw {
          return;
        }
      }
      threw := RunAll(hooks.onSettled);
      assert old(ran) + (RunOf(hooks.onCommitted) + RunOf(hooks.onSettled))
          == old(ran) + RunOf(hooks.onCommitted) + RunOf(hooks.onSettled);
    }
  }

  ghost function FirstThrowing(hooks: seq<Hook>): (i: nat)
    requires AnyThrows(hooks)
    ensures i < |hooks| && hooks[i].throws && !AnyThrows(hooks[..i])
  {
    var n := |hooks| - 1;
    assert hooks == hooks[..n] + [hooks[n]];
    AnyThrowsSplit(hooks[..n], [hooks[n]]);
    if AnyThrows(hooks[..n]) then
      var i := FirstThrowing(hooks[..n]);
      assert hooks[..n][..i] == hooks[..i];
      i
    else n
  }

  /**
   * A settled hook, such as a lock's release, is run when the unit of work settles exactly
   * when no hook due before it throws.
   */
  lemma SettledHookRunsIff(h: Hooks, committed: bool, n: nat)
    requires n < |h.onSettled|
    ensures var due := Due(h, committed);
      var place := |due| - |h.onSettled| + n;
      && due[place] == h.onSettled[n]
      && (|RunOf(due)| > place <==> !AnyThrows(due[..place]))
      && RunOf(due) <= due
  {
    var due := Due(h, committed);
    var place := |due| - |h.onSettled| + n;
    assert due == due[..place] + due[place..];
    RunOfSplit(due[..place], due[place..]);
    RunOfPrefix(due);
    RunOfPrefix(due[..place]);
    if !AnyThrows(due[..place]) {
      RunOfQuiet(due[..place]);
      assert |RunOf(due[place..])| >= 1;
    }
  }

  lemma {:induction false} RunOfPrefix(due: seq<Hook>)
    ensures RunOf(due) <= due
  {
    if due != [] && !due[0].throws {
      RunOfPrefix(due[1..]);
      assert due == [due[0]] + due[1..];
    }
  }
}
