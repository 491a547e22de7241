/** `handleRouteEntered` of src/util/route.js: the consume-once dispatch of
    the callbacks that `beforeRouteEnter` guards left for the component
    instances a route renders.

    Each record carries two tables in the source, `instances` (view name to
    component instance) and `enteredCbs` (view name to pending callbacks).
    Here both live in a `ViewRegistry` keyed by record identity. A callback
    is an identifier; calling it is recorded in a returned log. */
module Entered {
  import opened Optional
  import opened RouteMap
  import opened Route

  /** A component instance: its identity and its `_isBeingDestroyed` flag. */
  datatype Instance = Instance(id: nat, isBeingDestroyed: bool)

  /** One key of a record's `instances`, in enumeration order; the value may
      have been cleared to `undefined`. */
  datatype Slot = Slot(name: string, instance: Option<Instance>)

  /** `cbs[i](instance)` for the record `record` and the view `slot`. */
  datatype Invocation = Invocation(record: nat, slot: string, callback: nat, instance: Instance)

  /** One record's `enteredCbs`. */
  type Pending = map<string, seq<nat>>

  function SlotsOf(instances: map<nat, seq<Slot>>, id: nat): seq<Slot> {
    if id in instances then instances[id] else []
  }

  /** The innermost loop: every callback in order, unless the instance is
      being destroyed. */
  function Calls(id: nat, name: string, instance: Instance, cbs: seq<nat>): seq<Invocation> {
    if instance.isBeingDestroyed then []
    else seq(|cbs|, k requires 0 <= k < |cbs| => Invocation(id, name, cbs[k], instance))
  }

  /** One slot: skipped unless it has an instance and a pending list;
      otherwise the list is deleted and then run. */
  function SlotStep(pending: Pending, id: nat, slot: Slot): (Pending, seq<Invocation>) {
    if slot.instance.None? || slot.name !in pending then (pending, [])
    else (pending - {slot.name}, Calls(id, slot.name, slot.instance.value, pending[slot.name]))
  }

  /** The slot loop of one record, over its first `n` slots. */
  function EnterSlots(pending: Pending, id: nat, slots: seq<Slot>, n: nat): (Pending, seq<Invocation>)
    requires n <= |slots|
  {
    if n == 0 then (pending, [])
    else
      var (p, log) := EnterSlots(pending, id, slots, n - 1);
      var (q, ran) := SlotStep(p, id, slots[n - 1]);
      (q, log + ran)
  }

  /** One record of `route.matched`. */
  function EnterRecord(entered: map<nat, Pending>, instances: map<nat, seq<Slot>>, record: RouteRecord): (map<nat, Pending>, seq<Invocation>) {
    if record.id !in entered then (entered, [])
    else
      var slots := SlotsOf(instances, record.id);
      var (p, log) := EnterSlots(entered[record.id], record.id, slots, |slots|);
      (entered[record.id := p], log)
  }

  /** The record loop, over the first `n` matched records. */
  function EnterAll(entered: map<nat, Pending>, instances: map<nat, seq<Slot>>, matched: seq<RouteRecord>, n: nat): (map<nat, Pending>, seq<Invocation>)
    requires n <= |matched|
  {
    if n == 0 then (entered, [])
    else
      var (e, log) := EnterAll(entered, instances, matched, n - 1);
      var (f, ran) := EnterRecord(e, instances, matched[n - 1]);
      (f, log + ran)
  }

  /** `handleRouteEntered` over the whole of `matched`. */
  function HandleAll(entered: map<nat, Pending>, instances: map<nat, seq<Slot>>, matched: seq<RouteRecord>): (map<nat, Pending>, seq<Invocation>) {
    EnterAll(entered, instances, matched, |matched|)
  }

  // ---------------------------------------------------------------------------
  // Properties
  // ---------------------------------------------------------------------------

  /** The names of the first `n` slots that hold an instance. */
  function FilledNames(slots: seq<Slot>, n: nat): set<string>
    requires n <= |slots|
  {
    set j | 0 <= j < n && slots[j].instance.Some? :: slots[j].name
  }

  /** A record's pass deletes exactly the pending lists of the views that
      have an instance; every other pending list stays as it was. */
  lemma {:induction false} EnterSlotsConsumes(pending: Pending, id: nat, slots: seq<Slot>, n: nat)
    requires n <= |slots|
    ensures EnterSlots(pending, id, slots, n).0 == pending - FilledNames(slots, n)
  {
    if n > 0 {
      EnterSlotsConsumes(pending, id, slots, n - 1);
      if slots[n - 1].instance.Some? {
        assert FilledNames(slots, n) == FilledNames(slots, n - 1) + {slots[n - 1].name};
      } else {
        assert FilledNames(slots, n) == FilledNames(slots, n - 1);
      }
    }
  }

  /** Every callback run was pending for that view, is run on that view's
      instance, and that instance was not being destroyed. */
  lemma {:induction false} EnterSlotsRunsOnlyPending(pending: Pending, id: nat, slots: seq<Slot>, n: nat)
    requires n <= |slots|
    ensures forall e | e in EnterSlots(pending, id, slots, n).1 ::
      && e.record == id && !e.instance.isBeingDestroyed
      && Slot(e.slot, Some(e.instance)) in slots[..n]
      && e.slot in pending && e.callback in pending[e.slot]
  {
    if n > 0 {
      EnterSlotsRunsOnlyPending(pending, id, slots, n - 1);
      EnterSlotsConsumes(pending, id, slots, n - 1);
      var (p, log) := EnterSlots(pending, id, slots, n - 1);
      var ran := SlotStep(p, id, slots[n - 1]).1;
      assert slots[..n] == slots[..n - 1] + [slots[n - 1]];
      forall e | e in ran
        ensures e.slot in pending && e.callback in pending[e.slot]
      {
        var k :| 0 <= k < |ran| && ran[k] == e;
      }
    }
  }

  /** Every view that has an instance and still had its pending list when
      the loop reached it runs that whole list, in order, as one contiguous
      block of the log right after what the earlier views ran; when the
      instance is not being destroyed, each of its callbacks is invoked on
      it. */
  lemma {:induction false} EnterSlotsRunsAllPending(pending: Pending, id: nat, slots: seq<Slot>, n: nat, j: nat)
    requires j < n <= |slots|
    requires slots[j].instance.Some? && slots[j].name in pending
    requires slots[j].name !in FilledNames(slots, j)
    ensures EnterSlots(pending, id, slots, j).1
      + Calls(id, slots[j].name, slots[j].instance.value, pending[slots[j].name])
      <= EnterSlots(pending, id, slots, n).1
    ensures !slots[j].instance.value.isBeingDestroyed ==>
      forall c | c in pending[slots[j].name] ::
        Invocation(id, slots[j].name, c, slots[j].instance.value) in EnterSlots(pending, id, slots, n).1
  {
    var name, inst := slots[j].name, slots[j].instance.value;
    var pre := EnterSlots(pending, id, slots, j).1;
    var block := Calls(id, name, inst, pending[name]);
    var log := EnterSlots(pending, id, slots, n).1;
    var before := EnterSlots(pending, id, slots, n - 1);
    var ran := SlotStep(before.0, id, slots[n - 1]).1;
    assert log == before.1 + ran;
    if n - 1 == j {
      EnterSlotsConsumes(pending, id, slots, j);
      assert before.0[name] == pending[name];
      assert ran == block;
    } else {
      EnterSlotsRunsAllPending(pending, id, slots, n - 1, j);
      assert before.1 <= log;
    }
    CallsInLog(id, name, inst, pending[name], pre, log[|pre + block|..]);
    assert log == pre + block + log[|pre + block|..];
  }

  /** A log holding a view's calls holds an invocation of each of its
      callbacks, unless the instance is being destroyed. */
  lemma CallsInLog(id: nat, name: string, instance: Instance, cbs: seq<nat>, pre: seq<Invocation>, post: seq<Invocation>)
    ensures !instance.isBeingDestroyed ==>
      forall c | c in cbs :: Invocation(id, name, c, instance) in pre + Calls(id, name, instance, cbs) + post
  {
    if !instance.isBeingDestroyed {
      var log := pre + Calls(id, name, instance, cbs) + post;
      forall c | c in cbs
        ensures Invocation(id, name, c, instance) in log
      {
        var k :| 0 <= k < |cbs| && cbs[k] == c;
        assert log[|pre| + k] == Invocation(id, name, c, instance);
      }
    }
  }

  /** When no pending list belongs to a view with an instance, a record's
      pass does nothing at all. */
  lemma {:induction false} EnterSlotsIdle(pending: Pending, id: nat, slots: seq<Slot>, n: nat)
    requires n <= |slots|
    requires pending.Keys !! FilledNames(slots, n)
    ensures EnterSlots(pending, id, slots, n) == (pending, [])
  {
    if n > 0 {
      assert FilledNames(slots, n - 1) <= FilledNames(slots, n);
      if slots[n - 1].instance.Some? {
        assert slots[n - 1].name in FilledNames(slots, n);
      }
      EnterSlotsIdle(pending, id, slots, n - 1);
      var none: seq<Invocation> := [];
      assert none + none == none;
    }
  }

  /** Nothing is left to run for the record `id`. */
  ghost predicate Settled(entered: map<nat, Pending>, instances: map<nat, seq<Slot>>, id: nat) {
    id in entered ==> entered[id].Keys !! FilledNames(SlotsOf(instances, id), |SlotsOf(instances, id)|)
  }

  /** `f` has the same records as `e`, each with the same or fewer pending views. */
  ghost predicate Shrinks(e: map<nat, Pending>, f: map<nat, Pending>) {
    e.Keys == f.Keys && forall id | id in e :: f[id].Keys <= e[id].Keys
  }

  /** After the pass every matched record is settled, and no record gained
      a pending list. */
  lemma {:induction false} EnterAllSettles(entered: map<nat, Pending>, instances: map<nat, seq<Slot>>, matched: seq<RouteRecord>, n: nat)
    requires n <= |matched|
    ensures var f := EnterAll(entered, instances, matched, n).0;
      && Shrinks(entered, f)
      && (forall id | Settled(entered, instances, id) :: Settled(f, instances, id))
      && (forall j | 0 <= j < n :: Settled(f, instances, matched[j].id))
  {
    if n > 0 {
      EnterAllSettles(entered, instances, matched, n - 1);
      var e := EnterAll(entered, instances, matched, n - 1).0;
      var record := matched[n - 1];
      if record.id in e {
        var slots := SlotsOf(instances, record.id);
        EnterSlotsConsumes(e[record.id], record.id, slots, |slots|);
      }
    }
  }

  /** From settled records the pass runs nothing and changes nothing. */
  lemma {:induction false} EnterAllIdle(entered: map<nat, Pending>, instances: map<nat, seq<Slot>>, matched: seq<RouteRecord>, n: nat)
    requires n <= |matched|
    requires forall j | 0 <= j < n :: Settled(entered, instances, matched[j].id)
    ensures EnterAll(entered, instances, matched, n) == (entered, [])
  {
    if n > 0 {
      EnterAllIdle(entered, instances, matched, n - 1);
      var record := matched[n - 1];
      if record.id in entered {
        var slots := SlotsOf(instances, record.id);
        EnterSlotsIdle(entered[record.id], record.id, slots, |slots|);
        assert entered[record.id := entered[record.id]] == entered;
      }
      var none: seq<Invocation> := [];
      assert none + none == none;
    }
  }

  /** Consume once: handling the same route a second time runs no callback
      and leaves every pending list as the first pass left it. */
  lemma HandleRouteEnteredTwice(entered: map<nat, Pending>, instances: map<nat, seq<Slot>>, matched: seq<RouteRecord>)
    ensures var f := HandleAll(entered, instances, matched).0;
      HandleAll(f, instances, matched) == (f, [])
  {
    EnterAllSettles(entered, instances, matched, |matched|);
    EnterAllIdle(HandleAll(entered, instances, matched).0, instances, matched, |matched|);
  }

  // ---------------------------------------------------------------------------
  // The tables as the source holds them
  // ---------------------------------------------------------------------------

  /** Every record's `instances` and `enteredCbs`, keyed by record identity. */
  class ViewRegistry {
    var instances: map<nat, seq<Slot>>
    var enteredCbs: map<nat, Pending>

    constructor ()
      ensures instances == map[] && enteredCbs == map[]
    {
      instances, enteredCbs := map[], map[];
    }

    /** `handleRouteEntered(route)`. */
    method HandleRouteEntered(route: Route) returns (log: seq<Invocation>)
      modifies this`enteredCbs
      ensures (enteredCbs, log) == HandleAll(old(enteredCbs), instances, route.matched)
    {
      ghost var start := enteredCbs;
      log := [];
      var i := 0;
      while i < |route.matched|
        invariant 0 <= i <= |route.matched|
        invariant (enteredCbs, log) == EnterAll(start, instances, route.matched, i)
      {
        var ran := EnterRecordSlots(route.matched[i]);
        log := log + ran;
        i := i + 1;
      }
    }

    /** The slot loop for one matched record. */
    method EnterRecordSlots(record: RouteRecord) returns (log: seq<Invocation>)
      modifies this`enteredCbs
      ensures (enteredCbs, log) == EnterRecord(old(enteredCbs), instances, record)
    {
      var id := record.id;
      var slots := if id in instances then instances[id] else [];
      log := [];
      if id !in enteredCbs {
        return;
      }
      ghost var start := enteredCbs;
      var j := 0;
      while j < |slots|
        invariant 0 <= j <= |slots|
        invariant id in enteredCbs && enteredCbs == start[id := enteredCbs[id]]
        invariant (enteredCbs[id], log) == EnterSlots(start[id], id, slots, j)
      {
        var name := slots[j].name;
        var instance := slots[j].instance;
        if instance.Some? && name in enteredCbs[id] {
          var cbs := enteredCbs[id][name];
          enteredCbs := enteredCbs[id := enteredCbs[id] - {name}];
          var ran := RunCallbacks(id, name, instance.value, cbs);
          log := log + ran;
        } else {
          assert log + [] == log;
        }
        j := j + 1;
      }
    }

    /** `for (...) { if (!instance._isBeingDestroyed) cbs[i](instance) }` */
    static method RunCallbacks(id: nat, name: string, instance: Instance, cbs: seq<nat>) returns (log: seq<Invocation>)
      ensures log == Calls(id, name, instance, cbs)
    {
      log := [];
      var k := 0;
      while k < |cbs|
        invariant 0 <= k <= |cbs|
        invariant log == if instance.isBeingDestroyed then [] else Calls(id, name, instance, cbs[..k])
      {
        if !instance.isBeingDestroyed {
          log := log + [Invocation(id, name, cbs[k], instance)];
        }
        k := k + 1;
      }
      assert cbs[..k] == cbs;
    }
  }
}
