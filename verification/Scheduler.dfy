/** The scheduler: one loop per stored probe, reconciled against the store. */
module Scheduler {
  import opened Results
  import opened Keys
  import opened Schedule

  /** Where a loop stands between two of its waits. */
  datatype Phase =
    | Starting
    | Sleeping(until: int)
    | Resolving
    | Acquiring
    | Running
    | Advancing
    | Gone

  /** A spawned loop, the instants at which it woke, and those at which it started a run. */
  datatype Task = Task(probe: Probe, phase: Phase, wakes: seq<int>, starts: seq<int>)

  datatype ActiveProbe = ActiveProbe(updatedAt: int, handle: nat)

  /** The loops being tracked, the loops ever spawned, those told to stop, and the stored schedule. */
  datatype Loops = Loops(active: map<Id, ActiveProbe>, tasks: map<nat, Task>, aborted: set<nat>, stored: Stored,
      next: nat)

  const NO_LOOPS: Loops := Loops(map[], map[], {}, map[], 0)

  predicate DistinctProbes(probes: seq<Probe>) {
    forall i, j :: 0 <= i < j < |probes| ==> probes[i].id != probes[j].id
  }

  function Ids(probes: seq<Probe>): set<Id> {
    set i | 0 <= i < |probes| :: probes[i].id
  }

  /** Loops whose probe was deleted are told to stop and forgotten. */
  function Retain(l: Loops, ids: set<Id>): Loops {
    l.(active := map id | id in l.active && id in ids :: l.active[id],
       aborted := l.aborted + set id | id in l.active && id !in ids :: l.active[id].handle)
  }

  predicate UpToDate(l: Loops, probe: Probe) {
    probe.id in l.active && l.active[probe.id].updatedAt == probe.updatedAt
  }

  /** A new probe gets a loop; an edited one gets a new loop, and its pending run is dropped, unless the store
      fails to do so. */
  function Refresh(l: Loops, probe: Probe, erased: bool): Loops {
    if UpToDate(l, probe) then l
    else
      Loops(l.active[probe.id := ActiveProbe(probe.updatedAt, l.next)],
            l.tasks[l.next := Task(probe, Starting, [], [])],
            if probe.id in l.active then l.aborted + {l.active[probe.id].handle} else l.aborted,
            if probe.id in l.active && erased then l.stored - {probe.id} else l.stored,
            l.next + 1)
  }

  /** `erasable` are the probes whose pending run the store can drop. */
  function RefreshAll(l: Loops, probes: seq<Probe>, erasable: set<Id>): Loops
    decreases |probes|
  {
    if probes == [] then l
    else
      var k := |probes| - 1;
      Refresh(RefreshAll(l, probes[..k], erasable), probes[k], probes[k].id in erasable)
  }

  lemma RefreshOneMore(l: Loops, probes: seq<Probe>, k: nat, erasable: set<Id>)
    requires k < |probes|
    ensures RefreshAll(l, probes[..k + 1], erasable)
         == Refresh(RefreshAll(l, probes[..k], erasable), probes[k], probes[k].id in erasable)
  {
    assert probes[..k + 1][..k] == probes[..k];
  }

  class Registry {
    var active: map<Id, ActiveProbe>
    var tasks: map<nat, Task>
    var aborted: set<nat>
    var stored: Stored
    var next: nat

    ghost function Contents(): Loops
      reads this
    {
      Loops(active, tasks, aborted, stored, next)
    }

    constructor ()
      ensures Contents() == NO_LOOPS
    {
      active, tasks, aborted, stored, next := map[], map[], {}, map[], 0;
    }

    method Spawn(probe: Probe) returns (handle: nat)
      modifies this
      ensures Contents() == old(Contents()).(tasks := old(tasks)[old(next) := Task(probe, Starting, [], [])],
          next := old(next) + 1)
      ensures handle == old(next)
    {
      handle := next;
      tasks := tasks[handle := Task(probe, Starting, [], [])];
      next := next + 1;
    }

    /** One listed probe: nothing to do, or out with its old loop and in with a new one. */
    method RefreshOne(probe: Probe, erased: bool)
      modifies this
      ensures Contents() == Refresh(old(Contents()), probe, erased)
    {
      if probe.id in active && active[probe.id].updatedAt == probe.updatedAt {
        return;
      }
      if probe.id in active {
        aborted := aborted + {active[probe.id].handle};
        active := active - {probe.id};
        if erased {
          stored := stored - {probe.id};
        }
      }
      var handle := Spawn(probe);
      active := active[probe.id := ActiveProbe(probe.updatedAt, handle)];
    }

    /** `listing` is what the store answered, or nothing where it failed. */
    method Reconcile(listing: Option<seq<Probe>>, erasable: set<Id>)
      modifies this
      ensures Contents() ==
                if listing.None? then old(Contents())
                else RefreshAll(Retain(old(Contents()), Ids(listing.value)), listing.value, erasable)
    {
      if listing.None? {
        return;
      }
      var probes := listing.value;
      var current := Ids(probes);
      aborted := aborted + set id | id in active && id !in current :: active[id].handle;
      active := map id | id in active && id in current :: active[id];
      ghost var retained := Contents();
      assert retained == Retain(old(Contents()), current);
      hide Retain, Refresh, Ids;
      for k := 0 to |probes|
        invariant Contents() == RefreshAll(retained, probes[..k], erasable)
      {
        RefreshOneMore(retained, probes, k, erasable);
        RefreshOne(probes[k], probes[k].id in erasable);
      }
      assert probes[..|probes|] == probes;
    }

    method Shutdown()
      modifies this
      ensures Contents() == Drained(old(Contents()))
    {
      aborted := aborted + set id | id in active :: active[id].handle;
      active := map[];
    }
  }

  function Drained(l: Loops): Loops {
    l.(active := map[], aborted := l.aborted + set id | id in l.active :: l.active[id].handle)
  }

  // ---------- What a reconcile does ----------

  /** Every tracked loop is a spawned one for its probe as it was when it was spawned, and no loop escapes. */
  ghost predicate Tracked(l: Loops) {
    && (forall h :: h in l.tasks ==> h < l.next)
    && (forall h :: h in l.aborted ==> h in l.tasks)
    && (forall id :: id in l.active ==>
          && l.active[id].handle in l.tasks && l.active[id].handle !in l.aborted
          && l.tasks[l.active[id].handle].probe.id == id
          && l.tasks[l.active[id].handle].probe.updatedAt == l.active[id].updatedAt)
    && (forall h :: h in l.tasks && h !in l.aborted ==> IsActive(l, h))
  }

  /** The loop is the one being tracked for its probe. */
  predicate IsActive(l: Loops, h: nat)
    requires h in l.tasks
  {
    var id := l.tasks[h].probe.id;
    id in l.active && l.active[id].handle == h
  }

  lemma RetainTracks(l: Loops, ids: set<Id>)
    requires Tracked(l)
    ensures Tracked(Retain(l, ids))
  {
  }

  lemma RefreshTracks(l: Loops, probe: Probe, erased: bool)
    requires Tracked(l)
    ensures Tracked(Refresh(l, probe, erased))
  {
  }

  lemma {:induction false} RefreshAllTracks(l: Loops, probes: seq<Probe>, erasable: set<Id>)
    requires Tracked(l)
    ensures Tracked(RefreshAll(l, probes, erasable))
    decreases |probes|
  {
    if probes != [] {
      var k := |probes| - 1;
      RefreshAllTracks(l, probes[..k], erasable);
      RefreshTracks(RefreshAll(l, probes[..k], erasable), probes[k], probes[k].id in erasable);
      hide Tracked;
    }
  }

  lemma DrainTracks(l: Loops)
    requires Tracked(l)
    ensures Tracked(Drained(l))
  {
  }

  /** The listing has the probe at another version than the one its loop was spawned for. */
  predicate Edited(l: Loops, probes: seq<Probe>, id: Id) {
    && id in l.active
    && exists i :: 0 <= i < |probes| && probes[i].id == id && probes[i].updatedAt != l.active[id].updatedAt
  }

  function EditedIds(l: Loops, probes: seq<Probe>): set<Id> {
    set id | id in l.active && Edited(l, probes, id)
  }

  function Handles(l: Loops, ids: set<Id>): set<nat>
  {
    set id | id in ids && id in l.active :: l.active[id].handle
  }

  /** The tracked loop of a listed probe is at the listed version, and is the old one if that was; otherwise
      it is newly spawned. */
  ghost predicate Served(before: Loops, after: Loops, probe: Probe) {
    && UpToDate(after, probe)
    && (UpToDate(before, probe) ==> after.active[probe.id] == before.active[probe.id])
    && (!UpToDate(before, probe) ==>
          && after.active[probe.id].handle >= before.next && after.active[probe.id].handle in after.tasks
          && after.tasks[after.active[probe.id].handle] == Task(probe, Starting, [], []))
  }

  ghost predicate RefreshedActive(before: Loops, after: Loops, ids: set<Id>) {
    && after.active.Keys == before.active.Keys + ids
    && (forall id :: id in before.active && id !in ids ==> after.active[id] == before.active[id])
    && before.next <= after.next && (forall h :: h in before.tasks ==>
        h in after.tasks && after.tasks[h] == before.tasks[h])
  }

  ghost predicate RefreshedStops(before: Loops, after: Loops, edited: set<Id>, erasable: set<Id>) {
    after.aborted == before.aborted + Handles(before, edited) && after.stored == before.stored - (edited * erasable)
  }

  ghost predicate AllServed(before: Loops, after: Loops, probes: seq<Probe>) {
    forall i :: 0 <= i < |probes| ==> Served(before, after, probes[i])
  }

  ghost predicate Refreshed(before: Loops, after: Loops, probes: seq<Probe>, erasable: set<Id>) {
    && RefreshedActive(before, after, Ids(probes)) && AllServed(before, after, probes)
    && RefreshedStops(before, after, EditedIds(before, probes), erasable)
  }

  lemma EditedNext(l: Loops, probes: seq<Probe>)
    requires DistinctProbes(probes) && probes != []
    ensures var before, p := probes[..|probes| - 1], probes[|probes| - 1];
            && EditedIds(l, probes) == EditedIds(l, before)
                + (if p.id in l.active && !UpToDate(l, p) then {p.id} else {})
            && p.id !in EditedIds(l, before) && p.id !in Ids(before) && Ids(probes) == Ids(before) + {p.id}
  {
    var before, p := probes[..|probes| - 1], probes[|probes| - 1];
    assert probes == before + [p];
    forall id | id in l.active ensures Edited(l, probes, id) <==>
        Edited(l, before, id) || (p.id == id && !UpToDate(l, p)) {
      if Edited(l, before, id) {
        var i :| 0 <= i < |before| && before[i].id == id && before[i].updatedAt != l.active[id].updatedAt;
        assert probes[i] == before[i];
      }
    }
    assert forall id :: id in Ids(probes) <==> id in Ids(before) || id == p.id by {
      IdsNext(before, p);
    }
  }

  lemma IdsNext(before: seq<Probe>, p: Probe)
    ensures Ids(before + [p]) == Ids(before) + {p.id}
  {
    var probes := before + [p];
    forall id ensures id in Ids(probes) <==> id in Ids(before) || id == p.id {
      if id in Ids(before) {
        var i :| 0 <= i < |before| && before[i].id == id;
        assert probes[i].id == id;
      }
      if id == p.id {
        assert probes[|before|].id == id;
      }
    }
  }

  lemma ServedStill(l: Loops, mid: Loops, p: Probe, erased: bool, q: Probe)
    requires Tracked(mid) && Served(l, mid, q) && q.id != p.id
    ensures Served(l, Refresh(mid, p, erased), q)
  {
  }

  lemma ServedNow(l: Loops, mid: Loops, p: Probe, erased: bool)
    requires l.next <= mid.next && (p.id in mid.active <==> p.id in l.active)
        && (p.id in l.active ==> mid.active[p.id] == l.active[p.id])
    ensures Served(l, Refresh(mid, p, erased), p)
  {
  }

  lemma ActiveNext(l: Loops, mid: Loops, p: Probe, erased: bool, ids: set<Id>)
    requires Tracked(mid) && RefreshedActive(l, mid, ids)
    ensures RefreshedActive(l, Refresh(mid, p, erased), ids + {p.id})
  {
    assert UpToDate(mid, p) ==> mid.active.Keys + {p.id} == mid.active.Keys;
    assert !UpToDate(mid, p) ==> Refresh(mid, p, erased).active.Keys == mid.active.Keys + {p.id};
  }

  /** One more probe adds itself to the edited ones, or nothing. */
  lemma StopsNext(l: Loops, mid: Loops, p: Probe, edited: set<Id>, erasable: set<Id>)
    requires RefreshedStops(l, mid, edited, erasable)
    requires (p.id in mid.active <==> p.id in l.active) && (p.id in l.active ==> mid.active[p.id] == l.active[p.id])
    ensures RefreshedStops(
        l, Refresh(mid, p, p.id in erasable), edited + (if p.id in l.active && !UpToDate(l, p) then {p.id} else {}),
        erasable)
  {
    if p.id in l.active && !UpToDate(l, p) {
      HandlesNext(l, edited, p.id);
      var more := if p.id in erasable then {p.id} else {};
      assert (edited + {p.id}) * erasable == edited * erasable + more;
      assert l.stored - (edited * erasable + more) == l.stored - (edited * erasable) - more;
      assert p.id !in erasable ==> l.stored - (edited * erasable) - {} == l.stored - (edited * erasable);
    } else {
      assert edited + {} == edited;
    }
    hide Handles;
  }

  lemma RefreshNext(l: Loops, mid: Loops, probes: seq<Probe>, erasable: set<Id>)
    requires Tracked(mid) && DistinctProbes(probes) && probes != []
    requires Refreshed(l, mid, probes[..|probes| - 1], erasable)
    ensures var p := probes[|probes| - 1]; Refreshed(l, Refresh(mid, p, p.id in erasable), probes, erasable)
  {
    var before, p := probes[..|probes| - 1], probes[|probes| - 1];
    var erased := p.id in erasable;
    EditedNext(l, probes);
    hide Ids, EditedIds, Served, Tracked, Refresh, Handles, RefreshedStops, UpToDate;
    ActiveNext(l, mid, p, erased, Ids(before));
    StopsNext(l, mid, p, EditedIds(l, before), erasable);
    ServedNow(l, mid, p, erased);
    hide RefreshedActive;
    forall i | 0 <= i < |probes| ensures Served(l, Refresh(mid, p, erased), probes[i]) {
      if i < |before| {
        assert Served(l, mid, before[i]) && before[i] == probes[i];
        ServedStill(l, mid, p, erased, probes[i]);
      }
    }
  }

  lemma HandlesNext(l: Loops, ids: set<Id>, id: Id)
    requires id in l.active
    ensures Handles(l, ids + {id}) == Handles(l, ids) + {l.active[id].handle}
  {
    assert l.active[id].handle in Handles(l, ids + {id}) by {
      assert id in ids + {id};
    }
  }

  lemma {:induction false} RefreshAllMeaning(l: Loops, probes: seq<Probe>, erasable: set<Id>)
    requires Tracked(l) && DistinctProbes(probes)
    ensures Refreshed(l, RefreshAll(l, probes, erasable), probes, erasable)
    decreases |probes|
  {
    if probes == [] {
      assert EditedIds(l, probes) == {} && Handles(l, {}) == {} && Ids(probes) == {} && {} * erasable == {};
    } else {
      var before := probes[..|probes| - 1];
      RefreshAllMeaning(l, before, erasable);
      RefreshAllTracks(l, before, erasable);
      hide Tracked, Refreshed;
      RefreshNext(l, RefreshAll(l, before, erasable), probes, erasable);
    }
  }

  /** The loops that a reconcile should leave running are those of listed probes at their listed version. */
  predicate Wanted(l: Loops, probes: seq<Probe>, h: nat)
    requires h in l.tasks
  {
    exists i :: 0 <= i < |probes| && probes[i].id == l.tasks[h].probe.id
        && probes[i].updatedAt == l.tasks[h].probe.updatedAt
  }

  /** After a reconcile exactly the listed probes have loops, each at its listed version; loops that were so
      already run on undisturbed, every other one has been told to stop, and exactly the edited probes lose their
      pending run, where the store can drop it. */
  lemma ReconcileMeaning(l: Loops, probes: seq<Probe>, erasable: set<Id>)
    requires Tracked(l) && DistinctProbes(probes)
    ensures var after := RefreshAll(Retain(l, Ids(probes)), probes, erasable);
            && Tracked(after) && after.active.Keys == Ids(probes)
            && AllServed(l, after, probes)
            && (forall h :: h in l.tasks ==> h in after.tasks && after.tasks[h] == l.tasks[h])
            && (forall h :: h in l.tasks && h !in l.aborted ==> (h in after.aborted <==> !Wanted(l, probes, h)))
            && after.stored == l.stored - (EditedIds(l, probes) * erasable)
  {
    var mid, ids := Retain(l, Ids(probes)), Ids(probes);
    RetainTracks(l, ids);
    RefreshAllTracks(mid, probes, erasable);
    RefreshAllMeaning(mid, probes, erasable);
    var after := RefreshAll(mid, probes, erasable);
    hide RefreshAll, Tracked;
    assert AllServed(mid, after, probes);
    RetainedServed(l, mid, after, probes);
    hide AllServed, Retain;
    assert EditedIds(mid, probes) == EditedIds(l, probes) by { RetainedEdits(l, probes); }
    forall h | h in l.tasks && h !in l.aborted ensures h in after.aborted <==> !Wanted(l, probes, h) {
      AbortedIff(l, probes, h);
    }
  }

  lemma RetainedServed(l: Loops, mid: Loops, after: Loops, probes: seq<Probe>)
    requires mid == Retain(l, Ids(probes)) && AllServed(mid, after, probes)
    ensures AllServed(l, after, probes)
  {
    forall i | 0 <= i < |probes| ensures Served(l, after, probes[i]) {
      assert Served(mid, after, probes[i]);
      assert probes[i].id in Ids(probes);
    }
  }

  lemma RetainedEdits(l: Loops, probes: seq<Probe>)
    ensures EditedIds(Retain(l, Ids(probes)), probes) == EditedIds(l, probes)
  {
    forall id | id in l.active ensures Edited(l, probes, id) ==> id in Ids(probes) {
      if Edited(l, probes, id) {
        var i :| 0 <= i < |probes| && probes[i].id == id && probes[i].updatedAt != l.active[id].updatedAt;
      }
    }
  }

  lemma AbortedIff(l: Loops, probes: seq<Probe>, h: nat)
    requires Tracked(l) && DistinctProbes(probes) && h in l.tasks && h !in l.aborted
    ensures var mid := Retain(l, Ids(probes));
            h in mid.aborted + Handles(mid, EditedIds(mid, probes)) <==> !Wanted(l, probes, h)
  {
    RetainedEdits(l, probes);
    var mid, id := Retain(l, Ids(probes)), l.tasks[h].probe.id;
    assert IsActive(l, h);
    assert h in mid.aborted <==> id !in Ids(probes);
    var edited := EditedIds(mid, probes);
    if h in Handles(mid, edited) {
      var x :| x in edited && x in mid.active && mid.active[x].handle == h;
      assert x == id;
    }
    if Edited(l, probes, id) {
      assert id in edited && id in mid.active;
    }
    assert h in Handles(mid, edited) <==> Edited(l, probes, id);
  }

  lemma {:induction false} RefreshNothing(l: Loops, probes: seq<Probe>, erasable: set<Id>)
    requires forall i :: 0 <= i < |probes| ==> UpToDate(l, probes[i])
    ensures RefreshAll(l, probes, erasable) == l
    decreases |probes|
  {
    if probes != [] {
      RefreshNothing(l, probes[..|probes| - 1], erasable);
    }
  }

  /** Reconciling again against an unchanged listing changes nothing. */
  lemma ReconcileTwice(l: Loops, probes: seq<Probe>, erasable: set<Id>, again: set<Id>)
    requires Tracked(l) && DistinctProbes(probes)
    ensures var after := RefreshAll(Retain(l, Ids(probes)), probes, erasable);
            RefreshAll(Retain(after, Ids(probes)), probes, again) == after
  {
    ReconcileMeaning(l, probes, erasable);
    var after := RefreshAll(Retain(l, Ids(probes)), probes, erasable);
    assert forall i :: 0 <= i < |probes| ==> UpToDate(after, probes[i]) by {
      forall i | 0 <= i < |probes| ensures UpToDate(after, probes[i]) {
        assert Served(l, after, probes[i]);
      }
    }
    hide RefreshAll, Tracked, AllServed, Ids, EditedIds;
    RetainAll(after, Ids(probes));
    RefreshNothing(after, probes, again);
  }

  lemma RetainAll(l: Loops, ids: set<Id>)
    requires l.active.Keys == ids
    ensures Retain(l, ids) == l
  {
    assert (map id | id in l.active && id in ids :: l.active[id]) == l.active;
    assert (set id | id in l.active && id !in ids :: l.active[id].handle) == {};
  }

  /** A loop spawned by a reconcile is the tracked one for its probe. */
  lemma SpawnedIsActive(l: Loops, probes: seq<Probe>, erasable: set<Id>, h: nat)
    requires Tracked(l) && DistinctProbes(probes)
    ensures var after := RefreshAll(Retain(l, Ids(probes)), probes, erasable);
            h in after.tasks && h !in l.tasks ==> IsActive(after, h)
  {
    var mid := Retain(l, Ids(probes));
    RetainTracks(l, Ids(probes));
    RefreshAllTracks(mid, probes, erasable);
    RefreshAllMeaning(mid, probes, erasable);
    hide RefreshAll, RefreshedActive, AllServed, Ids, EditedIds;
  }
}
