/** What the stored next run of a probe is after any run of the daemon, and when an edit of the probe takes effect. */
module Edits {
  import opened Results
  import opened Keys
  import opened Schedule
  import opened Scheduler
  import opened Daemon

  /** The state before step `i` of a run. */
  ghost function StateAt(cron: CronLibrary, s: System, steps: seq<Step>, s': System, i: nat): System
    requires Takes(cron, s, steps, s') && i <= |steps|
    decreases |steps|
  {
    if i == 0 then s else StateAt(cron, Next(cron, s, steps[0]), steps[1..], s', i - 1)
  }

  /** The step leaves the probe's stored next run as it is. */
  ghost predicate Keeps(s: System, step: Step, id: Id) {
    !Writes(s, step, id) && !Drops(s, step, id)
  }

  ghost predicate KeepsFrom(cron: CronLibrary, s: System, steps: seq<Step>, s': System, id: Id, i: nat)
    requires Takes(cron, s, steps, s')
  {
    forall j :: i <= j < |steps| ==> Keeps(StateAt(cron, s, steps, s', j), steps[j], id)
  }

  /** Step `i` wrote the probe's next run, and nothing wrote or dropped it since. */
  ghost predicate Stands(cron: CronLibrary, s: System, steps: seq<Step>, s': System, id: Id, i: nat)
    requires Takes(cron, s, steps, s')
  {
    && i < |steps| && Writes(StateAt(cron, s, steps, s', i), steps[i], id)
    && KeepsFrom(cron, s, steps, s', id, i + 1)
  }

  lemma StateAtNext(cron: CronLibrary, s: System, steps: seq<Step>, s': System, i: nat)
    requires steps != [] && Takes(cron, s, steps, s') && i < |steps|
    ensures StateAt(cron, s, steps, s', i + 1) == StateAt(cron, Next(cron, s, steps[0]), steps[1..], s', i)
    ensures i == 0 ==> StateAt(cron, s, steps, s', 0) == s
  {
    hide Next, Enabled, Takes;
  }

  lemma KeepsFromNext(cron: CronLibrary, s: System, steps: seq<Step>, s': System, id: Id, i: nat)
    requires steps != [] && Takes(cron, s, steps, s')
    ensures KeepsFrom(cron, s, steps, s', id, i + 1) <==>
        KeepsFrom(cron, Next(cron, s, steps[0]), steps[1..], s', id, i)
  {
    var mid, rest := Next(cron, s, steps[0]), steps[1..];
    hide Next, Enabled, Takes, Keeps, StateAt;
    forall j: nat | j < |rest|
      ensures Keeps(StateAt(cron, s, steps, s', j + 1), steps[j + 1], id) <==>
          Keeps(StateAt(cron, mid, rest, s', j), rest[j], id)
    {
      StateAtNext(cron, s, steps, s', j);
    }
    if KeepsFrom(cron, s, steps, s', id, i + 1) {
      forall j | i <= j < |rest| ensures Keeps(StateAt(cron, mid, rest, s', j), rest[j], id) {
        assert Keeps(StateAt(cron, s, steps, s', j + 1), steps[j + 1], id);
      }
    }
    if KeepsFrom(cron, mid, rest, s', id, i) {
      forall j | i + 1 <= j < |steps| ensures Keeps(StateAt(cron, s, steps, s', j), steps[j], id) {
        assert Keeps(StateAt(cron, mid, rest, s', j - 1), rest[j - 1], id);
      }
    }
  }

  lemma KeepsFromStart(cron: CronLibrary, s: System, steps: seq<Step>, s': System, id: Id)
    requires steps != [] && Takes(cron, s, steps, s')
    ensures KeepsFrom(cron, s, steps, s', id, 0) <==> Keeps(s, steps[0], id) && KeepsFrom(cron, s, steps, s', id, 1)
  {
    StateAtNext(cron, s, steps, s', 0);
    hide Next, Enabled, Takes, Keeps, StateAt;
  }

  lemma StandsNext(cron: CronLibrary, s: System, steps: seq<Step>, s': System, id: Id, i: nat)
    requires steps != [] && Takes(cron, s, steps, s')
    ensures Stands(cron, s, steps, s', id, i + 1) <==> Stands(cron, Next(cron, s, steps[0]), steps[1..], s', id, i)
    ensures Stands(cron, s, steps, s', id, 0) <==> Writes(s, steps[0], id) && KeepsFrom(cron, s, steps, s', id, 1)
  {
    KeepsFromNext(cron, s, steps, s', id, i + 1);
    if i < |steps| - 1 {
      StateAtNext(cron, s, steps, s', i);
    }
    StateAtNext(cron, s, steps, s', 0);
    hide Next, Enabled, Takes, KeepsFrom, Writes, StateAt;
  }

  /** What is stored is what the standing write wrote, or what was there before anything touched it, or nothing. */
  ghost predicate ByHistory(cron: CronLibrary, s: System, steps: seq<Step>, s': System, id: Id)
    requires Takes(cron, s, steps, s')
  {
    var stored := s'.l.stored;
    && (id in stored <==>
          (exists i: nat :: Stands(cron, s, steps, s', id, i))
              || (id in s.l.stored && KeepsFrom(cron, s, steps, s', id, 0)))
    && (forall i: nat :: Stands(cron, s, steps, s', id, i) ==>
          id in stored && stored[id] == Written(cron, StateAt(cron, s, steps, s', i), steps[i]))
    && (id in s.l.stored && KeepsFrom(cron, s, steps, s', id, 0) ==> stored[id] == s.l.stored[id])
  }

  lemma NoHistory(cron: CronLibrary, s: System, id: Id)
    ensures Takes(cron, s, [], s) && ByHistory(cron, s, [], s, id)
  {
  }

  lemma HistoryNext(cron: CronLibrary, s: System, steps: seq<Step>, s': System, id: Id)
    requires steps != [] && Takes(cron, s, steps, s') && Tracked(s.l)
    requires ByHistory(cron, Next(cron, s, steps[0]), steps[1..], s', id)
    ensures ByHistory(cron, s, steps, s', id)
  {
    var mid, rest, stored := Next(cron, s, steps[0]), steps[1..], s'.l.stored;
    StoredAfter(cron, s, steps[0], id);
    KeepsFromStart(cron, s, steps, s', id);
    KeepsFromNext(cron, s, steps, s', id, 0);
    StandsNext(cron, s, steps, s', id, 0);
    hide Next, Enabled, Takes, Tracked, KeepsFrom, Stands, StateAt, Writes, Drops, NextRunAfter, Written;
    forall i: nat ensures Stands(cron, s, steps, s', id, i + 1) <==> Stands(cron, mid, rest, s', id, i) {
      StandsNext(cron, s, steps, s', id, i);
    }
    if i: nat :| Stands(cron, mid, rest, s', id, i) {
      assert Stands(cron, s, steps, s', id, i + 1);
    }
    forall i: nat | Stands(cron, s, steps, s', id, i)
      ensures id in stored && stored[id] == Written(cron, StateAt(cron, s, steps, s', i), steps[i])
    {
      StandingStep(cron, s, steps, s', id, i);
      if i > 0 {
        assert Stands(cron, mid, rest, s', id, i - 1);
        StateAtNext(cron, s, steps, s', i - 1);
      } else {
        StateAtNext(cron, s, steps, s', 0);
      }
    }
  }

  lemma StandingStep(cron: CronLibrary, s: System, steps: seq<Step>, s': System, id: Id, i: nat)
    requires Takes(cron, s, steps, s') && Stands(cron, s, steps, s', id, i)
    ensures i < |steps| && Writes(StateAt(cron, s, steps, s', i), steps[i], id)
  {
  }

  lemma {:induction false} StoredByHistory(
    cron: CronLibrary, s: System, steps: seq<Step>, s': System, id: Id, permits: nat)
    requires Inv(s, permits) && Takes(cron, s, steps, s')
    ensures ByHistory(cron, s, steps, s', id)
    decreases |steps|
  {
    if steps == [] {
      NoHistory(cron, s, id);
    } else {
      KeepStep(cron, s, steps[0], permits);
      assert Tracked(s.l);
      hide Inv, Enabled, Next, Tracked, ByHistory;
      StoredByHistory(cron, Next(cron, s, steps[0]), steps[1..], s', id, permits);
      HistoryNext(cron, s, steps, s', id);
    }
  }

  // ---------- Edits ----------

  /** A reconcile that finds a probe edited spawns it a loop, stops the old one and drops the pending run if the
      store lets it. */
  lemma Respawned(l: Loops, listing: seq<Probe>, erasable: set<Id>, i: nat)
    requires Tracked(l) && DistinctProbes(listing) && i < |listing|
    requires listing[i].id in l.active && l.active[listing[i].id].updatedAt != listing[i].updatedAt
    ensures var after, p := RefreshAll(Retain(l, Ids(listing)), listing, erasable), listing[i];
            && p.id in after.active
            && var oldLoop, h := l.active[p.id].handle, after.active[p.id].handle;
               && h in after.tasks && after.tasks[h] == Task(p, Starting, [], []) && h != oldLoop
               && (p.id in after.stored <==> p.id in l.stored && p.id !in erasable)
               && (p.id in after.stored ==> after.stored[p.id] == l.stored[p.id])
               && oldLoop in after.tasks && after.tasks[oldLoop] == l.tasks[oldLoop] && oldLoop in after.aborted
  {
    ReconcileMeaning(l, listing, erasable);
    var p, after := listing[i], RefreshAll(Retain(l, Ids(listing)), listing, erasable);
    assert Served(l, after, p);
    assert p.id in EditedIds(l, listing) by {
      assert Edited(l, listing, p.id);
    }
    hide RefreshAll, Retain, Ids, EditedIds;
  }

  /** The loop does not plan in any of the steps. */
  predicate NeverPlans(steps: seq<Step>, h: nat) {
    forall j :: 0 <= j < |steps| ==> !(steps[j].Plan? && steps[j].h == h)
  }

  lemma {:induction false} GoneStays(cron: CronLibrary, s: System, steps: seq<Step>, s': System, h: nat, permits: nat)
    requires Inv(s, permits) && Takes(cron, s, steps, s') && InPhase(s, h, Gone)
    ensures InPhase(s', h, Gone)
    decreases |steps|
  {
    if steps != [] {
      KeepStep(cron, s, steps[0], permits);
      OtherTask(cron, s, steps[0], h);
      hide Inv, Next;
      GoneStays(cron, Next(cron, s, steps[0]), steps[1..], s', h, permits);
    }
  }

  /** A loop that has yet to plan changes only by being stopped. */
  lemma WaitingStep(cron: CronLibrary, s: System, step: Step, h: nat)
    requires Tracked(s.l) && Enabled(s, step) && InPhase(s, h, Starting) && !(step.Plan? && step.h == h)
    ensures var s' := Next(cron, s, step);
            InPhase(s', h, Gone) || (h in s'.l.tasks && s'.l.tasks[h] == s.l.tasks[h])
    ensures (step.Plan? || step.Advance?) ==> step.h != h
  {
    if !(LoopStep(step) && step.h == h) {
      OtherTask(cron, s, step, h);
    }
    hide Tracked, RefreshAll, Retain, Ids, NextRunAfter;
  }

  /** A loop that has still not planned is as it was, and wrote nothing. */
  lemma {:induction false} StillWaiting(
    cron: CronLibrary, s: System, steps: seq<Step>, s': System, h: nat, permits: nat, j: nat)
    requires Inv(s, permits) && Takes(cron, s, steps, s') && InPhase(s, h, Starting) && InPhase(s', h, Starting)
    requires NeverPlans(steps, h)
    ensures h in s'.l.tasks && s'.l.tasks[h] == s.l.tasks[h]
    ensures j < |steps| && (steps[j].Plan? || steps[j].Advance?) ==> steps[j].h != h
    decreases |steps|
  {
    if steps != [] {
      var mid := Next(cron, s, steps[0]);
      KeepStep(cron, s, steps[0], permits);
      assert Tracked(s.l);
      hide Inv, Next, Enabled, Tracked;
      assert !(steps[0].Plan? && steps[0].h == h);
      WaitingStep(cron, s, steps[0], h);
      if InPhase(mid, h, Gone) {
        GoneStays(cron, mid, steps[1..], s', h, permits);
      } else {
        StillWaiting(cron, mid, steps[1..], s', h, permits, if j > 0 then j - 1 else 0);
      }
    }
  }

  /** The loop that a reconcile spawns for an edited probe, waiting to plan for the first time. */
  ghost predicate SpawnedForEdit(cron: CronLibrary, s: System, listing: seq<Probe>, erasable: set<Id>, i: nat, h: nat)
    requires Enabled(s, Reconcile(Some(listing), erasable))
  {
    && i < |listing| && listing[i].id in s.l.active && s.l.active[listing[i].id].updatedAt != listing[i].updatedAt
    && var s1 := Next(cron, s, Reconcile(Some(listing), erasable));
       listing[i].id in s1.l.active && h == s1.l.active[listing[i].id].handle
  }

  /** The pending run is still there exactly when the store failed to drop it. */
  predicate Leaves(before: Stored, after: Stored, id: Id, erasable: set<Id>) {
    (id in after <==> id in before && id !in erasable) && (id in after ==> after[id] == before[id])
  }

  lemma SpawnedFacts(cron: CronLibrary, s: System, listing: seq<Probe>, erasable: set<Id>, i: nat, h: nat)
    requires Tracked(s.l) && Enabled(s, Reconcile(Some(listing), erasable))
    requires SpawnedForEdit(cron, s, listing, erasable, i, h)
    ensures var s1 := Next(cron, s, Reconcile(Some(listing), erasable));
            && h in s1.l.tasks && s1.l.tasks[h] == Task(listing[i], Starting, [], [])
            && Leaves(s.l.stored, s1.l.stored, listing[i].id, erasable)
  {
    Respawned(s.l, listing, erasable, i);
    hide RefreshAll, Retain, Ids, Tracked, Lists;
  }

  /** After an edit, the new loop's first plan follows the new schedule from the moment it plans, exactly
      when the old pending run was dropped, at the reconcile or since, and nothing stored a next run of the probe
      since, or what did was dropped again. Otherwise it waits for the old pending run, or for what the last write
      stored, which another loop wrote by its own schedule. */
  lemma EditTakesEffectIff(
    cron: CronLibrary, s: System, listing: seq<Probe>, erasable: set<Id>, i: nat, h: nat, steps: seq<Step>, s2: System,
    readable: bool, writable: bool, permits: nat)
    requires Inv(s, permits) && Enabled(s, Reconcile(Some(listing), erasable))
    requires SpawnedForEdit(cron, s, listing, erasable, i, h)
    requires Takes(cron, Next(cron, s, Reconcile(Some(listing), erasable)), steps, s2)
    requires NeverPlans(steps, h) && InPhase(s2, h, Starting)
    ensures Enabled(s2, Plan(h, readable, writable))
    ensures var s1, p := Next(cron, s, Reconcile(Some(listing), erasable)), listing[i];
            var phase := Next(cron, s2, Plan(h, readable, writable)).l.tasks[h].phase;
            var undropped := p.id in s.l.stored && p.id !in erasable && KeepsFrom(cron, s1, steps, s2, p.id, 0);
            && (p.id in s2.l.stored <==> undropped || exists j: nat :: Stands(cron, s1, steps, s2, p.id, j))
            && (readable && undropped ==> phase == Sleeping(s.l.stored[p.id]))
            && (!readable || p.id !in s2.l.stored ==> phase == Sleeping(NextRunAfter(cron, p.schedule, s2.clock)))
            && (forall j: nat :: readable && Stands(cron, s1, steps, s2, p.id, j) ==>
                  j < |steps| && Writes(StateAt(cron, s1, steps, s2, j), steps[j], p.id) && steps[j].h != h
                  && phase == Sleeping(Written(cron, StateAt(cron, s1, steps, s2, j), steps[j])))
  {
    var s1, p := Next(cron, s, Reconcile(Some(listing), erasable)), listing[i];
    SpawnedFacts(cron, s, listing, erasable, i, h);
    KeepStep(cron, s, Reconcile(Some(listing), erasable), permits);
    assert Inv(s1, permits);
    hide Inv, Enabled, Takes, SpawnedForEdit, RefreshAll, Retain, Ids, Stands, StateAt, NextRunAfter, NeverPlans,
      Written, Writes, KeepsFrom;
    StoredByHistory(cron, s1, steps, s2, p.id, permits);
    StillWaiting(cron, s1, steps, s2, h, permits, 0);
    PlansFrom(cron, s2, h, readable, writable);
    forall j: nat | Stands(cron, s1, steps, s2, p.id, j)
      ensures j < |steps| && Writes(StateAt(cron, s1, steps, s2, j), steps[j], p.id) && steps[j].h != h
    {
      StandingStep(cron, s1, steps, s2, p.id, j);
      StillWaiting(cron, s1, steps, s2, h, permits, j);
      WritingStep(StateAt(cron, s1, steps, s2, j), steps[j], p.id);
    }
  }

  lemma WritingStep(s: System, step: Step, id: Id)
    requires Writes(s, step, id)
    ensures (step.Plan? || step.Advance?) && step.h in s.l.tasks
  {
  }

  lemma PlansFrom(cron: CronLibrary, s: System, h: nat, readable: bool, writable: bool)
    requires InPhase(s, h, Starting)
    ensures Enabled(s, Plan(h, readable, writable))
    ensures var p := s.l.tasks[h].probe;
            Next(cron, s, Plan(h, readable, writable)).l.tasks[h].phase
                == Sleeping(PlannedAt(cron, s.l.stored, p, s.clock, readable))
  {
    hide NextRunAfter;
  }

  /** The write by which a loop that is about to persist a next run, or about to plan, does so. */
  function NextWrite(s: System, h: nat): Step {
    if InPhase(s, h, Advancing) then Advance(h, true) else Plan(h, true, true)
  }

  lemma WritesItsNext(cron: CronLibrary, s: System, h: nat)
    requires InPhase(s, h, Advancing) || InPhase(s, h, Starting)
    requires InPhase(s, h, Starting) ==> s.l.tasks[h].probe.id !in s.l.stored
    ensures var step, id := NextWrite(s, h), s.l.tasks[h].probe.id;
            && Enabled(s, step) && Writes(s, step, id)
            && var stored := Next(cron, s, step).l.stored;
               id in stored && stored[id] == NextRunAfter(cron, s.l.tasks[h].probe.schedule, s.clock)
  {
    hide NextRunAfter;
  }

  lemma OldLoopFacts(cron: CronLibrary, s: System, listing: seq<Probe>, erasable: set<Id>, i: nat, h: nat)
    requires Tracked(s.l) && Enabled(s, Reconcile(Some(listing), erasable))
    requires SpawnedForEdit(cron, s, listing, erasable, i, h)
    ensures var s1, oldLoop := Next(cron, s, Reconcile(Some(listing), erasable)), s.l.active[listing[i].id].handle;
            && oldLoop in s.l.tasks && oldLoop in s1.l.tasks && s1.l.tasks[oldLoop] == s.l.tasks[oldLoop]
                && s1.clock == s.clock
            && s.l.tasks[oldLoop].probe.id == listing[i].id && Leaves(s.l.stored, s1.l.stored, listing[i].id, erasable)
            && oldLoop in s1.l.aborted && oldLoop != h
  {
    Respawned(s.l, listing, erasable, i);
    assert s.l.tasks[s.l.active[listing[i].id].handle].probe.id == listing[i].id;
    hide Tracked, RefreshAll, Retain, Ids, Lists, DistinctProbes;
  }

  /** Both ways in which an old loop, told to stop but not yet stopped, can still overtake the new one: by
      persisting its next run after a run, or by planning afresh. What it stores follows the old schedule. */
  lemma OldLoopOvertakes(cron: CronLibrary, s: System, listing: seq<Probe>, erasable: set<Id>, i: nat, h: nat)
    requires Tracked(s.l) && Enabled(s, Reconcile(Some(listing), erasable))
    requires SpawnedForEdit(cron, s, listing, erasable, i, h)
    requires var id, oldLoop := listing[i].id, s.l.active[listing[i].id].handle;
             InPhase(s, oldLoop, Advancing) || (InPhase(s, oldLoop, Starting) && (id in erasable || id !in s.l.stored))
    ensures var s1, oldLoop := Next(cron, s, Reconcile(Some(listing), erasable)), s.l.active[listing[i].id].handle;
            var step := NextWrite(s1, oldLoop);
            && oldLoop in s1.l.aborted && oldLoop != h && Enabled(s1, step) && Writes(s1, step, listing[i].id)
            && var stored := Next(cron, s1, step).l.stored;
               && listing[i].id in stored
               && stored[listing[i].id] == NextRunAfter(cron, s.l.tasks[oldLoop].probe.schedule, s.clock)
  {
    OldLoopFacts(cron, s, listing, erasable, i, h);
    var s1, oldLoop := Next(cron, s, Reconcile(Some(listing), erasable)), s.l.active[listing[i].id].handle;
    assert InPhase(s1, oldLoop, Advancing) || InPhase(s1, oldLoop, Starting);
    hide Tracked, NextRunAfter, Lists, Next, Enabled, Writes, NextWrite, SpawnedForEdit;
    WritesItsNext(cron, s1, oldLoop);
  }
}
