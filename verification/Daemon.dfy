/** The running daemon: the loops' own steps, the permits they share, reconciles, store edits and shutdown,
    in any order. */
module Daemon {
  import opened Results
  import opened Keys
  import opened Schedule
  import opened Scheduler

  datatype System = System(l: Loops, probes: map<Id, Probe>, clock: int, free: nat, up: bool)

  datatype Step =
    | Tick(now: int)
    | EditStore(probes: map<Id, Probe>, dropped: set<Id>)
    | Reconcile(listing: Option<seq<Probe>>, erasable: set<Id>)
    | Shutdown
    | Plan(h: nat, readable: bool, writable: bool)
    | Wake(h: nat)
    | Resolve(h: nat, found: bool)
    | Acquire(h: nat)
    | Complete(h: nat)
    | Advance(h: nat, writable: bool)
    | Stop(h: nat)

  function Permits(maxConcurrentRuns: nat): nat {
    if maxConcurrentRuns == 0 then 1 else maxConcurrentRuns
  }

  function Initial(maxConcurrentRuns: nat, probes: map<Id, Probe>, stored: Stored, clock: int): System {
    System(NO_LOOPS.(stored := stored), probes, clock, Permits(maxConcurrentRuns), true)
  }

  ghost predicate StoreKeyed(probes: map<Id, Probe>) {
    forall id :: id in probes ==> probes[id].id == id
  }

  /** The listing holds each stored probe once. */
  ghost predicate Lists(probes: map<Id, Probe>, listing: seq<Probe>) {
    DistinctProbes(listing) && forall p :: p in listing <==> p.id in probes && probes[p.id] == p
  }

  predicate InPhase(s: System, h: nat, phase: Phase) {
    h in s.l.tasks && s.l.tasks[h].phase == phase
  }

  ghost predicate Enabled(s: System, step: Step) {
    match step
    case Tick(now) => now >= s.clock
    case EditStore(probes, _) => StoreKeyed(probes)
    case Reconcile(listing, _) => s.up && (listing.Some? ==> Lists(s.probes, listing.value))
    case Shutdown => s.up
    case Plan(h, _, _) => InPhase(s, h, Starting)
    case Wake(h) => h in s.l.tasks && s.l.tasks[h].phase.Sleeping? && s.clock >= s.l.tasks[h].phase.until
    case Resolve(h, _) => InPhase(s, h, Resolving)
    case Acquire(h) => InPhase(s, h, Acquiring) && s.free > 0
    case Complete(h) => InPhase(s, h, Running)
    case Advance(h, _) => InPhase(s, h, Advancing)
    case Stop(h) => h in s.l.tasks && h in s.l.aborted && !s.l.tasks[h].phase.Gone?
  }

  function WithTask(s: System, h: nat, task: Task): System {
    s.(l := s.l.(tasks := s.l.tasks[h := task]))
  }

  function WithStored(s: System, stored: Stored): System {
    s.(l := s.l.(stored := stored))
  }

  ghost function Next(cron: CronLibrary, s: System, step: Step): System
    requires Enabled(s, step)
  {
    match step
    case Tick(now) => s.(clock := now)
    case EditStore(probes, dropped) => WithStored(s, s.l.stored - dropped).(probes := probes)
    case Reconcile(listing, erasable) =>
      if listing.None? then s else s.(l := RefreshAll(Retain(s.l, Ids(listing.value)), listing.value, erasable))
    case Shutdown => s.(l := Drained(s.l), up := false)
    case Plan(h, readable, writable) =>
      var t := s.l.tasks[h];
      var until := PlannedAt(cron, s.l.stored, t.probe, s.clock, readable);
      var written := writable && !(readable && t.probe.id in s.l.stored);
      WithTask(WithStored(s, if written then s.l.stored[t.probe.id := until] else s.l.stored), h,
          t.(phase := Sleeping(until)))
    case Wake(h) => var t := s.l.tasks[h]; WithTask(s, h, t.(phase := Resolving, wakes := t.wakes + [s.clock]))
    case Resolve(h, found) => WithTask(s, h, s.l.tasks[h].(phase := if found then Acquiring else Advancing))
    case Acquire(h) =>
      var t := s.l.tasks[h];
      WithTask(s, h, t.(phase := Running, starts := t.starts + [s.clock])).(free := s.free - 1)
    case Complete(h) => WithTask(s, h, s.l.tasks[h].(phase := Advancing)).(free := s.free + 1)
    case Advance(h, writable) =>
      var t := s.l.tasks[h];
      var stored := if writable then s.l.stored[t.probe.id := NextRunAfter(cron, t.probe.schedule, s.clock)]
          else s.l.stored;
      WithTask(WithStored(s, stored), h, t.(phase := Starting))
    case Stop(h) =>
      // Dropping the task drops the permit it may hold.
      var t := s.l.tasks[h];
      WithTask(s, h, t.(phase := Gone)).(free := s.free + if t.phase.Running? then 1 else 0)
  }

  ghost predicate Takes(cron: CronLibrary, s: System, steps: seq<Step>, s': System)
    decreases |steps|
  {
    if steps == [] then s == s' else Enabled(s, steps[0]) && Takes(cron, Next(cron, s, steps[0]), steps[1..], s')
  }

  // ---------- Safety ----------

  function InFlight(tasks: map<nat, Task>): set<nat> {
    set h | h in tasks && tasks[h].phase.Running?
  }

  ghost predicate Inv(s: System, permits: nat) {
    && Tracked(s.l) && s.free + |InFlight(s.l.tasks)| == permits
    && (forall h :: h in s.l.tasks && h !in s.l.aborted ==> !s.l.tasks[h].phase.Gone?)
    && (!s.up ==> s.l.active == map[])
  }

  lemma FlightNext(tasks: map<nat, Task>, h: nat, task: Task)
    requires h in tasks
    ensures |InFlight(tasks[h := task])| ==
              |InFlight(tasks)| - (if tasks[h].phase.Running? then 1 else 0) + (if task.phase.Running? then 1 else 0)
  {
    var before, after := InFlight(tasks), InFlight(tasks[h := task]);
    assert after == before - {h} + (if task.phase.Running? then {h} else {});
  }

  lemma KeepTask(s: System, h: nat, task: Task, permits: nat, free: nat, stored: Stored)
    requires Inv(s, permits) && h in s.l.tasks && task.probe == s.l.tasks[h].probe
    requires task.phase.Gone? ==> h in s.l.aborted
    requires free + (if task.phase.Running? then 1 else 0) == s.free + (if s.l.tasks[h].phase.Running? then 1 else 0)
    ensures Inv(WithTask(WithStored(s, stored), h, task).(free := free), permits)
  {
    FlightNext(s.l.tasks, h, task);
    hide InFlight;
  }

  lemma KeepReconcile(s: System, listing: seq<Probe>, erasable: set<Id>, permits: nat)
    requires Inv(s, permits) && s.up && DistinctProbes(listing)
    ensures Inv(s.(l := RefreshAll(Retain(s.l, Ids(listing)), listing, erasable)), permits)
  {
    var after := RefreshAll(Retain(s.l, Ids(listing)), listing, erasable);
    ReconcileMeaning(s.l, listing, erasable);
    NewAreStarting(s.l, listing, erasable);
    NothingTakesOff(s.l, after);
    hide RefreshAll, Retain, Ids, Tracked, AllServed, Wanted, InFlight, EditedIds;
    assert forall h :: h in after.tasks && after.tasks[h].phase.Gone? ==> h in s.l.tasks;
  }

  lemma NothingTakesOff(before: Loops, after: Loops)
    requires forall h :: h in before.tasks ==> h in after.tasks && after.tasks[h] == before.tasks[h]
    requires forall h :: h in after.tasks && h !in before.tasks ==> after.tasks[h].phase == Starting
    ensures InFlight(after.tasks) == InFlight(before.tasks)
  {
  }

  lemma NewAreStarting(l: Loops, listing: seq<Probe>, erasable: set<Id>)
    requires Tracked(l) && DistinctProbes(listing)
    ensures var after := RefreshAll(Retain(l, Ids(listing)), listing, erasable);
            forall h :: h in after.tasks && h !in l.tasks ==> after.tasks[h].phase == Starting
  {
    ReconcileMeaning(l, listing, erasable);
    var after := RefreshAll(Retain(l, Ids(listing)), listing, erasable);
    forall h | h in after.tasks && h !in l.tasks ensures after.tasks[h].phase == Starting {
      SpawnedIsActive(l, listing, erasable, h);
      var id := after.tasks[h].probe.id;
      var i :| 0 <= i < |listing| && listing[i].id == id;
      assert Served(l, after, listing[i]);
      assert UpToDate(l, listing[i]) ==> l.active[id].handle in l.tasks;
    }
  }

  lemma KeepStep(cron: CronLibrary, s: System, step: Step, permits: nat)
    requires Inv(s, permits) && Enabled(s, step)
    ensures Inv(Next(cron, s, step), permits)
  {
    match step
    case Tick(now) =>
    case EditStore(probes, dropped) =>
    case Reconcile(listing, erasable) => if listing.Some? { KeepReconcile(s, listing.value, erasable, permits); }
    case Shutdown => DrainTracks(s.l);
    case Plan(h, readable, writable) => KeepOwnStep(cron, s, step, h, permits);
    case Wake(h) => KeepOwnStep(cron, s, step, h, permits);
    case Resolve(h, found) => KeepOwnStep(cron, s, step, h, permits);
    case Acquire(h) => KeepOwnStep(cron, s, step, h, permits);
    case Complete(h) => KeepOwnStep(cron, s, step, h, permits);
    case Advance(h, writable) => KeepOwnStep(cron, s, step, h, permits);
    case Stop(h) => KeepOwnStep(cron, s, step, h, permits);
  }

  lemma KeepOwnStep(cron: CronLibrary, s: System, step: Step, h: nat, permits: nat)
    requires Inv(s, permits) && Enabled(s, step)
    requires step.Plan? || step.Wake? || step.Resolve? || step.Acquire? || step.Complete? || step.Advance? || step.Stop?
    requires h == step.h
    ensures Inv(Next(cron, s, step), permits)
  {
    var s' := Next(cron, s, step);
    assert s' == WithTask(WithStored(s, s'.l.stored), h, s'.l.tasks[h]).(free := s'.free);
    hide Inv;
    KeepTask(s, h, s'.l.tasks[h], permits, s'.free, s'.l.stored);
  }

  lemma {:induction false} RunKeepsInv(cron: CronLibrary, s: System, steps: seq<Step>, s': System, permits: nat)
    requires Inv(s, permits) && Takes(cron, s, steps, s')
    ensures Inv(s', permits)
    decreases |steps|
  {
    hide Inv, Enabled, Next;
    if steps != [] {
      KeepStep(cron, s, steps[0], permits);
      RunKeepsInv(cron, Next(cron, s, steps[0]), steps[1..], s', permits);
    }
  }

  lemma InitialInv(n: nat, probes: map<Id, Probe>, stored: Stored, clock: int)
    ensures Inv(Initial(n, probes, stored, clock), Permits(n))
  {
    assert InFlight(map[]) == {};
  }

  /** However the steps interleave, the free permits and the runs in flight add up to the limit, and every
      loop not tracked has been told to stop. */
  lemma PermitsAndLoops(
    cron: CronLibrary, n: nat, probes: map<Id, Probe>, stored: Stored, clock: int, steps: seq<Step>, s: System)
    requires Takes(cron, Initial(n, probes, stored, clock), steps, s)
    ensures s.free + |InFlight(s.l.tasks)| == if n >= 1 then n else 1
    ensures forall h :: h in InFlight(s.l.tasks) <==> h in s.l.tasks && s.l.tasks[h].phase.Running?
    ensures forall h :: h in s.l.tasks ==> (h in s.l.aborted <==> !IsActive(s.l, h))
    ensures forall g, h | g in s.l.tasks && h in s.l.tasks && g !in s.l.aborted && h !in s.l.aborted ::
              s.l.tasks[g].probe.id == s.l.tasks[h].probe.id ==> g == h
    ensures !s.up ==> forall h :: h in s.l.tasks ==> h in s.l.aborted
  {
    InitialInv(n, probes, stored, clock);
    RunKeepsInv(cron, Initial(n, probes, stored, clock), steps, s, Permits(n));
  }

  /** The loop serves the stored probe, has not been told to stop and has not ended. */
  predicate LiveLoop(s: System, probe: Probe, h: nat) {
    && h in s.l.tasks && s.l.tasks[h].probe.id == probe.id && s.l.tasks[h].probe.updatedAt == probe.updatedAt
    && h !in s.l.aborted && !s.l.tasks[h].phase.Gone?
  }

  ghost predicate OnlyLoop(s: System, probe: Probe, h: nat) {
    LiveLoop(s, probe, h) && forall g :: LiveLoop(s, probe, g) ==> g == h
  }

  /** Right after a reconcile that could read the store, every stored probe has exactly one live loop, at
      its stored version, and there are no others. */
  lemma OneLoopEach(
    cron: CronLibrary, n: nat, probes: map<Id, Probe>, stored: Stored, clock: int, steps: seq<Step>, s: System,
    listing: seq<Probe>, erasable: set<Id>, again: set<Id>)
    requires StoreKeyed(probes) && Takes(cron, Initial(n, probes, stored, clock), steps, s)
        && Enabled(s, Reconcile(Some(listing), erasable))
    ensures var s' := Next(cron, s, Reconcile(Some(listing), erasable));
            && (forall id :: id in s.probes ==> exists h :: OnlyLoop(s', s.probes[id], h))
            && (forall h :: h in s'.l.tasks && h !in s'.l.aborted ==>
                s'.l.tasks[h].probe.id in s.probes && LiveLoop(s', s.probes[s'.l.tasks[h].probe.id], h))
            && Next(cron, s', Reconcile(Some(listing), again)) == s'
  {
    InitialInv(n, probes, stored, clock);
    RunKeepsInv(cron, Initial(n, probes, stored, clock), steps, s, Permits(n));
    KeyedStays(cron, Initial(n, probes, stored, clock), steps, s);
    KeepStep(cron, s, Reconcile(Some(listing), erasable), Permits(n));
    ReconcileMeaning(s.l, listing, erasable);
    ReconcileTwice(s.l, listing, erasable, again);
    var s' := Next(cron, s, Reconcile(Some(listing), erasable));
    hide Takes, Retain, RefreshAll, InFlight, Inv;
    assert Inv(s', Permits(n));
    LoopsMatch(s, s', listing, Permits(n));
  }

  lemma LoopsMatch(s: System, s': System, listing: seq<Probe>, permits: nat)
    requires StoreKeyed(s.probes) && Lists(s.probes, listing) && Inv(s', permits)
    requires s'.l.active.Keys == Ids(listing) && AllServed(s.l, s'.l, listing)
    ensures forall id :: id in s.probes ==> exists h :: OnlyLoop(s', s.probes[id], h)
    ensures forall h :: h in s'.l.tasks && h !in s'.l.aborted ==>
        s'.l.tasks[h].probe.id in s.probes && LiveLoop(s', s.probes[s'.l.tasks[h].probe.id], h)
  {
    hide InFlight, OnlyLoop, AllServed, Lists, Inv, LiveLoop;
    forall id | id in s.probes ensures exists h :: OnlyLoop(s', s.probes[id], h) {
      var h := LoopOf(s, s', listing, permits, id);
    }
    forall h | h in s'.l.tasks && h !in s'.l.aborted
      ensures s'.l.tasks[h].probe.id in s.probes && LiveLoop(s', s.probes[s'.l.tasks[h].probe.id], h) {
      ProbeOf(s, s', listing, permits, h);
    }
  }

  lemma LoopOf(s: System, s': System, listing: seq<Probe>, permits: nat, id: Id) returns (h: nat)
    requires StoreKeyed(s.probes) && Lists(s.probes, listing) && Inv(s', permits) && id in s.probes
    requires s'.l.active.Keys == Ids(listing) && AllServed(s.l, s'.l, listing)
    ensures OnlyLoop(s', s.probes[id], h)
  {
    hide InFlight;
    assert s.probes[id] in listing;
    var i :| 0 <= i < |listing| && listing[i] == s.probes[id];
    assert Served(s.l, s'.l, listing[i]);
    h := s'.l.active[id].handle;
    forall g | LiveLoop(s', s.probes[id], g) ensures g == h {
      assert IsActive(s'.l, g);
    }
  }

  lemma ProbeOf(s: System, s': System, listing: seq<Probe>, permits: nat, h: nat)
    requires StoreKeyed(s.probes) && Lists(s.probes, listing) && Inv(s', permits) && h in s'.l.tasks
        && h !in s'.l.aborted
    requires s'.l.active.Keys == Ids(listing) && AllServed(s.l, s'.l, listing)
    ensures s'.l.tasks[h].probe.id in s.probes && LiveLoop(s', s.probes[s'.l.tasks[h].probe.id], h)
  {
    hide InFlight;
    assert IsActive(s'.l, h);
    var i :| 0 <= i < |listing| && listing[i].id == s'.l.tasks[h].probe.id;
    assert listing[i] in listing;
    assert Served(s.l, s'.l, listing[i]);
    hide Served, AllServed;
  }

  lemma {:induction false} KeyedStays(cron: CronLibrary, s: System, steps: seq<Step>, s': System)
    requires StoreKeyed(s.probes) && Takes(cron, s, steps, s')
    ensures StoreKeyed(s'.probes)
    decreases |steps|
  {
    hide RefreshAll, Retain;
    if steps != [] {
      KeyedStays(cron, Next(cron, s, steps[0]), steps[1..], s');
    }
  }

  // ---------- Writes to the schedule ----------

  /** The step persists a next run of the probe. */
  predicate Writes(s: System, step: Step, id: Id) {
    (step.Plan? || step.Advance?) && step.h in s.l.tasks && s.l.tasks[step.h].probe.id == id && step.writable
    && (step.Plan? ==> !(step.readable && id in s.l.stored))
  }

  /** The next run that it persists: that of the writing loop's own schedule. */
  function Written(cron: CronLibrary, s: System, step: Step): int
    requires (step.Plan? || step.Advance?) && step.h in s.l.tasks
  {
    NextRunAfter(cron, s.l.tasks[step.h].probe.schedule, s.clock)
  }

  /** The step removes the probe's next run. */
  ghost predicate Drops(s: System, step: Step, id: Id) {
    match step
    case EditStore(_, dropped) => id in dropped
    case Reconcile(listing, erasable) => listing.Some? && id in EditedIds(s.l, listing.value) && id in erasable
    case _ => false
  }

  lemma StoredAfter(cron: CronLibrary, s: System, step: Step, id: Id)
    requires Tracked(s.l) && Enabled(s, step)
    ensures var stored, after := s.l.stored, Next(cron, s, step).l.stored;
            && (id in after <==> Writes(s, step, id) || (id in stored && !Drops(s, step, id)))
            && (id in after ==> after[id] == if Writes(s, step, id) then Written(cron, s, step) else stored[id])
  {
    hide NextRunAfter;
    if step.Reconcile? && step.listing.Some? {
      ReconcileMeaning(s.l, step.listing.value, step.erasable);
    }
    hide Tracked, RefreshAll, Retain, Ids, EditedIds, AllServed, Wanted;
  }

  // ---------- Pace ----------

  /** Each instant is no earlier than the schedule's next run after the one before. */
  ghost predicate Paced(cron: CronLibrary, schedule: ProbeSchedule, times: seq<int>) {
    forall k :: 0 < k < |times| ==> times[k] >= NextRunAfter(cron, schedule, times[k - 1])
  }

  predicate NextIsBy(cron: CronLibrary, schedule: ProbeSchedule, times: seq<int>, at: int) {
    times != [] ==> at >= NextRunAfter(cron, schedule, times[|times| - 1])
  }

  predicate NoneAfter(times: seq<int>, now: int) {
    times != [] ==> times[|times| - 1] <= now
  }

  ghost predicate KeepsPace(cron: CronLibrary, t: Task, stored: Stored, now: int) {
    var schedule := t.probe.schedule;
    && Paced(cron, schedule, t.wakes) && Paced(cron, schedule, t.starts) && NoneAfter(t.wakes, now)
        && NoneAfter(t.starts, now)
    && match t.phase {
         case Starting => t.probe.id in stored ==>
           NextIsBy(cron, schedule, t.wakes, stored[t.probe.id])
               && NextIsBy(cron, schedule, t.starts, stored[t.probe.id])
         case Sleeping(until) => NextIsBy(cron, schedule, t.wakes, until) && NextIsBy(cron, schedule, t.starts, until)
         case Resolving => NextIsBy(cron, schedule, t.starts, now)
         case Acquiring => NextIsBy(cron, schedule, t.starts, now)
         case _ => true
       }
  }

  /** The step upsets the loop's pace: another loop writes the probe's next run, or the loop's own write
      of it fails and leaves the run that is already over. */
  predicate Disturbs(s: System, step: Step, h: nat)
    requires h in s.l.tasks
  {
    var id := s.l.tasks[h].probe.id;
    if (step.Plan? || step.Advance?) && step.h == h then step.Advance? && !step.writable && id in s.l.stored
    else Writes(s, step, id)
  }

  /** No step of the run disturbs the loop. */
  ghost predicate Undisturbed(cron: CronLibrary, s: System, steps: seq<Step>, h: nat)
    decreases |steps|
  {
    steps == [] || (
      && h in s.l.tasks && Enabled(s, steps[0]) && !Disturbs(s, steps[0], h)
      && Undisturbed(cron, Next(cron, s, steps[0]), steps[1..], h))
  }

  lemma PacedNext(cron: CronLibrary, schedule: ProbeSchedule, times: seq<int>, now: int)
    requires Paced(cron, schedule, times) && NextIsBy(cron, schedule, times, now)
    ensures Paced(cron, schedule, times + [now])
  {
    hide NextRunAfter;
  }

  lemma NextFromNow(cron: CronLibrary, schedule: ProbeSchedule, times: seq<int>, now: int)
    requires Lawful(cron) && NoneAfter(times, now)
    ensures NextIsBy(cron, schedule, times, NextRunAfter(cron, schedule, now))
  {
    if times != [] {
      NextRunIsLater(cron, schedule, times[|times| - 1], now);
    }
    hide NextRunAfter, Lawful;
  }

  /** A loop's own step keeps its pace. */
  lemma OwnPace(cron: CronLibrary, s: System, step: Step, h: nat)
    requires Lawful(cron) && Enabled(s, step) && h in s.l.tasks && KeepsPace(cron, s.l.tasks[h], s.l.stored, s.clock)
    requires LoopStep(step) && step.h == h && !Disturbs(s, step, h)
    ensures var s' := Next(cron, s, step);
            h in s'.l.tasks && s'.l.tasks[h].probe == s.l.tasks[h].probe
                && KeepsPace(cron, s'.l.tasks[h], s'.l.stored, s'.clock)
  {
    var t := s.l.tasks[h];
    NextFromNow(cron, t.probe.schedule, t.wakes, s.clock);
    NextFromNow(cron, t.probe.schedule, t.starts, s.clock);
    if step.Wake? {
      PacedNext(cron, t.probe.schedule, t.wakes, s.clock);
    }
    if step.Acquire? {
      PacedNext(cron, t.probe.schedule, t.starts, s.clock);
    }
    hide NextRunAfter, Lawful, Paced;
  }

  lemma SamePace(cron: CronLibrary, t: Task, stored: Stored, after: Stored, now: int, later: int)
    requires KeepsPace(cron, t, stored, now) && now <= later
    requires t.probe.id in after ==> t.probe.id in stored && after[t.probe.id] == stored[t.probe.id]
    ensures KeepsPace(cron, t, after, later)
  {
    hide NextRunAfter, Paced;
  }

  lemma OtherTask(cron: CronLibrary, s: System, step: Step, h: nat)
    requires Tracked(s.l) && Enabled(s, step) && h in s.l.tasks && !(LoopStep(step) && step.h == h)
    ensures var s' := Next(cron, s, step); h in s'.l.tasks && s'.l.tasks[h] == s.l.tasks[h] && s.clock <= s'.clock
  {
    hide NextRunAfter;
    if step.Reconcile? && step.listing.Some? {
      ReconcileMeaning(s.l, step.listing.value, step.erasable);
    }
    hide Tracked, RefreshAll, Retain, Ids, AllServed, Wanted;
  }

  /** Any other step leaves the loop alone, and at most takes its stored next run away. */
  lemma OtherPace(cron: CronLibrary, s: System, step: Step, h: nat)
    requires Tracked(s.l) && Enabled(s, step) && h in s.l.tasks && KeepsPace(cron, s.l.tasks[h], s.l.stored, s.clock)
    requires !(LoopStep(step) && step.h == h) && !Disturbs(s, step, h)
    ensures var s' := Next(cron, s, step);
            h in s'.l.tasks && s'.l.tasks[h] == s.l.tasks[h] && KeepsPace(cron, s'.l.tasks[h], s'.l.stored, s'.clock)
  {
    var s' := Next(cron, s, step);
    OtherTask(cron, s, step, h);
    StoredAfter(cron, s, step, s.l.tasks[h].probe.id);
    hide Next, Enabled, Tracked, KeepsPace;
    SamePace(cron, s.l.tasks[h], s.l.stored, s'.l.stored, s.clock, s'.clock);
  }

  predicate LoopStep(step: Step) {
    step.Plan? || step.Wake? || step.Resolve? || step.Acquire? || step.Complete? || step.Advance? || step.Stop?
  }

  ghost predicate Paces(cron: CronLibrary, s: System, h: nat) {
    h in s.l.tasks && KeepsPace(cron, s.l.tasks[h], s.l.stored, s.clock)
  }

  lemma {:induction false} PaceOfRun(
    cron: CronLibrary, s: System, steps: seq<Step>, s': System, h: nat, permits: nat)
    requires Lawful(cron) && Inv(s, permits) && Takes(cron, s, steps, s') && Paces(cron, s, h)
        && Undisturbed(cron, s, steps, h)
    ensures Paces(cron, s', h) && s'.l.tasks[h].probe == s.l.tasks[h].probe
    decreases |steps|
  {
    if steps != [] {
      var mid := Next(cron, s, steps[0]);
      KeepStep(cron, s, steps[0], permits);
      assert Tracked(s.l);
      hide Inv, Lawful, Enabled, Next, KeepsPace, Tracked, Disturbs;
      if LoopStep(steps[0]) && steps[0].h == h {
        OwnPace(cron, s, steps[0], h);
      } else {
        OtherPace(cron, s, steps[0], h);
      }
      PaceOfRun(cron, mid, steps[1..], s', h, permits);
    }
  }

  /** A newly spawned loop wakes, and starts runs, no faster than its schedule allows, for as long as no
      other loop of its probe persists a next run and its own write after a run does not fail over a stored
      one. An overdue run is caught up once, a failing provider does not make the loop spin, and other
      loops, edits, deletions, reconciles, failed writes of a plan and the loop's own end make no
      difference. */
  lemma LoopsArePaced(cron: CronLibrary, s: System, steps: seq<Step>, s': System, h: nat, permits: nat)
    requires Lawful(cron) && Inv(s, permits) && Takes(cron, s, steps, s') && h in s.l.tasks
    requires s.l.tasks[h] == Task(s.l.tasks[h].probe, Starting, [], []) && Undisturbed(cron, s, steps, h)
    ensures h in s'.l.tasks
    ensures var t, schedule := s'.l.tasks[h], s.l.tasks[h].probe.schedule;
            && Paced(cron, schedule, t.wakes) && Paced(cron, schedule, t.starts)
            && (schedule.EveryMinutes? ==>
                  forall k :: 0 < k < |t.starts| ==>
                      t.starts[k] - t.starts[k - 1] >= AtLeastOne(schedule.minutes) * MINUTE)
  {
    assert KeepsPace(cron, s.l.tasks[h], s.l.stored, s.clock);
    PaceOfRun(cron, s, steps, s', h, permits);
    hide Takes, Inv, Undisturbed;
  }
}
