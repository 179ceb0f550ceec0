/** A loop is not late either: after a run it wakes as soon as its schedule has it run again, and no sooner. */
module Punctual {
  import opened Keys
  import opened Schedule
  import opened Scheduler
  import opened Daemon
  import opened Edits

  /** No step of the run is the loop's own. */
  predicate LeavesAlone(steps: seq<Step>, h: nat) {
    forall j :: 0 <= j < |steps| ==> !(LoopStep(steps[j]) && steps[j].h == h)
  }

  lemma {:induction false} TaskStays(cron: CronLibrary, s: System, steps: seq<Step>, s': System, h: nat, permits: nat)
    requires Inv(s, permits) && Takes(cron, s, steps, s') && h in s.l.tasks && LeavesAlone(steps, h)
    ensures h in s'.l.tasks && s'.l.tasks[h] == s.l.tasks[h]
    decreases |steps|
  {
    if steps != [] {
      KeepStep(cron, s, steps[0], permits);
      OtherTask(cron, s, steps[0], h);
      hide Inv, Next;
      TaskStays(cron, Next(cron, s, steps[0]), steps[1..], s', h, permits);
    }
  }

  /** The instant after `from` at which the schedule has the probe run. */
  ghost predicate ScheduledAt(cron: CronLibrary, schedule: ProbeSchedule, from: int, at: int) {
    match schedule
    case EveryMinutes(m) => at == from + (if m >= 1 then m else 1) * 60_000_000_000
    case Cron(e) => cron(e, from) == FiresAt(at) || (!cron(e, from).FiresAt? && at == from + 3_600_000_000_000)
  }

  lemma ScheduledIs(cron: CronLibrary, schedule: ProbeSchedule, from: int)
    ensures ScheduledAt(cron, schedule, from, NextRunAfter(cron, schedule, from))
  {
    NextRunIs(cron, schedule, from);
    hide NextRunAfter;
  }

  /** What a written advance leaves: the loop is about to plan, and the next run of its schedule is stored. */
  lemma AdvanceStores(cron: CronLibrary, s: System, h: nat, permits: nat)
    requires Inv(s, permits) && InPhase(s, h, Advancing)
    ensures var s', p := Next(cron, s, Advance(h, true)), s.l.tasks[h].probe;
            && Enabled(s, Advance(h, true)) && Inv(s', permits) && InPhase(s', h, Starting)
            && s'.l.tasks[h].probe == p && p.id in s'.l.stored
            && ScheduledAt(cron, p.schedule, s.clock, s'.l.stored[p.id])
  {
    KeepStep(cron, s, Advance(h, true), permits);
    ScheduledIs(cron, s.l.tasks[h].probe.schedule, s.clock);
    hide Inv, NextRunAfter, ScheduledAt;
  }

  lemma EntryStays(cron: CronLibrary, s: System, steps: seq<Step>, s': System, id: Id, permits: nat)
    requires Inv(s, permits) && Takes(cron, s, steps, s') && KeepsFrom(cron, s, steps, s', id, 0) && id in s.l.stored
    ensures id in s'.l.stored && s'.l.stored[id] == s.l.stored[id]
  {
    StoredByHistory(cron, s, steps, s', id, permits);
    hide Inv, Takes, KeepsFrom, Stands;
  }

  /** Whatever else the daemon does in between, a loop that has persisted its next run at `s.clock`, and whose entry
      nothing touches until it plans, can wake exactly from that run's time on. */
  lemma WakesOnTime(
    cron: CronLibrary, s: System, h: nat, before: seq<Step>, s2: System, writable: bool, after: seq<Step>, s4: System,
    permits: nat)
    requires Inv(s, permits) && InPhase(s, h, Advancing)
    requires var s1 := Next(cron, s, Advance(h, true));
             && Takes(cron, s1, before, s2) && LeavesAlone(before, h)
             && KeepsFrom(cron, s1, before, s2, s.l.tasks[h].probe.id, 0)
    requires InPhase(s2, h, Starting)
    requires Takes(cron, Next(cron, s2, Plan(h, true, writable)), after, s4) && LeavesAlone(after, h)
    ensures exists at :: (Enabled(s4, Wake(h)) <==> s4.clock >= at)
                && ScheduledAt(cron, s.l.tasks[h].probe.schedule, s.clock, at)
  {
    hide Inv, Takes, Next, KeepsFrom, ScheduledAt, LeavesAlone;
    var s1, p := Next(cron, s, Advance(h, true)), s.l.tasks[h].probe;
    AdvanceStores(cron, s, h, permits);
    TaskStays(cron, s1, before, s2, h, permits);
    EntryStays(cron, s1, before, s2, p.id, permits);
    RunKeepsInv(cron, s1, before, s2, permits);
    var at := s1.l.stored[p.id];
    var s3 := Next(cron, s2, Plan(h, true, writable));
    PlansFrom(cron, s2, h, true, writable);
    KeepStep(cron, s2, Plan(h, true, writable), permits);
    PlanKeepsTasks(cron, s2, h, writable);
    TaskStays(cron, s3, after, s4, h, permits);
    assert ScheduledAt(cron, p.schedule, s.clock, at);
  }

  lemma PlanKeepsTasks(cron: CronLibrary, s: System, h: nat, writable: bool)
    requires InPhase(s, h, Starting)
    ensures h in Next(cron, s, Plan(h, true, writable)).l.tasks
  {
  }

  /** A loop on the minutes schedule: `m` minutes after its run, and a minute after it where `m` is 0. */
  lemma MinutesOnTime(
    cron: CronLibrary, s: System, h: nat, before: seq<Step>, s2: System, writable: bool, after: seq<Step>, s4: System,
    permits: nat)
    requires Inv(s, permits) && InPhase(s, h, Advancing) && s.l.tasks[h].probe.schedule.EveryMinutes?
    requires var s1 := Next(cron, s, Advance(h, true));
             && Takes(cron, s1, before, s2) && LeavesAlone(before, h)
             && KeepsFrom(cron, s1, before, s2, s.l.tasks[h].probe.id, 0)
    requires InPhase(s2, h, Starting)
    requires Takes(cron, Next(cron, s2, Plan(h, true, writable)), after, s4) && LeavesAlone(after, h)
    ensures var m := s.l.tasks[h].probe.schedule.minutes;
            Enabled(s4, Wake(h)) <==> s4.clock >= s.clock + (if m >= 1 then m else 1) * 60_000_000_000
  {
    WakesOnTime(cron, s, h, before, s2, writable, after, s4, permits);
    hide Inv, Takes, Next, KeepsFrom;
  }
}
