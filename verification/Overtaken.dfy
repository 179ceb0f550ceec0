/** A whole run of the daemon, from its start, in which an edit does not take effect. */
module Overtaken {
  import opened Results
  import opened Keys
  import opened Schedule
  import opened Scheduler
  import opened Daemon
  import opened HotLoop
  import opened Edits

  /** A daemon that tracks one loop, in the given phase, for the given probe. */
  function Single(p: Probe, task: Task, probes: map<Id, Probe>, stored: Stored, clock: int, free: nat): System {
    System(
      Loops(map[p.id := ActiveProbe(p.updatedAt, 0)], map[0 := task], {}, stored, 1), probes, clock, free, true)
  }

  lemma OneStep(cron: CronLibrary, s: System, step: Step)
    requires Enabled(s, step)
    ensures Takes(cron, s, [step], Next(cron, s, step))
  {
    hide Next, Enabled;
    assert [step][1..] == [];
  }

  lemma RetainOne(l: Loops, p: Probe)
    requires forall id :: id in l.active ==> id == p.id
    ensures Retain(l, Ids([p])) == l
  {
    assert [p][0].id in Ids([p]);
    var gone := set id | id in l.active && id !in Ids([p]) :: l.active[id].handle;
    assert gone == {};
    assert (map id | id in l.active && id in Ids([p]) :: l.active[id]) == l.active;
    assert l.aborted + gone == l.aborted;
  }

  lemma FirstReconcile(cron: CronLibrary, n: nat, p: Probe, clock: int)
    ensures var s, step := Initial(n, map[p.id := p], map[], clock), Reconcile(Some([p]), {});
            Enabled(s, step) && Next(cron, s, step)
                == Single(p, Task(p, Starting, [], []), map[p.id := p], map[], clock, Permits(n))
  {
    var s := Initial(n, map[p.id := p], map[], clock);
    RetainOne(s.l, p);
    assert [p][..0] == [];
    assert RefreshAll(s.l, [p], {}) == Refresh(s.l, p, false);
  }

  /** The first run of the only loop, up to where its next run is still to be persisted. */
  lemma FirstRun(cron: CronLibrary, n: nat, p: Probe, clock: int) returns (steps: seq<Step>, s: System, t: Task)
    requires Lawful(cron)
    ensures Takes(cron, Initial(n, map[p.id := p], map[], clock), steps, s)
    ensures t.probe == p && t.phase == Advancing
    ensures var next := NextRunAfter(cron, p.schedule, clock);
            s == Single(p, t, map[p.id := p], map[p.id := next], next, Permits(n))
  {
    var s0 := Initial(n, map[p.id := p], map[], clock);
    var next, free := NextRunAfter(cron, p.schedule, clock), Permits(n);
    FirstReconcile(cron, n, p, clock);
    NextRunIsLater(cron, p.schedule, clock, clock);
    var s1 := Next(cron, s0, Reconcile(Some([p]), {}));
    OneStep(cron, s0, Reconcile(Some([p]), {}));
    var s3 := PlanAndWait(cron, p, clock, free);
    var s5 := WakeAndResolve(cron, p, next, free);
    s, t := StartAndFinish(cron, p, next, free);
    hide Takes, NextRunAfter, Lawful, Single, Initial;
    var first, second, third := [Plan(0, true, true)] + [Tick(next)], [Wake(0)] + [Resolve(0, true)],
      [Acquire(0)] + [Complete(0)];
    TakesMore(cron, s0, [Reconcile(Some([p]), {})], s1, first, s3);
    TakesMore(cron, s0, [Reconcile(Some([p]), {})] + first, s3, second, s5);
    TakesMore(cron, s0, [Reconcile(Some([p]), {})] + first + second, s5, third, s);
    steps := [Reconcile(Some([p]), {})] + first + second + third;
  }

  lemma PlanAndWait(cron: CronLibrary, p: Probe, clock: int, free: nat) returns (s: System)
    requires NextRunAfter(cron, p.schedule, clock) > clock
    ensures var next := NextRunAfter(cron, p.schedule, clock);
            && s == Single(p, Task(p, Sleeping(next), [], []), map[p.id := p], map[p.id := next], next, free)
            && Takes(cron, Single(p, Task(p, Starting, [], []), map[p.id := p], map[], clock, free),
                 [Plan(0, true, true)] + [Tick(next)], s)
  {
    hide NextRunAfter;
    var s0, next := Single(p, Task(p, Starting, [], []), map[p.id := p], map[], clock, free),
      NextRunAfter(cron, p.schedule, clock);
    var s1 := Next(cron, s0, Plan(0, true, true));
    s := Next(cron, s1, Tick(next));
    OneStep(cron, s1, Tick(next));
    TakesFirst(cron, s0, Plan(0, true, true), [Tick(next)], s);
  }

  lemma WakeAndResolve(cron: CronLibrary, p: Probe, now: int, free: nat) returns (s: System)
    ensures s == Single(p, Task(p, Acquiring, [now], []), map[p.id := p], map[p.id := now], now, free)
    ensures Takes(cron, Single(p, Task(p, Sleeping(now), [], []), map[p.id := p], map[p.id := now], now, free),
        [Wake(0)] + [Resolve(0, true)], s)
  {
    var s0 := Single(p, Task(p, Sleeping(now), [], []), map[p.id := p], map[p.id := now], now, free);
    var none: seq<int> := [];
    assert none + [now] == [now];
    var s1 := Next(cron, s0, Wake(0));
    s := Next(cron, s1, Resolve(0, true));
    OneStep(cron, s1, Resolve(0, true));
    TakesFirst(cron, s0, Wake(0), [Resolve(0, true)], s);
  }

  lemma StartAndFinish(cron: CronLibrary, p: Probe, now: int, free: nat) returns (s: System, t: Task)
    requires free > 0
    ensures t == Task(p, Advancing, [now], [now])
    ensures s == Single(p, t, map[p.id := p], map[p.id := now], now, free)
    ensures Takes(cron, Single(p, Task(p, Acquiring, [now], []), map[p.id := p], map[p.id := now], now, free),
        [Acquire(0)] + [Complete(0)], s)
  {
    var s0 := Single(p, Task(p, Acquiring, [now], []), map[p.id := p], map[p.id := now], now, free);
    var none: seq<int> := [];
    assert none + [now] == [now];
    var s1 := Next(cron, s0, Acquire(0));
    s := Next(cron, s1, Complete(0));
    t := s.l.tasks[0];
    OneStep(cron, s1, Complete(0));
    TakesFirst(cron, s0, Acquire(0), [Complete(0)], s);
  }

  /** The edit and the reconcile that serves it: a new loop, the old one told to stop, the pending run dropped. */
  lemma EditAndReconcile(cron: CronLibrary, p: Probe, q: Probe, t: Task, stored: Stored, now: int, free: nat)
    returns (s: System, s': System)
    requires q.id == p.id && q.updatedAt != p.updatedAt
    ensures s == Single(p, t, map[q.id := q], stored, now, free)
    ensures s' == System(
        Loops(map[p.id := ActiveProbe(q.updatedAt, 1)], map[0 := t, 1 := Task(q, Starting, [], [])], {0},
            stored - {p.id}, 2), map[q.id := q], now, free, true)
    ensures Takes(cron, Single(p, t, map[p.id := p], stored, now, free),
        [EditStore(map[q.id := q], {})] + [Reconcile(Some([q]), {q.id})], s')
    ensures Enabled(s, Reconcile(Some([q]), {q.id})) && SpawnedForEdit(cron, s, [q], {q.id}, 0, 1)
  {
    var s0 := Single(p, t, map[p.id := p], stored, now, free);
    assert stored - {} == stored;
    s := Next(cron, s0, EditStore(map[q.id := q], {}));
    RetainOne(s.l, q);
    assert [q][..0] == [];
    assert RefreshAll(s.l, [q], {q.id}) == Refresh(s.l, q, true);
    s' := Next(cron, s, Reconcile(Some([q]), {q.id}));
    OneStep(cron, s, Reconcile(Some([q]), {q.id}));
    TakesFirst(cron, s0, EditStore(map[q.id := q], {}), [Reconcile(Some([q]), {q.id})], s');
  }

  /** Where the old loop persists its next run after that, the new one waits for it. */
  lemma OldThenNew(cron: CronLibrary, s: System, t: Task, q: Probe) returns (s': System)
    requires s.l.tasks == map[0 := t, 1 := Task(q, Starting, [], [])] && t.phase == Advancing && t.probe.id == q.id
    ensures Takes(cron, s, [Advance(0, true)] + [Plan(1, true, true)], s')
    ensures s'.clock == s.clock && s'.l.active == s.l.active && 1 in s'.l.tasks
    ensures s'.l.tasks[1] == Task(q, Sleeping(NextRunAfter(cron, t.probe.schedule, s.clock)), [], [])
  {
    hide NextRunAfter;
    var s1 := Next(cron, s, Advance(0, true));
    s' := Next(cron, s1, Plan(1, true, true));
    OneStep(cron, s1, Plan(1, true, true));
    TakesFirst(cron, s, Advance(0, true), [Plan(1, true, true)], s');
  }

  /** For every probe and every edit of it there is a run from the daemon's start, with no failure of the store, in
      which the loop spawned for the edited probe waits for the next run of the schedule before the edit. */
  lemma EditOvertaken(cron: CronLibrary, n: nat, p: Probe, q: Probe, clock: int)
    returns (steps: seq<Step>, s: System)
    requires Lawful(cron) && q.id == p.id && q.updatedAt != p.updatedAt
    ensures Takes(cron, Initial(n, map[p.id := p], map[], clock), steps, s)
    ensures q.id in s.l.active && s.l.active[q.id].handle in s.l.tasks
    ensures s.l.tasks[s.l.active[q.id].handle]
        == Task(q, Sleeping(NextRunAfter(cron, p.schedule, s.clock)), [], [])
  {
    var before, s1, t := FirstRun(cron, n, p, clock);
    var next := NextRunAfter(cron, p.schedule, clock);
    var s2, s3 := EditAndReconcile(cron, p, q, t, map[p.id := next], next, Permits(n));
    s := OldThenNew(cron, s3, t, q);
    hide NextRunAfter, Takes, Initial, Lawful;
    var edit, last := [EditStore(map[q.id := q], {})] + [Reconcile(Some([q]), {q.id})],
      [Advance(0, true)] + [Plan(1, true, true)];
    TakesMore(cron, Initial(n, map[p.id := p], map[], clock), before, s1, edit, s3);
    TakesMore(cron, Initial(n, map[p.id := p], map[], clock), before + edit, s3, last, s);
    steps := before + edit + last;
  }
}
